/** Table rows as text: one line a row, header names beside the values, lines packed to the target. */
module TableRow {
  import opened Text
  import opened Tokens
  import opened Packing

  type Row = seq<string>

  predicate HasText(row: Row) { exists i :: 0 <= i < |row| && row[i] != "" }

  const CELL_SEPARATOR := "\U{FF5C}"
  const ROW_SEPARATOR := "\n"

  function NonEmpty(parts: seq<string>): seq<string> {
    if parts == [] then []
    else if parts[0] == "" then NonEmpty(parts[1..])
    else [parts[0]] + NonEmpty(parts[1..])
  }

  function Cell(header: Row, i: nat, value: string): string {
    if i < |header| && header[i] != "" then header[i] + ": " + value else value
  }

  function SerializeRow(header: Row, row: Row): string {
    Join(CELL_SEPARATOR, NonEmpty(seq(|row|, i requires 0 <= i < |row| => Cell(header, i, row[i]))))
  }

  /** The lines a table contributes: its body rows, serialised, without the empty ones. */
  function Lines(rows: seq<Row>): seq<string>
    requires rows != []
  {
    LinesOf(rows[0], rows[1..])
  }

  function LinesOf(header: Row, body: seq<Row>): seq<string> {
    if body == [] then []
    else
      var before, line := LinesOf(header, body[..|body| - 1]), SerializeRow(header, body[|body| - 1]);
      if line == "" then before else before + [line]
  }

  function JoinLines(group: seq<string>): string { Join(ROW_SEPARATOR, group) }

  function PackTable(rows: Option<seq<Row>>, target: nat): seq<string> {
    if rows.None? || rows.value == [] then []
    else if |rows.value| == 1 then [Join(CELL_SEPARATOR, NonEmpty(rows.value[0]))]
    else Map(JoinLines, Pack(EstimateTokens, target, Lines(rows.value)).Groups())
  }

  lemma {:induction false} NonEmptyMembers(parts: seq<string>)
    ensures forall i | 0 <= i < |NonEmpty(parts)| :: NonEmpty(parts)[i] != ""
    ensures NonEmpty(parts) == [] <==> forall i | 0 <= i < |parts| :: parts[i] == ""
  {
    if parts != [] {
      NonEmptyMembers(parts[1..]);
      assert forall i | 1 <= i < |parts| :: parts[i] == parts[1..][i - 1];
    }
  }

  lemma {:induction false} NonEmptySnoc(parts: seq<string>, p: string)
    ensures NonEmpty(parts + [p]) == if p == "" then NonEmpty(parts) else NonEmpty(parts) + [p]
  {
    if parts == [] {
      assert [p][1..] == [];
    } else {
      assert (parts + [p])[1..] == parts[1..] + [p];
      NonEmptySnoc(parts[1..], p);
    }
  }

  lemma {:induction false} PackSnoc<T>(w: T -> nat, cap: nat, items: seq<T>, x: T)
    ensures Pack(w, cap, items + [x]) == Put(w, cap, Pack(w, cap, items), x)
  {
    assert (items + [x])[..|items|] == items;
  }

  lemma {:induction false} LinesSnoc(header: Row, body: seq<Row>, k: nat)
    requires k < |body|
    ensures var line := SerializeRow(header, body[k]);
            LinesOf(header, body[..k + 1]) == if line == "" then LinesOf(header, body[..k])
                else LinesOf(header, body[..k]) + [line]
  {
    assert body[..k + 1][..k] == body[..k];
  }

  /** What the packing loop's variables hold when the packing has come to `p`. */
  datatype Carried = Carried(packed: seq<string>, buffer: seq<string>, bufferTokens: int)

  function CarriedAt(p: Packed<string>): Carried {
    Carried(Map(JoinLines, p.closed), p.buffer, Weight(EstimateTokens, p.buffer))
  }

  lemma {:induction false} PutLine(target: nat, p: Packed<string>, line: string)
    ensures var c, tokens := CarriedAt(p), EstimateTokens(line);
            CarriedAt(Put(EstimateTokens, target, p, line))
            == if c.buffer != [] && c.bufferTokens + tokens > target
               then Carried(c.packed + [Join(ROW_SEPARATOR, c.buffer)], [] + [line], tokens)
               else Carried(c.packed, c.buffer + [line], c.bufferTokens + tokens)
  {
    MapSnoc(JoinLines, p.closed, p.buffer);
    WeightAppend(EstimateTokens, p.buffer, line);
    WeightAppend(EstimateTokens, [], line);
    assert [] + [line] == [line];
  }

  function PackRows(header: Row, body: seq<Row>, target: nat): Packed<string> {
    Pack(EstimateTokens, target, LinesOf(header, body))
  }

  /** One turn of the packing loop. */
  lemma {:induction false} NextRow(header: Row, body: seq<Row>, k: nat, target: nat)
    requires k < |body|
    ensures var c, line := CarriedAt(PackRows(header, body[..k], target)), SerializeRow(header, body[k]);
            CarriedAt(PackRows(header, body[..k + 1], target))
            == if line == "" then c
               else if c.buffer != [] && c.bufferTokens + EstimateTokens(line) > target
               then Carried(c.packed + [Join(ROW_SEPARATOR, c.buffer)], [] + [line], EstimateTokens(line))
               else Carried(c.packed, c.buffer + [line], c.bufferTokens + EstimateTokens(line))
  {
    var lines, line := LinesOf(header, body[..k]), SerializeRow(header, body[k]);
    LinesSnoc(header, body, k);
    PackSnoc(EstimateTokens, target, lines, line);
    PutLine(target, Pack(EstimateTokens, target, lines), line);
  }

  lemma {:induction false} PackedGroups(p: Packed<string>)
    ensures var c := CarriedAt(p);
            Map(JoinLines, p.Groups()) == if c.buffer == [] then c.packed
                else c.packed + [Join(ROW_SEPARATOR, c.buffer)]
  {
    MapSnoc(JoinLines, p.closed, p.buffer);
  }

  method PackTableBlock(rows: Option<seq<Row>>, target: nat) returns (packed: seq<string>)
    ensures packed == PackTable(rows, target)
  {
    if rows.None? || rows.value == [] {
      return [];
    }
    var header, body := rows.value[0], rows.value[1..];
    if body == [] {
      return [Join(CELL_SEPARATOR, NonEmpty(header))];
    }
    packed := PackBody(header, body, target);
  }

  /** The packing loop, row by row. */
  method PackBody(header: Row, body: seq<Row>, target: nat) returns (packed: seq<string>)
    ensures packed == Map(JoinLines, PackRows(header, body, target).Groups())
  {
    packed := [];
    var buffer, bufferTokens := [], 0;
    for k := 0 to |body|
      invariant Carried(packed, buffer, bufferTokens) == CarriedAt(PackRows(header, body[..k], target))
    {
      NextRow(header, body, k, target);
      var line := SerializeRow(header, body[k]);
      if line == "" {
        continue;
      }
      var lineTokens := EstimateTokens(line);
      if buffer != [] && bufferTokens + lineTokens > target {
        packed := packed + [Join(ROW_SEPARATOR, buffer)];
        buffer, bufferTokens := [], 0;
      }
      buffer := buffer + [line];
      bufferTokens := bufferTokens + lineTokens;
    }
    assert body[..|body|] == body;
    PackedGroups(PackRows(header, body, target));
    if buffer != [] {
      packed := packed + [Join(ROW_SEPARATOR, buffer)];
    }
  }

  /** Joining the packs with newlines gives back every non-empty line, in order. */
  lemma {:induction false} PacksKeepLines(rows: seq<Row>, target: nat)
    requires |rows| > 1
    ensures Join(ROW_SEPARATOR, PackTable(Some(rows), target)) == Join(ROW_SEPARATOR, Lines(rows))
  {
    var groups := Pack(EstimateTokens, target, Lines(rows)).Groups();
    PackIsGrouping(EstimateTokens, target, Lines(rows));
    JoinOfJoins(ROW_SEPARATOR, groups);
    assert Map(JoinLines, groups) == Map((g: seq<string>) => Join(ROW_SEPARATOR, g), groups);
  }

  /** No way of grouping the lines in order within the target gives fewer packs. */
  lemma {:induction false} TablePackingIsOptimal(rows: seq<Row>, target: nat, groups: seq<seq<string>>)
    requires |rows| > 1 && Grouping(EstimateTokens, target, groups, Lines(rows))
    ensures |PackTable(Some(rows), target)| <= |groups|
  {
    GreedyIsOptimal(EstimateTokens, target, Lines(rows), groups);
  }

  predicate Increasing(at: seq<nat>) { forall j, k | 0 <= j < k < |at| :: at[j] < at[k] }

  /** The non-empty parts, by their places. */
  lemma {:induction false} NonEmptyPlaces(parts: seq<string>) returns (at: seq<nat>)
    ensures Increasing(at) && |at| == |NonEmpty(parts)|
    ensures forall k | 0 <= k < |at| :: at[k] < |parts| && parts[at[k]] != "" && NonEmpty(parts)[k] == parts[at[k]]
    ensures forall i | 0 <= i < |parts| && parts[i] != "" :: i in at
  {
    at := [];
    if parts != [] {
      var n := |parts| - 1;
      at := NonEmptyPlaces(parts[..n]);
      NonEmptySnoc(parts[..n], parts[n]);
      assert parts == parts[..n] + [parts[n]];
      if parts[n] != "" { at := at + [n]; }
    }
  }

  /** A column that shows in the row's line: it has a value, or a name in the header. */
  predicate Shows(header: Row, row: Row, i: nat) {
    i < |row| && (row[i] != "" || (i < |header| && header[i] != ""))
  }

  /** The line of a row: the columns that show, in order, each with its own name, if it has one, before its value. */
  lemma {:induction false} LineOfColumns(header: Row, row: Row) returns (columns: seq<nat>, cells: seq<string>)
    ensures Increasing(columns) && (forall i: nat :: i in columns <==> Shows(header, row, i))
    ensures |cells| == |columns| && SerializeRow(header, row) == Join("\U{FF5C}", cells)
    ensures forall k | 0 <= k < |columns| ::
      var i := columns[k];
      i < |row| && cells[k] == if i < |header| && header[i] != "" then header[i] + ": " + row[i] else row[i]
  {
    var all := seq(|row|, i requires 0 <= i < |row| => Cell(header, i, row[i]));
    columns := NonEmptyPlaces(all);
    cells := NonEmpty(all);
    assert forall i: nat | i < |row| :: all[i] != "" <==> Shows(header, row, i);
  }

  /** A table of a header alone gives the line that the header would give as a row of its own. */
  lemma {:induction false} HeaderAlone(header: Row, target: nat)
    ensures PackTable(Some([header]), target) == [SerializeRow([], header)]
  {
    assert seq(|header|, i requires 0 <= i < |header| => Cell([], i, header[i])) == header;
  }

  lemma {:induction false} JoinNonEmpty(sep: string, parts: seq<string>)
    requires parts != [] && parts[0] != ""
    ensures Join(sep, parts) != ""
  {
  }

  /** A row with some text always gives a line, so no such row is dropped. */
  lemma {:induction false} RowWithTextGivesLine(header: Row, row: Row)
    requires HasText(row)
    ensures SerializeRow(header, row) != ""
  {
    var cells := seq(|row|, i requires 0 <= i < |row| => Cell(header, i, row[i]));
    var i :| 0 <= i < |row| && row[i] != "";
    assert cells[i] == Cell(header, i, row[i]) != "";
    NonEmptyMembers(cells);
    JoinNonEmpty(CELL_SEPARATOR, NonEmpty(cells));
  }

  lemma {:induction false} RowsWithTextGiveLines(header: Row, body: seq<Row>)
    requires forall r | 0 <= r < |body| :: HasText(body[r])
    ensures |LinesOf(header, body)| == |body|
    ensures forall i | 0 <= i < |LinesOf(header, body)| :: LinesOf(header, body)[i] != ""
  {
    if body != [] {
      RowsWithTextGiveLines(header, body[..|body| - 1]);
      RowWithTextGivesLine(header, body[|body| - 1]);
    }
  }

  /** A table whose rows all hold some text packs to at least one text, none of them empty. */
  lemma {:induction false} PacksAreNotEmpty(rows: seq<Row>, target: nat)
    requires rows != []
    requires forall r | 0 <= r < |rows| :: HasText(rows[r])
    ensures PackTable(Some(rows), target) != []
    ensures forall k | 0 <= k < |PackTable(Some(rows), target)| :: PackTable(Some(rows), target)[k] != ""
  {
    if |rows| == 1 {
      NonEmptyMembers(rows[0]);
      JoinNonEmpty(CELL_SEPARATOR, NonEmpty(rows[0]));
    } else {
      var lines := Lines(rows);
      RowsWithTextGiveLines(rows[0], rows[1..]);
      var p := Pack(EstimateTokens, target, lines);
      PackKeeps(EstimateTokens, target, lines);
      PackIsGrouping(EstimateTokens, target, lines);
      forall k | 0 <= k < |p.Groups()| ensures JoinLines(p.Groups()[k]) != "" {
        GroupMembers(p.Groups(), k);
        JoinNonEmpty(ROW_SEPARATOR, p.Groups()[k]);
      }
    }
  }

  /** A non-empty group starts with one of the grouped items. */
  lemma {:induction false} GroupMembers<T>(groups: seq<seq<T>>, k: nat)
    requires k < |groups| && groups[k] != []
    ensures exists i :: 0 <= i < |Flatten(groups)| && Flatten(groups)[i] == groups[k][0]
  {
    if k == 0 {
      assert Flatten(groups)[0] == groups[0][0];
    } else {
      GroupMembers(groups[1..], k - 1);
      var i :| 0 <= i < |Flatten(groups[1..])| && Flatten(groups[1..])[i] == groups[k][0];
      assert Flatten(groups)[|groups[0]| + i] == groups[k][0];
    }
  }
}
