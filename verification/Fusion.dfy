/** The fusion query, read as SQL: two ranked legs, their full outer join, the order by score and the limit. */
module Fusion {
  import opened Text
  import opened Retrieval

  type Rank = n: nat | n >= 1 witness 1

  /** A row of a leg's common table expression: a chunk and its row number. */
  datatype RankRow = RankRow(id: Id, r: Rank)

  /** A row of `vec v full outer join fts f using (id)`. */
  datatype JoinRow = JoinRow(v: Option<RankRow>, f: Option<RankRow>)

  /** A row of the outermost select. */
  datatype FusedRow = FusedRow(id: Id, score: real)

  /** `row_number()` over the ordered leg. */
  function RowNumbers(leg: Leg, from: nat): seq<RankRow>
    requires from <= |leg|
    decreases |leg| - from
  {
    if from == |leg| then [] else [RankRow(leg[from], from + 1)] + RowNumbers(leg, from + 1)
  }

  // --- the join --------------------------------------------------------------

  /** A left row with every right row of its id. */
  function Matches(v: RankRow, fs: seq<RankRow>): seq<JoinRow> {
    if fs == [] then []
    else (if fs[0].id == v.id then [JoinRow(Some(v), Some(fs[0]))] else []) + Matches(v, fs[1..])
  }

  /** Every left row with its matches, or with nulls if it has none. */
  function LeftJoin(vs: seq<RankRow>, fs: seq<RankRow>): seq<JoinRow> {
    if vs == [] then []
    else
      var some := Matches(vs[0], fs);
      (if some == [] then [JoinRow(Some(vs[0]), None)] else some) + LeftJoin(vs[1..], fs)
  }

  predicate HasId(rows: seq<RankRow>, id: Id) { exists i :: 0 <= i < |rows| && rows[i].id == id }

  /** The right rows without a left row, with nulls. */
  function RightOnly(vs: seq<RankRow>, fs: seq<RankRow>): seq<JoinRow> {
    if fs == [] then []
    else (if HasId(vs, fs[0].id) then [] else [JoinRow(None, Some(fs[0]))]) + RightOnly(vs, fs[1..])
  }

  function FullOuterJoin(vs: seq<RankRow>, fs: seq<RankRow>): seq<JoinRow> { LeftJoin(vs, fs) + RightOnly(vs, fs) }

  function Coalesced(k: nat, row: Option<RankRow>): real {
    match row case None => 0.0 case Some(ranked) => Reciprocal(k, ranked.r)
  }

  /** `coalesce(v.id, f.id)` and the sum of the coalesced reciprocals. A join row has at least one side. */
  function Fuse(k: nat, row: JoinRow): FusedRow {
    FusedRow(if row.v.Some? then row.v.value.id
        else row.f.GetOr(RankRow(0, 1)).id, Coalesced(k, row.v) + Coalesced(k, row.f))
  }

  function FuseAll(k: nat, rows: seq<JoinRow>): seq<FusedRow> {
    if rows == [] then [] else [Fuse(k, rows[0])] + FuseAll(k, rows[1..])
  }

  function FusedRows(k: nat, vec: Leg, fts: Leg): seq<FusedRow> {
    FuseAll(k, FullOuterJoin(RowNumbers(vec, 0), RowNumbers(fts, 0)))
  }

  lemma {:induction false} FuseAppend(k: nat, a: seq<JoinRow>, b: seq<JoinRow>)
    ensures FuseAll(k, a + b) == FuseAll(k, a) + FuseAll(k, b)
  {
    if a == [] {
      assert a + b == b;
    } else {
      assert (a + b)[1..] == a[1..] + b;
      FuseAppend(k, a[1..], b);
      Regroup([Fuse(k, a[0])], FuseAll(k, a[1..]), FuseAll(k, b));
    }
  }

  // --- what the join gives ---------------------------------------------------

  /** Each id with its score. */
  function Scored(k: nat, vec: Leg, fts: Leg, ids: seq<Id>): seq<FusedRow> {
    if ids == [] then [] else [FusedRow(ids[0], Score(k, vec, fts, ids[0]))] + Scored(k, vec, fts, ids[1..])
  }

  /** The full-text hits that the vector leg does not have. */
  function Others(vec: Leg, fts: Leg): seq<Id> {
    if fts == [] then [] else (if fts[0] in vec then [] else [fts[0]]) + Others(vec, fts[1..])
  }

  /** In a leg of distinct ids there is at most one match: the row of the id's rank. */
  lemma {:induction false} MatchIsRank(v: RankRow, fts: Leg, from: nat)
    requires from <= |fts| && Distinct(fts)
    ensures Matches(v, RowNumbers(fts, from))
         == match RankIn(fts, v.id, from)
            case None => []
            case Some(r) => if r >= 1 then [JoinRow(Some(v), Some(RankRow(v.id, r)))] else []
    decreases |fts| - from
  {
    RankIsPosition(fts, v.id, from);
    if from < |fts| {
      MatchIsRank(v, fts, from + 1);
      RankIsPosition(fts, v.id, from + 1);
    }
  }

  lemma {:induction false} LeftIsScored(k: nat, vec: Leg, fts: Leg, from: nat)
    requires from <= |vec| && Distinct(vec) && Distinct(fts)
    ensures FuseAll(k, LeftJoin(RowNumbers(vec, from), RowNumbers(fts, 0))) == Scored(k, vec, fts, vec[from..])
    decreases |vec| - from
  {
    if from < |vec| {
      var v, fs := RankRow(vec[from], from + 1), RowNumbers(fts, 0);
      LeftIsScored(k, vec, fts, from + 1);
      OneLeftRow(k, vec, fts, from);
      var some := Matches(v, fs);
      FuseAppend(k, if some == [] then [JoinRow(Some(v), None)] else some, LeftJoin(RowNumbers(vec, from + 1), fs));
      assert RowNumbers(vec, from)[1..] == RowNumbers(vec, from + 1);
      assert vec[from..][1..] == vec[from + 1..];
    }
  }

  lemma {:induction false} OneLeftRow(k: nat, vec: Leg, fts: Leg, i: nat)
    requires i < |vec| && Distinct(vec) && Distinct(fts)
    ensures var v := RankRow(vec[i], i + 1);
            var some := Matches(v, RowNumbers(fts, 0));
            FuseAll(k, if some == [] then [JoinRow(Some(v), None)] else some)
                == [FusedRow(vec[i], Score(k, vec, fts, vec[i]))]
  {
    var v := RankRow(vec[i], i + 1);
    MatchIsRank(v, fts, 0);
    RankIsPosition(fts, vec[i], 0);
    RankIsPosition(vec, vec[i], 0);
    assert RankIn(vec, vec[i], 0) == Some(i + 1);
    FuseOne(k, JoinRow(Some(v), None));
    if RankIn(fts, vec[i],
        0).Some? { FuseOne(k, JoinRow(Some(v), Some(RankRow(vec[i], RankIn(fts, vec[i], 0).value)))); }
  }

  lemma {:induction false} FuseOne(k: nat, row: JoinRow)
    ensures FuseAll(k, [row]) == [Fuse(k, row)]
  {
    assert [row][1..] == [];
  }

  lemma {:induction false} RowNumbersHaveIds(leg: Leg, from: nat, id: Id)
    requires from <= |leg|
    ensures HasId(RowNumbers(leg, from), id) <==> id in leg[from..]
    decreases |leg| - from
  {
    if from < |leg| {
      var rows, rest := RowNumbers(leg, from), RowNumbers(leg, from + 1);
      RowNumbersHaveIds(leg, from + 1, id);
      assert leg[from..] == [leg[from]] + leg[from + 1..];
      assert rows == [rows[0]] + rest && rows[0].id == leg[from];
      if HasId(rest, id) {
        var i :| 0 <= i < |rest| && rest[i].id == id;
        assert rows[i + 1].id == id;
      }
      if HasId(rows, id) {
        var i :| 0 <= i < |rows| && rows[i].id == id;
        assert i > 0 ==> rest[i - 1] == rows[i];
      }
    }
  }

  lemma {:induction false} OneRightRow(k: nat, vec: Leg, fts: Leg, i: nat)
    requires i < |fts| && Distinct(vec) && Distinct(fts)
    ensures var f := RankRow(fts[i], i + 1);
            FuseAll(k, if HasId(RowNumbers(vec, 0), f.id) then [] else [JoinRow(None, Some(f))])
            == Scored(k, vec, fts, if f.id in vec then [] else [f.id])
  {
    var f := RankRow(fts[i], i + 1);
    RowNumbersHaveIds(vec, 0, f.id);
    assert vec[0..] == vec;
    RankIsPosition(vec, f.id, 0);
    RankIsPosition(fts, f.id, 0);
    assert RankIn(fts, f.id, 0) == Some(i + 1);
    FuseOne(k, JoinRow(None, Some(f)));
    assert [f.id][1..] == [];
  }

  lemma {:induction false} RightIsScored(k: nat, vec: Leg, fts: Leg, from: nat)
    requires from <= |fts| && Distinct(vec) && Distinct(fts)
    ensures FuseAll(k, RightOnly(RowNumbers(vec, 0), RowNumbers(fts, from)))
        == Scored(k, vec, fts, Others(vec, fts[from..]))
    decreases |fts| - from
  {
    if from < |fts| {
      var f, vs := RankRow(fts[from], from + 1), RowNumbers(vec, 0);
      RightIsScored(k, vec, fts, from + 1);
      OneRightRow(k, vec, fts, from);
      assert RowNumbers(fts, from)[1..] == RowNumbers(fts, from + 1) && fts[from..][1..] == fts[from + 1..];
      FuseAppend(k, if HasId(vs, f.id) then [] else [JoinRow(None, Some(f))], RightOnly(vs, RowNumbers(fts, from + 1)));
      ScoredAppend(k, vec, fts, if f.id in vec then [] else [f.id], Others(vec, fts[from + 1..]));
    }
  }

  lemma {:induction false} ScoredAppend(k: nat, vec: Leg, fts: Leg, a: seq<Id>, b: seq<Id>)
    ensures Scored(k, vec, fts, a + b) == Scored(k, vec, fts, a) + Scored(k, vec, fts, b)
  {
    if a == [] {
      assert a + b == b;
    } else {
      assert (a + b)[1..] == a[1..] + b;
      ScoredAppend(k, vec, fts, a[1..], b);
    }
  }

  /** The join has one row for every hit of either leg, with the sum of its reciprocal ranks as score. */
  lemma {:induction false} JoinIsFusion(k: nat, vec: Leg, fts: Leg)
    requires Distinct(vec) && Distinct(fts)
    ensures FusedRows(k, vec, fts) == Scored(k, vec, fts, vec + Others(vec, fts))
  {
    var vs, fs := RowNumbers(vec, 0), RowNumbers(fts, 0);
    FuseAppend(k, LeftJoin(vs, fs), RightOnly(vs, fs));
    LeftIsScored(k, vec, fts, 0);
    RightIsScored(k, vec, fts, 0);
    assert vec[0..] == vec && fts[0..] == fts;
    ScoredAppend(k, vec, fts, vec, Others(vec, fts));
  }

  /** The query without the full-text leg. */
  function VecOnlyRows(k: nat, vs: seq<RankRow>): seq<FusedRow> {
    if vs == [] then [] else [FusedRow(vs[0].id, Reciprocal(k, vs[0].r))] + VecOnlyRows(k, vs[1..])
  }

  /** It gives what the join with an empty leg would. */
  lemma {:induction false} VecOnlyIsFusion(k: nat, vec: Leg, from: nat)
    requires from <= |vec| && Distinct(vec)
    ensures VecOnlyRows(k, RowNumbers(vec, from)) == Scored(k, vec, [], vec[from..])
    decreases |vec| - from
  {
    if from < |vec| {
      VecOnlyIsFusion(k, vec, from + 1);
      RankIsPosition(vec, vec[from], 0);
      assert RankIn(vec, vec[from], 0) == Some(from + 1);
      assert RowNumbers(vec, from)[1..] == RowNumbers(vec, from + 1) && vec[from..][1..] == vec[from + 1..];
    }
  }

  // --- order by score desc limit topN ----------------------------------------

  predicate Descending(rows: seq<FusedRow>) { forall i, j | 0 <= i < j < |rows| :: rows[i].score >= rows[j].score }

  /** `result` starts some ordering of the rows by descending score: ties may come in any order. */
  ghost predicate Selects(rows: seq<FusedRow>, topN: nat, result: seq<FusedRow>) {
    exists all: seq<FusedRow> :: Sorting(rows, all) && result == all[..Least(topN, |all|)]
  }

  ghost predicate Sorting(rows: seq<FusedRow>, all: seq<FusedRow>) { multiset(all) == multiset(rows)
      && Descending(all) }

  lemma {:induction false} RestDescends(all: seq<FusedRow>)
    requires Descending(all) && all != []
    ensures Descending(all[1..]) && forall i | 0 <= i < |all[1..]| :: all[1..][i].score <= all[0].score
  {
    var rest := all[1..];
    assert forall i | 0 <= i < |rest| :: rest[i] == all[i + 1];
  }

  lemma {:induction false} InsertInOrder(all: seq<FusedRow>, row: FusedRow) returns (more: seq<FusedRow>)
    requires Descending(all)
    ensures Descending(more) && multiset(more) == multiset(all) + multiset{row}
  {
    if all == [] || row.score >= all[0].score {
      more := [row] + all;
    } else {
      assert all == [all[0]] + all[1..];
      RestDescends(all);
      var rest := InsertInOrder(all[1..], row);
      more := [all[0]] + rest;
      NoneAbove(all[1..] + [row], rest, all[0].score);
    }
  }

  lemma {:induction false} NoneAbove(rows: seq<FusedRow>, reordered: seq<FusedRow>, bound: real)
    requires multiset(reordered) == multiset(rows)
    requires forall i | 0 <= i < |rows| :: rows[i].score <= bound
    ensures forall i | 0 <= i < |reordered| :: reordered[i].score <= bound
  {
    forall i | 0 <= i < |reordered| ensures reordered[i].score <= bound {
      assert reordered[i] in multiset(reordered) && reordered[i] in multiset(rows);
    }
  }

  lemma {:induction false} CanSort(rows: seq<FusedRow>) returns (all: seq<FusedRow>)
    ensures Sorting(rows, all)
  {
    if rows == [] {
      all := [];
    } else {
      assert rows == [rows[0]] + rows[1..];
      var rest := CanSort(rows[1..]);
      all := InsertInOrder(rest, rows[0]);
    }
  }

  /** The query always has a result. */
  lemma {:induction false} SelectionExists(rows: seq<FusedRow>, topN: nat) returns (result: seq<FusedRow>)
    ensures Selects(rows, topN, result) && |result| == Least(topN, |rows|)
  {
    var all := CanSort(rows);
    assert |all| == |multiset(all)| == |multiset(rows)| == |rows|;
    result := all[..Least(topN, |all|)];
  }

  function Least(a: nat, b: nat): nat { if a < b then a else b }

  function Ids(rows: seq<FusedRow>): seq<Id> { Map((row: FusedRow) => row.id, rows) }

  lemma {:induction false} ScoredIds(k: nat, vec: Leg, fts: Leg, ids: seq<Id>)
    ensures |Scored(k, vec, fts, ids)| == |ids|
    ensures forall i | 0 <= i < |ids| :: Scored(k, vec, fts, ids)[i] == FusedRow(ids[i], Score(k, vec, fts, ids[i]))
  {
    if ids != [] { ScoredIds(k, vec, fts, ids[1..]); }
  }

  lemma {:induction false} OthersAreRest(vec: Leg, fts: Leg)
    requires Distinct(fts)
    ensures Distinct(Others(vec, fts)) && forall id :: id in Others(vec, fts) <==> id in fts && id !in vec
  {
    if fts != [] {
      var rest := fts[1..];
      OthersAreRest(vec, rest);
      assert fts == [fts[0]] + rest;
      forall j | 0 <= j < |rest| ensures rest[j] != fts[0] { assert rest[j] == fts[j + 1]; }
    }
  }

  lemma {:induction false} DistinctUnion(vec: Leg, fts: Leg)
    requires Distinct(vec) && Distinct(fts)
    ensures Distinct(vec + Others(vec, fts)) && forall id :: id in vec + Others(vec, fts) <==> id in vec || id in fts
  {
    OthersAreRest(vec, fts);
    var ids := vec + Others(vec, fts);
    forall i, j | 0 <= i < j < |ids| ensures ids[i] != ids[j] {
      if i < |vec| <= j { assert ids[j] == Others(vec, fts)[j - |vec|] && ids[j] in Others(vec, fts) && ids[i] in vec; }
    }
  }

  lemma {:induction false} RepeatCounts<T>(s: seq<T>, i: nat, j: nat)
    requires i < j < |s| && s[i] == s[j]
    ensures multiset(s)[s[i]] >= 2
  {
    assert s == s[..j] + s[j..];
    assert s[..j][i] == s[i] && s[j..][0] == s[i];
    assert s[i] in multiset(s[..j]) && s[i] in multiset(s[j..]);
  }

  lemma {:induction false} DistinctCounts<T>(s: seq<T>, x: T)
    requires Distinct(s)
    ensures multiset(s)[x] <= 1
  {
    if s != [] {
      assert s == [s[0]] + s[1..];
      DistinctCounts(s[1..], x);
      forall j | 0 <= j < |s[1..]| ensures s[1..][j] != s[0] { assert s[1..][j] == s[j + 1]; }
      assert s[0] !in multiset(s[1..]);
    }
  }

  lemma {:induction false} ReorderedIsDistinct<T>(s: seq<T>, all: seq<T>)
    requires Distinct(s) && multiset(all) == multiset(s)
    ensures Distinct(all)
  {
    forall i, j | 0 <= i < j < |all| ensures all[i] != all[j] {
      if all[i] == all[j] {
        RepeatCounts(all, i, j);
        DistinctCounts(s, all[i]);
        assert false;
      }
    }
  }

  /** All hits, each once, with their scores and in descending order. */
  ghost predicate AllHits(k: nat, vec: Leg, fts: Leg, all: seq<FusedRow>) {
    && Descending(all)
    && (forall i | 0 <= i < |all| :: IsHit(k, vec, fts, all[i]))
    && (forall i, j | 0 <= i < j < |all| :: all[i].id != all[j].id)
    && (forall id | id in vec || id in fts :: Listed(all, id))
  }

  predicate IsHit(k: nat, vec: Leg, fts: Leg, row: FusedRow) {
    row.score == Score(k, vec, fts, row.id) && (row.id in vec || row.id in fts)
  }

  predicate Listed(all: seq<FusedRow>, id: Id) { exists i :: 0 <= i < |all| && all[i].id == id }

  /** Every ordering of the query lists all hits. */
  lemma {:induction false} SortedHits(k: nat, vec: Leg, fts: Leg, all: seq<FusedRow>)
    requires Distinct(vec) && Distinct(fts) && Sorting(FusedRows(k, vec, fts), all)
    ensures AllHits(k, vec, fts, all)
  {
    var ids, rows := vec + Others(vec, fts), FusedRows(k, vec, fts);
    JoinIsFusion(k, vec, fts);
    DistinctUnion(vec, fts);
    ScoredIds(k, vec, fts, ids);
    assert forall i, j | 0 <= i < j < |rows| :: rows[i].id != rows[j].id;
    ReorderedIsDistinct(rows, all);
    forall i | 0 <= i < |all| ensures IsHit(k, vec, fts, all[i]) {
      assert all[i] in multiset(all) && all[i] in multiset(rows);
      var p :| 0 <= p < |rows| && rows[p] == all[i];
      assert ids[p] in ids;
    }
    forall id | id in vec || id in fts ensures Listed(all, id) {
      assert id in ids;
      var p :| 0 <= p < |ids| && ids[p] == id;
      assert rows[p] in multiset(rows) && rows[p] in multiset(all);
      var i :| 0 <= i < |all| && all[i] == rows[p];
    }
  }

  lemma {:induction false} PrefixIsRanked(k: nat, vec: Leg, fts: Leg, all: seq<FusedRow>, n: nat)
    requires AllHits(k, vec, fts, all) && n <= |all|
    ensures var ids := Ids(all[..n]);
            && Distinct(ids) && |ids| == n && ScoresDescend(k, vec, fts, ids)
            && forall i | 0 <= i < n :: ids[i] in vec || ids[i] in fts
  {
    var ids := Ids(all[..n]);
    forall i | 0 <= i < n ensures ids[i] == all[i].id && IsHit(k, vec, fts, all[i]) {
    }
  }

  lemma {:induction false} NoBetterLeftOut(k: nat, vec: Leg, fts: Leg, all: seq<FusedRow>, n: nat, i: nat, id: Id)
    requires AllHits(k, vec, fts, all) && i < n <= |all|
    requires (id in vec || id in fts) && id !in Ids(all[..n])
    ensures Score(k, vec, fts, Ids(all[..n])[i]) >= Score(k, vec, fts, id)
  {
    var ids := Ids(all[..n]);
    assert Listed(all, id);
    var j :| 0 <= j < |all| && all[j].id == id;
    forall m | 0 <= m < n ensures all[m].id != id { assert ids[m] == all[m].id && ids[m] in ids; }
    assert IsHit(k, vec, fts, all[i]) && IsHit(k, vec, fts, all[j]);
  }

  lemma {:induction false} AllAreListed(k: nat, vec: Leg, fts: Leg, all: seq<FusedRow>, id: Id)
    requires AllHits(k, vec, fts, all) && (id in vec || id in fts)
    ensures id in Ids(all)
  {
    assert Listed(all, id);
    var j :| 0 <= j < |all| && all[j].id == id;
    assert Ids(all)[j] == id;
  }

  /** What the query returns is a ranking of the best hits, with their scores. */
  lemma {:induction false} SelectionIsRanked(k: nat, vec: Leg, fts: Leg, topN: nat, result: seq<FusedRow>)
    requires Distinct(vec) && Distinct(fts) && Selects(FusedRows(k, vec, fts), topN, result)
    ensures Ranked(k, vec, fts, topN, Ids(result))
    ensures forall i | 0 <= i < |result| :: result[i].score == Score(k, vec, fts, result[i].id)
  {
    var all: seq<FusedRow> :| Sorting(FusedRows(k, vec, fts), all) && result == all[..Least(topN, |all|)];
    SortedHits(k, vec, fts, all);
    FirstAreRanked(k, vec, fts, topN, all);
    forall i | 0 <= i < |result| ensures result[i].score == Score(k, vec, fts, result[i].id) {
      assert IsHit(k, vec, fts, all[i]);
    }
  }

  lemma {:induction false} FirstAreRanked(k: nat, vec: Leg, fts: Leg, topN: nat, all: seq<FusedRow>)
    requires AllHits(k, vec, fts, all)
    ensures Ranked(k, vec, fts, topN, Ids(all[..Least(topN, |all|)]))
  {
    var n := Least(topN, |all|);
    var ids := Ids(all[..n]);
    PrefixIsRanked(k, vec, fts, all, n);
    forall id, i | (id in vec || id in fts) && id !in ids && 0 <= i < |ids|
      ensures Score(k, vec, fts, ids[i]) >= Score(k, vec, fts, id)
    {
      NoBetterLeftOut(k, vec, fts, all, n, i, id);
    }
    if n < topN {
      assert all[..n] == all;
      forall id | id in vec || id in fts ensures id in ids { AllAreListed(k, vec, fts, all, id); }
    }
  }

  /**
   * What a search returns is free of duplicates, ordered by score, at most `topN` long and ranked 1, 2,
   * 3, ..., with the scores of the query. With `topK <= k + 1` no hit of one leg stands before a hit of both.
   */
  lemma {:induction false} SearchResultIsRanked(k: nat, topK: nat, vec: Leg, fts: Leg, topN: nat,
      result: seq<FusedRow>, loaded: set<Id>)
    requires ValidLeg(vec, topK) && ValidLeg(fts, topK) && Selects(FusedRows(k, vec, fts), topN, result)
    ensures var hits := Assemble(k, vec, fts, Ids(result), loaded);
            && |hits| <= topN && Distinct(HitIds(hits)) && ScoresDescend(k, vec, fts, HitIds(hits))
            && (forall i | 0 <= i < |hits| ::
                  hits[i].rank == i + 1 && hits[i].id in loaded && FusedRow(hits[i].id, hits[i].score) in result)
            && (topK <= k + 1 ==>
                  forall i, j | 0 <= i < j < |hits| && InBoth(vec, fts, hits[j].id) :: InBoth(vec, fts, hits[i].id))
  {
    SelectionIsRanked(k, vec, fts, topN, result);
    AssembledIsRanked(k, topK, vec, fts, topN, Ids(result), loaded);
    var hits := Assemble(k, vec, fts, Ids(result), loaded);
    AssembledInOrder(k, vec, fts, Ids(result), loaded);
    forall i | 0 <= i < |hits| ensures FusedRow(hits[i].id, hits[i].score) in result {
      assert HitIds(hits)[i] in Ids(result);
      var j :| 0 <= j < |result| && Ids(result)[j] == hits[i].id;
      assert result[j] == FusedRow(hits[i].id, hits[i].score);
    }
  }
}
