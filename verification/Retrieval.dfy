/** Reciprocal-rank fusion of the vector leg and the full-text leg, and the query for the latter. */
module Retrieval {
  import opened Text

  type Id = nat

  /** A leg's ranking, best first; a position is a rank counted from 1. */
  type Leg = seq<Id>

  predicate Distinct<T(==)>(s: seq<T>) { forall i, j | 0 <= i < j < |s| :: s[i] != s[j] }

  predicate ValidLeg(leg: Leg, topK: nat) { Distinct(leg) && |leg| <= topK }

  /** One over `k` plus the rank. */
  function Reciprocal(k: nat, rank: nat): real
    requires rank >= 1
  {
    1.0 / (k + rank) as real
  }

  function RankIn(leg: Leg, id: Id, from: nat): Option<nat>
    requires from <= |leg|
    decreases |leg| - from
  {
    if from == |leg| then None else if leg[from] == id then Some(from + 1) else RankIn(leg, id, from + 1)
  }

  lemma {:induction false} RankIsPosition(leg: Leg, id: Id, from: nat)
    requires from <= |leg| && Distinct(leg)
    ensures var r := RankIn(leg, id, from);
            && (r.Some? ==> from < r.value <= |leg| && leg[r.value - 1] == id)
            && (r.None? ==> id !in leg[from..])
            && forall i | from <= i < |leg| && leg[i] == id :: r == Some(i + 1)
    decreases |leg| - from
  {
    if from < |leg| && leg[from] != id {
      RankIsPosition(leg, id, from + 1);
      assert leg[from..] == [leg[from]] + leg[from + 1..];
    }
  }

  function Term(k: nat, leg: Leg, id: Id): real {
    match RankIn(leg, id, 0)
    case None => 0.0
    case Some(rank) => if rank >= 1 then Reciprocal(k, rank) else 0.0
  }

  /** The full outer join's score: a missing leg counts nothing. */
  function Score(k: nat, vec: Leg, fts: Leg, id: Id): real { Term(k, vec, id) + Term(k, fts, id) }

  lemma {:induction false} ReciprocalDecreases(k: nat, a: nat, b: nat)
    requires 1 <= a < b
    ensures Reciprocal(k, a) > Reciprocal(k, b) > 0.0
  {
    var x, y := (k + a) as real, (k + b) as real;
    assert 1.0 / x - 1.0 / y == (y - x) / (x * y);
    assert x * y > 0.0;
  }

  /** The first of two hits has a better rank in a leg, or a rank where the other has none. */
  predicate Better(leg: Leg, a: Id, b: Id) {
    var x, y := RankIn(leg, a, 0), RankIn(leg, b, 0);
    x.Some? && (y.None? || x.value < y.value)
  }

  predicate NotWorse(leg: Leg, a: Id, b: Id) { Better(leg, a, b) || RankIn(leg, a, 0) == RankIn(leg, b, 0) }

  lemma {:induction false} BetterTerm(k: nat, leg: Leg, a: Id, b: Id)
    requires Distinct(leg)
    ensures Better(leg, a, b) ==> Term(k, leg, a) > Term(k, leg, b)
    ensures NotWorse(leg, a, b) ==> Term(k, leg, a) >= Term(k, leg, b)
  {
    RankIsPosition(leg, a, 0);
    RankIsPosition(leg, b, 0);
    var x, y := RankIn(leg, a, 0), RankIn(leg, b, 0);
    if x.Some? && y.Some? && x.value < y.value { ReciprocalDecreases(k, x.value, y.value); }
    if x.Some? { ReciprocalDecreases(k, x.value, x.value + 1); }
  }

  /** A hit that is ranked no worse in either leg than another, and better in one of them, scores strictly more. */
  lemma {:induction false} ScoreIsStrictlyMonotone(k: nat, vec: Leg, fts: Leg, a: Id, b: Id)
    requires Distinct(vec) && Distinct(fts) && NotWorse(vec, a, b) && NotWorse(fts, a, b)
    requires Better(vec, a, b) || Better(fts, a, b)
    ensures Score(k, vec, fts, a) > Score(k, vec, fts, b)
  {
    BetterTerm(k, vec, a, b);
    BetterTerm(k, fts, a, b);
  }

  predicate InBoth(vec: Leg, fts: Leg, id: Id) { id in vec && id in fts }

  predicate InOne(vec: Leg, fts: Leg, id: Id) { (id in vec) != (id in fts) }

  lemma {:induction false} TermBounds(k: nat, leg: Leg, id: Id, topK: nat)
    requires ValidLeg(leg, topK)
    ensures id !in leg ==> Term(k, leg, id) == 0.0
    ensures id in leg ==> topK >= 1 && Reciprocal(k, topK) <= Term(k, leg, id) <= Reciprocal(k, 1)
  {
    RankIsPosition(leg, id, 0);
    assert leg[0..] == leg;
    if id in leg {
      var rank := RankIn(leg, id, 0).value;
      if rank < topK { ReciprocalDecreases(k, rank, topK); }
      if 1 < rank { ReciprocalDecreases(k, 1, rank); }
    }
  }

  lemma {:induction false} TwiceTheWorst(k: nat, topK: nat)
    requires topK >= 1
    ensures 2.0 * Reciprocal(k, topK) > Reciprocal(k, 1) <==> topK <= k + 1
  {
    var x, y := (k + 1) as real, (k + topK) as real;
    assert 2.0 * (1.0 / y) - 1.0 / x == (2.0 * x - y) / (x * y);
    assert x * y > 0.0;
    assert 2.0 * x - y == (k + 2 - topK) as real;
  }

  /** Whatever the legs are, two-leg hits outscore one-leg hits: this holds exactly for `topK <= k + 1`. */
  lemma {:induction false} BothLegsWinIff(k: nat, topK: nat)
    requires topK >= 1
    ensures (forall vec: Leg, fts: Leg, a: Id, b: Id |
               ValidLeg(vec, topK) && ValidLeg(fts, topK) && InBoth(vec, fts, a) && InOne(vec, fts, b) ::
               Score(k, vec, fts, a) > Score(k, vec, fts, b))
            <==> topK <= k + 1
  {
    TwiceTheWorst(k, topK);
    if topK <= k + 1 {
      forall vec: Leg, fts: Leg, a: Id, b: Id |
        ValidLeg(vec, topK) && ValidLeg(fts, topK) && InBoth(vec, fts, a) && InOne(vec, fts, b)
        ensures Score(k, vec, fts, a) > Score(k, vec, fts, b)
      {
        TermBounds(k, vec, a, topK);
        TermBounds(k, fts, a, topK);
        TermBounds(k, vec, b, topK);
        TermBounds(k, fts, b, topK);
      }
    } else {
      var vec, fts, a, b := WorstCase(k, topK);
      assert !(Score(k, vec, fts, a) > Score(k, vec, fts, b));
    }
  }

  /** With a larger `topK`, a hit at the end of both legs does not outscore the first hit of one leg. */
  lemma {:induction false} WorstCase(k: nat, topK: nat) returns (vec: Leg, fts: Leg, a: Id, b: Id)
    requires topK > k + 1
    ensures ValidLeg(vec, topK) && ValidLeg(fts, topK) && InBoth(vec, fts, a) && InOne(vec, fts, b)
    ensures Score(k, vec, fts, a) <= Score(k, vec, fts, b)
  {
    vec := seq(topK, i => i);
    fts := seq(topK, i requires 0 <= i < topK => if i == topK - 1 then i else topK + i);
    a, b := topK - 1, 0;
    assert vec[topK - 1] == a && fts[topK - 1] == a && vec[0] == b;
    assert b !in fts;
    RankIsPosition(vec, a, 0);
    RankIsPosition(fts, a, 0);
    RankIsPosition(vec, b, 0);
    TermBounds(k, fts, b, topK);
    TwiceTheWorst(k, topK);
  }

  // --- the result list -------------------------------------------------------

  /** What `order by score desc limit topN` may return: ties in any order. */
  ghost predicate Ranked(k: nat, vec: Leg, fts: Leg, topN: nat, ids: seq<Id>) {
    && Distinct(ids) && |ids| <= topN
    && (forall i | 0 <= i < |ids| :: ids[i] in vec || ids[i] in fts)
    && (forall i, j | 0 <= i < j < |ids| :: Score(k, vec, fts, ids[i]) >= Score(k, vec, fts, ids[j]))
    && (forall id, i | (id in vec || id in fts) && id !in ids
        && 0 <= i < |ids| :: Score(k, vec, fts, ids[i]) >= Score(k, vec, fts, id))
    && (|ids| < topN ==> forall id | id in vec || id in fts :: id in ids)
  }

  datatype Hit = Hit(id: Id, score: real, rank: nat)

  /** Result assembly: chunks that have vanished meanwhile are skipped, the others numbered from 1. */
  function Assemble(k: nat, vec: Leg, fts: Leg, ids: seq<Id>, loaded: set<Id>): seq<Hit> {
    if ids == [] then []
    else
      var hits, id := Assemble(k, vec, fts, ids[..|ids| - 1], loaded), ids[|ids| - 1];
      if id in loaded then hits + [Hit(id, Score(k, vec, fts, id), |hits| + 1)] else hits
  }

  predicate ScoresDescend(k: nat, vec: Leg, fts: Leg, ids: seq<Id>) {
    forall i, j | 0 <= i < j < |ids| :: Score(k, vec, fts, ids[i]) >= Score(k, vec, fts, ids[j])
  }

  function HitIds(hits: seq<Hit>): seq<Id> { Map((h: Hit) => h.id, hits) }

  lemma {:induction false} AssembledInOrder(k: nat, vec: Leg, fts: Leg, ids: seq<Id>, loaded: set<Id>)
    requires Distinct(ids) && ScoresDescend(k, vec, fts, ids)
    ensures var hits := Assemble(k, vec, fts, ids, loaded);
            && |hits| <= |ids| && Distinct(HitIds(hits)) && ScoresDescend(k, vec, fts, HitIds(hits))
            && (forall i | 0 <= i < |hits| :: hits[i] == Hit(hits[i].id, Score(k, vec, fts, hits[i].id), i + 1))
            && (forall id :: id in HitIds(hits) <==> id in ids && id in loaded)
  {
    if ids != [] {
      var n := |ids| - 1;
      var before, hits := Assemble(k, vec, fts, ids[..n], loaded), Assemble(k, vec, fts, ids, loaded);
      AssembledInOrder(k, vec, fts, ids[..n], loaded);
      assert ids == ids[..n] + [ids[n]];
      assert HitIds(hits) == if ids[n] in loaded then HitIds(before) + [ids[n]] else HitIds(before);
      forall i | 0 <= i < |before| ensures HitIds(before)[i] != ids[n]
          && Score(k, vec, fts, HitIds(before)[i]) >= Score(k, vec, fts, ids[n]) {
        assert HitIds(before)[i] in ids[..n];
      }
    }
  }

  /**
   * The assembled list is free of duplicates, ordered by score, at most `topN` long and ranked 1, 2, 3, ...
   * With `topK <= k + 1` no hit of one leg stands before a hit of both.
   */
  lemma {:induction false} AssembledIsRanked(k: nat, topK: nat, vec: Leg, fts: Leg, topN: nat, ids: seq<Id>,
      loaded: set<Id>)
    requires ValidLeg(vec, topK) && ValidLeg(fts, topK) && Ranked(k, vec, fts, topN, ids)
    ensures var hits := Assemble(k, vec, fts, ids, loaded);
            && |hits| <= topN && Distinct(HitIds(hits)) && ScoresDescend(k, vec, fts, HitIds(hits))
            && (forall i | 0 <= i < |hits| ::
                  hits[i].rank == i + 1 && hits[i].score == Score(k, vec, fts, hits[i].id) && hits[i].id in loaded)
            && (topK <= k + 1 ==>
                  forall i, j | 0 <= i < j < |hits| && InBoth(vec, fts, hits[j].id) :: InBoth(vec, fts, hits[i].id))
  {
    AssembledInOrder(k, vec, fts, ids, loaded);
    var hits := Assemble(k, vec, fts, ids, loaded);
    if topK <= k + 1 {
      forall i, j | 0 <= i < j < |hits| && InBoth(vec, fts, hits[j].id) ensures InBoth(vec, fts, hits[i].id) {
        BothLegsWinIff(k, topK);
        assert HitIds(hits)[i] in ids && HitIds(hits)[i] == hits[i].id && HitIds(hits)[j] == hits[j].id;
        assert InOne(vec, fts, hits[i].id) || InBoth(vec, fts, hits[i].id);
        assert Score(k, vec, fts, hits[i].id) >= Score(k, vec, fts, hits[j].id);
      }
    }
  }

  // --- the full-text query ---------------------------------------------------

  /** The tokens of at least two characters, each at its first occurrence. */
  function Terms(tokens: seq<string>): seq<string> {
    if tokens == [] then []
    else
      var before, t := Terms(tokens[..|tokens| - 1]), tokens[|tokens| - 1];
      if |t| > 1 && t !in before then before + [t] else before
  }

  function Escape(t: string): string {
    if t == "" then ""
    else (if t[0] == '\\' then ['\\', '\\'] else if t[0] == '"' then ['\\', '"'] else [t[0]]) + Escape(t[1..])
  }

  function Unescape(t: string): string {
    if |t| >= 2 && t[0] == '\\' then [t[1]] + Unescape(t[2..])
    else if t != "" then [t[0]] + Unescape(t[1..])
    else ""
  }

  function Quote(t: string): string { "\"" + Escape(t) + "\"" }

  method BuildTsquery(tokens: seq<string>) returns (query: string)
    ensures query == Join(" | ", Map(Quote, Terms(tokens)))
  {
    var seen: seq<string> := [];
    for k := 0 to |tokens|
      invariant seen == Terms(tokens[..k])
    {
      assert tokens[..k + 1][..k] == tokens[..k];
      if |tokens[k]| > 1 && tokens[k] !in seen {
        seen := seen + [tokens[k]];
      }
    }
    assert tokens[..|tokens|] == tokens;
    query := Join(" | ", Map(Quote, seen));
  }

  /** The terms are exactly the longer tokens, once each; the leg is skipped exactly when there is none. */
  lemma {:induction false} TermsAreTheLongTokens(tokens: seq<string>)
    ensures Distinct(Terms(tokens)) && forall t :: t in Terms(tokens) <==> t in tokens && |t| > 1
    ensures Join(" | ", Map(Quote, Terms(tokens))) == "" <==> forall i | 0 <= i < |tokens| :: |tokens[i]| <= 1
  {
    TermsDistinct(tokens);
    var terms := Terms(tokens);
    if terms == [] {
      forall i | 0 <= i < |tokens| ensures |tokens[i]| <= 1 { assert tokens[i] in tokens; }
    } else {
      assert terms[0] in tokens && |terms[0]| > 1;
      var quoted := Map(Quote, terms);
      assert quoted[0] == Quote(terms[0]) && |quoted[0]| >= 2;
    }
  }

  lemma {:induction false} TermsDistinct(tokens: seq<string>)
    ensures Distinct(Terms(tokens)) && forall t :: t in Terms(tokens) <==> t in tokens && |t| > 1
  {
    if tokens != [] {
      var n := |tokens| - 1;
      TermsDistinct(tokens[..n]);
      assert tokens == tokens[..n] + [tokens[n]];
    }
  }

  /** Escaping loses nothing. */
  lemma {:induction false} EscapeRoundTrip(t: string)
    ensures Unescape(Escape(t)) == t
  {
    if t != "" {
      EscapeRoundTrip(t[1..]);
      var e := Escape(t[1..]);
      if t[0] == '\\' {
        assert Escape(t)[2..] == e;
      } else if t[0] == '"' {
        assert Escape(t)[2..] == e;
      } else {
        assert Escape(t)[1..] == e;
      }
    }
  }

  /** Reads a quoted term off the front of a query: a backslash takes the next character as it is. */
  function ScanQuoted(s: string): Option<(string, string)> {
    if s == "" then None
    else if s[0] == '"' then Some(("", s[1..]))
    else if s[0] == '\\' then
      if |s| == 1 then None
      else match ScanQuoted(s[2..]) case None => None case Some((t, rest)) => Some(([s[1]] + t, rest))
    else match ScanQuoted(s[1..]) case None => None case Some((t, rest)) => Some(([s[0]] + t, rest))
  }

  /** A quoted term ends at its own closing quote and nowhere before, whatever it holds and whatever follows. */
  lemma {:induction false} QuotedEndsAtQuote(t: string, rest: string)
    ensures (Quote(t) + rest)[0] == '"' && ScanQuoted((Quote(t) + rest)[1..]) == Some((t, rest))
  {
    var body := Escape(t) + "\"" + rest;
    assert Quote(t) + rest == "\"" + body && (Quote(t) + rest)[1..] == body;
    if t == "" {
      assert body[1..] == rest;
    } else {
      QuotedEndsAtQuote(t[1..], rest);
      var inner := Escape(t[1..]) + "\"" + rest;
      assert (Quote(t[1..]) + rest)[1..] == inner;
      var head := if t[0] == '\\' then ['\\', '\\'] else if t[0] == '"' then ['\\', '"'] else [t[0]];
      assert body == head + inner && body[|head|..] == inner;
      assert [t[0]] + t[1..] == t;
    }
  }

  /** Reads a whole query: quoted terms with a bar between any two. */
  function ReadQuery(query: string, most: nat): Option<seq<string>>
    decreases most
  {
    if most == 0 || query == "" || query[0] != '"' then None
    else
      match ScanQuoted(query[1..])
      case None => None
      case Some((t, rest)) =>
        if rest == "" then Some([t])
        else if |rest| < 3 || rest[..3] != " | " then None
        else match ReadQuery(rest[3..], most - 1) case None => None case Some(others) => Some([t] + others)
  }

  /** The query reads back as its terms, one alternative each, in order. */
  lemma {:induction false} QueryReadsBack(terms: seq<string>)
    requires terms != []
    ensures ReadQuery(Join(" | ", Map(Quote, terms)), |terms|) == Some(terms)
  {
    var query, first, others := Join(" | ", Map(Quote, terms)), terms[0], terms[1..];
    assert Map(Quote, terms) == [Quote(first)] + Map(Quote, others);
    if others == [] {
      QuotedEndsAtQuote(first, "");
      assert query == Quote(first) == Quote(first) + "";
      assert terms == [first];
    } else {
      var rest := Join(" | ", Map(Quote, others));
      assert Map(Quote, terms)[1..] == Map(Quote, others);
      assert query == Quote(first) + (" | " + rest);
      QuotedEndsAtQuote(first, " | " + rest);
      QueryReadsBack(others);
      assert (" | " + rest)[..3] == " | " && (" | " + rest)[3..] == rest;
      assert terms == [first] + others;
    }
  }
}
