/** Cutting over-long text at sentence boundaries, and taking the closing sentences of a text. */
module Splitting {
  import opened Text
  import opened Tokens

  predicate IsSentenceMark(c: char) {
    c in {'\U{3002}', '!', '?', '\U{FF01}', ';', '\n'}
  }

  /** Where a sentence ends: just after a sentence mark, or after a full stop and one space. */
  predicate IsSplitPoint(text: string, i: int) {
    && 0 <= i <= |text|
    && (|| (i >= 1 && IsSentenceMark(text[i - 1]))
        || (i >= 2 && text[i - 2] == '.' && IsSpace(text[i - 1])))
  }

  ghost predicate Unbreakable(text: string) {
    forall i | 0 < i < |text| :: !IsSplitPoint(text, i)
  }

  function Distance(a: int, b: int): nat { if a < b then b - a else a - b }

  /** The best interior split point seen from position `i` on, given the best one before it. */
  function Nearest(text: string, middle: nat, i: nat, best: Option<nat>): (r: Option<nat>)
    requires 0 < i
    requires best.Some? ==> 0 < best.value < |text|
    ensures r.Some? ==> 0 < r.value < |text|
    decreases |text| - i
  {
    if i >= |text| then best
    else if IsSplitPoint(text, i) && (best.None? || Distance(i, middle) < Distance(best.value, middle))
    then Nearest(text, middle, i + 1, Some(i))
    else Nearest(text, middle, i + 1, best)
  }

  /** The interior split point nearest the middle; the middle itself when there is none. */
  function CutPosition(text: string): (cut: nat)
    requires |text| > 1
    ensures 0 < cut < |text|
  {
    match Nearest(text, |text| / 2, 1, None)
    case Some(cut) => cut
    case None => |text| / 2
  }

  predicate NoFarther(a: nat, b: nat, middle: nat) {
    Distance(a, middle) < Distance(b, middle) || (Distance(a, middle) == Distance(b, middle) && a <= b)
  }

  lemma {:induction false} NearestIsBest(text: string, middle: nat, i: nat, best: Option<nat>)
    requires 0 < i
    requires best.Some? ==> 0 < best.value < i && best.value < |text| && IsSplitPoint(text, best.value)
    requires forall j | 0 < j < i && IsSplitPoint(text, j) && j < |text| ::
      best.Some? && NoFarther(best.value, j, middle)
    ensures var r := Nearest(text, middle, i, best);
            && (r.Some? ==> IsSplitPoint(text, r.value))
            && forall j | 0 < j < |text| && IsSplitPoint(text, j) :: r.Some? && NoFarther(r.value, j, middle)
    decreases |text| - i
  {
    if i < |text| {
      if IsSplitPoint(text, i) && (best.None? || Distance(i, middle) < Distance(best.value, middle)) {
        NearestIsBest(text, middle, i + 1, Some(i));
      } else {
        NearestIsBest(text, middle, i + 1, best);
      }
    }
  }

  /**
   * The cut is the interior split point nearest the middle, the leftmost of two equally near ones;
   * only a text without interior split points is cut elsewhere.
   */
  lemma {:induction false} CutIsNearest(text: string)
    requires |text| > 1
    ensures var cut := CutPosition(text);
            && (IsSplitPoint(text, cut) || (Unbreakable(text) && cut == |text| / 2))
            && forall j | 0 < j < |text| && IsSplitPoint(text, j) :: NoFarther(cut, j, |text| / 2)
  {
    NearestIsBest(text, |text| / 2, 1, None);
  }

  function SplitToLimit(text: string, target: nat): seq<string>
    decreases |text|
  {
    if EstimateTokens(text) <= target || |text| <= 1 then [text]
    else
      var cut := CutPosition(text);
      SplitToLimit(text[..cut], target) + SplitToLimit(text[cut..], target)
  }

  lemma {:induction false} PiecesKeepText(text: string, target: nat)
    ensures SplitToLimit(text, target) != [] && Concat(SplitToLimit(text, target)) == text
    decreases |text|
  {
    if EstimateTokens(text) <= target || |text| <= 1 {
      assert Concat([text]) == text + "" == text;
    } else {
      var cut := CutPosition(text);
      PiecesKeepText(text[..cut], target);
      PiecesKeepText(text[cut..], target);
      ConcatAppend(SplitToLimit(text[..cut], target), SplitToLimit(text[cut..], target));
      assert text == text[..cut] + text[cut..];
    }
  }

  lemma {:induction false} PiecesFit(text: string, target: nat)
    ensures forall i | 0 <= i < |SplitToLimit(text, target)| ::
      var piece := SplitToLimit(text, target)[i];
      (target >= 1 ==> EstimateTokens(piece) <= target) && (text != "" ==> piece != "")
    decreases |text|
  {
    if EstimateTokens(text) <= target || |text| <= 1 {
      TokensPositive(text);
    } else {
      var cut := CutPosition(text);
      PiecesFit(text[..cut], target);
      PiecesFit(text[cut..], target);
    }
  }

  /** The pieces are the text again, none is empty unless the text is, and all fit the target. */
  lemma {:induction false} SplitKeepsText(text: string, target: nat)
    ensures SplitToLimit(text, target) != [] && Concat(SplitToLimit(text, target)) == text
    ensures target >= 1 ==> forall i | 0 <= i < |SplitToLimit(text, target)|
        :: EstimateTokens(SplitToLimit(text, target)[i]) <= target
    ensures text != "" ==> forall i | 0 <= i < |SplitToLimit(text, target)| :: SplitToLimit(text, target)[i] != ""
  {
    PiecesKeepText(text, target);
    PiecesFit(text, target);
  }

  /** An over-budget stretch of the text around `p` that offers no sentence boundary to cut at. */
  ghost predicate ForcedCut(text: string, target: nat, p: nat, lo: nat, hi: nat) {
    lo < p < hi <= |text| && Unbreakable(text[lo..hi]) && EstimateTokens(text[lo..hi]) > target
  }

  ghost predicate JustifiedCut(text: string, target: nat, p: nat) {
    IsSplitPoint(text, p) || exists lo: nat, hi: nat :: ForcedCut(text, target, p, lo, hi)
  }

  lemma {:induction false} JustifiedInside(text: string, target: nat, a: nat, b: nat, part: string, p: nat)
    requires a <= b <= |text| && part == text[a..b] && JustifiedCut(part, target, p)
    ensures JustifiedCut(text, target, a + p)
  {
    if !IsSplitPoint(part, p) {
      var lo: nat, hi: nat :| ForcedCut(part, target, p, lo, hi);
      SliceOfSlice(text, a, b, lo, hi);
      assert ForcedCut(text, target, a + p, a + lo, a + hi);
    }
  }

  lemma {:induction false} FirstCutIsJustified(text: string, target: nat)
    requires EstimateTokens(text) > target && |text| > 1
    ensures JustifiedCut(text, target, CutPosition(text))
  {
    CutIsNearest(text);
    assert text[0..|text|] == text;
    assert IsSplitPoint(text, CutPosition(text)) || ForcedCut(text, target, CutPosition(text), 0, |text|);
  }

  /** `p` is a position at which the recursion cuts the text. */
  ghost predicate IsCut(text: string, target: nat, p: nat)
    decreases |text|
  {
    && EstimateTokens(text) > target && |text| > 1
    && var cut := CutPosition(text);
       if p < cut then IsCut(text[..cut], target, p)
       else p == cut || IsCut(text[cut..], target, p - cut)
  }

  lemma {:induction false} CutsAreJustified(text: string, target: nat, p: nat)
    requires IsCut(text, target, p)
    ensures JustifiedCut(text, target, p)
    decreases |text|
  {
    var cut := CutPosition(text);
    if p < cut {
      var left := text[..cut];
      CutsAreJustified(left, target, p);
      JustifiedInside(text, target, 0, cut, left, p);
    } else if p == cut {
      FirstCutIsJustified(text, target);
    } else {
      var right := text[cut..];
      CutsAreJustified(right, target, p - cut);
      JustifiedInside(text, target, cut, |text|, right, p - cut);
    }
  }

  lemma {:induction false} PiecesMeetAtCuts(text: string, target: nat, k: nat)
    requires 0 < k < |SplitToLimit(text, target)|
    ensures IsCut(text, target, |Concat(SplitToLimit(text, target)[..k])|)
    decreases |text|
  {
    var cut := CutPosition(text);
    var left, right := SplitToLimit(text[..cut], target), SplitToLimit(text[cut..], target);
    SplitKeepsText(text[..cut], target);
    if k < |left| {
      assert (left + right)[..k] == left[..k];
      PiecesMeetAtCuts(text[..cut], target, k);
      PrefixIsShorter(left, k);
    } else {
      assert (left + right)[..k] == left + right[..k - |left|];
      ConcatAppend(left, right[..k - |left|]);
      if k > |left| {
        PiecesMeetAtCuts(text[cut..], target, k - |left|);
      }
    }
  }

  lemma {:induction false} PrefixIsShorter(parts: seq<string>, k: nat)
    requires k < |parts| && forall i | 0 <= i < |parts| :: parts[i] != ""
    ensures |Concat(parts[..k])| < |Concat(parts)|
  {
    assert parts == parts[..k] + parts[k..];
    ConcatAppend(parts[..k], parts[k..]);
  }

  /** Every cut is at a sentence boundary, unless it divides an over-budget stretch that has none. */
  lemma {:induction false} PiecesAreWholeSentencesOrForced(text: string, target: nat, k: nat)
    requires 0 < k < |SplitToLimit(text, target)|
    ensures JustifiedCut(text, target, |Concat(SplitToLimit(text, target)[..k])|)
  {
    PiecesMeetAtCuts(text, target, k);
    CutsAreJustified(text, target, |Concat(SplitToLimit(text, target)[..k])|);
  }

  /** When no unbreakable stretch is over budget, sentences are never cut. */
  lemma {:induction false} WholeSentencesSurvive(text: string, target: nat, k: nat)
    requires forall lo, hi | 0 <= lo < hi <= |text|
        && Unbreakable(text[lo..hi]) :: EstimateTokens(text[lo..hi]) <= target
    requires 0 < k < |SplitToLimit(text, target)|
    ensures IsSplitPoint(text, |Concat(SplitToLimit(text, target)[..k])|)
  {
    PiecesAreWholeSentencesOrForced(text, target, k);
  }

  /**
   * The cut before piece `k` divides the run of pieces from `i` to `j`, which is over the target,
   * nearest its middle.
   */
  predicate Divides(pieces: seq<string>, target: nat, i: nat, k: nat, j: nat) {
    && i < k < j <= |pieces|
    && var run := Concat(pieces[i..j]);
       EstimateTokens(run) > target && |run| > 1 && |Concat(pieces[i..k])| == CutPosition(run)
  }

  lemma {:induction false} DividesInLeft(left: seq<string>, right: seq<string>, target: nat, i: nat, k: nat, j: nat)
    requires Divides(left, target, i, k, j)
    ensures Divides(left + right, target, i, k, j)
  {
    assert (left + right)[i..j] == left[i..j] && (left + right)[i..k] == left[i..k];
  }

  lemma {:induction false} DividesInRight(left: seq<string>, right: seq<string>, target: nat, i: nat, k: nat, j: nat)
    requires Divides(right, target, i, k, j)
    ensures Divides(left + right, target, |left| + i, |left| + k, |left| + j)
  {
    var all, n := left + right, |left|;
    assert all[n + i..n + j] == right[i..j] && all[n + i..n + k] == right[i..k];
  }

  lemma {:induction false} FirstCutDivides(text: string, target: nat)
    requires EstimateTokens(text) > target && |text| > 1
    ensures var cut := CutPosition(text);
            var left, right := SplitToLimit(text[..cut], target), SplitToLimit(text[cut..], target);
            Divides(left + right, target, 0, |left|, |left + right|)
  {
    var cut := CutPosition(text);
    var left, right := SplitToLimit(text[..cut], target), SplitToLimit(text[cut..], target);
    SplitKeepsText(text[..cut], target);
    SplitKeepsText(text[cut..], target);
    ConcatAppend(left, right);
    assert text[..cut] + text[cut..] == text;
    assert (left + right)[0..|left + right|] == left + right && (left + right)[0..|left|] == left;
  }

  /**
   * Every cut is needed: it divides a run of consecutive pieces that together are over the target, and it
   * is the cut nearest the middle of that run. So a text within the target is one piece.
   */
  lemma {:induction false} CutsAreNeeded(text: string, target: nat, k: nat) returns (i: nat, j: nat)
    requires 0 < k < |SplitToLimit(text, target)|
    ensures Divides(SplitToLimit(text, target), target, i, k, j)
    decreases |text|
  {
    var cut := CutPosition(text);
    var left, right := SplitToLimit(text[..cut], target), SplitToLimit(text[cut..], target);
    if k == |left| {
      i, j := 0, |left + right|;
      FirstCutDivides(text, target);
    } else if k < |left| {
      i, j := CutsAreNeeded(text[..cut], target, k);
      DividesInLeft(left, right, target, i, k, j);
    } else {
      var i0, j0 := CutsAreNeeded(text[cut..], target, k - |left|);
      DividesInRight(left, right, target, i0, k - |left|, j0);
      i, j := |left| + i0, |left| + j0;
    }
  }

  /** The first split point after `from`, or the end of the text. */
  function NextSplit(text: string, from: nat): (i: nat)
    requires from < |text|
    ensures from < i <= |text| && (i < |text| ==> IsSplitPoint(text, i))
    ensures forall j | from < j < i :: !IsSplitPoint(text, j)
    decreases |text| - from
  {
    if from + 1 == |text| || IsSplitPoint(text, from + 1) then from + 1 else NextSplit(text, from + 1)
  }

  /** The text from `from` on, cut at every split point. */
  function Sentences(text: string, from: nat): seq<string>
    requires from <= |text|
    decreases |text| - from
  {
    if from == |text| then []
    else var next := NextSplit(text, from); [text[from..next]] + Sentences(text, next)
  }

  lemma {:induction false} SentencesKeepText(text: string, from: nat)
    requires from <= |text|
    ensures Concat(Sentences(text, from)) == text[from..]
    decreases |text| - from
  {
    if from < |text| {
      SentencesKeepText(text, NextSplit(text, from));
    }
  }

  function NonBlank(parts: seq<string>): (r: seq<string>)
    ensures forall i | 0 <= i < |r| :: !IsBlank(r[i])
  {
    if parts == [] then []
    else if IsBlank(parts[0]) then NonBlank(parts[1..])
    else [parts[0]] + NonBlank(parts[1..])
  }

  /** The longest run of closing pieces that fits the budget. */
  function Tail(pieces: seq<string>, budget: nat): seq<string> {
    var n := |pieces| - 1;
    if n < 0 || EstimateTokens(pieces[n]) > budget then []
    else Tail(pieces[..n], budget - EstimateTokens(pieces[n])) + [pieces[n]]
  }

  function TailWithin(text: string, overlap: int): string {
    if overlap <= 0 then "" else Strip(Concat(Tail(NonBlank(Sentences(text, 0)), overlap)))
  }

  lemma {:induction false} SumTokensOne(s: string)
    ensures SumTokens([s]) == EstimateTokens(s)
  {
    assert SumTokens([s]) == EstimateTokens(s) + SumTokens([]);
  }

  /** The tail is a suffix of the pieces, within the budget. */
  lemma {:induction false} TailIsSuffix(pieces: seq<string>, budget: nat)
    ensures |Tail(pieces, budget)| <= |pieces|
    ensures Tail(pieces, budget) == pieces[|pieces| - |Tail(pieces, budget)|..]
  {
    var n := |pieces| - 1;
    if n >= 0 && EstimateTokens(pieces[n]) <= budget {
      TailIsSuffix(pieces[..n], budget - EstimateTokens(pieces[n]));
      var k := n - |Tail(pieces[..n], budget - EstimateTokens(pieces[n]))|;
      assert pieces[k..] == pieces[..n][k..] + [pieces[n]];
    }
  }

  lemma {:induction false} TailFits(pieces: seq<string>, budget: nat)
    ensures SumTokens(Tail(pieces, budget)) <= budget
  {
    var n := |pieces| - 1;
    if n >= 0 && EstimateTokens(pieces[n]) <= budget {
      var rest := budget - EstimateTokens(pieces[n]);
      TailFits(pieces[..n], rest);
      SumTokensAppend(Tail(pieces[..n], rest), [pieces[n]]);
      SumTokensOne(pieces[n]);
    }
  }

  /** Every suffix longer than the tail is over the budget. */
  lemma {:induction false} TailIsLongest(pieces: seq<string>, budget: nat, j: nat)
    requires j < |pieces| - |Tail(pieces, budget)|
    ensures SumTokens(pieces[j..]) > budget
  {
    var n := |pieces| - 1;
    SuffixSum(pieces, j);
    if EstimateTokens(pieces[n]) <= budget {
      if j < n {
        TailIsLongest(pieces[..n], budget - EstimateTokens(pieces[n]), j);
      }
    }
  }

  lemma {:induction false} SuffixSum(pieces: seq<string>, j: nat)
    requires j < |pieces|
    ensures SumTokens(pieces[j..]) == SumTokens(pieces[..|pieces| - 1][j..]) + EstimateTokens(pieces[|pieces| - 1])
  {
    var n := |pieces| - 1;
    assert pieces[j..] == pieces[..n][j..] + [pieces[n]];
    SumTokensAppend(pieces[..n][j..], [pieces[n]]);
    SumTokensOne(pieces[n]);
  }

  /** The overlap text never costs more than its budget. */
  lemma {:induction false} TailWithinBudget(text: string, overlap: int)
    ensures EstimateTokens(TailWithin(text, overlap)) <= if overlap > 0 then overlap else 0
  {
    if overlap > 0 {
      var pieces := NonBlank(Sentences(text, 0));
      var tail := Tail(pieces, overlap);
      TailFits(pieces, overlap);
      TokensOfConcat(tail);
      var t := Concat(tail);
      var lo := SkipLeading(IsSpace, t, 0);
      TokensOfSlice(t, lo, SkipTrailing(IsSpace, t, lo, |t|));
    }
  }

  lemma {:induction false} ConcatOfNonBlank(parts: seq<string>)
    requires parts != [] && !IsBlank(parts[0])
    ensures !IsBlank(Concat(parts))
  {
    var i :| 0 <= i < |parts[0]| && !IsSpace(parts[0][i]);
    assert Concat(parts)[i] == parts[0][i];
  }

  lemma {:induction false} StripOfNonBlank(s: string)
    requires !IsBlank(s)
    ensures Strip(s) != ""
  {
    var i :| 0 <= i < |s| && !IsSpace(s[i]);
    var lo := SkipLeading(IsSpace, s, 0);
    assert lo <= i < SkipTrailing(IsSpace, s, lo, |s|);
  }

  /**
   * The overlap is the stripped text of the longest run of closing sentences, blank ones left out, that
   * the budget admits; it is empty only when there is no sentence or the last one alone is over the budget.
   */
  lemma {:induction false} OverlapIsLongestTail(text: string, overlap: int) returns (k: nat)
    requires overlap > 0
    ensures var pieces := NonBlank(Sentences(text, 0));
            && k <= |pieces| && TailWithin(text, overlap) == Strip(Concat(pieces[k..]))
            && SumTokens(pieces[k..]) <= overlap && (forall j | 0 <= j < k :: SumTokens(pieces[j..]) > overlap)
            && (TailWithin(text, overlap) == ""
                <==> pieces == [] || EstimateTokens(pieces[|pieces| - 1]) > overlap)
  {
    var pieces := NonBlank(Sentences(text, 0));
    TailIsSuffix(pieces, overlap);
    k := |pieces| - |Tail(pieces, overlap)|;
    TailFits(pieces, overlap);
    forall j | 0 <= j < k ensures SumTokens(pieces[j..]) > overlap { TailIsLongest(pieces, overlap, j); }
    if k < |pieces| {
      ConcatOfNonBlank(pieces[k..]);
      StripOfNonBlank(Concat(pieces[k..]));
    } else if pieces != [] {
      assert Tail(pieces, overlap) == [];
    }
  }

  /** `p` is where one sentence ends and the next begins. */
  ghost predicate SentenceEnds(text: string, from: nat, p: nat)
    requires from <= |text|
  {
    exists k :: 0 < k < |Sentences(text, from)| && from + |Concat(Sentences(text, from)[..k])| == p
  }

  lemma {:induction false} LaterEnds(text: string, from: nat, k: nat)
    requires from < |text| && 0 < k < |Sentences(text, from)|
    ensures var next := NextSplit(text, from);
            |Concat(Sentences(text, from)[..k])| == next - from + |Concat(Sentences(text, next)[..k - 1])|
  {
    var next := NextSplit(text, from);
    assert Sentences(text, from)[..k] == [text[from..next]] + Sentences(text, next)[..k - 1];
  }

  /** The text is cut into sentences at every boundary and nowhere else. */
  lemma {:induction false} SentencesCutEverywhere(text: string, from: nat, p: nat)
    requires from < p < |text|
    ensures IsSplitPoint(text, p) <==> SentenceEnds(text, from, p)
    decreases |text| - from
  {
    var all, next := Sentences(text, from), NextSplit(text, from);
    var rest := Sentences(text, next);
    if SentenceEnds(text, from, p) {
      var k :| 0 < k < |all| && from + |Concat(all[..k])| == p;
      LaterEnds(text, from, k);
      if k > 1 { FirstIsNotEmpty(rest, k - 1, text, next); }
      if p > next { assert SentenceEnds(text, next, p); }
    }
    if p == next {
      LaterEnds(text, from, 1);
    } else if p > next {
      SentencesCutEverywhere(text, next, p);
      if SentenceEnds(text, next, p) {
        var k :| 0 < k < |rest| && next + |Concat(rest[..k])| == p;
        LaterEnds(text, from, k + 1);
      }
    }
  }

  lemma {:induction false} FirstIsNotEmpty(rest: seq<string>, k: nat, text: string, next: nat)
    requires next <= |text| && rest == Sentences(text, next) && 0 < k <= |rest|
    ensures |Concat(rest[..k])| > 0
  {
    assert rest[..k][0] == rest[0];
  }

  lemma {:induction false} TailStep(pieces: seq<string>, n: nat, budget: nat, tail: seq<string>)
    requires 0 < n <= |pieces| && EstimateTokens(pieces[n - 1]) <= budget
    ensures Tail(pieces[..n], budget) + tail
         == Tail(pieces[..n - 1], budget - EstimateTokens(pieces[n - 1])) + ([pieces[n - 1]] + tail)
  {
    assert pieces[..n][..n - 1] == pieces[..n - 1];
    Regroup(Tail(pieces[..n - 1], budget - EstimateTokens(pieces[n - 1])), [pieces[n - 1]], tail);
  }

  /** The backward loop over the sentences. */
  method TakeTail(text: string, overlap: int) returns (r: string)
    ensures r == TailWithin(text, overlap)
  {
    if overlap <= 0 {
      return "";
    }
    var pieces := NonBlank(Sentences(text, 0));
    var tail: seq<string>, tokens := [], 0;
    var n := |pieces|;
    assert pieces[..n] == pieces;
    while n > 0
      invariant 0 <= n <= |pieces| && 0 <= tokens <= overlap
      invariant Tail(pieces, overlap) == Tail(pieces[..n], overlap - tokens) + tail
    {
      var piece := pieces[n - 1];
      var pieceTokens := EstimateTokens(piece);
      if tokens + pieceTokens > overlap {
        break;
      }
      TailStep(pieces, n, overlap - tokens, tail);
      tail := [piece] + tail;
      tokens := tokens + pieceTokens;
      n := n - 1;
    }
    assert Tail(pieces[..n], overlap - tokens) == [];
    assert Tail(pieces, overlap) == tail;
    r := Strip(Concat(tail));
  }
}
