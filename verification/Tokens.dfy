/** The project's one token estimate: CJK characters count one each, four others count one. */
module Tokens {
  import opened Text

  predicate IsCjk(c: char) {
    || '\U{3000}' <= c <= '\U{303F}'
    || '\U{3040}' <= c <= '\U{30FF}'
    || '\U{3400}' <= c <= '\U{4DBF}'
    || '\U{4E00}' <= c <= '\U{9FFF}'
    || '\U{AC00}' <= c <= '\U{D7AF}'
    || '\U{F900}' <= c <= '\U{FAFF}'
    || '\U{FF00}' <= c <= '\U{FFEF}'
  }

  function CjkCount(s: string): (n: nat)
    ensures n <= |s|
  {
    if s == "" then 0 else (if IsCjk(s[0]) then 1 else 0) + CjkCount(s[1..])
  }

  function CeilDiv(n: nat, d: nat): nat
    requires d > 0
  {
    (n + d - 1) / d
  }

  function EstimateTokens(s: string): nat {
    CjkCount(s) + CeilDiv(|s| - CjkCount(s), 4)
  }

  function SumTokens(parts: seq<string>): nat {
    if parts == [] then 0 else EstimateTokens(parts[0]) + SumTokens(parts[1..])
  }

  lemma {:induction false} CjkCountAppend(a: string, b: string)
    ensures CjkCount(a + b) == CjkCount(a) + CjkCount(b)
  {
    if a == "" {
      assert a + b == b;
    } else {
      assert (a + b)[1..] == a[1..] + b;
      CjkCountAppend(a[1..], b);
    }
  }

  /** The estimate is subadditive, and putting two texts together saves at most one token. */
  lemma {:induction false} TokensAppend(a: string, b: string)
    ensures EstimateTokens(a) + EstimateTokens(b) - 1 <= EstimateTokens(a + b)
    ensures EstimateTokens(a + b) <= EstimateTokens(a) + EstimateTokens(b)
    ensures EstimateTokens(a) <= EstimateTokens(a + b) && EstimateTokens(b) <= EstimateTokens(a + b)
  {
    CjkCountAppend(a, b);
  }

  /** A slice never costs more than the text it is cut from. */
  lemma {:induction false} TokensOfSlice(s: string, lo: nat, hi: nat)
    requires lo <= hi <= |s|
    ensures EstimateTokens(s[lo..hi]) <= EstimateTokens(s)
  {
    assert s == s[..lo] + (s[lo..hi] + s[hi..]);
    TokensAppend(s[lo..hi], s[hi..]);
    TokensAppend(s[..lo], s[lo..hi] + s[hi..]);
  }

  /** Only the empty text is free, and one character costs exactly one token. */
  lemma {:induction false} TokensPositive(s: string)
    ensures EstimateTokens(s) == 0 <==> s == ""
    ensures |s| == 1 ==> EstimateTokens(s) == 1
  {
    if s != "" { assert CjkCount(s) > 0 || |s| - CjkCount(s) > 0; }
  }

  lemma {:induction false} SumTokensAppend(a: seq<string>, b: seq<string>)
    ensures SumTokens(a + b) == SumTokens(a) + SumTokens(b)
  {
    if a == [] {
      assert a + b == b;
    } else {
      assert (a + b)[1..] == a[1..] + b;
      SumTokensAppend(a[1..], b);
    }
  }

  /** Concatenation costs at most the sum of the parts. */
  lemma {:induction false} TokensOfConcat(parts: seq<string>)
    ensures EstimateTokens(Concat(parts)) <= SumTokens(parts)
  {
    if parts != [] {
      TokensOfConcat(parts[1..]);
      TokensAppend(parts[0], Concat(parts[1..]));
    }
  }

  /** Non-empty parts cost at least one token each. */
  lemma {:induction false} PartsBoundedByTokens(parts: seq<string>)
    requires forall i | 0 <= i < |parts| :: parts[i] != ""
    ensures |parts| <= SumTokens(parts)
  {
    if parts != [] {
      TokensPositive(parts[0]);
      PartsBoundedByTokens(parts[1..]);
    }
  }

  /**
   * A newline-joined text costs at most its parts plus a quarter, rounded up, of the uncounted
   * separators. (Rounding happens once for all separators, not once per separator.)
   */
  lemma {:induction false} TokensOfJoin(parts: seq<string>)
    requires parts != []
    ensures EstimateTokens(Join("\n", parts)) <= SumTokens(parts) + CeilDiv(|parts| - 1, 4)
    ensures CjkCount(Join("\n", parts)) == CjkCount(Concat(parts))
    ensures |Join("\n", parts)| == |Concat(parts)| + |parts| - 1
  {
    JoinCounts(parts);
    TokensOfConcat(parts);
  }

  lemma {:induction false} JoinCounts(parts: seq<string>)
    requires parts != []
    ensures CjkCount(Join("\n", parts)) == CjkCount(Concat(parts))
    ensures |Join("\n", parts)| == |Concat(parts)| + |parts| - 1
  {
    if |parts| == 1 {
      assert Concat(parts) == parts[0] + "" == parts[0];
    } else {
      var rest := Join("\n", parts[1..]);
      JoinCounts(parts[1..]);
      CjkCountAppend(parts[0], Concat(parts[1..]));
      CjkCountAppend(parts[0] + "\n", rest);
      CjkCountAppend(parts[0], "\n");
      assert CjkCount("\n") == 0;
    }
  }

  /** Each CJK character costs one token, and the others one for every four, rounded up. */
  lemma {:induction false} TokensCount(s: string)
    ensures var cjk := |(set i | 0 <= i < |s| && IsCjk(s[i]))|;
            4 * (EstimateTokens(s) - cjk) - 3 <= |s| - cjk <= 4 * (EstimateTokens(s) - cjk)
  {
    CjkIsCounted(s, |s|);
    assert s[..|s|] == s;
  }

  lemma {:induction false} CjkIsCounted(s: string, n: nat)
    requires n <= |s|
    ensures CjkCount(s[..n]) == |(set i | 0 <= i < n && IsCjk(s[i]))|
  {
    if n > 0 {
      CjkIsCounted(s, n - 1);
      assert s[..n] == s[..n - 1] + [s[n - 1]];
      CjkCountAppend(s[..n - 1], [s[n - 1]]);
      var before := set i | 0 <= i < n - 1 && IsCjk(s[i]);
      assert (set i | 0 <= i < n && IsCjk(s[i])) == if IsCjk(s[n - 1]) then before + {n - 1} else before;
    }
  }
}
