/** Strings and lists of strings: the few library operations the program leans on. */
module Text {

  datatype Option<+T> = None | Some(value: T) {
    function GetOr(default: T): T {
      if Some? then value else default
    }
  }

  /** Whitespace in the sense of Python's `str.isspace`, `str.strip` and `\s`. */
  predicate IsSpace(c: char) {
    || '\t' <= c <= '\r'
    || '\U{001C}' <= c <= ' '
    || c == '\U{0085}' || c == '\U{00A0}' || c == '\U{1680}'
    || '\U{2000}' <= c <= '\U{200A}'
    || c == '\U{2028}' || c == '\U{2029}' || c == '\U{202F}' || c == '\U{205F}' || c == '\U{3000}'
  }

  predicate IsBlank(s: string) {
    forall i | 0 <= i < |s| :: IsSpace(s[i])
  }

  /** `"".join(parts)`. */
  function Concat(parts: seq<string>): string {
    if parts == [] then "" else parts[0] + Concat(parts[1..])
  }

  /** `sep.join(parts)`. */
  function Join(sep: string, parts: seq<string>): string {
    if parts == [] then ""
    else if |parts| == 1 then parts[0]
    else parts[0] + sep + Join(sep, parts[1..])
  }

  function Flatten<T>(groups: seq<seq<T>>): seq<T> {
    if groups == [] then [] else groups[0] + Flatten(groups[1..])
  }

  function Map<A, B>(f: A -> B, s: seq<A>): (r: seq<B>)
    ensures |r| == |s| && forall i | 0 <= i < |s| :: r[i] == f(s[i])
  {
    if s == [] then [] else [f(s[0])] + Map(f, s[1..])
  }

  lemma {:induction false} MapSnoc<A, B>(f: A -> B, s: seq<A>, x: A)
    ensures Map(f, s + [x]) == Map(f, s) + [f(x)]
  {
  }

  /** The first position at or after `from` whose character does not satisfy `p`. */
  function SkipLeading(p: char -> bool, s: string, from: nat): (k: nat)
    requires from <= |s|
    ensures from <= k <= |s| && (k < |s| ==> !p(s[k]))
    ensures forall i | from <= i < k :: p(s[i])
    decreases |s| - from
  {
    if from < |s| && p(s[from]) then SkipLeading(p, s, from + 1) else from
  }

  /** The last position at or before `upto`, and not before `from`, that follows a non-`p` character. */
  function SkipTrailing(p: char -> bool, s: string, from: nat, upto: nat): (k: nat)
    requires from <= upto <= |s|
    ensures from <= k <= upto && (from < k ==> !p(s[k - 1]))
    ensures forall i | k <= i < upto :: p(s[i])
    decreases upto
  {
    if from < upto && p(s[upto - 1]) then SkipTrailing(p, s, from, upto - 1) else upto
  }

  /** `strip` / `trim`: the middle of `s`, without the characters satisfying `p` at either end. */
  function StripBy(p: char -> bool, s: string): string {
    var lo := SkipLeading(p, s, 0);
    s[lo..SkipTrailing(p, s, lo, |s|)]
  }

  function Strip(s: string): string { StripBy(IsSpace, s) }

  /** A string that neither starts nor ends with a `p` character is its own strip. */
  lemma {:induction false} StripFixpoint(p: char -> bool, s: string)
    requires s == "" || (!p(s[0]) && !p(s[|s| - 1]))
    ensures StripBy(p, s) == s
  {
  }

  lemma {:induction false} SliceOfSlice<T>(s: seq<T>, a: nat, b: nat, lo: nat, hi: nat)
    requires a <= b <= |s| && lo <= hi <= b - a
    ensures s[a..b][lo..hi] == s[a + lo..a + hi]
  {
    forall i | 0 <= i < hi - lo ensures s[a..b][lo..hi][i] == s[a + lo..a + hi][i] {
      assert s[a..b][lo + i] == s[a + lo + i];
    }
  }

  lemma {:induction false} Regroup<T>(a: seq<T>, b: seq<T>, c: seq<T>)
    ensures (a + b) + c == a + (b + c)
  {
  }

  lemma {:induction false} ConcatAppend(a: seq<string>, b: seq<string>)
    ensures Concat(a + b) == Concat(a) + Concat(b)
  {
    if a == [] {
      assert a + b == b;
    } else {
      assert (a + b)[1..] == a[1..] + b;
      ConcatAppend(a[1..], b);
      Regroup(a[0], Concat(a[1..]), Concat(b));
    }
  }

  lemma {:induction false} FlattenAppend<T>(a: seq<seq<T>>, b: seq<seq<T>>)
    ensures Flatten(a + b) == Flatten(a) + Flatten(b)
  {
    if a == [] {
      assert a + b == b;
    } else {
      assert (a + b)[1..] == a[1..] + b;
      FlattenAppend(a[1..], b);
      Regroup(a[0], Flatten(a[1..]), Flatten(b));
    }
  }

  lemma {:induction false} JoinAppend(sep: string, a: seq<string>, b: seq<string>)
    requires a != [] && b != []
    ensures Join(sep, a + b) == Join(sep, a) + sep + Join(sep, b)
  {
    assert (a + b)[1..] == a[1..] + b;
    if |a| > 1 {
      JoinAppend(sep, a[1..], b);
    }
  }

  /** Joining the joins of non-empty groups is joining all their members. */
  lemma {:induction false} JoinOfJoins(sep: string, groups: seq<seq<string>>)
    requires forall i | 0 <= i < |groups| :: groups[i] != []
    ensures Join(sep, Map((g: seq<string>) => Join(sep, g), groups)) == Join(sep, Flatten(groups))
    ensures groups != [] ==> Flatten(groups) != []
  {
    var f := (g: seq<string>) => Join(sep, g);
    if groups != [] {
      var rest := groups[1..];
      JoinOfJoins(sep, rest);
      assert Map(f, groups)[1..] == Map(f, rest);
      if rest == [] {
        assert Flatten(groups) == groups[0];
      } else {
        JoinAppend(sep, groups[0], Flatten(rest));
      }
    }
  }

  // --- lines -----------------------------------------------------------------

  /** `indexOf` for one character: the first position at or after `from`, or the length. */
  function IndexOf(c: char, s: string, from: nat): (i: nat)
    requires from <= |s|
    ensures from <= i <= |s| && (i < |s| ==> s[i] == c)
    ensures forall j | from <= j < i :: s[j] != c
    decreases |s| - from
  {
    if from == |s| || s[from] == c then from else IndexOf(c, s, from + 1)
  }

  /** `split('\n')`. */
  function Lines(s: string): seq<string>
    decreases |s|
  {
    var i := IndexOf('\n', s, 0);
    if i == |s| then [s] else [s[..i]] + Lines(s[i + 1..])
  }

  lemma {:induction false} LinesOf(s: string, rest: string)
    requires '\n' !in s
    ensures Lines(s) == [s] && Lines(s + "\n" + rest) == [s] + Lines(rest)
  {
    var all := s + "\n" + rest;
    assert all[..|s|] == s && all[|s| + 1..] == rest;
    forall j | 0 <= j < |s| ensures all[j] != '\n' { assert all[j] == s[j] && s[j] in s; }
    assert all[|s|] == '\n';
    assert IndexOf('\n', all, 0) == |s|;
  }

  lemma {:induction false} LinesHaveNoNewline(s: string)
    ensures forall i | 0 <= i < |Lines(s)| :: '\n' !in Lines(s)[i]
    decreases |s|
  {
    var i := IndexOf('\n', s, 0);
    if i == |s| {
      assert forall j | 0 <= j < |s| :: s[j] != '\n';
    } else {
      LinesHaveNoNewline(s[i + 1..]);
      assert forall j | 0 <= j < i :: s[..i][j] == s[j];
    }
  }
}
