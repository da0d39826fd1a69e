/** In-order greedy packing to a weight limit, as both the table packer and the text builder do it. */
module Packing {
  import opened Text

  /** What the packing loop carries: the groups it has closed and the one it is filling. */
  datatype Packed<T> = Packed(closed: seq<seq<T>>, buffer: seq<T>) {
    function Groups(): seq<seq<T>> {
      if buffer == [] then closed else closed + [buffer]
    }
  }

  function Weight<T>(w: T -> nat, items: seq<T>): nat {
    if items == [] then 0 else Weight(w, items[..|items| - 1]) + w(items[|items| - 1])
  }

  /** One turn of the loop: a non-empty buffer that the item would overfill is closed first. */
  function Put<T>(w: T -> nat, cap: nat, p: Packed<T>, item: T): Packed<T> {
    if p.buffer != [] && Weight(w, p.buffer) + w(item) > cap
    then Packed(p.closed + [p.buffer], [item])
    else Packed(p.closed, p.buffer + [item])
  }

  function Pack<T>(w: T -> nat, cap: nat, items: seq<T>): Packed<T> {
    if items == [] then Packed([], [])
    else Put(w, cap, Pack(w, cap, items[..|items| - 1]), items[|items| - 1])
  }

  /** An in-order grouping whose groups of two or more items stay within the limit. */
  ghost predicate Grouping<T(!new)>(w: T -> nat, cap: nat, groups: seq<seq<T>>, items: seq<T>) {
    Flatten(groups) == items && Fits(w, cap, groups)
  }

  ghost predicate Fits<T(!new)>(w: T -> nat, cap: nat, groups: seq<seq<T>>) {
    forall i | 0 <= i < |groups| :: groups[i] != [] && (|groups[i]| > 1 ==> Weight(w, groups[i]) <= cap)
  }

  lemma {:induction false} WeightAppend<T>(w: T -> nat, a: seq<T>, x: T)
    ensures Weight(w, a + [x]) == Weight(w, a) + w(x)
  {
    assert (a + [x])[..|a|] == a;
  }

  lemma {:induction false} WeightOfSuffix<T>(w: T -> nat, a: seq<T>, k: nat)
    requires k <= |a|
    ensures Weight(w, a[k..]) <= Weight(w, a)
  {
    if k == |a| {
      assert a[k..] == [];
    } else {
      var n := |a| - 1;
      WeightOfSuffix(w, a[..n], k);
      assert a[k..][..n - k] == a[..n][k..];
    }
  }

  lemma {:induction false} FlattenSnoc<T>(groups: seq<seq<T>>, g: seq<T>)
    ensures Flatten(groups + [g]) == Flatten(groups) + g
  {
    FlattenAppend(groups, [g]);
    assert Flatten([g]) == g + Flatten<T>([]) == g;
  }

  /** What the loop keeps: nothing is lost, and every group so far is within the limit. */
  ghost predicate Keeps<T(!new)>(w: T -> nat, cap: nat, p: Packed<T>, items: seq<T>) {
    && Flatten(p.closed) + p.buffer == items
    && Fits(w, cap, p.closed)
    && (p.buffer == [] ==> p.closed == [])
    && (|p.buffer| > 1 ==> Weight(w, p.buffer) <= cap)
  }

  lemma {:induction false} PutKeeps<T(!new)>(w: T -> nat, cap: nat, p: Packed<T>, items: seq<T>, x: T)
    requires Keeps(w, cap, p, items)
    ensures Keeps(w, cap, Put(w, cap, p, x), items + [x]) && Put(w, cap, p, x).buffer != []
  {
    if p.buffer != [] && Weight(w, p.buffer) + w(x) > cap {
      FlattenSnoc(p.closed, p.buffer);
    } else {
      WeightAppend(w, p.buffer, x);
      assert Flatten(p.closed) + (p.buffer + [x]) == (Flatten(p.closed) + p.buffer) + [x];
    }
  }

  lemma {:induction false} PackKeeps<T(!new)>(w: T -> nat, cap: nat, items: seq<T>)
    ensures Keeps(w, cap, Pack(w, cap, items), items)
    ensures items != [] ==> Pack(w, cap, items).buffer != []
  {
    if items == [] {
      assert Flatten<T>([]) + [] == items;
    } else {
      var n := |items| - 1;
      PackKeeps(w, cap, items[..n]);
      PutKeeps(w, cap, Pack(w, cap, items[..n]), items[..n], items[n]);
      assert items == items[..n] + [items[n]];
    }
  }

  /** The packer keeps everything, in order, and its groups are within the limit. */
  lemma {:induction false} PackIsGrouping<T(!new)>(w: T -> nat, cap: nat, items: seq<T>)
    ensures Grouping(w, cap, Pack(w, cap, items).Groups(), items)
  {
    var p := Pack(w, cap, items);
    PackKeeps(w, cap, items);
    if p.buffer == [] {
      assert Flatten(p.closed) + p.buffer == Flatten(p.closed);
    } else {
      FlattenSnoc(p.closed, p.buffer);
    }
  }

  /** Taking one item off the end of a grouping leaves a grouping with no more groups. */
  lemma {:induction false} DropLast<T(!new)>(w: T -> nat, cap: nat, groups: seq<seq<T>>, items: seq<T>)
      returns (fewer: seq<seq<T>>)
    requires items != [] && Grouping(w, cap, groups, items)
    ensures Grouping(w, cap, fewer, items[..|items| - 1]) && |fewer| <= |groups|
  {
    var k := |groups| - 1;
    var g := groups[k];
    assert groups == groups[..k] + [g];
    FlattenSnoc(groups[..k], g);
    if |g| == 1 {
      fewer := groups[..k];
      assert items[..|items| - 1] == Flatten(fewer);
    } else {
      var h := g[..|g| - 1];
      fewer := groups[..k] + [h];
      FlattenSnoc(groups[..k], h);
      assert Flatten(fewer) == items[..|items| - 1];
      assert Weight(w, h) <= Weight(w, g);
    }
  }

  /** The last group of a grouping within the limit starts after everything that is too heavy for it. */
  lemma {:induction false} LastGroupIsShort<T(!new)>(w: T -> nat, cap: nat, items: seq<T>, start: nat,
      groups: seq<seq<T>>)
    requires items != [] && Grouping(w, cap, groups, items)
    requires start + 1 < |items| && Weight(w, items[start..]) > cap
    ensures groups != [] && |Flatten(groups[..|groups| - 1])| > start
    ensures |Flatten(groups[..|groups| - 1])| < |items|
    ensures Grouping(w, cap, groups[..|groups| - 1], items[..|Flatten(groups[..|groups| - 1])|])
  {
    var k := |groups| - 1;
    var last := groups[k];
    assert groups == groups[..k] + [last];
    FlattenSnoc(groups[..k], last);
    var m := |Flatten(groups[..k])|;
    assert last == items[m..] && items[..m] == Flatten(groups[..k]);
    if m <= start {
      assert items[start..] == last[start - m..];
      WeightOfSuffix(w, last, start - m);
    }
  }

  /**
   * Greedy stays ahead: any grouping that reaches past the items greedy has closed needs more
   * groups than greedy has closed.
   */
  lemma {:induction false} GreedyStaysAhead<T(!new)>(w: T -> nat, cap: nat, items: seq<T>, m: nat, groups: seq<seq<T>>)
    requires m <= |items| && |Flatten(Pack(w, cap, items).closed)| < m
    requires Grouping(w, cap, groups, items[..m])
    ensures |Pack(w, cap, items).closed| < |groups|
    decreases |items|, m
  {
    var n := |items| - 1;
    var init, x := items[..n], items[n];
    assert init[..n] == init;
    var q := Pack(w, cap, init);
    PackKeeps(w, cap, init);
    assert Pack(w, cap, items) == Put(w, cap, q, x);
    if q.buffer != [] && Weight(w, q.buffer) + w(x) > cap {
      FlattenSnoc(q.closed, q.buffer);
      assert items[..m] == items;
      AheadWhenClosing(w, cap, init, x, groups);
      assert init + [x] == items;
    } else if m <= n {
      assert init[..m] == items[..m];
      GreedyStaysAhead(w, cap, init, m, groups);
    } else {
      assert items[..m] == items;
      if n > |Flatten(q.closed)| {
        var fewer := DropLast(w, cap, groups, items);
        GreedyStaysAhead(w, cap, init, n, fewer);
      } else {
        assert q.buffer == [] && groups != [];
      }
    }
  }

  /** When x opens a new greedy group, no group within the limit holds the whole closed buffer and x. */
  lemma {:induction false} AheadWhenClosing<T(!new)>(w: T -> nat, cap: nat, init: seq<T>, x: T, groups: seq<seq<T>>)
    requires var q := Pack(w, cap, init); q.buffer != [] && Weight(w, q.buffer) + w(x) > cap
    requires Grouping(w, cap, groups, init + [x])
    ensures |Pack(w, cap, init).closed| + 1 < |groups|
    decreases |init| + 1, 0
  {
    var q := Pack(w, cap, init);
    PackKeeps(w, cap, init);
    var done := |Flatten(q.closed)|;
    var items := init + [x];
    WeightAppend(w, q.buffer, x);
    assert items[done..] == q.buffer + [x];
    LastGroupIsShort(w, cap, items, done, groups);
    var k := |groups| - 1;
    var m := |Flatten(groups[..k])|;
    assert init[..m] == items[..m];
    GreedyStaysAhead(w, cap, init, m, groups[..k]);
  }

  /** No in-order grouping within the limit uses fewer groups than the greedy one. */
  lemma {:induction false} GreedyIsOptimal<T(!new)>(w: T -> nat, cap: nat, items: seq<T>, groups: seq<seq<T>>)
    requires Grouping(w, cap, groups, items)
    ensures |Pack(w, cap, items).Groups()| <= |groups|
  {
    PackKeeps(w, cap, items);
    if items != [] {
      assert items[..|items|] == items;
      GreedyStaysAhead(w, cap, items, |items|, groups);
    }
  }
}
