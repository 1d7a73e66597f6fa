/** The two list-building idioms the scraper repeats: a loop that appends
    only the items it could build, and order-preserving deduplication with
    `dict.fromkeys`. */
module Sequences {
  import opened Wrappers

  /** The value of a `Some` as a one-element list, nothing for `None`. */
  function Emit<B>(o: Option<B>): seq<B> {
    if o.Some? then [o.value] else []
  }

  /** The list that `for x in xs: item = f(x); if item: out.append(item)`
      leaves in `out`. Defined from the end, as the loop builds it. */
  function Collect<A, B>(xs: seq<A>, f: A -> Option<B>): (r: seq<B>)
    ensures |r| <= |xs|
  {
    if xs == [] then [] else Collect(xs[..|xs| - 1], f) + Emit(f(xs[|xs| - 1]))
  }

  /** One more loop step appends at most the item built from the new element. */
  lemma CollectSnoc<A, B>(xs: seq<A>, x: A, f: A -> Option<B>)
    ensures Collect(xs + [x], f) == Collect(xs, f) + Emit(f(x))
  {
    assert (xs + [x])[..|xs|] == xs;
  }

  /** The loop step over a prefix: one more element appends at most its item. */
  lemma CollectStep<A, B>(xs: seq<A>, i: nat, f: A -> Option<B>)
    requires i < |xs|
    ensures Collect(xs[..i + 1], f) == Collect(xs[..i], f) + Emit(f(xs[i]))
  {
    assert xs[..i + 1][..i] == xs[..i];
  }

  /** The loop's last prefix is the whole sequence. */
  lemma CollectWhole<A, B>(xs: seq<A>, f: A -> Option<B>)
    ensures Collect(xs[..|xs|], f) == Collect(xs, f)
  {
    assert xs[..|xs|] == xs;
  }

  /** Collecting over a concatenation is concatenating the collected parts. */
  lemma {:induction false} CollectAppend<A, B>(xs: seq<A>, ys: seq<A>, f: A -> Option<B>)
    ensures Collect(xs + ys, f) == Collect(xs, f) + Collect(ys, f)
    decreases |ys|
  {
    if ys == [] {
      assert xs + ys == xs;
    } else {
      var n := |ys| - 1;
      var init := ys[..n];
      CollectAppend(xs, init, f);
      CollectAppendLast(xs, ys, f);
      AppendAssoc(Collect(xs, f), Collect(init, f), Emit(f(ys[n])));
    }
  }

  /** The last element of `ys` is the last step over `xs + ys`. */
  lemma CollectAppendLast<A, B>(xs: seq<A>, ys: seq<A>, f: A -> Option<B>)
    requires ys != []
    ensures Collect(xs + ys, f) == Collect(xs + ys[..|ys| - 1], f) + Emit(f(ys[|ys| - 1]))
    ensures Collect(ys, f) == Collect(ys[..|ys| - 1], f) + Emit(f(ys[|ys| - 1]))
  {
    PrefixOfAppend(xs, ys, |ys| - 1);
  }

  lemma PrefixOfAppend<T>(xs: seq<T>, ys: seq<T>, n: nat)
    requires n < |ys|
    ensures (xs + ys)[..|xs| + n] == xs + ys[..n] && (xs + ys)[|xs| + n] == ys[n]
  {
  }

  lemma AppendAssoc<T>(a: seq<T>, b: seq<T>, c: seq<T>)
    ensures (a + b) + c == a + (b + c)
  {
  }

  /** The element an item of the result was built from. */
  lemma {:induction false} CollectSource<A, B>(xs: seq<A>, f: A -> Option<B>, y: B) returns (i: nat)
    requires y in Collect(xs, f)
    ensures i < |xs| && f(xs[i]) == Some(y)
    decreases |xs|
  {
    var init := xs[..|xs| - 1];
    if y in Collect(init, f) {
      i := CollectSource(init, f, y);
      assert xs[i] == init[i];
    } else {
      i := |xs| - 1;
    }
  }

  /** Every item an element builds is in the result. */
  lemma {:induction false} CollectIncludes<A, B>(xs: seq<A>, f: A -> Option<B>, y: B, i: nat)
    requires i < |xs| && f(xs[i]) == Some(y)
    ensures y in Collect(xs, f)
    decreases |xs|
  {
    var init := xs[..|xs| - 1];
    if i < |init| {
      assert init[i] == xs[i];
      CollectIncludes(init, f, y, i);
    }
  }

  /** An item is in the result exactly when some element builds it. */
  lemma CollectMember<A, B>(xs: seq<A>, f: A -> Option<B>, y: B)
    ensures y in Collect(xs, f) <==> exists i :: 0 <= i < |xs| && f(xs[i]) == Some(y)
  {
    if y in Collect(xs, f) {
      var i := CollectSource(xs, f, y);
    }
    if exists i :: 0 <= i < |xs| && f(xs[i]) == Some(y) {
      var i :| 0 <= i < |xs| && f(xs[i]) == Some(y);
      CollectIncludes(xs, f, y, i);
    }
  }

  /** Two builders that agree on every element collect the same list. */
  lemma {:induction false} CollectPointwise<A, B>(xs: seq<A>, f: A -> Option<B>, g: A -> Option<B>)
    requires forall i :: 0 <= i < |xs| ==> f(xs[i]) == g(xs[i])
    ensures Collect(xs, f) == Collect(xs, g)
    decreases |xs|
  {
    if xs != [] {
      var init := xs[..|xs| - 1];
      assert forall i :: 0 <= i < |init| ==> init[i] == xs[i];
      CollectPointwise(init, f, g);
    }
  }

  /** When every element builds an item, nothing is dropped. */
  lemma {:induction false} CollectTotal<A, B>(xs: seq<A>, f: A -> Option<B>)
    requires forall i :: 0 <= i < |xs| ==> f(xs[i]).Some?
    ensures |Collect(xs, f)| == |xs|
    decreases |xs|
  {
    if xs != [] {
      var init := xs[..|xs| - 1];
      assert forall i :: 0 <= i < |init| ==> init[i] == xs[i];
      CollectTotal(init, f);
    }
  }

  /** Index of the first element satisfying `p`, or |xs| when none does. */
  function FirstWhere<T>(xs: seq<T>, p: T -> bool): (k: nat)
    ensures k <= |xs|
    ensures k < |xs| ==> p(xs[k])
    ensures forall j :: 0 <= j < k ==> !p(xs[j])
  {
    if xs == [] then 0 else if p(xs[0]) then 0 else 1 + FirstWhere(xs[1..], p)
  }

  predicate NoDuplicates<T(==,!new)>(s: seq<T>) {
    forall i, j :: 0 <= i < j < |s| ==> s[i] != s[j]
  }

  /** `list(dict.fromkeys(xs))`: each distinct element once, where it first
      occurs. */
  function Dedup<T(==,!new)>(xs: seq<T>): (r: seq<T>)
    ensures forall x :: x in r <==> x in xs
    ensures NoDuplicates(r)
    ensures |r| <= |xs|
  {
    if xs == [] then []
    else
      var d, x := Dedup(xs[..|xs| - 1]), xs[|xs| - 1];
      assert forall y :: y in xs <==> y in xs[..|xs| - 1] || y == x by {
        assert xs == xs[..|xs| - 1] + [x];
      }
      if x in d then d else d + [x]
  }

  /** Index of the first occurrence of an element. */
  function FirstIndex<T(==)>(xs: seq<T>, x: T): (i: nat)
    requires x in xs
    ensures i < |xs| && xs[i] == x
    ensures forall k :: 0 <= k < i ==> xs[k] != x
  {
    if xs[0] == x then 0 else 1 + FirstIndex(xs[1..], x)
  }

  /** Deduplicating a prefix gives a prefix of the deduplicated list. */
  lemma {:induction false} DedupPrefix<T(!new)>(xs: seq<T>, n: nat)
    requires n <= |xs|
    ensures |Dedup(xs[..n])| <= |Dedup(xs)|
    ensures Dedup(xs[..n]) == Dedup(xs)[..|Dedup(xs[..n])|]
    decreases |xs|
  {
    if n < |xs| {
      var init := xs[..|xs| - 1];
      assert init[..n] == xs[..n];
      DedupPrefix(init, n);
      assert xs[..|xs|] == xs;
    } else {
      assert xs[..n] == xs;
    }
  }

  /** The deduplicated list keeps the order of first occurrences. */
  lemma {:induction false} DedupOrder<T(!new)>(xs: seq<T>, i: nat, j: nat)
    requires i < j < |Dedup(xs)|
    ensures FirstIndex(xs, Dedup(xs)[i]) < FirstIndex(xs, Dedup(xs)[j])
    decreases |xs|
  {
    var init, x := xs[..|xs| - 1], xs[|xs| - 1];
    var d := Dedup(init);
    var a, b := Dedup(xs)[i], Dedup(xs)[j];
    assert a in xs && b in xs;
    FirstIndexOfPrefix(xs, init, a);
    if j < |d| {
      assert Dedup(xs)[i] == d[i] && Dedup(xs)[j] == d[j];
      FirstIndexOfPrefix(xs, init, b);
      DedupOrder(init, i, j);
    } else {
      assert x !in d && b == x;
      assert b !in init;
      assert FirstIndex(xs, b) == |xs| - 1;
    }
  }

  lemma FirstIndexOfPrefix<T(!new)>(xs: seq<T>, init: seq<T>, x: T)
    requires x in xs && |init| <= |xs| && init == xs[..|init|]
    ensures x in init ==> FirstIndex(xs, x) == FirstIndex(init, x)
    ensures x !in init ==> FirstIndex(xs, x) >= |init|
  {
    if x in init {
      var k := FirstIndex(init, x);
      assert xs[k] == x;
    }
  }

  /** The first element of the input stays first. */
  lemma DedupHead<T(!new)>(xs: seq<T>)
    requires xs != []
    ensures Dedup(xs) != [] && Dedup(xs)[0] == xs[0]
  {
    DedupPrefix(xs, 1);
    assert xs[..1] == [xs[0]];
  }

  /** When the first `j` elements are all `xs[0]` and `xs[j]` differs, the
      second distinct element is `xs[j]`. */
  lemma DedupSecond<T(!new)>(xs: seq<T>, j: nat)
    requires j < |xs| && xs[j] != xs[0]
    requires forall k :: 0 <= k < j ==> xs[k] == xs[0]
    ensures |Dedup(xs)| >= 2 && Dedup(xs)[0] == xs[0] && Dedup(xs)[1] == xs[j]
  {
    DedupConstant(xs[..j]);
    assert xs[..j + 1][..j] == xs[..j];
    DedupPrefix(xs, j + 1);
  }

  /** A non-empty list of one repeated element deduplicates to that element. */
  lemma {:induction false} DedupConstant<T(!new)>(xs: seq<T>)
    requires xs != []
    requires forall k :: 0 <= k < |xs| ==> xs[k] == xs[0]
    ensures Dedup(xs) == [xs[0]]
    decreases |xs|
  {
    if |xs| > 1 {
      DedupConstant(xs[..|xs| - 1]);
    } else {
      assert xs[..0] == [];
    }
  }
}
