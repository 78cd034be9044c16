/** Counting in sequences. */
module Counting {
  function Count<T>(xs: seq<T>, f: T -> nat): nat {
    if xs == [] then 0 else Count(xs[..|xs| - 1], f) + f(xs[|xs| - 1])
  }

  lemma {:induction false} CountAppend<T>(xs: seq<T>, ys: seq<T>, f: T -> nat)
    ensures Count(xs + ys, f) == Count(xs, f) + Count(ys, f)
  {
    if ys == [] {
      assert xs + ys == xs;
    } else {
      CountAppend(xs, ys[..|ys| - 1], f);
      assert (xs + ys)[..|xs + ys| - 1] == xs + ys[..|ys| - 1];
    }
  }

  lemma CountOne<T>(x: T, f: T -> nat)
    ensures Count([x], f) == f(x)
  {
    assert [x][..0] == [];
  }

  lemma {:induction false} CountMapped<T, U>(xs: seq<T>, ys: seq<U>, f: T -> nat, g: U -> nat)
    requires |xs| == |ys| && forall i :: 0 <= i < |xs| ==> f(xs[i]) == g(ys[i])
    ensures Count(xs, f) == Count(ys, g)
  {
    if xs != [] {
      CountMapped(xs[..|xs| - 1], ys[..|ys| - 1], f, g);
    }
  }

  lemma CountSplit<T>(xs: seq<T>, k: nat, f: T -> nat)
    requires k <= |xs|
    ensures Count(xs, f) == Count(xs[..k], f) + Count(xs[k..], f)
  {
    CountAppend(xs[..k], xs[k..], f);
    assert xs[..k] + xs[k..] == xs;
  }

  lemma {:induction false} CountSum<T>(xs: seq<T>, f: T -> nat, g: T -> nat, h: T -> nat)
    requires forall x :: x in xs ==> f(x) == g(x) + h(x)
    ensures Count(xs, f) == Count(xs, g) + Count(xs, h)
  {
    if xs != [] {
      CountSum(xs[..|xs| - 1], f, g, h);
    }
  }

  lemma CountSnoc<T>(xs: seq<T>, x: T, f: T -> nat)
    ensures Count(xs + [x], f) == Count(xs, f) + f(x)
  {
    assert (xs + [x])[..|xs|] == xs;
  }

  lemma {:induction false} CountAt<T>(xs: seq<T>, i: nat, f: T -> nat)
    requires i < |xs|
    ensures Count(xs, f) >= f(xs[i])
  {
    if i < |xs| - 1 {
      CountAt(xs[..|xs| - 1], i, f);
    }
  }
}

/** Picking from a sequence, in order. */
module Picking {
  function Filter<T>(xs: seq<T>, p: T -> bool): seq<T> {
    if xs == [] then []
    else
      var front, last := Filter(xs[..|xs| - 1], p), xs[|xs| - 1];
      if p(last) then front + [last] else front
  }

  /** Where the picked elements are. */
  function Places<T>(xs: seq<T>, p: T -> bool): (at: seq<nat>)
    ensures forall i :: 0 <= i < |at| ==> at[i] < |xs|
    ensures forall i, j :: 0 <= i < j < |at| ==> at[i] < at[j]
  {
    if xs == [] then []
    else
      var front, n := Places(xs[..|xs| - 1], p), |xs| - 1;
      if p(xs[n]) then front + [n] else front
  }

  lemma {:induction false} PickedAt<T>(xs: seq<T>, p: T -> bool)
    ensures |Places(xs, p)| == |Filter(xs, p)|
    ensures forall i :: 0 <= i < |Places(xs, p)| ==>
              xs[Places(xs, p)[i]] == Filter(xs, p)[i] && p(xs[Places(xs, p)[i]])
  {
    if xs != [] {
      PickedAt(xs[..|xs| - 1], p);
    }
  }

  /** Everything there is to pick has been picked. */
  lemma {:induction false} FilterCovers<T>(xs: seq<T>, p: T -> bool, k: nat) returns (j: nat)
    requires k < |xs| && p(xs[k])
    ensures j < |Filter(xs, p)| && Filter(xs, p)[j] == xs[k]
  {
    var n := |xs| - 1;
    if k == n {
      j := |Filter(xs[..n], p)|;
    } else {
      j := FilterCovers(xs[..n], p, k);
    }
  }
}

/** Counting the values of a table. */
module TableCounting {
  import opened Counting
  import opened Hashes

  lemma ItemsAppend<K, V>(xs: seq<Entry<K, V>>, ys: seq<Entry<K, V>>)
    ensures Items(xs + ys) == Items(xs) + Items(ys)
  {
  }

  lemma {:induction false} CountDeleted<K(!new), V>(entries: seq<Entry<K, V>>, key: K, i: nat, f: V -> nat)
    requires UniqueKeys(entries) && i < |entries| && entries[i].key == key
    ensures Count(Items(Deleted(entries, key)), f) + f(entries[i].value) == Count(Items(entries), f)
  {
    var n := |entries| - 1;
    var front, last := entries[..n], entries[n];
    ItemsAppend(front, [last]);
    assert front + [last] == entries && Items([last]) == [last.value];
    CountSnoc(Items(front), last.value, f);
    if i == n {
      DeletedAbsent(front, key);
    } else {
      CountDeleted(front, key, i, f);
      ItemsAppend(Deleted(front, key), [last]);
      CountSnoc(Items(Deleted(front, key)), last.value, f);
    }
  }

  lemma {:induction false} DeletedGone<K(!new), V>(entries: seq<Entry<K, V>>, key: K)
    ensures !HasKey(Deleted(entries, key), key)
  {
    if entries != [] {
      DeletedGone(entries[..|entries| - 1], key);
    }
  }
}
