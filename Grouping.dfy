/** Grouping a list into numbered buckets by a parallel list of labels, the way
    `buckets[label].append(x)` does in Python: used for the event buckets of
    event_clustering.py and for the article lists of topic_clustering.py. */
module Grouping {
  import opened Common

  /** The slot that Python's `lst[l]` reaches in a list of n slots: a negative
      index counts from the end; anything else raises IndexError (None). */
  function PySlot(l: int, n: nat): (r: Option<nat>)
    ensures r.Some? <==> -(n as int) <= l < n
    ensures r.Some? ==> r.value < n
    ensures r.Some? && 0 <= l ==> r.value == l
    ensures r.Some? && l < 0 ==> r.value == n + l
  {
    if 0 <= l < n then Some(l) else if -(n as int) <= l < 0 then Some(n + l) else None
  }

  /** Every one of the first len labels reaches a slot among n. */
  predicate Resolves(len: nat, keys: seq<int>, n: nat) {
    |keys| >= len && forall i :: 0 <= i < len ==> PySlot(keys[i], n).Some?
  }

  /** The elements of xs whose label reaches slot b, in input order. */
  function Members<T>(xs: seq<T>, keys: seq<int>, n: nat, b: nat): (r: seq<T>)
    requires |keys| >= |xs|
    ensures multiset(r) <= multiset(xs)
    decreases |xs|
  {
    if xs == [] then []
    else
      var i := |xs| - 1;
      assert xs == xs[..i] + [xs[i]];
      Members(xs[..i], keys, n, b) + (if PySlot(keys[i], n) == Some(b) then [xs[i]] else [])
  }

  /** The n buckets: bucket b holds the members of slot b. */
  function Buckets<T>(xs: seq<T>, keys: seq<int>, n: nat): (r: seq<seq<T>>)
    requires |keys| >= |xs|
    ensures |r| == n
  {
    seq(n, b requires 0 <= b < n => Members(xs, keys, n, b))
  }

  /** Appending element i of the input extends exactly the bucket `keys[i]` reaches. */
  lemma MembersStep<T>(xs: seq<T>, keys: seq<int>, n: nat, i: nat, b: nat)
    requires i < |xs| && i < |keys|
    ensures Members(xs[..i + 1], keys, n, b)
         == Members(xs[..i], keys, n, b) + (if PySlot(keys[i], n) == Some(b) then [xs[i]] else [])
  {
    assert xs[..i + 1][..i] == xs[..i];
  }

  /** Adding one more element to the input adds it to exactly the bucket its label reaches. */
  lemma {:induction false} BucketsStep<T>(xs: seq<T>, keys: seq<int>, n: nat, i: nat)
    requires i < |xs| && i < |keys|
    requires PySlot(keys[i], n).Some?
    ensures Buckets(xs[..i + 1], keys, n)
         == Buckets(xs[..i], keys, n)[PySlot(keys[i], n).value := Buckets(xs[..i], keys, n)[PySlot(keys[i], n).value] + [xs[i]]]
  {
    var before, after := Buckets(xs[..i], keys, n), Buckets(xs[..i + 1], keys, n);
    var j := PySlot(keys[i], n).value;
    assert xs[..i + 1][..i] == xs[..i];
    forall b | 0 <= b < n
      ensures after[b] == before[j := before[j] + [xs[i]]][b]
    {
      assert after[b] == Members(xs[..i + 1], keys, n, b);
    }
  }

  /** The buckets partition the input: together they hold every element exactly as often as the input. */
  lemma {:induction false} BucketsPartition<T>(xs: seq<T>, keys: seq<int>, n: nat)
    requires Resolves(|xs|, keys, n)
    ensures multiset(Flatten(Buckets(xs, keys, n))) == multiset(xs)
    ensures |Flatten(Buckets(xs, keys, n))| == |xs|
    decreases |xs|
  {
    var all := Flatten(Buckets(xs, keys, n));
    if xs == [] {
      var empty := Buckets(xs, keys, n);
      assert forall b :: 0 <= b < n ==> empty[b] == [];
      FlattenEmpties(empty);
    } else {
      var i := |xs| - 1;
      var init, x := xs[..i], xs[i];
      assert xs[..i + 1] == xs;
      assert xs == init + [x];
      BucketsPartition(init, keys, n);
      BucketsStep(xs, keys, n, i);
      var j := PySlot(keys[i], n).value;
      var before := Buckets(init, keys, n);
      FlattenAppendAt(before, j, x);
      assert Buckets(xs, keys, n) == before[j := before[j] + [x]];
      assert multiset(all) == multiset(Flatten(before)) + multiset{x};
    }
    assert |multiset(all)| == |multiset(xs)|;
  }

  lemma {:induction false} FlattenEmpties<T>(ss: seq<seq<T>>)
    requires forall b :: 0 <= b < |ss| ==> ss[b] == []
    ensures Flatten(ss) == []
    decreases |ss|
  {
    if ss != [] {
      FlattenEmpties(ss[..|ss| - 1]);
    }
  }

  /** An element whose label reaches slot b is in bucket b. */
  lemma {:induction false} InMembers<T>(xs: seq<T>, keys: seq<int>, n: nat, i: nat)
    requires i < |xs| <= |keys|
    requires PySlot(keys[i], n).Some?
    ensures xs[i] in Members(xs, keys, n, PySlot(keys[i], n).value)
    decreases |xs|
  {
    var last := |xs| - 1;
    if i < last {
      assert xs[..last][i] == xs[i];
      InMembers(xs[..last], keys, n, i);
    }
  }

  /** The positions below len whose label reaches slot b, in increasing order:
      exactly those positions, each once. */
  function Positions(keys: seq<int>, len: nat, n: nat, b: nat): (ps: seq<nat>)
    requires |keys| >= len
    ensures forall k :: 0 <= k < |ps| ==> ps[k] < len && PySlot(keys[ps[k]], n) == Some(b)
    ensures forall k, l :: 0 <= k < l < |ps| ==> ps[k] < ps[l]
    ensures forall i :: 0 <= i < len && PySlot(keys[i], n) == Some(b) ==> i in ps
    decreases len
  {
    if len == 0 then []
    else Positions(keys, len - 1, n, b) + (if PySlot(keys[len - 1], n) == Some(b) then [len - 1] else [])
  }

  /** A bucket lists its elements in input order: its k-th element is the
      element at the k-th position whose label reaches the bucket. */
  lemma {:induction false} MembersInOrder<T>(xs: seq<T>, keys: seq<int>, n: nat, b: nat)
    requires |keys| >= |xs|
    ensures |Members(xs, keys, n, b)| == |Positions(keys, |xs|, n, b)|
    ensures forall k :: 0 <= k < |Positions(keys, |xs|, n, b)| ==>
              Members(xs, keys, n, b)[k] == xs[Positions(keys, |xs|, n, b)[k]]
    decreases |xs|
  {
    if xs != [] {
      var i := |xs| - 1;
      MembersInOrder(xs[..i], keys, n, b);
      var ms, ps := Members(xs[..i], keys, n, b), Positions(keys, i, n, b);
      forall k | 0 <= k < |ps|
        ensures ms[k] == xs[ps[k]]
      {
        assert xs[..i][ps[k]] == xs[ps[k]];
      }
    }
  }

  /** A bucket holds only elements of the grouped list. */
  lemma MembersWithin<T>(xs: seq<T>, keys: seq<int>, n: nat, b: nat, x: T)
    requires |keys| >= |xs| && x in Members(xs, keys, n, b)
    ensures x in xs
  {
    assert x in multiset(Members(xs, keys, n, b));
  }

  /** The buckets hold only elements of the grouped list. */
  lemma BucketsWithin<T>(xs: seq<T>, keys: seq<int>, n: nat)
    requires |keys| >= |xs|
    ensures forall bucket, x :: bucket in Buckets(xs, keys, n) && x in bucket ==> x in xs
  {
    forall bucket, x | bucket in Buckets(xs, keys, n) && x in bucket
      ensures x in xs
    {
      var b :| 0 <= b < n && Buckets(xs, keys, n)[b] == bucket;
      MembersWithin(xs, keys, n, b, x);
    }
  }
}
