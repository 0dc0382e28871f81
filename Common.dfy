/** Values shared by the clustering pipeline: articles, the Python exceptions the
    pipeline can raise, and small sequence helpers. */
module Common {

  /** A feed or knowledge-board article: its text and its publication time in
      epoch milliseconds. Other JSON fields are carried along untouched by the
      pipeline and are not represented. */
  datatype Article = Article(content: string, published: int)

  /** The Python exceptions the modelled code can raise. */
  datatype Error =
    | IndexError          // a list subscript out of range
    | TypeError           // iterating over, or taking len() of, a missing dict entry (None)
    | ZeroDivisionError   // `/` with a zero divisor
    | ValueError          // scikit-learn refusing its input: no vocabulary term left, or a bad cluster count

  datatype Option<+T> = None | Some(value: T)

  datatype Result<+T> = Ok(value: T) | Err(error: Error)

  /** `d.get(key, [])` for a dict entry that may be missing. */
  function OrEmpty<T>(o: Option<seq<T>>): seq<T> {
    match o
    case None => []
    case Some(s) => s
  }

  /** Sum of a sequence of counts. */
  function Sum(s: seq<nat>): nat {
    if s == [] then 0 else Sum(s[..|s| - 1]) + s[|s| - 1]
  }

  /** The concatenation of a sequence of lists, in order. */
  function Flatten<T>(ss: seq<seq<T>>): seq<T> {
    if ss == [] then [] else Flatten(ss[..|ss| - 1]) + ss[|ss| - 1]
  }

  lemma {:induction false} SumStep(s: seq<nat>, i: nat)
    requires i < |s|
    ensures Sum(s[..i + 1]) == Sum(s[..i]) + s[i]
  {
    assert s[..i + 1][..i] == s[..i];
  }

  /** A prefix never sums to more than the whole sequence. */
  lemma {:induction false} SumPrefixLe(s: seq<nat>, i: nat)
    requires i <= |s|
    ensures Sum(s[..i]) <= Sum(s)
    decreases |s| - i
  {
    if i < |s| {
      SumStep(s, i);
      SumPrefixLe(s, i + 1);
    } else {
      assert s[..i] == s;
    }
  }

  /** Appending x to list j of ss adds exactly one x to the flattened contents. */
  lemma {:induction false} FlattenAppendAt<T>(ss: seq<seq<T>>, j: nat, x: T)
    requires j < |ss|
    ensures multiset(Flatten(ss[j := ss[j] + [x]])) == multiset(Flatten(ss)) + multiset{x}
    decreases |ss|
  {
    var ss' := ss[j := ss[j] + [x]];
    var n := |ss| - 1;
    assert Flatten(ss') == Flatten(ss'[..n]) + ss'[n];
    assert Flatten(ss) == Flatten(ss[..n]) + ss[n];
    if j == n {
      assert ss'[..n] == ss[..n];
      assert ss'[n] == ss[n] + [x];
      assert multiset(Flatten(ss')) == multiset(Flatten(ss[..n])) + multiset(ss[n]) + multiset{x};
    } else {
      assert ss'[..n] == ss[..n][j := ss[j] + [x]];
      assert ss'[n] == ss[n];
      FlattenAppendAt(ss[..n], j, x);
      assert multiset(Flatten(ss')) == multiset(Flatten(ss[..n])) + multiset{x} + multiset(ss[n]);
    }
  }

  /** f applied to every element, in order. */
  function Map<A, B>(f: A -> B, xs: seq<A>): (ys: seq<B>)
    ensures |ys| == |xs|
  {
    if xs == [] then [] else Map(f, xs[..|xs| - 1]) + [f(xs[|xs| - 1])]
  }

  lemma {:induction false} MapAt<A, B>(f: A -> B, xs: seq<A>, i: nat)
    requires i < |xs|
    ensures Map(f, xs)[i] == f(xs[i])
    decreases |xs|
  {
    var n := |xs| - 1;
    if i < n {
      MapAt(f, xs[..n], i);
    }
  }

  lemma MapStep<A, B>(f: A -> B, xs: seq<A>, i: nat)
    requires i < |xs|
    ensures Map(f, xs[..i + 1]) == Map(f, xs[..i]) + [f(xs[i])]
  {
    assert xs[..i + 1][..i] == xs[..i];
  }
}
