/** Shared vocabulary: optional values, bytes, and counting and adding over sequences. */
module Base {

  datatype Option<+T> = None | Some(value: T)

  newtype byte = x: int | 0 <= x < 256

  function Distance(a: int, b: int): nat { if a < b then b - a else a - b }

  function One(b: bool): nat { if b then 1 else 0 }

  /** How many elements of a sequence satisfy a predicate. */
  ghost function Count<T>(s: seq<T>, p: T -> bool): nat {
    if s == [] then 0 else Count(s[..|s| - 1], p) + One(p(s[|s| - 1]))
  }

  lemma {:induction false} CountConcat<T>(a: seq<T>, b: seq<T>, p: T -> bool)
    ensures Count(a + b, p) == Count(a, p) + Count(b, p)
  {
    if b == [] {
      assert a + b == a;
    } else {
      assert (a + b)[..|a + b| - 1] == a + b[..|b| - 1];
      CountConcat(a, b[..|b| - 1], p);
    }
  }

  lemma CountAppend<T>(s: seq<T>, v: T, p: T -> bool)
    ensures Count(s + [v], p) == Count(s, p) + One(p(v))
  {
    assert (s + [v])[..|s|] == s;
  }

  lemma CountHead<T>(s: seq<T>, p: T -> bool)
    requires s != []
    ensures Count(s, p) == One(p(s[0])) + Count(s[1..], p)
  {
    assert s == [s[0]] + s[1..];
    CountConcat([s[0]], s[1..], p);
    assert [s[0]] == [] + [s[0]];
    CountAppend([], s[0], p);
  }

  lemma {:induction false} CountUpdate<T>(s: seq<T>, i: nat, v: T, p: T -> bool)
    requires i < |s|
    ensures Count(s[i := v], p) + One(p(s[i])) == Count(s, p) + One(p(v))
  {
    var n := |s| - 1;
    if i == n {
      assert s[i := v][..n] == s[..n];
    } else {
      assert s[i := v][..n] == s[..n][i := v];
      CountUpdate(s[..n], i, v, p);
    }
  }

  lemma {:induction false} CountUniform<T>(s: seq<T>, p: T -> bool, b: bool)
    requires forall i :: 0 <= i < |s| ==> p(s[i]) == b
    ensures Count(s, p) == if b then |s| else 0
  {
    if s != [] {
      CountUniform(s[..|s| - 1], p, b);
    }
  }

  lemma {:induction false} CountHas<T>(s: seq<T>, i: nat, p: T -> bool)
    requires i < |s| && p(s[i])
    ensures Count(s, p) >= 1
  {
    if i < |s| - 1 {
      CountHas(s[..|s| - 1], i, p);
    }
  }

  lemma {:induction false} CountHasTwo<T>(s: seq<T>, i: nat, j: nat, p: T -> bool)
    requires i < j < |s| && p(s[i]) && p(s[j])
    ensures Count(s, p) >= 2
  {
    if j == |s| - 1 {
      CountHas(s[..j], i, p);
    } else {
      CountHasTwo(s[..|s| - 1], i, j, p);
    }
  }

  /** A sequence without its i-th element. */
  function Remove<T>(s: seq<T>, i: nat): (r: seq<T>)
    requires i < |s|
    ensures |r| == |s| - 1
    ensures forall k :: 0 <= k < |r| ==> r[k] == if k < i then s[k] else s[k + 1]
  {
    s[..i] + s[i + 1..]
  }

  lemma CountRemove<T>(s: seq<T>, i: nat, p: T -> bool)
    requires i < |s|
    ensures Count(Remove(s, i), p) + One(p(s[i])) == Count(s, p)
  {
    assert s == s[..i] + s[i..];
    CountConcat(s[..i], s[i..], p);
    CountHead(s[i..], p);
    assert s[i..][1..] == s[i + 1..];
    CountConcat(s[..i], s[i + 1..], p);
  }

  /** The sum of a measure over a sequence. */
  ghost function Sum<T>(s: seq<T>, f: T -> int): int {
    if s == [] then 0 else Sum(s[..|s| - 1], f) + f(s[|s| - 1])
  }

  lemma SumAppend<T>(s: seq<T>, v: T, f: T -> int)
    ensures Sum(s + [v], f) == Sum(s, f) + f(v)
  {
    assert (s + [v])[..|s|] == s;
  }

  lemma {:induction false} SumUpdate<T>(s: seq<T>, i: nat, v: T, f: T -> int)
    requires i < |s|
    ensures Sum(s[i := v], f) == Sum(s, f) - f(s[i]) + f(v)
  {
    var n := |s| - 1;
    if i == n {
      assert s[i := v][..n] == s[..n];
    } else {
      assert s[i := v][..n] == s[..n][i := v];
      SumUpdate(s[..n], i, v, f);
    }
  }

  /** What the steps of a run contribute, in order; `at` is the state after some steps. */
  ghost function Gathered<S, E, T>(at: seq<E> -> S, steps: seq<E>, f: (S, E) -> seq<T>): seq<T> {
    if steps == [] then [] else
    Gathered(at, steps[..|steps| - 1], f) + f(at(steps[..|steps| - 1]), steps[|steps| - 1])
  }

  /** A queue that gives out in order what it takes in. */
  lemma Handover<T>(given: seq<T>, queue: seq<T>, entered: seq<T>, out: seq<T>, rest: seq<T>, more: seq<T>)
    requires given + queue == entered && out + rest == queue + more
    ensures (given + out) + rest == entered + more
  {
    assert (given + out) + rest == given + (out + rest);
    assert given + (queue + more) == (given + queue) + more;
  }

  /** Some step of the run, in the state it found, is of this kind. */
  ghost predicate Once<S, E>(at: seq<E> -> S, steps: seq<E>, p: (S, E) -> bool) {
    steps != [] && (Once(at, steps[..|steps| - 1], p) || p(at(steps[..|steps| - 1]), steps[|steps| - 1]))
  }

  /** How many steps of the run, in the states they found, are of this kind. */
  ghost function Times<S, E>(at: seq<E> -> S, steps: seq<E>, p: (S, E) -> bool): nat {
    if steps == [] then 0 else
    Times(at, steps[..|steps| - 1], p) + One(p(at(steps[..|steps| - 1]), steps[|steps| - 1]))
  }
}
