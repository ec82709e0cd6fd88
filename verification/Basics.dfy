// Small shared vocabulary: optional values, sums over sequences, and runs of
// labelled transition systems.

module Basics {
  datatype Option<+T> = None | Some(value: T)
}

/** Weighted sums over sequences.  A count is a sum of zeroes and ones. */
module Counting {

  ghost function Sum<T>(s: seq<T>, f: T -> int): int {
    if s == [] then 0 else Sum(s[..|s| - 1], f) + f(s[|s| - 1])
  }

  lemma {:induction false} SumAppend<T>(s: seq<T>, x: T, f: T -> int)
    ensures Sum(s + [x], f) == Sum(s, f) + f(x)
  {
    assert (s + [x])[..|s|] == s;
  }

  lemma {:induction false} SumUpdate<T>(s: seq<T>, i: nat, x: T, f: T -> int)
    requires i < |s|
    ensures Sum(s[i := x], f) == Sum(s, f) - f(s[i]) + f(x)
  {
    var n := |s| - 1;
    if i == n {
      assert s[i := x][..n] == s[..n];
    } else {
      assert s[i := x][..n] == s[..n][i := x];
      SumUpdate(s[..n], i, x, f);
    }
  }

  lemma {:induction false} SumMonotone<T>(s: seq<T>, f: T -> int, g: T -> int)
    requires forall k :: 0 <= k < |s| ==> f(s[k]) <= g(s[k])
    ensures Sum(s, f) <= Sum(s, g)
  {
    if s != [] {
      SumMonotone(s[..|s| - 1], f, g);
    }
  }

  /** Elementwise comparison of two sequences under one weight. */
  lemma {:induction false} SumBelow<T>(s: seq<T>, t: seq<T>, f: T -> int)
    requires |s| == |t| && forall k :: 0 <= k < |s| ==> f(s[k]) <= f(t[k])
    ensures Sum(s, f) <= Sum(t, f)
  {
    if s != [] {
      SumBelow(s[..|s| - 1], t[..|t| - 1], f);
    }
  }

  lemma {:induction false} SumZero<T>(s: seq<T>, f: T -> int)
    requires forall k :: 0 <= k < |s| ==> f(s[k]) == 0
    ensures Sum(s, f) == 0
  {
    if s != [] {
      SumZero(s[..|s| - 1], f);
    }
  }

  /** With non-negative weights a sum is at least each of its terms. */
  lemma {:induction false} SumAtLeast<T>(s: seq<T>, f: T -> int)
    requires forall k :: 0 <= k < |s| ==> f(s[k]) >= 0
    ensures Sum(s, f) >= 0
    ensures forall k :: 0 <= k < |s| ==> Sum(s, f) >= f(s[k])
  {
    if s != [] {
      SumAtLeast(s[..|s| - 1], f);
      assert forall k :: 0 <= k < |s| - 1 ==> s[..|s| - 1][k] == s[k];
    }
  }
}

/** Finite runs of a labelled transition system given by a partial step function. */
module Runs {
  import opened Basics

  ghost function Exec<S, A>(step: (S, A) -> Option<S>, s: S, acts: seq<A>): Option<S>
    decreases |acts|
  {
    if acts == [] then Some(s)
    else
      match step(s, acts[0])
      case None => None
      case Some(t) => Exec(step, t, acts[1..])
  }

  /** A property kept by every step holds at the end of every run. */
  lemma {:induction false} InvariantHolds<S(!new), A(!new)>(
    step: (S, A) -> Option<S>, inv: S -> bool, s: S, acts: seq<A>)
    requires inv(s) && Exec(step, s, acts).Some?
    requires forall t, a :: inv(t) && step(t, a).Some? ==> inv(step(t, a).value)
    ensures inv(Exec(step, s, acts).value)
    decreases |acts|
  {
    if acts != [] {
      InvariantHolds(step, inv, step(s, acts[0]).value, acts[1..]);
    }
  }

  lemma {:induction false} ExecAppend<S, A>(step: (S, A) -> Option<S>, s: S, a: seq<A>, b: seq<A>)
    requires Exec(step, s, a).Some?
    ensures Exec(step, s, a + b) == Exec(step, Exec(step, s, a).value, b)
    decreases |a|
  {
    if a == [] {
      assert a + b == b;
    } else {
      assert (a + b)[1..] == a[1..] + b;
      ExecAppend(step, step(s, a[0]).value, a[1..], b);
    }
  }

  /** One more step at the end of a run. */
  lemma ExecNext<S, A>(step: (S, A) -> Option<S>, s: S, acts: seq<A>, t: S, a: A, u: S)
    requires Exec(step, s, acts) == Some(t) && step(t, a) == Some(u)
    ensures Exec(step, s, acts + [a]) == Some(u)
  {
    ExecAppend(step, s, acts, [a]);
    assert Exec(step, t, [a]) == Some(u);
  }
}
