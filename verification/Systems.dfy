/** Labelled transition systems.  Every concurrent component of the middleware is modelled
    as a partial function `next` from a state and a label to a state: the label says which
    thread takes which atomic step, and `None` says that the step is not enabled.  A run is
    a sequence of labels, so "every interleaving" is "every sequence of labels". */
module Systems {
  datatype Option<+T> = None | Some(value: T)

  /** The state reached by taking the labelled steps in order, if all of them are enabled. */
  function Run<S, L>(next: (S, L) -> Option<S>, s: S, ls: seq<L>): Option<S> {
    if ls == [] then Some(s)
    else
      match next(s, ls[0])
      case None => None
      case Some(s') => Run(next, s', ls[1..])
  }

  /** Runs compose. */
  lemma {:induction false} RunAppend<S, L>(next: (S, L) -> Option<S>, s: S, ls: seq<L>, ks: seq<L>)
    requires Run(next, s, ls).Some?
    ensures Run(next, s, ls + ks) == Run(next, Run(next, s, ls).value, ks)
    decreases |ls|
  {
    if ls == [] {
      assert ls + ks == ks;
    } else {
      assert (ls + ks)[1..] == ls[1..] + ks;
      RunAppend(next, next(s, ls[0]).value, ls[1..], ks);
    }
  }

  /** Every beginning of a run is a run. */
  lemma {:induction false} RunSplit<S, L>(next: (S, L) -> Option<S>, s: S, ls: seq<L>, ks: seq<L>)
    requires Run(next, s, ls + ks).Some?
    ensures Run(next, s, ls).Some? && Run(next, s, ls + ks) == Run(next, Run(next, s, ls).value, ks)
    decreases |ls|
  {
    if ls == [] {
      assert ls + ks == ks;
    } else {
      assert (ls + ks)[1..] == ls[1..] + ks;
      RunSplit(next, next(s, ls[0]).value, ls[1..], ks);
    }
  }

  lemma RunOne<S, L>(next: (S, L) -> Option<S>, s: S, l: L)
    ensures Run(next, s, [l]) == next(s, l)
  {
    if next(s, l).Some? {
      assert Run(next, next(s, l).value, [l][1..]) == next(s, l);
    }
  }

  /** A run followed by one more enabled step is a run. */
  lemma RunSnoc<S, L>(next: (S, L) -> Option<S>, s: S, ls: seq<L>, l: L)
    requires Run(next, s, ls).Some?
    ensures Run(next, s, ls + [l]) == next(Run(next, s, ls).value, l)
  {
    RunAppend(next, s, ls, [l]);
    RunOne(next, Run(next, s, ls).value, l);
  }

  ghost predicate Inductive<S(!new), L(!new)>(next: (S, L) -> Option<S>, inv: S -> bool) {
    forall s, l :: inv(s) && next(s, l).Some? ==> inv(next(s, l).value)
  }

  /** What every step keeps, every run keeps. */
  lemma {:induction false} RunKeeps<S(!new), L(!new)>(
      next: (S, L) -> Option<S>, inv: S -> bool, s: S, ls: seq<L>)
    requires Inductive(next, inv)
    requires inv(s) && Run(next, s, ls).Some?
    ensures inv(Run(next, s, ls).value)
    decreases |ls|
  {
    if ls != [] {
      RunKeeps(next, inv, next(s, ls[0]).value, ls[1..]);
    }
  }

  ghost predicate Decreasing<S(!new), L(!new)>(next: (S, L) -> Option<S>, inv: S -> bool, rank: S -> nat) {
    forall s, l :: inv(s) && next(s, l).Some? ==> rank(next(s, l).value) < rank(s)
  }

  /** If every step lowers a rank, the rank bounds the number of steps of every run. */
  lemma {:induction false} RunBound<S(!new), L(!new)>(
      next: (S, L) -> Option<S>, inv: S -> bool, rank: S -> nat, s: S, ls: seq<L>)
    requires Inductive(next, inv) && Decreasing(next, inv, rank)
    requires inv(s) && Run(next, s, ls).Some?
    ensures |ls| + rank(Run(next, s, ls).value) <= rank(s)
    decreases |ls|
  {
    if ls != [] {
      RunBound(next, inv, rank, next(s, ls[0]).value, ls[1..]);
    }
  }

  /** How often a value occurs in a sequence. */
  function Occurrences<T(==)>(xs: seq<T>, x: T): nat {
    if xs == [] then 0
    else
      var n := |xs| - 1;
      Occurrences(xs[..n], x) + if xs[n] == x then 1 else 0
  }

  lemma OccurrencesSnoc<T>(xs: seq<T>, y: T, x: T)
    ensures Occurrences(xs + [y], x) == Occurrences(xs, x) + if y == x then 1 else 0
  {
    assert (xs + [y])[..|xs|] == xs;
  }

  lemma {:induction false} OccurrencesCons<T>(y: T, xs: seq<T>, x: T)
    ensures Occurrences([y] + xs, x) == (if y == x then 1 else 0) + Occurrences(xs, x)
  {
    if xs == [] {
      assert [y] + xs == [] + [y];
      OccurrencesSnoc([], y, x);
    } else {
      var n := |xs| - 1;
      OccurrencesCons(y, xs[..n], x);
      assert ([y] + xs)[..|xs|] == [y] + xs[..n];
    }
  }

  lemma {:induction false} OccursIfIn<T>(xs: seq<T>, x: T)
    ensures x in xs <==> Occurrences(xs, x) > 0
  {
    if xs != [] {
      var n := |xs| - 1;
      OccursIfIn(xs[..n], x);
      assert xs == xs[..n] + [xs[n]];
    }
  }

  /** The sum of a weight over a sequence. */
  ghost function Sum<T>(f: T -> nat, xs: seq<T>): nat {
    if xs == [] then 0 else f(xs[0]) + Sum(f, xs[1..])
  }

  lemma {:induction false} SumUpdate<T>(f: T -> nat, xs: seq<T>, i: nat, x: T)
    requires i < |xs|
    ensures Sum(f, xs[i := x]) + f(xs[i]) == Sum(f, xs) + f(x)
    decreases i
  {
    if i == 0 {
      assert xs[0 := x][1..] == xs[1..];
    } else {
      assert xs[i := x][1..] == xs[1..][i - 1 := x];
      SumUpdate(f, xs[1..], i - 1, x);
    }
  }
}
