/** Values that may be missing, and runs of a system of concurrent steps. */
module Wrappers {

  datatype Option<+T> = None | Some(value: T) {
    predicate IsFailure() {
      None?
    }

    function PropagateFailure<U>(): Option<U>
      requires None?
    {
      None
    }

    function Extract(): T
      requires Some?
    {
      value
    }
  }
}

/** Labelled runs. A protocol is an initial-state predicate and a step relation
    `next(s, e, s')`; its atomic steps (one mutex section, one file operation or
    one core call each) are named by events, so that a claim can say which steps
    happened and in which order. Threads are interleaved in any way at all. */
module Runs {

  datatype Run<S, E> = Run(states: seq<S>, events: seq<E>) {
    ghost predicate Shaped() {
      |states| == |events| + 1
    }
  }

  ghost predicate IsRun<S(!new), E(!new)>(r: Run<S, E>, init: S -> bool, next: (S, E, S) -> bool) {
    && r.Shaped()
    && init(r.states[0])
    && forall i :: 0 <= i < |r.events| ==> next(r.states[i], r.events[i], r.states[i + 1])
  }

  /** Any state will do to begin with. */
  ghost predicate Anywhere<S>(s: S) {
    true
  }

  /** A run and one step more. */
  lemma Longer<S(!new), E(!new)>(r: Run<S, E>, init: S -> bool, next: (S, E, S) -> bool, e: E, s': S)
    returns (q: Run<S, E>)
    requires IsRun(r, init, next) && next(r.states[|r.events|], e, s')
    ensures IsRun(q, init, next) && q.states == r.states + [s'] && q.events == r.events + [e]
  {
    q := Run(r.states + [s'], r.events + [e]);
    forall i | 0 <= i < |q.events|
      ensures next(q.states[i], q.events[i], q.states[i + 1])
    {
      if i < |r.events| {
        assert next(r.states[i], r.events[i], r.states[i + 1]);
      }
    }
  }

  /** A predicate every step of a stretch of the run keeps, kept to its end. */
  lemma {:induction false} Kept<S(!new), E(!new)>(r: Run<S, E>, step: (S, E, S) -> bool, inv: S -> bool,
                                                        lo: nat, hi: nat)
    requires r.Shaped() && lo <= hi < |r.states|
    requires inv(r.states[lo])
    requires forall i :: lo <= i < hi ==> step(r.states[i], r.events[i], r.states[i + 1])
    requires forall s, e, s' :: inv(s) && step(s, e, s') ==> inv(s')
    ensures forall i :: lo <= i <= hi ==> inv(r.states[i])
    decreases hi - lo
  {
    if lo < hi {
      Kept(r, step, inv, lo, hi - 1);
      assert step(r.states[hi - 1], r.events[hi - 1], r.states[hi]);
    }
  }
}
