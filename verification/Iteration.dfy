/** Runs of a partial step function: each state has one successor, or none. */
module Iteration {
  import opened Wrappers

  /** The state after `k` steps, None when the run is over by then. */
  function At<X>(next: X -> Option<X>, first: Option<X>, k: nat): Option<X> {
    if k == 0 then first
    else
      match At(next, first, k - 1)
      case None => None
      case Some(x) => next(x)
  }

  /** The first `k` states, fewer when the run is over before. */
  function FirstOf<X>(next: X -> Option<X>, first: Option<X>, k: nat): seq<X> {
    if k == 0 then []
    else
      var before := FirstOf(next, first, k - 1);
      match At(next, first, k - 1)
      case None => before
      case Some(x) => before + [x]
  }

  lemma {:induction false} LengthOfFirst<X>(next: X -> Option<X>, first: Option<X>, k: nat)
    ensures |FirstOf(next, first, k)| <= k
    ensures k > 0 && |FirstOf(next, first, k)| == k ==> At(next, first, k - 1).Some?
  {
    if k > 0 { LengthOfFirst(next, first, k - 1); }
  }

  /** A run shorter than `limit` has a last state. */
  lemma {:induction false} LastState<X>(next: X -> Option<X>, first: Option<X>, limit: nat, k: nat) returns (last: nat)
    requires forall j: nat :: At(next, first, j).Some? ==> j < limit
    requires At(next, first, k).Some?
    ensures k <= last < limit && At(next, first, last).Some? && At(next, first, last + 1).None?
    decreases limit - k
  {
    if At(next, first, k + 1).None? {
      last := k;
    } else {
      last := LastState(next, first, limit, k + 1);
    }
  }

  // ---- A run of many small steps against a run of few large ones ----

  function Iterate<C>(step: C -> C, c: C, n: nat): C {
    if n == 0 then c else step(Iterate(step, c, n - 1))
  }

  /** What the first `n` small steps make of the large run: the states at which `view` sees one. */
  function Views<C, X>(step: C -> C, view: C -> Option<X>, c: C, n: nat): seq<X> {
    if n == 0 then []
    else
      var before := Views(step, view, c, n - 1);
      match view(Iterate(step, c, n - 1))
      case None => before
      case Some(x) => before + [x]
  }

  /** `pending` is the large state a small one is on its way to, and `distance` how far it still is. */
  datatype Simulation<!C, !X> = Simulation(
    step: C -> C,
    view: C -> Option<X>,
    pending: C -> Option<X>,
    distance: C -> nat,
    good: C -> bool,
    next: X -> Option<X>)

  ghost predicate StepSimulates<C, X>(s: Simulation<C, X>, c: C) {
    && s.good(s.step(c))
    && (match s.view(c)
        case None => s.pending(s.step(c)) == s.pending(c)
        case Some(x) => s.pending(c) == Some(x) && s.pending(s.step(c)) == s.next(x))
    && (s.view(c).None? && s.pending(c).Some? ==> s.distance(s.step(c)) < s.distance(c))
  }

  ghost predicate Simulates<C(!new), X>(s: Simulation<C, X>) {
    forall c {:trigger StepSimulates(s, c)} :: s.good(c) ==> StepSimulates(s, c)
  }

  /**
   * What small steps show is always a beginning of the large run, and the small run is on its way to the next
   * large state.
   */
  lemma {:induction false} SmallRunRefinesLarge<C(!new), X>(s: Simulation<C, X>, c: C, n: nat)
    requires Simulates(s) && s.good(c)
    ensures var views, end := Views(s.step, s.view, c, n), Iterate(s.step, c, n);
            && s.good(end)
            && views == FirstOf(s.next, s.pending(c), |views|)
            && s.pending(end) == At(s.next, s.pending(c), |views|)
  {
    if n > 0 {
      SmallRunRefinesLarge(s, c, n - 1);
      assert StepSimulates(s, Iterate(s.step, c, n - 1));
    }
  }

  /** When the large run has at most `limit` states, no more are ever shown. */
  lemma ViewsAreFew<C(!new), X>(s: Simulation<C, X>, c: C, limit: nat, n: nat)
    requires Simulates(s) && s.good(c) && forall k: nat :: At(s.next, s.pending(c), k).Some? ==> k < limit
    ensures |Views(s.step, s.view, c, n)| <= limit
  {
    var shown := |Views(s.step, s.view, c, n)|;
    SmallRunRefinesLarge(s, c, n);
    LengthOfFirst(s.next, s.pending(c), shown);
  }

  /** A pending state is reached in as many steps as it is away, showing nothing else on the way. */
  lemma {:induction false} PendingIsReached<C(!new), X>(s: Simulation<C, X>, c: C, n: nat) returns (later: nat)
    requires Simulates(s) && s.good(c) && s.pending(Iterate(s.step, c, n)).Some?
    ensures n <= later <= n + s.distance(Iterate(s.step, c, n)) && s.view(Iterate(s.step, c, later)).Some?
    ensures Views(s.step, s.view, c, later) == Views(s.step, s.view, c, n)
    decreases s.distance(Iterate(s.step, c, n))
  {
    var now := Iterate(s.step, c, n);
    SmallRunRefinesLarge(s, c, n);
    assert StepSimulates(s, now);
    later := n;
    if s.view(now).None? {
      later := PendingIsReached(s, c, n + 1);
    }
  }

  /** After a state is shown, the next one is pending. */
  lemma NextIsPending<C(!new), X>(s: Simulation<C, X>, c: C, n: nat)
    requires Simulates(s) && s.good(c) && s.view(Iterate(s.step, c, n)).Some?
    ensures |Views(s.step, s.view, c, n + 1)| == |Views(s.step, s.view, c, n)| + 1
    ensures s.pending(Iterate(s.step, c, n + 1)) == At(s.next, s.pending(c), |Views(s.step, s.view, c, n)| + 1)
  {
    SmallRunRefinesLarge(s, c, n + 1);
  }

  /** And the other way round: every state of the large run is shown, within `far` + 1 small steps each. */
  lemma {:induction false} LargeRunIsRefined<C(!new), X>(s: Simulation<C, X>, c: C, far: nat, k: nat) returns (n: nat)
    requires Simulates(s) && s.good(c) && forall x :: s.distance(x) <= far
    requires At(s.next, s.pending(c), k).Some?
    ensures n <= (far + 1) * k + far && |Views(s.step, s.view, c, n)| == k && s.view(Iterate(s.step, c, n)).Some?
  {
    if k == 0 {
      n := PendingIsReached(s, c, 0);
    } else {
      var before := LargeRunIsRefined(s, c, far, k - 1);
      NextIsPending(s, c, before);
      n := PendingIsReached(s, c, before + 1);
      OneMore(far, k);
    }
  }

  lemma OneMore(far: nat, k: nat)
    requires k > 0
    ensures (far + 1) * (k - 1) + far + 1 + far == (far + 1) * k + far
  {
  }
}
