/**
 * Runs that revisit nothing without paying: a run that moves freely along an acyclic relation, or else pays one unit of
 * a budget, is no longer than (budget + 1) times the number of places.
 */
module CountedRuns {
  import opened Wrappers
  import opened Sequences
  import opened Iteration

  type Relation<!T> = (T, T) -> bool

  ghost predicate IsPath<T>(rel: Relation<T>, path: seq<T>) {
    forall i, j :: 0 <= i && j == i + 1 && j < |path| ==> rel(path[i], path[j])
  }

  ghost predicate Acyclic<T(!new)>(rel: Relation<T>) {
    forall path :: |path| >= 2 && path[0] == path[|path| - 1] ==> !IsPath(rel, path)
  }

  lemma PartOfPath<T>(rel: Relation<T>, path: seq<T>, from: nat, to: nat)
    requires IsPath(rel, path) && from <= to <= |path|
    ensures IsPath(rel, path[from..to])
  {
  }

  lemma PathsAreShort<T(!new)>(rel: Relation<T>, places: set<T>, path: seq<T>)
    requires Acyclic(rel) && IsPath(rel, path) && forall k :: 0 <= k < |path| ==> path[k] in places
    ensures |path| <= |places|
  {
    forall i, j | 0 <= i < j < |path| ensures path[i] != path[j] {
      var part := path[i..j + 1];
      PartOfPath(rel, path, i, j + 1);
      assert part[0] == path[i] && part[|part| - 1] == path[j];
    }
    NoDupWithin(path, places);
  }

  /** Where a run is, and how much it has paid. */
  datatype Stop<T> = Stop(place: T, paid: int)

  /** A move is free, or pays one unit while less than the budget has been paid. */
  ghost predicate IsMove<T>(rel: Relation<T>, budget: int, x: Stop<T>, y: Stop<T>) {
    x.paid <= y.paid && (rel(x.place, y.place) || (x.paid < budget && y.paid == x.paid + 1))
  }

  ghost predicate IsCountedRun<T>(rel: Relation<T>, budget: int, places: set<T>, stops: seq<Stop<T>>) {
    && (forall k :: 0 <= k < |stops| ==> stops[k].place in places)
    && (forall i, j :: 0 <= i && j == i + 1 && j < |stops| ==> IsMove(rel, budget, stops[i], stops[j]))
  }

  /** The places visited since the last payment. */
  function Places<T>(stops: seq<Stop<T>>, start: nat): seq<T>
    requires start <= |stops|
  {
    seq(|stops| - start, k requires 0 <= k < |stops| - start => stops[start + k].place)
  }

  lemma ExtendPath<T>(rel: Relation<T>, path: seq<T>, place: T)
    requires IsPath(rel, path) && path != [] && rel(path[|path| - 1], place)
    ensures IsPath(rel, path + [place])
  {
  }

  /**
   * The visits since the last payment form a free path from `start`; the `payments` stretches before it visited
   * each place at most once.
   */
  lemma {:induction false} Stretches<T(!new)>(rel: Relation<T>, budget: nat, places: set<T>, stops: seq<Stop<T>>)
    returns (start: nat, payments: nat)
    requires Acyclic(rel) && IsCountedRun(rel, budget, places, stops) && stops != [] && stops[0].paid >= 0
    ensures start < |stops| && IsPath(rel, Places(stops, start))
    ensures start <= payments * |places| && payments <= budget && payments <= stops[|stops| - 1].paid
    decreases |stops|
  {
    var n := |stops| - 1;
    if n == 0 {
      start, payments := 0, 0;
    } else {
      var init := stops[..n];
      start, payments := Stretches(rel, budget, places, init);
      var path := Places(init, start);
      assert IsMove(rel, budget, stops[n - 1], stops[n]);
      if rel(stops[n - 1].place, stops[n].place) {
        ExtendPath(rel, path, stops[n].place);
        assert Places(stops, start) == path + [stops[n].place];
      } else {
        PathsAreShort(rel, places, path);
        OneMoreStretch(start, n, payments, |places|);
        start, payments := n, payments + 1;
      }
    }
  }

  lemma OneMoreStretch(start: nat, n: nat, payments: nat, size: nat)
    requires start <= payments * size && n <= start + size
    ensures n <= (payments + 1) * size
  {
    assert (payments + 1) * size == payments * size + size;
  }

  /** The bound. */
  lemma RunIsShort<T(!new)>(rel: Relation<T>, budget: nat, places: set<T>, stops: seq<Stop<T>>)
    requires Acyclic(rel) && IsCountedRun(rel, budget, places, stops)
    requires stops != [] ==> stops[0].paid >= 0
    ensures |stops| <= (budget + 1) * |places|
  {
    if stops != [] {
      var start, payments := Stretches(rel, budget, places, stops);
      PathsAreShort(rel, places, Places(stops, start));
      Scaled(payments, budget, |places|);
    }
  }

  lemma Scaled(a: nat, b: nat, size: nat)
    requires a <= b
    ensures a * size + size <= (b + 1) * size
  {
    assert (b - a) * size >= 0;
  }

  // ---- Runs of a step function ----

  /** Every step of `next` between known places is a move. */
  ghost predicate StepsAreMoves<X(!new), T>(
    next: X -> Option<X>, stop: X -> Stop<T>, rel: Relation<T>, budget: int, places: set<T>)
  {
    forall x, y :: next(x) == Some(y) ==> IsMove(rel, budget, stop(x), stop(y)) && stop(y).place in places
  }

  lemma CountedStep<T>(rel: Relation<T>, budget: int, places: set<T>, stops: seq<Stop<T>>, next: Stop<T>)
    requires IsCountedRun(rel, budget, places, stops) && stops != []
    requires next.place in places && IsMove(rel, budget, stops[|stops| - 1], next)
    ensures IsCountedRun(rel, budget, places, stops + [next])
  {
  }

  lemma {:induction false} StatesAreCounted<X(!new), T>(
    next: X -> Option<X>, stop: X -> Stop<T>, rel: Relation<T>, budget: int, places: set<T>, first: X, k: nat)
    returns (stops: seq<Stop<T>>)
    requires StepsAreMoves(next, stop, rel, budget, places) && stop(first).place in places
    requires At(next, Some(first), k).Some?
    ensures |stops| == k + 1 && stops[0] == stop(first) && stops[k] == stop(At(next, Some(first), k).value)
    ensures IsCountedRun(rel, budget, places, stops)
  {
    if k == 0 {
      stops := [stop(first)];
    } else {
      stops := StatesAreCounted(next, stop, rel, budget, places, first, k - 1);
      var x, y := At(next, Some(first), k - 1).value, At(next, Some(first), k).value;
      assert next(x) == Some(y);
      CountedStep(rel, budget, places, stops, stop(y));
      stops := stops + [stop(y)];
    }
  }

  /** A run whose steps are moves is over after (budget + 1) times the number of places. */
  lemma StepRunIsShort<X(!new), T(!new)>(
    next: X -> Option<X>, stop: X -> Stop<T>, rel: Relation<T>, budget: nat, places: set<T>, first: X, k: nat)
    requires Acyclic(rel) && StepsAreMoves(next, stop, rel, budget, places)
    requires stop(first).place in places && stop(first).paid >= 0 && At(next, Some(first), k).Some?
    ensures k < (budget + 1) * |places|
  {
    var stops := StatesAreCounted(next, stop, rel, budget, places, first, k);
    RunIsShort(rel, budget, places, stops);
  }
}
