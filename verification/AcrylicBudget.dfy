/**
 * Retry budgets end a run (core/graph/topology/acrylic_topology.py): when every cycle of a definition takes a charged
 * edge whose guard needs the retry count below K, a run over N nodes makes at most (K + 1) * N node visits.
 */
module AcrylicBudget {
  import opened Wrappers
  import opened Sequences
  import opened Iteration
  import opened CountedRuns
  import opened Acrylic
  import opened R = AcrylicRuns

  /** A charged edge that is true only while the retry count is below `bound`. */
  ghost predicate Bounding<S(!new)>(m: Meaning<S>, c: Cond, bound: int) {
    Charged(c) && forall v, retries :: m.eval(c.condition, v, retries) ==> retries < bound
  }

  ghost predicate FreeCond<S(!new)>(m: Meaning<S>, c: Cond, bound: int, target: string) {
    c.target == target && !Bounding(m, c, bound)
  }

  /** One node can follow another without taking a bounding edge. */
  ghost predicate FreeMove<S(!new)>(d: Definition, m: Meaning<S>, bound: int, from: string, to: string) {
    || HasPlain(d.edges, from, to)
    || (HasGuards(d.edges, from) && Default(d.edges, from) == to)
    || (exists k :: 0 <= k < |Conds(d.edges, from)| && FreeCond(m, Conds(d.edges, from)[k], bound, to))
  }

  ghost function FreeMoves<S(!new)>(d: Definition, m: Meaning<S>, bound: int): Relation<string> {
    (from, to) => FreeMove(d, m, bound, from, to)
  }

  /** Every cycle takes a bounding edge. */
  ghost predicate EveryCycleIsBounded<S(!new)>(d: Definition, m: Meaning<S>, bound: int) {
    Acyclic(FreeMoves(d, m, bound))
  }

  // ---- One move ----

  lemma {:induction false} ChooseMeaning<S(!new)>(conds: seq<Cond>, default_: string, m: Meaning<S>, v: S, retries: int)
    ensures var (target, charged) := Choose(conds, default_, m, v, retries);
            (target == default_ && !charged)
            || exists k :: 0 <= k < |conds| && m.eval(conds[k].condition, v, retries)
                           && target == conds[k].target && charged == Charged(conds[k])
    decreases |conds|
  {
    if conds != [] && !m.eval(conds[0].condition, v, retries) {
      ChooseMeaning(conds[1..], default_, m, v, retries);
      var (target, charged) := Choose(conds[1..], default_, m, v, retries);
      if !(target == default_ && !charged) {
        var k :| 0 <= k < |conds[1..]| && m.eval(conds[1..][k].condition, v, retries)
                 && target == conds[1..][k].target && charged == Charged(conds[1..][k]);
        assert conds[k + 1] == conds[1..][k];
      }
    }
  }

  /**
   * A move goes to a used target; it is free and keeps the count at least as high, or is charged while the count
   * is below the bound.
   */
  lemma MoveMeaning<S(!new)>(d: Definition, m: Meaning<S>, bound: int, x: Visit<S>, y: Visit<S>)
    requires NextVisit(d, m, x) == Some(y)
    ensures IsUsedTarget(d, y.id) && PrepTarget(y.id) != End
    ensures IsMove(FreeMoves(d, m, bound), bound, Stop(x.id, x.retries), Stop(y.id, y.retries))
  {
    var v := m.node(x.id, x.value, x.retries);
    if HasGuards(d.edges, x.id) {
      var conds := Conds(d.edges, x.id);
      ChooseMeaning(conds, Default(d.edges, x.id), m, v, x.retries);
      var (target, charged) := Choose(conds, Default(d.edges, x.id), m, v, x.retries);
      if !(target == Default(d.edges, x.id) && !charged) {
        var k :| 0 <= k < |conds| && m.eval(conds[k].condition, v, x.retries)
                 && target == conds[k].target && charged == Charged(conds[k]);
        assert IsCondTarget(conds[k], y.id);
        assert Bounding(m, conds[k], bound) || FreeCond(m, conds[k], bound, y.id);
      }
    } else {
      assert HasPlain(d.edges, x.id, y.id);
    }
  }

  // ---- Whole runs ----

  function StopOf<S>(): Visit<S> -> Stop<string> {
    (x: Visit<S>) => Stop(x.id, x.retries)
  }

  lemma MovesAreMoves<S(!new)>(d: Definition, m: Meaning<S>, bound: int)
    requires TargetsAreDeclared(d)
    ensures StepsAreMoves(NextOf(d, m), StopOf<S>(), FreeMoves(d, m, bound), bound, Elements(d.ids))
  {
    forall x, y | NextOf(d, m)(x) == Some(y)
      ensures IsMove(FreeMoves(d, m, bound), bound, StopOf<S>()(x), StopOf<S>()(y))
      ensures StopOf<S>()(y).place in Elements(d.ids)
    {
      MoveMeaning(d, m, bound, x, y);
    }
  }

  /** The definition's run is over after (K + 1) * N visits. */
  lemma DefinitionRunIsShort<S(!new)>(d: Definition, m: Meaning<S>, v: S, bound: nat, k: nat)
    requires d.ids != [] && TargetsAreDeclared(d) && EveryCycleIsBounded(d, m, bound)
    requires At(NextOf(d, m), First(d, m, v, 0), k).Some?
    ensures k < (bound + 1) * |Elements(d.ids)|
  {
    MovesAreMoves(d, m, bound);
    StepRunIsShort(
      NextOf(d, m), StopOf<S>(), FreeMoves(d, m, bound), bound, Elements(d.ids), First(d, m, v, 0).value, k);
  }

  lemma RunsStopBefore<S(!new)>(d: Definition, m: Meaning<S>, v: S, bound: nat, limit: nat)
    requires d.ids != [] && TargetsAreDeclared(d) && EveryCycleIsBounded(d, m, bound)
    requires limit == (bound + 1) * |Elements(d.ids)|
    ensures forall k: nat :: At(NextOf(d, m), First(d, m, v, 0), k).Some? ==> k < limit
  {
    forall k: nat | At(NextOf(d, m), First(d, m, v, 0), k).Some? ensures k < limit {
      DefinitionRunIsShort(d, m, v, bound, k);
    }
  }

  /** Main result: a compiled run over N nodes, from retry count zero, makes at most (K + 1) * N node visits. */
  lemma CompiledRunIsBounded<S(!new)>(d: Definition, g: Graph, m: Meaning<S>, v: S, bound: nat, n: nat)
    requires Runnable(d, g) && EveryCycleIsBounded(d, m, bound)
    ensures |Visits(g, m, v, 0, n)| <= (bound + 1) * |Elements(d.ids)|
  {
    var s, limit := SimulationOf(d, g, m), (bound + 1) * |Elements(d.ids)|;
    CompiledRunSimulates(d, g, m, v, 0);
    assert s.next == NextOf(d, m) && s.pending(Start(v, 0)) == First(d, m, v, 0);
    RunsStopBefore(d, m, v, bound, limit);
    ViewsAreFew(s, Start(v, 0), limit, n);
  }

  lemma LastVisit<S(!new)>(d: Definition, m: Meaning<S>, v: S, bound: nat) returns (last: nat)
    requires d.ids != [] && TargetsAreDeclared(d) && EveryCycleIsBounded(d, m, bound)
    ensures last < (bound + 1) * |Elements(d.ids)|
    ensures At(NextOf(d, m), First(d, m, v, 0), last).Some?
    ensures At(NextOf(d, m), First(d, m, v, 0), last + 1).None?
  {
    var limit := (bound + 1) * |Elements(d.ids)|;
    RunsStopBefore(d, m, v, bound, limit);
    last := LastState(NextOf(d, m), First(d, m, v, 0), limit, 0);
  }

  lemma NothingPendingEnds<S>(d: Definition, g: Graph, m: Meaning<S>, c: Config<S>)
    requires IsCompiled(d, g) && Known(g, c.name) && Pending(d, m, c).None?
    ensures R.Step(g, m, c).name == End
  {
    if c.name == End {
      EndStays(d, g, m, c);
    } else {
      var after := RunNode(m, c);
      OtherFollows(d, g, m, c.name, after.value, after.retries);
    }
  }

  /** After a visit with none to follow, the compiled run is at its end in two steps. */
  lemma LastVisitEnds<S(!new)>(d: Definition, g: Graph, m: Meaning<S>, v: S, at: nat)
    requires Runnable(d, g) && R.Run(g, m, v, 0, at).name.Node?
    requires At(NextOf(d, m), First(d, m, v, 0), |Visits(g, m, v, 0, at)| + 1).None?
    ensures R.Run(g, m, v, 0, at + 2).name == End
  {
    CompiledRunRefinesDefinition(d, g, m, v, 0, at + 1);
    assert |Visits(g, m, v, 0, at + 1)| == |Visits(g, m, v, 0, at)| + 1;
    NothingPendingEnds(d, g, m, R.Run(g, m, v, 0, at + 1));
  }

  /** And so the compiled run ends, within three steps a visit. */
  lemma CompiledRunEnds<S(!new)>(d: Definition, g: Graph, m: Meaning<S>, v: S, bound: nat) returns (n: nat)
    requires Runnable(d, g) && EveryCycleIsBounded(d, m, bound)
    ensures n <= 3 * ((bound + 1) * |Elements(d.ids)|) + 1 && R.Run(g, m, v, 0, n).name == End
  {
    var last := LastVisit(d, m, v, bound);
    var at := DefinitionRunIsCompiled(d, g, m, v, 0, last);
    LastVisitEnds(d, g, m, v, at);
    n := at + 2;
  }
}
