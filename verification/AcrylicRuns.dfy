/**
 * Runs of a compiled graph against the definition it came from (core/graph/topology/acrylic_topology.py).
 *
 * What the nodes do, what a prep node does and what a condition evaluates to are parameters. A condition that cannot be
 * evaluated counts as false. Nodes read the retry count and do not write it.
 */
module AcrylicRuns {
  import opened Wrappers
  import opened Iteration
  import opened Acrylic

  datatype Meaning<!S> = Meaning(
    init: S -> S,
    prep: (string, S) -> S,
    node: (string, S, int) -> S,
    eval: (string, S, int) -> bool)

  // ---- The definition's own run ----

  /** A definition node about to run. */
  datatype Visit<S> = Visit(id: string, value: S, retries: int)

  /** Where the first true condition leads, and whether that costs a retry. */
  function Choose<S>(conds: seq<Cond>, default_: string, m: Meaning<S>, v: S, retries: int): (string, bool) {
    if conds == [] then (default_, false)
    else if m.eval(conds[0].condition, v, retries) then (conds[0].target, Charged(conds[0]))
    else Choose(conds[1..], default_, m, v, retries)
  }

  /** The first true condition decides, the default when none is true. */
  lemma {:induction false} ChooseTakesTheFirst<S>(conds: seq<Cond>, default_: string, m: Meaning<S>, v: S, retries: int,
      k: nat)
    requires k <= |conds| && forall j :: 0 <= j < k ==> !m.eval(conds[j].condition, v, retries)
    requires k < |conds| ==> m.eval(conds[k].condition, v, retries)
    ensures Choose(conds, default_, m, v, retries) ==
            if k < |conds| then (conds[k].target, Charged(conds[k])) else (default_, false)
  {
    if k > 0 { ChooseTakesTheFirst(conds[1..], default_, m, v, retries, k - 1); }
  }

  /** The target of the source's plain edge, the end when it has none. */
  ghost function PlainTarget(edges: seq<Edge>, source: string): string {
    if t :| HasPlain(edges, source, t) then t else END_NAME
  }

  /** Where a node goes, given the state it leaves. */
  ghost function Successor<S>(d: Definition, id: string, m: Meaning<S>, v: S, retries: int): (string, bool) {
    if HasGuards(d.edges, id) then Choose(Conds(d.edges, id), Default(d.edges, id), m, v, retries)
    else (PlainTarget(d.edges, id), false)
  }

  /** Arriving at a target: nothing to run at the end, else the target with the state its prep makes. */
  function Land<S>(m: Meaning<S>, target: string, v: S, retries: int): Option<Visit<S>> {
    if PrepTarget(target) == End then None else Some(Visit(target, m.prep(target, v), retries))
  }

  ghost function NextVisit<S>(d: Definition, m: Meaning<S>, x: Visit<S>): Option<Visit<S>> {
    var v := m.node(x.id, x.value, x.retries);
    var (target, charged) := Successor(d, x.id, m, v, x.retries);
    Land(m, target, v, x.retries + if charged then 1 else 0)
  }

  /** The definition's run, one visit a step. */
  ghost function NextOf<S>(d: Definition, m: Meaning<S>): Visit<S> -> Option<Visit<S>> {
    (x: Visit<S>) => NextVisit(d, m, x)
  }

  // ---- The compiled run ----

  /** A compiled node about to run. */
  datatype Config<S> = Config(name: Name, value: S, retries: int)

  function Route<S>(entries: seq<Entry>, default_: Name, m: Meaning<S>, v: S, retries: int): Name {
    if entries == [] then default_
    else if m.eval(entries[0].condition, v, retries) then
      if entries[0].charged then entries[0].incTarget else entries[0].target
    else Route(entries[1..], default_, m, v, retries)
  }

  /** The one successor: by the router when there is one, else along the edge, else the end. */
  ghost function Follow<S>(g: Graph, name: Name, m: Meaning<S>, v: S, retries: int): Name {
    if name.Node? && name.id in g.routers then
      Route(g.routers[name.id].entries, g.routers[name.id].default_, m, v, retries)
    else if to :| (name, to) in g.edges then to
    else End
  }

  function RunNode<S>(m: Meaning<S>, c: Config<S>): Config<S> {
    match c.name
    case Init => c.(value := m.init(c.value))
    case Prep(id) => c.(value := m.prep(id, c.value))
    case Node(id) => c.(value := m.node(id, c.value, c.retries))
    case Budget(_) => c.(retries := c.retries + 1)
    case End => c
  }

  ghost function Step<S>(g: Graph, m: Meaning<S>, c: Config<S>): Config<S> {
    var after := RunNode(m, c);
    after.(name := Follow(g, c.name, m, after.value, after.retries))
  }

  ghost function StepOf<S>(g: Graph, m: Meaning<S>): Config<S> -> Config<S> {
    (c: Config<S>) => Step(g, m, c)
  }

  function Start<S>(v: S, retries: int): Config<S> {
    Config(Init, v, retries)
  }

  /** The configuration after `n` steps. */
  ghost function Run<S>(g: Graph, m: Meaning<S>, v: S, retries: int, n: nat): Config<S> {
    Iterate(StepOf(g, m), Start(v, retries), n)
  }

  function VisitOf<S>(c: Config<S>): Option<Visit<S>> {
    if c.name.Node? then Some(Visit(c.name.id, c.value, c.retries)) else None
  }

  /** The definition nodes run in the first `n` steps. */
  ghost function Visits<S>(g: Graph, m: Meaning<S>, v: S, retries: int, n: nat): seq<Visit<S>> {
    Views(StepOf(g, m), VisitOf, Start(v, retries), n)
  }

  // ---- Targets ----

  predicate IsCondTarget(c: Cond, target: string) {
    c.target == target
  }

  /** A target some run or some edge of the compiled graph can name. */
  ghost predicate IsUsedTarget(d: Definition, target: string) {
    || IsChargedTarget(d.edges, target)
    || (exists s :: HasPlain(d.edges, s, target))
    || (exists s :: HasGuards(d.edges, s) && Default(d.edges, s) == target)
    || (exists s, k :: 0 <= k < |Conds(d.edges, s)| && IsCondTarget(Conds(d.edges, s)[k], target))
  }

  ghost predicate Known(g: Graph, n: Name) {
    n == End || n in g.names
  }

  /** The node a router entry leads to. */
  function Leads(e: Entry): Name {
    if e.charged then e.incTarget else e.target
  }

  /** Every edge and every router leads to an added node or to the end. */
  ghost predicate TargetsAreNodes(g: Graph) {
    && (forall from, to :: (from, to) in g.edges ==> Known(g, to))
    && (forall s :: s in g.routers ==>
          Known(g, g.routers[s].default_)
          && forall k :: 0 <= k < |g.routers[s].entries| ==> Known(g, Leads(g.routers[s].entries[k])))
  }

  ghost predicate TargetsAreDeclared(d: Definition) {
    forall target :: IsUsedTarget(d, target) ==> PrepTarget(target) == End || target in d.ids
  }

  /** The conditions of a source are conditions of its edges. */
  lemma {:induction false} CondsComeFromEdges(edges: seq<Edge>, s: string, k: nat) returns (j: nat, i: nat)
    requires k < |Conds(edges, s)|
    ensures j < |edges| && GuardsFrom(edges[j], s)
    ensures i < |CondsOf(edges[j])| && CondsOf(edges[j])[i] == Conds(edges, s)[k]
    decreases |edges|
  {
    var n := |edges| - 1;
    var before := Conds(edges[..n], s);
    if k < |before| {
      j, i := CondsComeFromEdges(edges[..n], s, k);
    } else {
      j, i := n, k - |before|;
    }
  }

  lemma ChargedCondHasBudget(edges: seq<Edge>, s: string, k: nat)
    requires k < |Conds(edges, s)| && Charged(Conds(edges, s)[k])
    ensures IsChargedTarget(edges, Conds(edges, s)[k].target)
  {
    var j, i := CondsComeFromEdges(edges, s, k);
    assert ChargesIn(edges[j], Conds(edges, s)[k].target);
  }

  /**
   * A charged entry always leads to a budget node that was added, although routers and budget nodes are made by
   * different loops.
   */
  lemma ChargedEntriesHaveBudgets(d: Definition, g: Graph, s: string, k: nat)
    requires IsCompiled(d, g) && s in g.routers && k < |g.routers[s].entries| && g.routers[s].entries[k].charged
    ensures Leads(g.routers[s].entries[k]) in g.names
  {
    ChargedCondHasBudget(d.edges, s, k);
  }

  lemma DeclaredTargetsAreNodes(d: Definition, g: Graph)
    requires IsCompiled(d, g) && TargetsAreDeclared(d)
    ensures TargetsAreNodes(g)
  {
    forall s | s in g.routers ensures Known(g, g.routers[s].default_) {
      assert IsUsedTarget(d, Default(d.edges, s));
    }
    forall s, k | s in g.routers && 0 <= k < |g.routers[s].entries| ensures Known(g, Leads(g.routers[s].entries[k])) {
      if g.routers[s].entries[k].charged {
        ChargedEntriesHaveBudgets(d, g, s, k);
      } else {
        assert IsCondTarget(Conds(d.edges, s)[k], Conds(d.edges, s)[k].target);
        assert IsUsedTarget(d, Conds(d.edges, s)[k].target);
      }
    }
    forall from, to | (from, to) in g.edges ensures Known(g, to) {
      if from.Budget? {
        assert IsUsedTarget(d, from.id);
      } else if from.Node? {
        var target :| HasPlain(d.edges, from.id, target) && to == PrepTarget(target);
        assert IsUsedTarget(d, target);
      }
    }
  }

  lemma NodesDeclareTarget(d: Definition, g: Graph, target: string)
    requires IsCompiled(d, g) && TargetsAreNodes(g) && IsUsedTarget(d, target)
    ensures PrepTarget(target) == End || target in d.ids
  {
    if IsChargedTarget(d.edges, target) {
      assert IsEdge(d, Budget(target), PrepTarget(target));
    } else if s :| HasPlain(d.edges, s, target) {
      assert IsEdge(d, Node(s), PrepTarget(target));
    } else if s :| HasGuards(d.edges, s) && Default(d.edges, s) == target {
      assert Known(g, g.routers[s].default_);
    } else {
      var s, k :| 0 <= k < |Conds(d.edges, s)| && IsCondTarget(Conds(d.edges, s)[k], target);
      var j, i := CondsComeFromEdges(d.edges, s, k);
      assert HasGuards(d.edges, s);
      assert Known(g, Leads(g.routers[s].entries[k]));
      if Charged(Conds(d.edges, s)[k]) { ChargedCondHasBudget(d.edges, s, k); }
    }
  }

  /**
   * Every router and edge target is an added node or the end exactly when every target the definition uses is
   * declared.
   */
  lemma TargetsAreNodesIff(d: Definition, g: Graph)
    requires IsCompiled(d, g)
    ensures TargetsAreNodes(g) <==> TargetsAreDeclared(d)
  {
    if TargetsAreDeclared(d) {
      DeclaredTargetsAreNodes(d, g);
    } else if TargetsAreNodes(g) {
      forall target | IsUsedTarget(d, target) ensures PrepTarget(target) == End || target in d.ids {
        NodesDeclareTarget(d, g, target);
      }
    }
  }

  // ---- One step ----

  /** A source has conditional edges or one plain target, not both and not several. */
  ghost predicate OneSuccessor(d: Definition) {
    forall s, t :: HasPlain(d.edges, s, t) ==>
      !HasGuards(d.edges, s) && forall u :: HasPlain(d.edges, s, u) ==> t == u
  }

  /** The definition visit a compiled configuration is on its way to. */
  function Pending<S>(d: Definition, m: Meaning<S>, c: Config<S>): Option<Visit<S>>
    requires d.ids != []
  {
    match c.name
    case Init => Some(Visit(d.ids[0], m.prep(d.ids[0], m.init(c.value)), c.retries))
    case Prep(id) => Some(Visit(id, m.prep(id, c.value), c.retries))
    case Node(id) => Some(Visit(id, c.value, c.retries))
    case Budget(id) => Land(m, id, c.value, c.retries + 1)
    case End => None
  }

  /**
   * The router picks what the definition's first true condition picks, by way of the budget node when it is
   * charged.
   */
  lemma {:induction false} RouteIsChoice<S>(conds: seq<Cond>, default_: string, m: Meaning<S>, v: S, retries: int)
    ensures var (target, charged) := Choose(conds, default_, m, v, retries);
            Route(EntriesOf(conds), PrepTarget(default_), m, v, retries) ==
            if charged then Budget(target) else PrepTarget(target)
    decreases |conds|
  {
    if conds != [] {
      RouteIsChoice(conds[1..], default_, m, v, retries);
      assert EntriesOf(conds)[1..] == EntriesOf(conds[1..]);
    }
  }

  lemma NodeFollows<S>(d: Definition, g: Graph, m: Meaning<S>, id: string, v: S, retries: int)
    requires IsCompiled(d, g) && OneSuccessor(d)
    ensures var (target, charged) := Successor(d, id, m, v, retries);
            Follow(g, Node(id), m, v, retries) == if charged then Budget(target) else PrepTarget(target)
  {
    if HasGuards(d.edges, id) {
      RouteIsChoice(Conds(d.edges, id), Default(d.edges, id), m, v, retries);
    } else if t :| HasPlain(d.edges, id, t) {
      assert PlainTarget(d.edges, id) == t;
      assert IsEdge(d, Node(id), PrepTarget(t));
      forall to | (Node(id), to) in g.edges ensures to == PrepTarget(t) {
        assert IsEdge(d, Node(id), to);
      }
    }
  }

  lemma OtherFollows<S>(d: Definition, g: Graph, m: Meaning<S>, name: Name, v: S, retries: int)
    requires IsCompiled(d, g) && name in g.names && !name.Node?
    ensures Follow(g, name, m, v, retries) ==
            match name
            case Init => Prep(d.ids[0])
            case Prep(id) => Node(id)
            case Budget(id) => PrepTarget(id)
            case _ => End
  {
    assert IsName(d, name);
    var to := match name
              case Init => Prep(d.ids[0])
              case Prep(id) => Node(id)
              case Budget(id) => PrepTarget(id)
              case _ => End;
    assert IsEdge(d, name, to);
    forall other | (name, other) in g.edges ensures other == to {
      assert IsEdge(d, name, other);
    }
  }

  /** A prep, budget or init step brings its visit closer; a node step makes the definition's own step. */
  lemma StepFollowsDefinition<S>(d: Definition, g: Graph, m: Meaning<S>, c: Config<S>)
    requires IsCompiled(d, g) && OneSuccessor(d) && c.name in g.names
    ensures Pending(d, m, Step(g, m, c)) ==
            if c.name.Node? then NextVisit(d, m, Visit(c.name.id, c.value, c.retries)) else Pending(d, m, c)
  {
    if c.name.Node? {
      NodeFollows(d, g, m, c.name.id, m.node(c.name.id, c.value, c.retries), c.retries);
    } else {
      var after := RunNode(m, c);
      OtherFollows(d, g, m, c.name, after.value, after.retries);
    }
  }

  lemma {:induction false} RouteIsKnown<S>(g: Graph, entries: seq<Entry>, default_: Name, m: Meaning<S>, v: S,
      retries: int)
    requires Known(g, default_) && forall k :: 0 <= k < |entries| ==> Known(g, Leads(entries[k]))
    ensures Known(g, Route(entries, default_, m, v, retries))
    decreases |entries|
  {
    if entries != [] { RouteIsKnown(g, entries[1..], default_, m, v, retries); }
  }

  lemma StepStaysOnGraph<S>(g: Graph, m: Meaning<S>, c: Config<S>)
    requires TargetsAreNodes(g)
    ensures Known(g, Step(g, m, c).name)
  {
    if c.name.Node? && c.name.id in g.routers {
      var after, router := RunNode(m, c), g.routers[c.name.id];
      RouteIsKnown(g, router.entries, router.default_, m, after.value, after.retries);
    }
  }

  // ---- Whole runs ----

  /** How many steps a configuration is away from its visit. */
  function Distance(n: Name): nat {
    match n
    case Init => 2
    case Budget(_) => 2
    case Prep(_) => 1
    case _ => 0
  }

  ghost predicate Runnable(d: Definition, g: Graph) {
    IsCompiled(d, g) && OneSuccessor(d) && TargetsAreDeclared(d)
  }

  /** A compiled graph is runnable when its targets are declared and no two edges with a source share it. */
  lemma DistinctSourcesAreRunnable(d: Definition, g: Graph)
    requires IsCompiled(d, g) && TargetsAreDeclared(d)
    requires forall j, k :: 0 <= j < k < |d.edges| && d.edges[j].source.Some? ==>
               d.edges[j].source != d.edges[k].source
    ensures OneSuccessor(d) && Runnable(d, g)
  {
  }

  lemma EndStays<S>(d: Definition, g: Graph, m: Meaning<S>, c: Config<S>)
    requires IsCompiled(d, g) && c.name == End
    ensures Step(g, m, c) == c
  {
    forall to ensures (End, to) !in g.edges {
      assert !IsEdge(d, End, to);
    }
  }

  /** The compiled run as a run of small steps for the definition's. */
  ghost function SimulationOf<S>(d: Definition, g: Graph, m: Meaning<S>): Simulation<Config<S>, Visit<S>>
    requires d.ids != []
  {
    Simulation(StepOf(g, m), VisitOf, (c: Config<S>) => Pending(d, m, c), (c: Config<S>) => Distance(c.name),
               (c: Config<S>) => Known(g, c.name), NextOf(d, m))
  }

  lemma StepComesCloser<S>(d: Definition, g: Graph, m: Meaning<S>, c: Config<S>)
    requires Runnable(d, g) && c.name in g.names && !c.name.Node? && Pending(d, m, c).Some?
    ensures Distance(Step(g, m, c).name) < Distance(c.name)
  {
    var after := RunNode(m, c);
    OtherFollows(d, g, m, c.name, after.value, after.retries);
  }

  lemma EveryStepSimulates<S>(d: Definition, g: Graph, m: Meaning<S>, c: Config<S>)
    requires Runnable(d, g) && Known(g, c.name)
    ensures StepSimulates(SimulationOf(d, g, m), c)
  {
    DeclaredTargetsAreNodes(d, g);
    StepStaysOnGraph(g, m, c);
    if c.name == End {
      EndStays(d, g, m, c);
    } else {
      StepFollowsDefinition(d, g, m, c);
      if !c.name.Node? && Pending(d, m, c).Some? { StepComesCloser(d, g, m, c); }
    }
  }

  lemma CompiledRunSimulates<S(!new)>(d: Definition, g: Graph, m: Meaning<S>, v: S, retries: int)
    requires Runnable(d, g)
    ensures Simulates(SimulationOf(d, g, m)) && SimulationOf(d, g, m).good(Start(v, retries))
  {
    forall c | SimulationOf(d, g, m).good(c) ensures StepSimulates(SimulationOf(d, g, m), c) {
      EveryStepSimulates(d, g, m, c);
    }
    assert IsName(d, Init);
  }

  /** The definition's first visit. */
  function First<S>(d: Definition, m: Meaning<S>, v: S, retries: int): Option<Visit<S>>
    requires d.ids != []
  {
    Some(Visit(d.ids[0], m.prep(d.ids[0], m.init(v)), retries))
  }

  /**
   * Main result: the definition nodes any compiled run has visited after any number of steps are exactly the first
   * visits of the definition's own run, with the same states and retry counts, and it is on its way to the next one.
   */
  lemma CompiledRunRefinesDefinition<S(!new)>(d: Definition, g: Graph, m: Meaning<S>, v: S, retries: int, n: nat)
    requires Runnable(d, g)
    ensures var visits, c := Visits(g, m, v, retries, n), Run(g, m, v, retries, n);
            && Known(g, c.name)
            && visits == FirstOf(NextOf(d, m), First(d, m, v, retries), |visits|)
            && Pending(d, m, c) == At(NextOf(d, m), First(d, m, v, retries), |visits|)
  {
    CompiledRunSimulates(d, g, m, v, retries);
    SmallRunRefinesLarge(SimulationOf(d, g, m), Start(v, retries), n);
  }

  /**
   * And the other way round: every visit of the definition's run is made by the compiled run, within three steps a
   * visit.
   */
  lemma DefinitionRunIsCompiled<S(!new)>(d: Definition, g: Graph, m: Meaning<S>, v: S, retries: int, k: nat)
    returns (n: nat)
    requires Runnable(d, g) && At(NextOf(d, m), First(d, m, v, retries), k).Some?
    ensures n <= 3 * k + 2 && |Visits(g, m, v, retries, n)| == k && Run(g, m, v, retries, n).name.Node?
  {
    CompiledRunSimulates(d, g, m, v, retries);
    n := LargeRunIsRefined(SimulationOf(d, g, m), Start(v, retries), 2, k);
  }

  // ---- The retry count ----

  function ChargeOf<S>(c: Config<S>): Option<string> {
    if c.name.Budget? then Some(c.name.id) else None
  }

  /** The charged edges taken in the first `n` steps, by target: the budget nodes run. */
  ghost function ChargesPaid<S>(g: Graph, m: Meaning<S>, v: S, retries: int, n: nat): seq<string> {
    Views(StepOf(g, m), ChargeOf, Start(v, retries), n)
  }

  /** The retry count is its start value plus the charged edges taken. */
  lemma {:induction false} RetryCountIsChargesPaid<S>(g: Graph, m: Meaning<S>, v: S, retries: int, n: nat)
    ensures Run(g, m, v, retries, n).retries == retries + |ChargesPaid(g, m, v, retries, n)|
  {
    if n > 0 { RetryCountIsChargesPaid(g, m, v, retries, n - 1); }
  }

  ghost predicate MentionsCount(condition: string) {
    exists i: nat :: OccursAt(condition, "retry_count", i)
  }

  /** One condition of an edge that charges for the target: of a list by flag or text, alone by its text. */
  ghost predicate EdgeCharges(e: Edge, target: string) {
    match e
    case Many(_, conditions, _) =>
      exists c :: c in conditions && c.target == target && (c.increment || MentionsCount(c.condition))
    case One(_, condition, to, _) => to == Some(target) && MentionsCount(condition)
    case Plain(_, _) => false
  }

  /** Main result: there is a budget node for a target exactly when some edge charges for it. */
  lemma BudgetNodeIff(d: Definition, g: Graph, target: string)
    requires IsCompiled(d, g)
    ensures Budget(target) in g.names <==> exists e :: e in d.edges && EdgeCharges(e, target)
  {
    forall e: Edge ensures ChargesIn(e, target) <==> EdgeCharges(e, target) { EdgeChargesIff(e, target); }
    if IsChargedTarget(d.edges, target) {
      var k :| 0 <= k < |d.edges| && ChargesIn(d.edges[k], target);
      assert EdgeCharges(d.edges[k], target);
    }
  }

  lemma EdgeChargesIff(e: Edge, target: string)
    ensures ChargesIn(e, target) <==> EdgeCharges(e, target)
  {
    match e
    case Many(_, conditions, _) =>
      forall c | c in conditions ensures Charged(c) <==> c.increment || MentionsCount(c.condition) {
        ContainsMeaning(c.condition, "retry_count");
      }
      if ChargesIn(e, target) {
        var k :| 0 <= k < |CondsOf(e)| && Charged(CondsOf(e)[k]) && CondsOf(e)[k].target == target;
        assert CondsOf(e)[k] in conditions;
      }
      if c :| c in conditions && c.target == target && Charged(c) {
        var k :| 0 <= k < |conditions| && conditions[k] == c;
        assert Charged(CondsOf(e)[k]);
      }
    case One(_, condition, to, _) =>
      ContainsMeaning(condition, "retry_count");
      if to.Some? { assert CondsOf(e)[0] == Cond(condition, to.value, false); }
    case Plain(_, _) =>
  }

  /** Every guard that mentions the retry count is charged, in either form of conditional edge. */
  lemma GuardsOnTheCountAreCharged(d: Definition, g: Graph, s: string, k: nat)
    requires IsCompiled(d, g) && s in g.routers && k < |g.routers[s].entries|
    ensures (exists i: nat :: OccursAt(g.routers[s].entries[k].condition, "retry_count", i)) ==>
              g.routers[s].entries[k].charged && Leads(g.routers[s].entries[k]) == Budget(Conds(d.edges, s)[k].target)
              && Budget(Conds(d.edges, s)[k].target) in g.names
  {
    ContainsMeaning(g.routers[s].entries[k].condition, "retry_count");
    if g.routers[s].entries[k].charged { ChargedEntriesHaveBudgets(d, g, s, k); }
  }
}
