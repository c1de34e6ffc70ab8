/**
 * Agent definitions with edges of their own, and the graph they are compiled to
 * (core/graph/topology/acrylic_topology.py).
 *
 * The first half is the definition's own meaning: where a node goes next. The second half is the compiled graph: a
 * prep node in front of every definition node, a budget node in front of every charged target, and one router per
 * source of conditional edges. `StateGraph` and `Build` are the compiler as it runs.
 */
module Acrylic {
  import opened Wrappers
  import opened Sequences

  const END_NAME := "__end__"

  const START_NAME := "__start__"

  const RETRY_COUNT := "retry_count"

  // ---- Definitions ----

  datatype Cond = Cond(condition: string, target: string, increment: bool)

  /**
   * An edge's source is its "source" or "from", its target its "target" or "to"; either may be missing. A default
   * left out is "__end__".
   */
  datatype Edge =
    | Many(source: Option<string>, conditions: seq<Cond>, default_: string)
    | One(source: Option<string>, condition: string, target: Option<string>, alternative: string)
    | Plain(source: Option<string>, target: Option<string>)

  /** `ids` are the nodes' ids or names, "" for a node with neither. */
  datatype Definition = Definition(ids: seq<string>, edges: seq<Edge>)

  predicate Contains(s: string, part: string) {
    part <= s || (s != [] && Contains(s[1..], part))
  }

  predicate OccursAt(s: string, part: string, i: nat) {
    i + |part| <= |s| && s[i..i + |part|] == part
  }

  lemma OccursInTail(s: string, part: string, i: nat)
    requires s != []
    ensures OccursAt(s[1..], part, i) <==> OccursAt(s, part, i + 1)
  {
    if i + 1 + |part| <= |s| {
      var inTail, inWhole := s[1..][i..i + |part|], s[i + 1..i + 1 + |part|];
      assert |inTail| == |inWhole| && forall k :: 0 <= k < |inTail| ==> inTail[k] == inWhole[k];
    }
  }

  /** The substring test. */
  lemma {:induction false} ContainsMeaning(s: string, part: string)
    ensures Contains(s, part) <==> exists i: nat :: OccursAt(s, part, i)
  {
    if part <= s {
      assert OccursAt(s, part, 0);
    } else if s != [] {
      ContainsMeaning(s[1..], part);
      if i: nat :| OccursAt(s[1..], part, i) {
        OccursInTail(s, part, i);
      }
      if i: nat :| OccursAt(s, part, i) {
        assert i > 0;
        OccursInTail(s, part, i - 1);
      }
    }
  }

  /** A conditional edge costs one retry when it says so or when its condition mentions the count. */
  predicate Charged(c: Cond) {
    c.increment || Contains(c.condition, RETRY_COUNT)
  }

  // ---- Where a node goes next ----

  predicate IsGuard(e: Edge) {
    e.Many? || (e.One? && e.target.Some?)
  }

  predicate GuardsFrom(e: Edge, source: string) {
    IsGuard(e) && e.source == Some(source)
  }

  /** A lone condition without a target is skipped. */
  function CondsOf(e: Edge): seq<Cond> {
    match e
    case Many(_, conditions, _) => conditions
    case One(_, condition, Some(target), _) => [Cond(condition, target, false)]
    case _ => []
  }

  function DefaultOf(e: Edge): string
    requires IsGuard(e)
  {
    if e.Many? then e.default_ else e.alternative
  }

  predicate HasGuards(edges: seq<Edge>, source: string) {
    exists k :: 0 <= k < |edges| && GuardsFrom(edges[k], source)
  }

  /** All conditions of a source, in declaration order across its edges. */
  function Conds(edges: seq<Edge>, source: string): seq<Cond> {
    if edges == [] then []
    else
      var before, last := Conds(edges[..|edges| - 1], source), edges[|edges| - 1];
      if GuardsFrom(last, source) then before + CondsOf(last) else before
  }

  /** The default of the first conditional edge of a source. */
  function Default(edges: seq<Edge>, source: string): string {
    if edges == [] then END_NAME
    else if GuardsFrom(edges[0], source) then DefaultOf(edges[0])
    else Default(edges[1..], source)
  }

  predicate IsPlain(e: Edge, source: string, target: string) {
    e.Plain? && e.source == Some(source) && e.target == Some(target)
  }

  predicate HasPlain(edges: seq<Edge>, source: string, target: string) {
    exists k :: 0 <= k < |edges| && IsPlain(edges[k], source, target)
  }

  // ---- The compiled graph ----

  /** The compiled graph's nodes, told apart by what they are for. */
  datatype Name = Init | Prep(id: string) | Node(id: string) | Budget(id: string) | End

  datatype Entry = Entry(condition: string, target: Name, incTarget: Name, charged: bool)

  datatype Router = Router(entries: seq<Entry>, default_: Name)

  datatype Graph = Graph(names: set<Name>, edges: set<(Name, Name)>, routers: map<string, Router>)

  function PrepTarget(target: string): Name {
    if target == "" || target == END_NAME then End else Prep(target)
  }

  function EntryOf(c: Cond): Entry {
    Entry(c.condition, PrepTarget(c.target), Budget(c.target), Charged(c))
  }

  function EntriesOf(conds: seq<Cond>): seq<Entry> {
    seq(|conds|, k requires 0 <= k < |conds| => EntryOf(conds[k]))
  }

  predicate ChargesIn(e: Edge, target: string) {
    exists k :: 0 <= k < |CondsOf(e)| && Charged(CondsOf(e)[k]) && CondsOf(e)[k].target == target
  }

  /** Some condition, of an edge with or without a source, charges for this target. */
  predicate IsChargedTarget(edges: seq<Edge>, target: string) {
    exists k :: 0 <= k < |edges| && ChargesIn(edges[k], target)
  }

  ghost predicate IsName(d: Definition, n: Name) {
    match n
    case Init => true
    case Prep(id) => id in d.ids
    case Node(id) => id in d.ids
    case Budget(id) => IsChargedTarget(d.edges, id)
    case End => false
  }

  ghost predicate IsEdge(d: Definition, from: Name, to: Name)
    requires d.ids != []
  {
    match from
    case Init => to == Prep(d.ids[0])
    case Prep(id) => id in d.ids && to == Node(id)
    case Budget(id) => IsChargedTarget(d.edges, id) && to == PrepTarget(id)
    case Node(id) => exists target :: HasPlain(d.edges, id, target) && to == PrepTarget(target)
    case End => false
  }

  /** What a definition must be compiled to. */
  ghost predicate IsCompiled(d: Definition, g: Graph) {
    && d.ids != []
    && (forall n :: n in g.names <==> IsName(d, n))
    && (forall from, to :: (from, to) in g.edges <==> IsEdge(d, from, to))
    && (forall s :: s in g.routers <==> HasGuards(d.edges, s))
    && (forall s :: s in g.routers ==>
          g.routers[s] == Router(EntriesOf(Conds(d.edges, s)), PrepTarget(Default(d.edges, s))))
  }

  // ---- The loops that wire edges ----

  type Groups = map<string, Router>

  ghost predicate GroupsFor(edges: seq<Edge>, groups: Groups) {
    && (forall s :: s in groups <==> HasGuards(edges, s))
    && (forall s :: s in groups ==> groups[s] == Router(EntriesOf(Conds(edges, s)), PrepTarget(Default(edges, s))))
  }

  lemma HasGuardsStep(edges: seq<Edge>, i: nat, s: string)
    requires i < |edges|
    ensures HasGuards(edges[..i + 1], s) <==> HasGuards(edges[..i], s) || GuardsFrom(edges[i], s)
    ensures Conds(edges[..i + 1], s) ==
            if GuardsFrom(edges[i], s) then Conds(edges[..i], s) + CondsOf(edges[i]) else Conds(edges[..i], s)
  {
    var shorter, longer := edges[..i], edges[..i + 1];
    assert longer[..i] == shorter;
    assert forall k :: 0 <= k < i ==> longer[k] == shorter[k];
    assert longer[i] == edges[i];
  }

  lemma {:induction false} NoGuardsNoConds(edges: seq<Edge>, s: string)
    requires !HasGuards(edges, s)
    ensures Conds(edges, s) == []
    decreases |edges|
  {
    if edges != [] {
      var n := |edges| - 1;
      HasGuardsStep(edges, n, s);
      assert edges[..n + 1] == edges;
      NoGuardsNoConds(edges[..n], s);
    }
  }

  lemma HasGuardsHead(edges: seq<Edge>, s: string)
    requires edges != []
    ensures HasGuards(edges, s) <==> GuardsFrom(edges[0], s) || HasGuards(edges[1..], s)
  {
    assert forall k :: 0 <= k < |edges[1..]| ==> edges[1..][k] == edges[k + 1];
    if HasGuards(edges, s) {
      var k :| 0 <= k < |edges| && GuardsFrom(edges[k], s);
      if k > 0 { assert GuardsFrom(edges[1..][k - 1], s); }
    }
  }

  lemma {:induction false} DefaultStep(edges: seq<Edge>, e: Edge, s: string)
    ensures Default(edges + [e], s) ==
            if HasGuards(edges, s) then Default(edges, s) else if GuardsFrom(e, s) then DefaultOf(e) else END_NAME
    decreases |edges|
  {
    if edges == [] {
      assert edges + [e] == [e];
      assert [e][1..] == [];
    } else {
      assert (edges + [e])[1..] == edges[1..] + [e];
      DefaultStep(edges[1..], e, s);
      HasGuardsHead(edges, s);
    }
  }

  lemma EntriesOfSum(a: seq<Cond>, b: seq<Cond>)
    ensures EntriesOf(a + b) == EntriesOf(a) + EntriesOf(b)
  {
  }

  /** Entries join their source's group, or start it. */
  function Joined(groups: Groups, source: string, entries: seq<Entry>, default_: Name): Groups {
    groups[source := if source in groups then Router(groups[source].entries + entries, groups[source].default_)
                     else Router(entries, default_)]
  }

  function AddToGroups(groups: Groups, e: Edge): Groups {
    if !IsGuard(e) || e.source.None? then groups
    else Joined(groups, e.source.value, EntriesOf(CondsOf(e)), PrepTarget(DefaultOf(e)))
  }

  lemma GroupsStep(edges: seq<Edge>, i: nat, groups: Groups)
    requires i < |edges| && GroupsFor(edges[..i], groups)
    ensures GroupsFor(edges[..i + 1], AddToGroups(groups, edges[i]))
  {
    var e, before := edges[i], edges[..i];
    var after := AddToGroups(groups, e);
    assert edges[..i + 1] == before + [e];
    forall s: string
      ensures s in after <==> HasGuards(edges[..i + 1], s)
      ensures s in after ==>
                after[s] == Router(EntriesOf(Conds(edges[..i + 1], s)), PrepTarget(Default(edges[..i + 1], s)))
    {
      HasGuardsStep(edges, i, s);
      DefaultStep(before, e, s);
      if GuardsFrom(e, s) {
        EntriesOfSum(Conds(before, s), CondsOf(e));
        if !HasGuards(before, s) {
          NoGuardsNoConds(before, s);
          assert [] + CondsOf(e) == CondsOf(e);
        }
      }
    }
  }

  // ---- The compiler as it runs ----

  datatype BuildError = MissingId | Duplicate(id: string) | Reserved(id: string) | NoNodes

  predicate IsReserved(id: string) {
    id == END_NAME || id == START_NAME
  }

  /** The first node that cannot be added. */
  function FirstError(ids: seq<string>): Option<BuildError> {
    if ids == [] then None
    else
      var init, last := ids[..|ids| - 1], ids[|ids| - 1];
      if FirstError(init).Some? then FirstError(init)
      else if last == "" then Some(MissingId)
      else if last in init then Some(Duplicate(last))
      else if IsReserved(last) then Some(Reserved(last))
      else None
  }

  class StateGraph {
    var names: set<Name>
    var edges: set<(Name, Name)>
    var routers: map<string, Router>

    ghost function Abs(): Graph
      reads this
    {
      Graph(names, edges, routers)
    }

    constructor ()
      ensures Abs() == Graph({}, {}, map[])
    {
      names, edges, routers := {}, {}, map[];
    }

    method AddNode(n: Name) returns (added: bool)
      modifies this
      ensures added == (n !in old(names))
      ensures Abs() == if added then old(Abs()).(names := old(names) + {n}) else old(Abs())
    {
      if n in names {
        return false;
      }
      names := names + {n};
      return true;
    }

    method AddEdge(from: Name, to: Name)
      modifies this
      ensures Abs() == old(Abs()).(edges := old(edges) + {(from, to)})
    {
      edges := edges + {(from, to)};
    }

    method AddConditionalEdges(source: string, router: Router)
      modifies this
      ensures Abs() == old(Abs()).(routers := old(routers)[source := router])
    {
      routers := routers[source := router];
    }

    method AddIsolatedAgent(id: string) returns (error: Option<BuildError>)
      modifies this
      ensures error == if Prep(id) in old(names) then Some(Duplicate(id))
                       else if IsReserved(id) then Some(Reserved(id))
                       else if Node(id) in old(names) then Some(Duplicate(id)) else None
      ensures error.None? ==>
                Abs() == old(Abs()).(names := old(names) + {Prep(id), Node(id)},
                                     edges := old(edges) + {(Prep(id), Node(id))})
    {
      var added := AddNode(Prep(id));
      if !added {
        return Some(Duplicate(id));
      }
      if id == "__end__" || id == "__start__" {
        return Some(Reserved(id));
      }
      added := AddNode(Node(id));
      if !added {
        return Some(Duplicate(id));
      }
      AddEdge(Prep(id), Node(id));
      return None;
    }

    /** A prep node and the node itself for each id, up to the first that cannot be added. */
    method AddDefinitionNodes(ids: seq<string>) returns (error: Option<BuildError>)
      requires forall n :: n in names ==> !n.Prep? && !n.Node?
      modifies this
      ensures error == FirstError(ids)
      ensures error.None? ==>
                && routers == old(routers)
                && (forall n :: n in names <==> n in old(names) || ((n.Prep? || n.Node?) && n.id in ids))
                && (forall from, to :: (from, to) in edges <==>
                      (from, to) in old(edges) || (from.Prep? && from.id in ids && to == Node(from.id)))
    {
      for i := 0 to |ids|
        invariant FirstError(ids[..i]).None? && routers == old(routers)
        invariant forall n :: n in names <==> n in old(names) || ((n.Prep? || n.Node?) && n.id in ids[..i])
        invariant forall from, to :: (from, to) in edges <==>
                    (from, to) in old(edges) || (from.Prep? && from.id in ids[..i] && to == Node(from.id))
      {
        var id := ids[i];
        assert ids[..i + 1][..i] == ids[..i];
        error := if id == "" then Some(MissingId) else None;
        if error.None? {
          error := AddIsolatedAgent(id);
        }
        if error.Some? {
          ErrorStays(ids, i + 1);
          return error;
        }
      }
      assert ids[..|ids|] == ids;
      return None;
    }

    /** One budget node for each charged target, in front of that target. */
    method AddBudgetNodes(defined: seq<Edge>)
      requires forall id :: Budget(id) !in names
      modifies this
      ensures forall n :: n in names <==> n in old(names) || (n.Budget? && IsChargedTarget(defined, n.id))
      ensures forall from, to :: (from, to) in edges <==>
                (from, to) in old(edges)
                || (from.Budget? && IsChargedTarget(defined, from.id) && to == PrepTarget(from.id))
      ensures routers == old(routers)
    {
      var targets := CollectChargedTargets(defined);
      var left := targets;
      while left != {}
        invariant left <= targets
        invariant forall n :: n in names <==> n in old(names) || (n.Budget? && n.id in targets - left)
        invariant forall from, to :: (from, to) in edges <==>
                    (from, to) in old(edges) || (from.Budget? && from.id in targets - left && to == PrepTarget(from.id))
        invariant routers == old(routers)
        decreases |left|
      {
        var target :| target in left;
        var added := AddNode(Budget(target));
        AddEdge(Budget(target), PrepTarget(target));
        left := left - {target};
      }
    }

    method WireConditionalEdges(defined: seq<Edge>)
      requires routers == map[]
      modifies this
      ensures names == old(names) && GroupsFor(defined, routers)
      ensures forall from, to :: (from, to) in edges <==>
                (from, to) in old(edges)
                || (from.Node? && exists target :: HasPlain(defined, from.id, target) && to == PrepTarget(target))
    {
      var groups: Groups := map[];
      var plain: seq<(string, string)> := [];
      for i := 0 to |defined|
        invariant GroupsFor(defined[..i], groups)
        invariant forall s, t :: (s, t) in plain <==> HasPlain(defined[..i], s, t)
        invariant Abs() == old(Abs())
      {
        var e := defined[i];
        GroupsStep(defined, i, groups);
        PlainStep(defined, i);
        groups := AddEdgeToGroups(groups, e);
        if e.Plain? && e.source.Some? && e.target.Some? {
          plain := plain + [(e.source.value, e.target.value)];
        }
      }
      assert defined[..|defined|] == defined;
      AddRouters(groups);
      AddPlainEdges(plain);
    }

    method AddRouters(groups: Groups)
      requires routers == map[]
      modifies this
      ensures Abs() == old(Abs()).(routers := groups)
    {
      var left := groups.Keys;
      while left != {}
        invariant left <= groups.Keys
        invariant names == old(names) && edges == old(edges)
        invariant routers.Keys == groups.Keys - left && forall s :: s in routers ==> routers[s] == groups[s]
        decreases |left|
      {
        var s :| s in left;
        AddConditionalEdges(s, groups[s]);
        left := left - {s};
      }
      assert routers == groups;
    }

    method AddPlainEdges(plain: seq<(string, string)>)
      modifies this
      ensures names == old(names) && routers == old(routers)
      ensures forall from, to :: (from, to) in edges <==>
                (from, to) in old(edges)
                || exists k :: 0 <= k < |plain| && from == Node(plain[k].0) && to == PrepTarget(plain[k].1)
    {
      for i := 0 to |plain|
        invariant names == old(names) && routers == old(routers)
        invariant forall from, to :: (from, to) in edges <==>
                    (from, to) in old(edges)
                    || exists k :: 0 <= k < i && from == Node(plain[k].0) && to == PrepTarget(plain[k].1)
      {
        AddEdge(Node(plain[i].0), PrepTarget(plain[i].1));
      }
    }
  }

  /** The router entries of a list of conditions, each charged by its own test. */
  method EntriesFor(conditions: seq<Cond>) returns (entries: seq<Entry>)
    ensures entries == EntriesOf(conditions)
  {
    entries := [];
    for k := 0 to |conditions|
      invariant entries == EntriesOf(conditions[..k])
    {
      var c := conditions[k];
      var charged := c.increment || Contains(c.condition, RETRY_COUNT);
      EntriesOfSum(conditions[..k], [c]);
      assert conditions[..k + 1] == conditions[..k] + [c];
      entries := entries + [Entry(c.condition, PrepTarget(c.target), Budget(c.target), charged)];
    }
    assert conditions[..|conditions|] == conditions;
  }

  /** One edge's conditions, charged again by a test of their own, join their source's group. */
  method AddEdgeToGroups(groups: Groups, e: Edge) returns (r: Groups)
    ensures r == AddToGroups(groups, e)
  {
    r := groups;
    match e {
      case Many(source, conditions, default_) =>
        var entries := EntriesFor(conditions);
        if source.Some? {
          r := Joined(groups, source.value, entries, PrepTarget(default_));
        }
      case One(source, condition, target, alternative) =>
        var charged := Contains(condition, RETRY_COUNT);
        if target.Some? && source.Some? {
          var entry := Entry(condition, PrepTarget(target.value), Budget(target.value), charged);
          assert EntriesOf(CondsOf(e)) == [entry];
          r := Joined(groups, source.value, [entry], PrepTarget(alternative));
        }
      case Plain(_, _) =>
    }
  }

  method CollectChargedTargets(edges: seq<Edge>) returns (targets: set<string>)
    ensures forall t :: t in targets <==> IsChargedTarget(edges, t)
  {
    targets := {};
    for i := 0 to |edges|
      invariant forall t :: t in targets <==> IsChargedTarget(edges[..i], t)
    {
      ChargedStep(edges, i);
      var charged := ChargedTargetsOf(edges[i]);
      targets := targets + charged;
    }
    assert edges[..|edges|] == edges;
  }

  /** A list's conditions charge their targets by their flag or their text, a lone condition by its text. */
  method ChargedTargetsOf(e: Edge) returns (targets: set<string>)
    ensures forall t :: t in targets <==> ChargesIn(e, t)
  {
    targets := {};
    match e {
      case Many(_, conditions, _) =>
        assert CondsOf(e) == conditions;
        for k := 0 to |conditions|
          invariant forall t :: t in targets <==>
                      exists j :: 0 <= j < k && Charged(conditions[j]) && conditions[j].target == t
        {
          var c := conditions[k];
          var charged := c.increment || Contains(c.condition, RETRY_COUNT);
          if charged {
            targets := targets + {c.target};
          }
        }
      case One(_, condition, target, _) =>
        if Contains(condition, RETRY_COUNT) && target.Some? {
          targets := {target.value};
          assert ChargesIn(e, target.value) by { assert Charged(CondsOf(e)[0]); }
        }
      case Plain(_, _) =>
    }
  }

  lemma ChargedStep(edges: seq<Edge>, i: nat)
    requires i < |edges|
    ensures forall t :: IsChargedTarget(edges[..i + 1], t) <==> IsChargedTarget(edges[..i], t) || ChargesIn(edges[i], t)
  {
    var shorter, longer := edges[..i], edges[..i + 1];
    assert forall k :: 0 <= k < i ==> longer[k] == shorter[k];
    assert longer[i] == edges[i];
  }

  lemma PlainStep(edges: seq<Edge>, i: nat)
    requires i < |edges|
    ensures forall s, t :: HasPlain(edges[..i + 1], s, t) <==> HasPlain(edges[..i], s, t) || IsPlain(edges[i], s, t)
  {
    var shorter, longer := edges[..i], edges[..i + 1];
    assert forall k :: 0 <= k < i ==> longer[k] == shorter[k];
    assert longer[i] == edges[i];
  }

  /** Why a definition's nodes cannot be compiled, if they cannot. */
  function BuildErrorOf(ids: seq<string>): Option<BuildError> {
    if FirstError(ids).Some? then FirstError(ids)
    else if ids == [] then Some(NoNodes)
    else None
  }

  /**
   * The whole compilation: it fails at the first node that cannot be added, or without nodes, and otherwise yields
   * the compiled graph.
   */
  method Build(d: Definition) returns (r: Result<Graph, BuildError>)
    ensures match BuildErrorOf(d.ids)
            case Some(error) => r == Failure(error)
            case None => r.Success? && IsCompiled(d, r.value)
  {
    var graph := new StateGraph();
    var added := graph.AddNode(Init);
    graph.AddBudgetNodes(d.edges);
    var error := graph.AddDefinitionNodes(d.ids);
    if error.Some? {
      return Failure(error.value);
    }
    if d.ids == [] {
      return Failure(NoNodes);
    }
    graph.AddEdge(Init, Prep(d.ids[0]));
    graph.WireConditionalEdges(d.edges);
    return Success(Graph(graph.names, graph.edges, graph.routers));
  }

  lemma {:induction false} ErrorStays(ids: seq<string>, i: nat)
    requires i <= |ids| && FirstError(ids[..i]).Some?
    ensures FirstError(ids) == FirstError(ids[..i])
    decreases |ids| - i
  {
    if i == |ids| {
      assert ids[..i] == ids;
    } else {
      assert ids[..i + 1][..i] == ids[..i];
      ErrorStays(ids, i + 1);
    }
  }

  lemma {:induction false} NodesCanBeAddedIff(ids: seq<string>)
    ensures FirstError(ids).None? <==> NoDup(ids) && forall id :: id in ids ==> id != "" && !IsReserved(id)
    decreases |ids|
  {
    if ids != [] {
      var init, last := ids[..|ids| - 1], ids[|ids| - 1];
      NodesCanBeAddedIff(init);
      assert forall id :: id in ids <==> id in init || id == last;
      assert forall k :: 0 <= k < |init| ==> init[k] == ids[k];
      if last in init {
        var k :| 0 <= k < |init| && init[k] == last;
        assert ids[k] == ids[|init|];
      } else if NoDup(init) {
        forall i, j | 0 <= i < j < |ids| ensures ids[i] != ids[j] {
          assert ids[i] == init[i];
        }
      }
    }
  }

  /** A definition compiles exactly when it has nodes and their ids are present, distinct and not reserved. */
  lemma CompilesIff(ids: seq<string>)
    ensures BuildErrorOf(ids).None? <==>
            ids != [] && NoDup(ids) && forall id :: id in ids ==> id != "" && id != "__end__" && id != "__start__"
  {
    NodesCanBeAddedIff(ids);
  }

  /** Where a target leads in the compiled graph: to the end, or to its prep node. */
  function LeadsTo(target: string): Name {
    match target
    case "" => End
    case "__end__" => End
    case _ => Prep(target)
  }

  /** The edges out of a node are the definition's plain edges from it, led to their targets' prep nodes. */
  lemma NodeEdgesIff(d: Definition, g: Graph, id: string, to: Name)
    requires IsCompiled(d, g)
    ensures (Node(id), to) in g.edges <==>
            exists target :: Plain(Some(id), Some(target)) in d.edges && to == LeadsTo(target)
  {
    if (Node(id), to) in g.edges {
      var target :| HasPlain(d.edges, id, target) && to == PrepTarget(target);
      assert Plain(Some(id), Some(target)) in d.edges;
    }
    if target :| Plain(Some(id), Some(target)) in d.edges && to == LeadsTo(target) {
      var k :| 0 <= k < |d.edges| && d.edges[k] == Plain(Some(id), Some(target));
      assert IsPlain(d.edges[k], id, target) && HasPlain(d.edges, id, target);
      assert to == PrepTarget(target);
    }
  }

  /** A conditional edge from the source. */
  predicate GivesDefault(e: Edge, s: string) {
    match e
    case Many(source, _, _) => source == Some(s)
    case One(source, _, target, _) => source == Some(s) && target.Some?
    case Plain(_, _) => false
  }

  /** A source has a router exactly when some conditional edge starts from it, and the first such gives the default. */
  lemma RouterDefault(d: Definition, g: Graph, s: string, k: nat)
    requires IsCompiled(d, g)
    ensures s in g.routers <==> exists e :: e in d.edges && GivesDefault(e, s)
    ensures k < |d.edges| && GivesDefault(d.edges[k], s) ==>
              (forall j :: 0 <= j < k ==> !GivesDefault(d.edges[j], s)) ==>
              s in g.routers
              && g.routers[s].default_ ==
                 match d.edges[k]
                 case Many(_, _, default_) => LeadsTo(default_)
                 case One(_, _, _, alternative) => LeadsTo(alternative)
                 case Plain(_, _) => End
  {
    assert forall e :: e in d.edges ==> (GivesDefault(e, s) <==> GuardsFrom(e, s));
    if k < |d.edges| && GivesDefault(d.edges[k], s) && forall j :: 0 <= j < k ==> !GivesDefault(d.edges[j], s) {
      assert GuardsFrom(d.edges[k], s);
      FirstDefault(d.edges, s, k);
    }
  }

  lemma {:induction false} FirstDefault(edges: seq<Edge>, s: string, k: nat)
    requires k < |edges| && GivesDefault(edges[k], s) && forall j :: 0 <= j < k ==> !GivesDefault(edges[j], s)
    ensures IsGuard(edges[k]) && Default(edges, s) == DefaultOf(edges[k])
  {
    if k > 0 {
      assert !GivesDefault(edges[0], s);
      assert forall j :: 0 <= j < k - 1 ==> edges[1..][j] == edges[j + 1];
      FirstDefault(edges[1..], s, k - 1);
    }
  }
}
