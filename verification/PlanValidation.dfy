/** The agent registry and the server-side check of a plan
    (backend/app/agents/registry.py). */
module PlanValidation {
  import opened Signals
  import opened Plans
  import opened Texts
  import Graphs = DependencyGraph

  const REQUIRED_KEYS: set<string> := {"coordinator", "safety"}
  const SYSTEM_KEYS: set<string> :=
    {"coordinator", "planning", "conversation", "knowledge", "memory", "tool", "safety"}

  predicate SystemAgent(name: string) {
    name in SYSTEM_KEYS
  }

  datatype Agent = Agent(
    name: string, enabled: bool, tools: set<string>, timeoutSeconds: int, maximumSteps: int, required: bool)

  datatype Override = Override(
    enabled: Option<bool>, timeoutSeconds: Option<int>, maximumSteps: Option<int>, allowedTools: Option<set<string>>)

  datatype Plan = Plan(tasks: seq<PlanTask>, finalAgent: string)

  datatype Limits = Limits(maxTasks: int, maxDepth: int, maxToolCalls: int, enabledTools: Option<set<string>>)

  datatype PlanError =
    | EmptyPlan | TooManyTasks | DuplicateSequence
    | UnknownAgent(task: PlanTask) | DisabledAgent(task: PlanTask) | EmptyObjective(task: PlanTask)
    | InvalidDependency(task: PlanTask, dependency: int)
    | UnauthorizedTool(task: PlanTask, tool: string) | DisabledTool(task: PlanTask, tool: string)
    | ExcessiveDepth(task: PlanTask) | TooManyTools | Cyclic
    | UnknownFinalAgent | DisabledFinalAgent

  // --- The plan as a graph ---------------------------------------------------------------

  predicate DistinctSequences(tasks: seq<PlanTask>) {
    forall i, j :: 0 <= i < j < |tasks| ==> tasks[i].sequence != tasks[j].sequence
  }

  function Sequences(tasks: seq<PlanTask>): set<int> {
    set t | t in tasks :: t.sequence
  }

  /** `{task.sequence: list(task.dependencies) for task in tasks}`: the last one wins. */
  function GraphOf(tasks: seq<PlanTask>): Graphs.Graph {
    if tasks == [] then map[]
    else GraphOf(tasks[..|tasks| - 1])[tasks[|tasks| - 1].sequence := tasks[|tasks| - 1].dependencies]
  }

  lemma {:induction false} GraphAt(tasks: seq<PlanTask>)
    requires DistinctSequences(tasks)
    ensures forall n :: n in GraphOf(tasks) <==> n in Sequences(tasks)
    ensures forall t :: t in tasks ==> t.sequence in GraphOf(tasks) && GraphOf(tasks)[t.sequence] == t.dependencies
  {
    if tasks != [] {
      var last := tasks[|tasks| - 1];
      GraphAt(tasks[..|tasks| - 1]);
      assert tasks == tasks[..|tasks| - 1] + [last];
    }
  }

  lemma GraphMember(tasks: seq<PlanTask>, n: int) returns (t: PlanTask)
    requires DistinctSequences(tasks) && n in GraphOf(tasks)
    ensures t in tasks && t.sequence == n && GraphOf(tasks)[n] == t.dependencies
  {
    GraphAt(tasks);
    t :| t in tasks && t.sequence == n;
  }

  function ToolCount(tasks: seq<PlanTask>): nat {
    if tasks == [] then 0 else |tasks[0].allowedTools| + ToolCount(tasks[1..])
  }

  lemma {:induction false} ToolCountAppend(tasks: seq<PlanTask>, t: PlanTask)
    ensures ToolCount(tasks + [t]) == ToolCount(tasks) + |t.allowedTools|
  {
    if tasks != [] {
      ToolCountAppend(tasks[1..], t);
      assert (tasks + [t])[1..] == tasks[1..] + [t];
    }
  }

  lemma {:induction false} ToolCountInsert(t: PlanTask, tasks: seq<PlanTask>)
    ensures ToolCount(Insert(t, tasks)) == |t.allowedTools| + ToolCount(tasks)
    decreases |tasks|
  {
    if tasks != [] {
      if t.sequence <= tasks[0].sequence {
        assert ([t] + tasks)[1..] == tasks;
      } else {
        ToolCountInsert(t, tasks[1..]);
        assert ([tasks[0]] + Insert(t, tasks[1..]))[1..] == Insert(t, tasks[1..]);
      }
    }
  }

  lemma {:induction false} ToolCountSorted(tasks: seq<PlanTask>)
    ensures ToolCount(Sorted(tasks)) == ToolCount(tasks)
  {
    if tasks != [] {
      ToolCountSorted(tasks[1..]);
      ToolCountInsert(tasks[0], Sorted(tasks[1..]));
    }
  }

  function Order(tasks: seq<PlanTask>): (r: seq<int>)
    ensures |r| == |tasks| && forall i :: 0 <= i < |tasks| ==> r[i] == tasks[i].sequence
  {
    if tasks == [] then [] else [tasks[0].sequence] + Order(tasks[1..])
  }

  lemma NodesListed(tasks: seq<PlanTask>)
    requires DistinctSequences(tasks)
    ensures forall n :: n in GraphOf(tasks) <==> n in Order(tasks)
  {
    GraphAt(tasks);
    forall n | n in Order(tasks)
      ensures n in Sequences(tasks)
    {
      var i :| 0 <= i < |tasks| && Order(tasks)[i] == n;
      assert tasks[i] in tasks;
    }
    forall n | n in Sequences(tasks)
      ensures n in Order(tasks)
    {
      var t :| t in tasks && t.sequence == n;
      var i :| 0 <= i < |tasks| && tasks[i] == t;
      assert Order(tasks)[i] == n;
    }
  }

  predicate DependencyOk(t: PlanTask, d: int, known: set<int>) {
    d in known && d < t.sequence
  }

  // --- Depths ----------------------------------------------------------------------------

  /** No chain of dependencies from task n has more than maxDepth edges. */
  ghost predicate Shallow(tasks: seq<PlanTask>, n: int, maxDepth: int) {
    forall p :: Graphs.WalkFrom(GraphOf(tasks), n, p) ==> |p| - 1 <= maxDepth
  }

  /** Tasks of the plan, each with the next one among its dependencies. */
  ghost predicate Chain(tasks: seq<PlanTask>, p: seq<PlanTask>) {
    && p != [] && (forall i :: 0 <= i < |p| ==> p[i] in tasks)
    && (forall i :: 0 <= i < |p| - 1 ==> p[i + 1].sequence in p[i].dependencies)
  }

  lemma ChainWalks(tasks: seq<PlanTask>, p: seq<PlanTask>)
    requires DistinctSequences(tasks) && Chain(tasks, p)
    ensures Graphs.WalkFrom(GraphOf(tasks), p[0].sequence, Order(p))
  {
    hide GraphOf, DistinctSequences;
    GraphAt(tasks);
    forall k | 0 <= k < |p| - 1
      ensures Order(p)[k + 1] in Graphs.Deps(GraphOf(tasks), Order(p)[k])
    {
      assert p[k] in tasks;
    }
  }

  lemma WalkIsChain(tasks: seq<PlanTask>, n: int, w: seq<int>) returns (p: seq<PlanTask>)
    requires DistinctSequences(tasks) && Graphs.WalkFrom(GraphOf(tasks), n, w) && n in GraphOf(tasks)
    requires forall t, d :: t in tasks && d in t.dependencies ==> d in GraphOf(tasks)
    ensures Chain(tasks, p) && |p| == |w| && forall i :: 0 <= i < |p| ==> p[i].sequence == w[i]
  {
    hide GraphOf, DistinctSequences;
    var t := GraphMember(tasks, n);
    p := [t];
    for i := 1 to |w|
      invariant Chain(tasks, p) && |p| == i && forall j :: 0 <= j < i ==> p[j].sequence == w[j]
    {
      var last := p[i - 1];
      assert last in tasks && w[i - 1 + 1] in Graphs.Deps(GraphOf(tasks), w[i - 1]);
      GraphAt(tasks);
      t := GraphMember(tasks, w[i]);
      p := p + [t];
    }
  }

  /** The recorded depths are the longest chains of exactly the given tasks. */
  ghost predicate DepthsOf(tasks: seq<PlanTask>, some: seq<PlanTask>, depths: map<int, nat>) {
    && depths.Keys == Sequences(some)
    && (forall n :: n in depths ==> Graphs.LongestChain(GraphOf(tasks), n, depths[n]))
  }

  lemma DepthAdded(tasks: seq<PlanTask>, some: seq<PlanTask>, t: PlanTask, depths: map<int, nat>, depth: nat)
    requires DepthsOf(tasks, some, depths) && Graphs.LongestChain(GraphOf(tasks), t.sequence, depth)
    ensures DepthsOf(tasks, some + [t], depths[t.sequence := depth])
  {
    assert Sequences(some + [t]) == Sequences(some) + {t.sequence};
  }

  lemma NoDepths(tasks: seq<PlanTask>)
    ensures DepthsOf(tasks, [], map[])
  {
  }

  lemma SameDepths(tasks: seq<PlanTask>, some: seq<PlanTask>, depths: map<int, nat>)
    requires DepthsOf(tasks, some, depths) && forall x :: x in some <==> x in tasks
    ensures DepthsOf(tasks, tasks, depths)
  {
  }

  lemma DeepIffLong(tasks: seq<PlanTask>, n: int, depth: nat, maxDepth: int)
    requires Graphs.LongestChain(GraphOf(tasks), n, depth)
    ensures Shallow(tasks, n, maxDepth) <==> depth <= maxDepth
  {
    var p :| Graphs.WalkFrom(GraphOf(tasks), n, p) && |p| == depth + 1;
  }

  /** The depth of one task from the depths of its dependencies: the length of its
      longest chain. */
  method DepthOf(tasks: seq<PlanTask>, ghost some: seq<PlanTask>, t: PlanTask, depths: map<int, nat>)
    returns (depth: nat)
    requires DistinctSequences(tasks) && t in tasks && DepthsOf(tasks, some, depths)
    requires forall d :: d in t.dependencies ==> d in depths
    ensures Graphs.LongestChain(GraphOf(tasks), t.sequence, depth)
  {
    hide Graphs.LongestChain, GraphOf, DistinctSequences;
    GraphAt(tasks);
    depth := 0;
    ghost var best := 0;
    for i := 0 to |t.dependencies|
      invariant i == 0 ==> depth == 0
      invariant i > 0 ==> best in t.dependencies && depth == depths[best] + 1
      invariant forall j :: 0 <= j < i ==> t.dependencies[j] in depths && depths[t.dependencies[j]] < depth
    {
      var d := t.dependencies[i];
      if d in depths && depths[d] + 1 > depth {
        depth, best := depths[d] + 1, d;
      }
    }
    if t.dependencies == [] {
      Graphs.NoDependencies(GraphOf(tasks), t.sequence);
    } else {
      Graphs.OneMore(GraphOf(tasks), t.sequence, depths, best);
    }
  }

  // --- The registry ----------------------------------------------------------------------

  predicate KeyStart(c: char) {
    'a' <= c <= 'z'
  }

  predicate KeyPart(c: char) {
    'a' <= c <= 'z' || '0' <= c <= '9' || c == '_'
  }

  predicate KeyText(key: string) {
    2 <= |key| <= 63 && KeyStart(key[0]) && forall i :: 1 <= i < |key| ==> KeyPart(key[i])
  }

  /** `^[a-z][a-z0-9_]{1,62}$`; the final `$` also accepts one trailing line feed. */
  predicate AgentKey(name: string) {
    KeyText(name) || (name != "" && name[|name| - 1] == '\n' && KeyText(name[..|name| - 1]))
  }

  const LETTERS: string := "abcdefghijklmnopqrstuvwxyz"

  lemma StartsAre(c: char)
    ensures KeyStart(c) <==> c in LETTERS
  {
    if 'a' <= c <= 'z' {
      assert LETTERS[c as int - 'a' as int] == c;
    }
  }

  lemma PartsAre(c: char)
    ensures KeyPart(c) <==> c in LETTERS || c in "0123456789_"
  {
    hide KeyStart;
    StartsAre(c);
    assert KeyStart(c) <==> 'a' <= c <= 'z';
    if '0' <= c <= '9' {
      assert "0123456789_"[c as int - '0' as int] == c;
    }
    if c == '_' {
      assert "0123456789_"[10] == c;
    }
  }

  /** A letter and 1 to 62 letters, digits or underscores. */
  predicate KeyWord(key: string) {
    && 2 <= |key| <= 63 && key[0] in LETTERS
    && forall i :: 1 <= i < |key| ==> key[i] in LETTERS || key[i] in "0123456789_"
  }

  lemma WordsAre(key: string)
    ensures KeyWord(key) <==> KeyText(key)
  {
    hide KeyStart, KeyPart;
    if 2 <= |key| <= 63 {
      StartsAre(key[0]);
      forall i | 1 <= i < |key|
        ensures KeyPart(key[i]) <==> key[i] in LETTERS || key[i] in "0123456789_"
      {
        PartsAre(key[i]);
      }
    }
  }

  /** A key is such a word, and a line feed may follow it. */
  lemma AgentKeys(name: string)
    ensures AgentKey(name) <==> exists key :: KeyWord(key) && (name == key || name == key + "\n")
  {
    hide KeyText, KeyWord;
    WordsAre(name);
    if name != "" && name[|name| - 1] == '\n' {
      WordsAre(name[..|name| - 1]);
      assert name == name[..|name| - 1] + "\n";
    }
    forall key | KeyWord(key) && name == key + "\n"
      ensures AgentKey(name)
    {
      WordsAre(key);
      assert name[..|name| - 1] == key;
    }
  }

  class AgentRegistry {
    var agents: map<string, Agent>
    var overrides: map<string, Override>

    ghost predicate Valid()
      reads this
    {
      forall k :: k in agents ==> AgentKey(k) && agents[k].name == k
    }

    constructor ()
      ensures Valid() && agents == map[] && overrides == map[]
    {
      agents, overrides := map[], map[];
    }

    method Register(agent: Agent) returns (ok: bool)
      requires Valid()
      modifies `agents
      ensures Valid() && (ok <==> AgentKey(agent.name) && agent.name !in old(agents))
      ensures agents == if ok then old(agents)[agent.name := agent] else old(agents)
    {
      ok := AgentKey(agent.name) && agent.name !in agents;
      if ok {
        agents := agents[agent.name := agent];
      }
    }

    predicate EffectivelyEnabled(agent: Agent): (r: bool)
      reads this
      ensures var switch := if agent.name in overrides then overrides[agent.name].enabled else None;
              (r && switch != Some(false)) || (!r && switch != Some(true))
      ensures agent.name !in overrides || overrides[agent.name].enabled.None? ==> r == agent.enabled
    {
      if agent.name in overrides && overrides[agent.name].enabled.Some?
      then overrides[agent.name].enabled.value
      else agent.enabled
    }

    /** An override can only narrow what the agent's class allows. */
    function EffectiveTools(agent: Agent): (r: set<string>)
      reads this
      ensures r <= agent.tools
      ensures forall tool :: tool in agent.tools ==>
                (tool !in r <==>
                   && agent.name in overrides && overrides[agent.name].allowedTools.Some?
                   && tool !in overrides[agent.name].allowedTools.value)
    {
      if agent.name in overrides && overrides[agent.name].allowedTools.Some?
      then overrides[agent.name].allowedTools.value * agent.tools
      else agent.tools
    }

    predicate Available(name: string)
      reads this
    {
      name in agents && EffectivelyEnabled(agents[name])
    }

    predicate CanDisable(name: string)
      requires name in agents
      reads this
    {
      !(agents[name].required || name in REQUIRED_KEYS)
    }

    /** Refused for an unknown agent and for switching a required one off; otherwise it
        decides availability and leaves the agent's tools and every other agent alone. */
    method SetEnabled(name: string, enabled: bool) returns (ok: bool)
      requires Valid()
      modifies `overrides
      ensures ok <==> name in agents && (enabled || CanDisable(name))
      ensures !ok && name in agents <==>
                !enabled && name in agents && (agents[name].required || name == "coordinator" || name == "safety")
      ensures !ok ==> overrides == old(overrides)
      ensures ok ==> Available(name) == enabled && EffectiveTools(agents[name]) == old(EffectiveTools(agents[name]))
      ensures forall a :: a in agents && a != name ==>
                Available(a) == old(Available(a)) && EffectiveTools(agents[a]) == old(EffectiveTools(agents[a]))
    {
      if name !in agents || (!enabled && !CanDisable(name)) {
        return false;
      }
      var current := if name in overrides then overrides[name] else Override(None, None, None, None);
      overrides := overrides[name := current.(enabled := Some(enabled))];
      return true;
    }

    // --- What validate_plan promises -----------------------------------------------------

    predicate ToolOk(t: PlanTask, tool: string, limits: Limits)
      requires t.agent in agents
      reads this
    {
      && tool in EffectiveTools(agents[t.agent])
      && (limits.enabledTools.Some? ==> tool in limits.enabledTools.value)
    }

    ghost predicate TaskOk(t: PlanTask, known: set<int>, limits: Limits)
      reads this
    {
      && Available(t.agent) && !Blank(t.objective)
      && (forall d :: d in t.dependencies ==> DependencyOk(t, d, known))
      && (forall tool :: tool in t.allowedTools ==> ToolOk(t, tool, limits))
    }

    ghost predicate Acceptable(plan: Plan, limits: Limits)
      reads this
    {
      && plan.tasks != [] && |plan.tasks| <= limits.maxTasks
      && DistinctSequences(plan.tasks)
      && (forall t :: t in plan.tasks ==>
            TaskOk(t, Sequences(plan.tasks), limits) && Shallow(plan.tasks, t.sequence, limits.maxDepth))
      && ToolCount(plan.tasks) <= limits.maxToolCalls
      && Available(plan.finalAgent)
    }

    /** The complaint about a single task is true of it. */
    ghost predicate TaskFault(t: PlanTask, known: set<int>, limits: Limits, e: PlanError)
      reads this
    {
      match e
      case UnknownAgent(x) => x == t && t.agent !in agents
      case DisabledAgent(x) => x == t && t.agent in agents && !Available(t.agent)
      case EmptyObjective(x) => x == t && Blank(t.objective)
      case InvalidDependency(x, d) => x == t && d in t.dependencies && !DependencyOk(t, d, known)
      case UnauthorizedTool(x, tool) =>
        x == t && tool in t.allowedTools && t.agent in agents && tool !in EffectiveTools(agents[t.agent])
      case DisabledTool(x, tool) =>
        x == t && tool in t.allowedTools && limits.enabledTools.Some? && tool !in limits.enabledTools.value
      case _ => false
    }

    /** The complaint of the loop over the tasks is true of one of them. */
    ghost predicate SomeFault(tasks: seq<PlanTask>, limits: Limits, e: PlanError)
      reads this
    {
      if e.ExcessiveDepth? then e.task in tasks && !Shallow(tasks, e.task.sequence, limits.maxDepth)
      else exists t :: t in tasks && TaskFault(t, Sequences(tasks), limits, e)
    }

    /** The complaint is true of the plan. */
    ghost predicate Faulty(plan: Plan, limits: Limits, e: PlanError)
      reads this
    {
      match e
      case EmptyPlan => plan.tasks == []
      case TooManyTasks => |plan.tasks| > limits.maxTasks
      case DuplicateSequence => !DistinctSequences(plan.tasks)
      case TooManyTools => ToolCount(plan.tasks) > limits.maxToolCalls
      case Cyclic => Graphs.HasCycle(GraphOf(plan.tasks))
      case UnknownFinalAgent => plan.finalAgent !in agents
      case DisabledFinalAgent => plan.finalAgent in agents && !Available(plan.finalAgent)
      case _ => SomeFault(plan.tasks, limits, e)
    }

    // --- The same promise, field by field ------------------------------------------------

    /** The agent is registered and switched on: by its override, or else by its class. */
    ghost predicate On(name: string)
      reads this
    {
      && name in agents
      && if name in overrides && overrides[name].enabled.Some? then overrides[name].enabled == Some(true)
         else agents[name].enabled
    }

    /** Registered, switched on, with something to do, behind tasks of the plan only. */
    ghost predicate Placed(t: PlanTask, tasks: seq<PlanTask>)
      reads this
    {
      && On(t.agent) && (exists c :: c in t.objective && !IsSpace(c))
      && (forall d :: d in t.dependencies ==> d < t.sequence && exists x :: x in tasks && x.sequence == d)
    }

    /** Each tool is one of the agent's class, of its override if that names tools, and of
        those the caller enabled if it names any. */
    ghost predicate Equipped(t: PlanTask, limits: Limits)
      reads this
    {
      t.agent in agents && forall tool :: tool in t.allowedTools ==>
        && tool in agents[t.agent].tools
        && (t.agent in overrides && overrides[t.agent].allowedTools.Some? ==>
              tool in overrides[t.agent].allowedTools.value)
        && (limits.enabledTools.Some? ==> tool in limits.enabledTools.value)
    }

    /** A plan that may be executed. */
    ghost predicate Executable(plan: Plan, limits: Limits)
      reads this
    {
      && 0 < |plan.tasks| <= limits.maxTasks
      && (forall i, j :: 0 <= i < j < |plan.tasks| ==> plan.tasks[i].sequence != plan.tasks[j].sequence)
      && (forall t :: t in plan.tasks ==> Placed(t, plan.tasks) && Equipped(t, limits))
      && (forall p :: Chain(plan.tasks, p) ==> |p| - 1 <= limits.maxDepth)
      && ToolCount(plan.tasks) <= limits.maxToolCalls && On(plan.finalAgent)
    }

    lemma TaskOkIs(t: PlanTask, tasks: seq<PlanTask>, limits: Limits)
      requires Valid()
      ensures TaskOk(t, Sequences(tasks), limits) <==> Placed(t, tasks) && Equipped(t, limits)
    {
      hide IsSpace;
      if t.agent in agents {
        assert forall tool :: tool in t.allowedTools ==> (ToolOk(t, tool, limits) <==>
          && tool in agents[t.agent].tools
          && (t.agent in overrides && overrides[t.agent].allowedTools.Some? ==>
                tool in overrides[t.agent].allowedTools.value)
          && (limits.enabledTools.Some? ==> tool in limits.enabledTools.value));
      }
    }

    lemma ChainsAreWalks(tasks: seq<PlanTask>, limits: Limits)
      requires DistinctSequences(tasks)
      requires forall t :: t in tasks ==> TaskOk(t, Sequences(tasks), limits)
      ensures (forall t :: t in tasks ==> Shallow(tasks, t.sequence, limits.maxDepth))
                <==> forall p :: Chain(tasks, p) ==> |p| - 1 <= limits.maxDepth
    {
      hide GraphOf, DistinctSequences;
      GraphAt(tasks);
      forall t, d | t in tasks && d in t.dependencies
        ensures d in GraphOf(tasks)
      {
        assert TaskOk(t, Sequences(tasks), limits) && DependencyOk(t, d, Sequences(tasks));
      }
      if forall t :: t in tasks ==> Shallow(tasks, t.sequence, limits.maxDepth) {
        forall p: seq<PlanTask> | Chain(tasks, p)
          ensures |p| - 1 <= limits.maxDepth
        {
          ChainWalks(tasks, p);
          assert p[0] in tasks && Shallow(tasks, p[0].sequence, limits.maxDepth);
        }
      }
      if forall p :: Chain(tasks, p) ==> |p| - 1 <= limits.maxDepth {
        forall t, w | t in tasks && Graphs.WalkFrom(GraphOf(tasks), t.sequence, w)
          ensures |w| - 1 <= limits.maxDepth
        {
          var p := WalkIsChain(tasks, t.sequence, w);
        }
      }
    }

    /** The two accounts agree. */
    lemma AcceptableIsExecutable(plan: Plan, limits: Limits)
      requires Valid()
      ensures Acceptable(plan, limits) <==> Executable(plan, limits)
    {
      hide TaskOk, Placed, Equipped, Shallow, ToolCount, Chain, Sequences;
      forall t | t in plan.tasks
        ensures TaskOk(t, Sequences(plan.tasks), limits) <==> Placed(t, plan.tasks) && Equipped(t, limits)
      {
        TaskOkIs(t, plan.tasks, limits);
      }
      if DistinctSequences(plan.tasks)
         && forall t :: t in plan.tasks ==> TaskOk(t, Sequences(plan.tasks), limits) {
        ChainsAreWalks(plan.tasks, limits);
      }
    }

    /** Where no agent of the plan has an override of its tools, its class and the caller alone
        judge them. */
    lemma ToolsWithoutOverride(plan: Plan, limits: Limits)
      requires Valid() && (forall t :: t in plan.tasks ==> Placed(t, plan.tasks))
      requires plan.tasks != [] && |plan.tasks| <= limits.maxTasks && DistinctSequences(plan.tasks)
      requires forall p :: Chain(plan.tasks, p) ==> |p| - 1 <= limits.maxDepth
      requires ToolCount(plan.tasks) <= limits.maxToolCalls && On(plan.finalAgent)
      requires forall t :: t in plan.tasks && t.agent in overrides ==> overrides[t.agent].allowedTools.None?
      ensures Acceptable(plan, limits) <==>
                forall t, tool :: t in plan.tasks && tool in t.allowedTools ==>
                  && t.agent in agents && tool in agents[t.agent].tools
                  && (limits.enabledTools.Some? ==> tool in limits.enabledTools.value)
    {
      hide Chain, ToolCount, Acceptable, On, IsSpace, AgentKey, Placed;
      AcceptableIsExecutable(plan, limits);
      assert Executable(plan, limits) <==> forall t :: t in plan.tasks ==> Equipped(t, limits);
      forall t | t in plan.tasks
        ensures t.agent in agents
        ensures Equipped(t, limits) <==>
                  forall tool :: tool in t.allowedTools ==>
                    && tool in agents[t.agent].tools
                    && (limits.enabledTools.Some? ==> tool in limits.enabledTools.value)
      {
        PlacedAgent(t, plan.tasks);
      }
    }

    lemma PlacedAgent(t: PlanTask, tasks: seq<PlanTask>)
      requires Placed(t, tasks)
      ensures t.agent in agents
    {
    }

    // --- The checks ----------------------------------------------------------------------

    static method FirstBadDependency(t: PlanTask, known: set<int>) returns (bad: Option<int>)
      ensures bad.None? <==> forall d :: d in t.dependencies ==> DependencyOk(t, d, known)
      ensures bad.Some? ==> bad.value in t.dependencies && !DependencyOk(t, bad.value, known)
    {
      for i := 0 to |t.dependencies|
        invariant forall j :: 0 <= j < i ==> DependencyOk(t, t.dependencies[j], known)
      {
        var d := t.dependencies[i];
        if d !in known || d >= t.sequence {
          assert d in t.dependencies && !DependencyOk(t, d, known);
          return Some(d);
        }
      }
      return None;
    }

    method FirstBadTool(t: PlanTask, limits: Limits) returns (bad: Option<PlanError>)
      requires t.agent in agents
      ensures bad.None? <==> forall tool :: tool in t.allowedTools ==> ToolOk(t, tool, limits)
      ensures bad.Some? ==> TaskFault(t, {}, limits, bad.value)
      ensures bad.Some? ==> bad.value.UnauthorizedTool? || bad.value.DisabledTool?
    {
      var allowed := EffectiveTools(agents[t.agent]);
      for i := 0 to |t.allowedTools|
        invariant forall j :: 0 <= j < i ==> ToolOk(t, t.allowedTools[j], limits)
      {
        var tool := t.allowedTools[i];
        if tool !in allowed {
          assert !ToolOk(t, tool, limits);
          return Some(UnauthorizedTool(t, tool));
        }
        if limits.enabledTools.Some? && tool !in limits.enabledTools.value {
          assert !ToolOk(t, tool, limits);
          return Some(DisabledTool(t, tool));
        }
      }
      return None;
    }

    /** _validate_plan_task. */
    method ValidateTask(t: PlanTask, known: set<int>, limits: Limits) returns (error: Option<PlanError>)
      ensures error.None? <==> TaskOk(t, known, limits)
      ensures error.Some? ==> TaskFault(t, known, limits, error.value) && !error.value.ExcessiveDepth?
    {
      if t.agent !in agents {
        return Some(UnknownAgent(t));
      }
      if !EffectivelyEnabled(agents[t.agent]) {
        return Some(DisabledAgent(t));
      }
      StripBlank(t.objective);
      if Strip(t.objective) == "" {
        return Some(EmptyObjective(t));
      }
      var bad := FirstBadDependency(t, known);
      if bad.Some? {
        return Some(InvalidDependency(t, bad.value));
      }
      error := FirstBadTool(t, limits);
    }

    /** The checks over the tasks in sequence order; `depths` is depth_by_seq. */
    method ValidateTasks(tasks: seq<PlanTask>, limits: Limits)
      returns (error: Option<PlanError>, depths: map<int, nat>, totalTools: nat)
      requires DistinctSequences(tasks)
      ensures error.None? <==>
                forall t :: t in tasks ==>
                  TaskOk(t, Sequences(tasks), limits) && Shallow(tasks, t.sequence, limits.maxDepth)
      ensures error.None? ==> totalTools == ToolCount(tasks) && DepthsOf(tasks, tasks, depths)
      ensures error.Some? ==> SomeFault(tasks, limits, error.value)
    {
      hide DepthsOf, TaskOk, TaskFault, Shallow, GraphOf, Sorted, Sequences, Increasing, Graphs.LongestChain;
      var ordered := Sorted(tasks);
      SortedIncreasing(tasks);
      ToolCountSorted(tasks);
      error, depths, totalTools := None, map[], 0;
      NoDepths(tasks);
      for i := 0 to |ordered|
        invariant error.None? && totalTools == ToolCount(ordered[..i])
        invariant DepthsOf(tasks, ordered[..i], depths)
        invariant forall j :: 0 <= j < i ==>
                    TaskOk(ordered[j], Sequences(tasks), limits)
                    && Shallow(tasks, ordered[j].sequence, limits.maxDepth)
      {
        var t := ordered[i];
        assert t in tasks;
        error := ValidateTask(t, Sequences(tasks), limits);
        if error.Some? {
          return;
        }
        EarlierKnown(tasks, ordered, i, depths, limits);
        ToolCountAppend(ordered[..i], t);
        totalTools := totalTools + |t.allowedTools|;
        var depth := DepthOf(tasks, ordered[..i], t, depths);
        DepthAdded(tasks, ordered[..i], t, depths, depth);
        depths := depths[t.sequence := depth];
        assert ordered[..i + 1] == ordered[..i] + [t];
        DeepIffLong(tasks, t.sequence, depth, limits.maxDepth);
        if depth > limits.maxDepth {
          error := Some(ExcessiveDepth(t));
          return;
        }
      }
      assert ordered[..|ordered|] == ordered;
      SameDepths(tasks, ordered, depths);
      forall t | t in tasks
        ensures TaskOk(t, Sequences(tasks), limits) && Shallow(tasks, t.sequence, limits.maxDepth)
      {
        assert t in ordered;
      }
    }

    lemma EarlierKnown(tasks: seq<PlanTask>, ordered: seq<PlanTask>, i: nat, depths: map<int, nat>, limits: Limits)
      requires i < |ordered| && Increasing(ordered) && forall x :: x in ordered <==> x in tasks
      requires TaskOk(ordered[i], Sequences(tasks), limits)
      requires DepthsOf(tasks, ordered[..i], depths)
      ensures forall d :: d in ordered[i].dependencies ==> d in depths
    {
      forall d | d in ordered[i].dependencies
        ensures d in depths
      {
        assert DependencyOk(ordered[i], d, Sequences(tasks));
        var t :| t in tasks && t.sequence == d;
        assert t in ordered;
        var j :| 0 <= j < |ordered| && ordered[j] == t;
        assert ordered[..i][j] == t;
      }
    }

    lemma NoStray(tasks: seq<PlanTask>, limits: Limits)
      requires forall t :: t in tasks ==> TaskOk(t, Sequences(tasks), limits)
      ensures forall t :: t in tasks ==> SystemAgent(t.agent) || t.agent in agents
    {
      hide Sequences, SystemAgent;
      forall t | t in tasks
        ensures t.agent in agents
      {
        assert TaskOk(t, Sequences(tasks), limits);
      }
    }

    lemma FinalFaulty(plan: Plan, limits: Limits)
      ensures var e := FinalFault(plan, None);
              && (e.None? <==> Available(plan.finalAgent))
              && (e.Some? ==> Faulty(plan, limits, e.value) && e.value != Cyclic)
    {
    }

    /** The agents of a validated plan are registered: the last loop of validate_plan. */
    method FirstStray(tasks: seq<PlanTask>) returns (stray: Option<PlanTask>)
      ensures stray.None? <==> forall t :: t in tasks ==> SystemAgent(t.agent) || t.agent in agents
    {
      for i := 0 to |tasks|
        invariant forall j :: 0 <= j < i ==> SystemAgent(tasks[j].agent) || tasks[j].agent in agents
      {
        if !SystemAgent(tasks[i].agent) && tasks[i].agent !in agents {
          return Some(tasks[i]);
        }
      }
      return None;
    }

    function FinalFault(plan: Plan, stray: Option<PlanTask>): Option<PlanError>
      reads this
    {
      if plan.finalAgent !in agents then Some(UnknownFinalAgent)
      else if !EffectivelyEnabled(agents[plan.finalAgent]) then Some(DisabledFinalAgent)
      else match stray
        case None => None
        case Some(t) => Some(UnknownAgent(t))
    }

    /** validate_plan accepts exactly the acceptable plans, every complaint it makes is
        true, and after the per-task checks the cycle search never complains. */
    method ValidatePlan(plan: Plan, limits: Limits) returns (error: Option<PlanError>)
      ensures error.None? <==> Acceptable(plan, limits)
      ensures Valid() ==> (error.None? <==> Executable(plan, limits))
      ensures error.Some? ==> Faulty(plan, limits, error.value)
      ensures error != Some(Cyclic)
    {
      hide Shallow, GraphOf, SomeFault, ToolCount, TaskOk, Sequences, EffectivelyEnabled, Executable, Valid;
      if Valid() {
        AcceptableIsExecutable(plan, limits);
      }
      if plan.tasks == [] {
        return Some(EmptyPlan);
      }
      if |plan.tasks| > limits.maxTasks {
        return Some(TooManyTasks);
      }
      if !DistinctSequences(plan.tasks) {
        return Some(DuplicateSequence);
      }
      var depths, totalTools;
      error, depths, totalTools := ValidateTasks(plan.tasks, limits);
      if error.Some? {
        FaultIsFault(plan, limits, error.value);
        return;
      }
      if totalTools > limits.maxToolCalls {
        return Some(TooManyTools);
      }
      error := CheckWhole(plan, limits);
    }

    /** The cycle search and the checks after it, on tasks that passed theirs. */
    method CheckWhole(plan: Plan, limits: Limits) returns (error: Option<PlanError>)
      requires DistinctSequences(plan.tasks)
      requires forall t :: t in plan.tasks ==> TaskOk(t, Sequences(plan.tasks), limits)
      ensures error.None? <==> Available(plan.finalAgent)
      ensures error.Some? ==> Faulty(plan, limits, error.value) && error.value != Cyclic
    {
      hide DistinctSequences, EffectivelyEnabled, Faulty, FinalFault, GraphOf, Sequences, SystemAgent, TaskOk;
      AcceptedAcyclic(plan.tasks, limits);
      NodesListed(plan.tasks);
      var cyclic := Graphs.RejectCycles(GraphOf(plan.tasks), Order(plan.tasks));
      var stray := FirstStray(plan.tasks);
      NoStray(plan.tasks, limits);
      FinalFaulty(plan, limits);
      error := if cyclic then Some(Cyclic) else FinalFault(plan, stray);
    }

    lemma FaultIsFault(plan: Plan, limits: Limits, e: PlanError)
      requires SomeFault(plan.tasks, limits, e)
      ensures Faulty(plan, limits, e) && e != Cyclic
    {
    }

    /** Tasks that pass the per-task checks cannot form a cycle. */
    lemma AcceptedAcyclic(tasks: seq<PlanTask>, limits: Limits)
      requires DistinctSequences(tasks)
      requires forall t :: t in tasks ==> TaskOk(t, Sequences(tasks), limits)
      ensures !Graphs.HasCycle(GraphOf(tasks))
    {
      forall n, d | n in GraphOf(tasks) && d in GraphOf(tasks)[n]
        ensures d < n
      {
        var t := GraphMember(tasks, n);
        assert DependencyOk(t, d, Sequences(tasks));
      }
      Graphs.EarlierAcyclic(GraphOf(tasks));
    }

    /** What the engine relies on for an accepted plan: sequenced tasks, every tool inside
        the allow-list of its agent's class, and a level-walk depth for each task that
        stays within maxDepth. */
    lemma AcceptedPlan(plan: Plan, limits: Limits, t: PlanTask)
      requires Acceptable(plan, limits) && t in plan.tasks
      ensures Sequenced(plan.tasks) && plan.tasks != []
      ensures t.agent in agents && forall tool :: tool in t.allowedTools ==> tool in agents[t.agent].tools
      ensures var g := GraphOf(plan.tasks);
              var universe := Graphs.Everything(g);
              && (forall d :: d in Graphs.Deps(g, t.sequence) ==> d in universe)
              && Graphs.Levels(g, Graphs.Deps(g, t.sequence), {}, universe) <= limits.maxDepth
    {
      assert TaskOk(t, Sequences(plan.tasks), limits) && Shallow(plan.tasks, t.sequence, limits.maxDepth);
      forall tool | tool in t.allowedTools
        ensures tool in agents[t.agent].tools
      {
        assert ToolOk(t, tool, limits);
      }
      forall i, d | 0 <= i < |plan.tasks| && d in plan.tasks[i].dependencies
        ensures d < plan.tasks[i].sequence
      {
        assert TaskOk(plan.tasks[i], Sequences(plan.tasks), limits);
        assert DependencyOk(plan.tasks[i], d, Sequences(plan.tasks));
      }
      Graphs.TaskDepthIsChain(GraphOf(plan.tasks), t.sequence);
    }

    /** Any registry with an available agent accepts a plan on which the depth stored with
        task 4 is two while its longest chain has three edges. */
    lemma ShortfallAccepted(agent: string)
      requires Available(agent)
      ensures Acceptable(DetourPlan(agent), Limits(4, 3, 0, None))
      ensures GraphOf(DetourPlan(agent).tasks) == Graphs.DETOUR && Graphs.LongestChain(Graphs.DETOUR, 4, 3)
      ensures var deps := Graphs.Deps(Graphs.DETOUR, 4);
              && (forall d :: d in deps ==> d in Graphs.Everything(Graphs.DETOUR))
              && Graphs.Levels(Graphs.DETOUR, deps, {}, Graphs.Everything(Graphs.DETOUR)) == 2
    {
      Graphs.TaskDepthCanFallShort();
      DetourGraph(agent);
      var tasks := DetourPlan(agent).tasks;
      forall t | t in tasks
        ensures TaskOk(t, Sequences(tasks), Limits(4, 3, 0, None)) && Shallow(tasks, t.sequence, 3)
      {
        assert t == tasks[0] || t == tasks[1] || t == tasks[2] || t == tasks[3];
        assert !IsSpace(t.objective[0]);
        forall d | d in t.dependencies
          ensures DependencyOk(t, d, Sequences(tasks))
        {
          assert tasks[0] in tasks && tasks[1] in tasks && tasks[2] in tasks;
        }
        forall p | Graphs.WalkFrom(GraphOf(tasks), t.sequence, p)
          ensures |p| - 1 <= 3
        {
          Graphs.DetourWalk(p);
        }
      }
    }
  }

  function DetourTask(agent: string, sequence: int, dependencies: seq<int>): PlanTask {
    PlanTask(sequence, agent, "Look it up", dependencies, [], 1)
  }

  function DetourPlan(agent: string): Plan {
    Plan([DetourTask(agent, 1, []), DetourTask(agent, 2, [1]), DetourTask(agent, 3, [2]),
          DetourTask(agent, 4, [2, 3])], agent)
  }

  lemma DetourGraph(agent: string)
    ensures GraphOf(DetourPlan(agent).tasks) == Graphs.DETOUR && DistinctSequences(DetourPlan(agent).tasks)
    ensures ToolCount(DetourPlan(agent).tasks) == 0
  {
    var t := DetourPlan(agent).tasks;
    assert t[..3][..2][..1][..0] == [];
    assert t[..3][..2][..1] == [t[0]] && t[..3][..2] == [t[0], t[1]] && t[..3] == [t[0], t[1], t[2]];
    assert GraphOf([t[0]]) == map[1 := []];
    assert GraphOf([t[0], t[1]]) == map[1 := [], 2 := [1]];
    assert GraphOf([t[0], t[1], t[2]]) == map[1 := [], 2 := [1], 3 := [2]];
    assert t[1..] == [t[1], t[2], t[3]] && t[1..][1..] == [t[2], t[3]] && t[1..][1..][1..] == [t[3]];
    assert ToolCount([t[3]]) == 0 && ToolCount([t[2], t[3]]) == 0 && ToolCount([t[1], t[2], t[3]]) == 0;
  }
}
