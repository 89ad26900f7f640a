/** The guards of the A2A surface in front of the store, and the fencing they add up to. */
module Protocol {
  import opened HubTypes
  import opened HubSpec
  import Growth
  import AgentHistory

  /** How a message names its sender. */
  datatype Sender = ByContext(context: nat) | ByName(name: string) | Anonymous

  /** A worker's message. `instance` is empty when the metadata names none. */
  datatype Request =
    | CheckInRequest(name: string, profile: Profile, instance: string, op: string)
    | HeartbeatRequest(name: string, instance: string, current: Option<nat>)
    | ProgressRequest(sender: Sender, instance: string, task: nat, note: Text, op: string)
    | ResultRequest(sender: Sender, instance: string, task: nat, result: TaskResult, op: string)
    | QuestionRequest(sender: Sender, instance: string, task: nat, question: Text, sentAs: string)

  function AgentByContext(h: Hub, context: nat): Option<string> {
    if context < |h.roster| && h.roster[context] in h.agents && h.agents[h.roster[context]].context == context
    then Some(h.roster[context]) else None
  }

  /** The caller, provided the message comes from its current instance and it is not lost. */
  function ResolveAgent(h: Hub, sender: Sender, instance: string): Option<string> {
    var name := match sender
      case ByContext(context) => AgentByContext(h, context)
      case ByName(name) => if name in h.agents then Some(name) else None
      case Anonymous => None;
    if name.Some? && name.value in h.agents && instance == h.agents[name.value].instance
       && h.agents[name.value].status != Lost
    then name else None
  }

  predicate Owns(h: Hub, t: nat, name: string) {
    t < |h.tasks| && h.tasks[t].assignee == name
  }

  /** The store call a request turns into, if the guards let it through. */
  function Admit(h: Hub, request: Request, addr: Option<string>): Option<Call> {
    match request
    case CheckInRequest(name, profile, instance, op) =>
      if op == "" || instance == "" || name == "" then None else Some(DoCheckIn(name, profile, instance, op, addr))
    case HeartbeatRequest(name, instance, current) =>
      if instance == "" || name == "" then None else Some(DoHeartbeat(name, instance, current, addr))
    case ProgressRequest(sender, instance, task, note, op) =>
      var agent := ResolveAgent(h, sender, instance);
      if agent.None? || !Owns(h, task, agent.value) || op == "" then None
      else Some(DoProgress(task, agent.value, note, op))
    case ResultRequest(sender, instance, task, result, op) =>
      var agent := ResolveAgent(h, sender, instance);
      if agent.None? || !Owns(h, task, agent.value) || op == "" then None
      else Some(DoResult(task, agent.value, result, op))
    case QuestionRequest(sender, instance, task, question, sentAs) =>
      var agent := ResolveAgent(h, sender, instance);
      if agent.None? || !Owns(h, task, agent.value) || question.body == "" then None
      else Some(DoQuestion(task, agent.value, question, sentAs))
  }

  function Handle(h: Hub, now: int, request: Request, addr: Option<string>): Step {
    var call := Admit(h, request, addr);
    if call.None? then Refuse(h, Superseded) else Apply(h, now, call.value)
  }

  /** The message claims to come from agent `name`. */
  predicate Addresses(h: Hub, request: Request, name: string) {
    match request
    case CheckInRequest(n, _, _, _) => n == name
    case HeartbeatRequest(n, _, _) => n == name
    case ProgressRequest(sender, _, _, _, _) => Means(h, sender, name)
    case ResultRequest(sender, _, _, _, _) => Means(h, sender, name)
    case QuestionRequest(sender, _, _, _, _) => Means(h, sender, name)
  }

  predicate Means(h: Hub, sender: Sender, name: string) {
    sender == ByName(name) || (sender.ByContext? && AgentByContext(h, sender.context) == Some(name))
  }

  /** While an agent is live under one instance, a message in its name from any other instance changes
      no row and wakes nobody, whenever it was sent and however late it arrives. */
  lemma Fenced(h: Hub, now: int, request: Request, addr: Option<string>, name: string)
    requires name in h.agents && Live(h.agents[name].status)
    requires Addresses(h, request, name) && request.instance != h.agents[name].instance
    ensures Handle(h, now, request, addr).hub == h
    ensures Handle(h, now, request, addr).notified == {}
  {
  }

  /** A worker's write on a task passes the guards exactly if it comes from the task's assignee, by name or
      context, under its current instance, while it is not lost, and is complete. */
  predicate FromAssignee(h: Hub, sender: Sender, instance: string, t: nat) {
    && t < |h.tasks| && h.tasks[t].assignee in h.agents
    && var name := h.tasks[t].assignee;
    && (sender == ByName(name) || sender == ByContext(h.agents[name].context))
    && h.agents[name].instance == instance && h.agents[name].status != Lost
  }

  lemma ResolvesToAssignee(h: Hub, sender: Sender, instance: string, t: nat)
    requires AgentHistory.RosterOk(h)
    ensures ResolveAgent(h, sender, instance).Some? && Owns(h, t, ResolveAgent(h, sender, instance).value)
            <==> FromAssignee(h, sender, instance, t)
    ensures FromAssignee(h, sender, instance, t) ==> ResolveAgent(h, sender, instance) == Some(h.tasks[t].assignee)
  {
    if t < |h.tasks| && h.tasks[t].assignee in h.agents { assert AgentHistory.Seated(h, h.tasks[t].assignee); }
  }

  /** And then it is carried out in the assignee's name, as it was sent. */
  lemma AdmittedIff(h: Hub, request: Request, addr: Option<string>)
    requires AgentHistory.RosterOk(h)
    ensures var call := Admit(h, request, addr);
      match request
      case CheckInRequest(name, profile, instance, op) =>
        if |name| > 0 && |instance| > 0 && |op| > 0 then call == Some(DoCheckIn(name, profile, instance, op, addr))
        else call == None
      case HeartbeatRequest(name, instance, current) =>
        if |name| > 0 && |instance| > 0 then call == Some(DoHeartbeat(name, instance, current, addr)) else call == None
      case ProgressRequest(sender, instance, t, note, op) =>
        if FromAssignee(h, sender, instance, t) && |op| > 0
        then call == Some(DoProgress(t, h.tasks[t].assignee, note, op))
        else call == None
      case ResultRequest(sender, instance, t, result, op) =>
        if FromAssignee(h, sender, instance, t) && |op| > 0
        then call == Some(DoResult(t, h.tasks[t].assignee, result, op))
        else call == None
      case QuestionRequest(sender, instance, t, question, sentAs) =>
        if FromAssignee(h, sender, instance, t) && |question.body| > 0
        then call == Some(DoQuestion(t, h.tasks[t].assignee, question, sentAs)) else call == None
  {
    match request
    case ProgressRequest(sender, instance, t, _, _) => ResolvesToAssignee(h, sender, instance, t);
    case ResultRequest(sender, instance, t, _, _) => ResolvesToAssignee(h, sender, instance, t);
    case QuestionRequest(sender, instance, t, _, _) => ResolvesToAssignee(h, sender, instance, t);
    case _ =>
  }

  // -- fencing over runs ------------------------------------------------------

  /** What can happen next: a worker's message arrives, or somebody else calls the store directly. */
  datatype Move =
    | Arrives(request: Request, addr: Option<string>)
    | Calls(call: Call)

  datatype TimedMove = TimedMove(now: int, move: Move)

  function Play(h: Hub, m: TimedMove): Hub {
    match m.move
    case Arrives(request, addr) => Handle(h, m.now, request, addr).hub
    case Calls(call) => Apply(h, m.now, call).hub
  }

  function PlayAll(h: Hub, moves: seq<TimedMove>): Hub {
    if moves == [] then h else Play(PlayAll(h, moves[..|moves| - 1]), moves[|moves| - 1])
  }

  /** A message in the name of `name` from an instance other than `instance`. */
  predicate Stale(h: Hub, m: TimedMove, name: string, instance: string) {
    m.move.Arrives? && Addresses(h, m.move.request, name) && m.move.request.instance != instance
  }

  /** `name` is live under `instance` all the way through. */
  ghost predicate LiveThroughout(h: Hub, moves: seq<TimedMove>, name: string, instance: string) {
    forall i :: 0 <= i <= |moves| ==>
      var mid := PlayAll(h, moves[..i]);
      name in mid.agents && Live(mid.agents[name].status) && mid.agents[name].instance == instance
  }

  function WithoutStale(h: Hub, moves: seq<TimedMove>, name: string, instance: string): seq<TimedMove> {
    if moves == [] then []
    else
      var n := |moves| - 1;
      WithoutStale(h, moves[..n], name, instance)
      + if Stale(PlayAll(h, moves[..n]), moves[n], name, instance) then [] else [moves[n]]
  }

  /** As long as an instance lives, the hub's history is the same as if no message of a superseded
      instance had ever arrived. */
  lemma {:induction false} StaleInstancesAreUnheard(h: Hub, moves: seq<TimedMove>, name: string, instance: string)
    requires LiveThroughout(h, moves, name, instance)
    ensures PlayAll(h, WithoutStale(h, moves, name, instance)) == PlayAll(h, moves)
  {
    if moves != [] {
      var n := |moves| - 1;
      var init := moves[..n];
      forall i | 0 <= i <= n
        ensures var mid := PlayAll(h, init[..i]);
                name in mid.agents && Live(mid.agents[name].status) && mid.agents[name].instance == instance
      {
        assert init[..i] == moves[..i];
      }
      StaleInstancesAreUnheard(h, init, name, instance);
      var mid, kept := PlayAll(h, init), WithoutStale(h, init, name, instance);
      assert moves[..n] == init;
      if Stale(mid, moves[n], name, instance) {
        Fenced(mid, moves[n].now, moves[n].move.request, moves[n].move.addr, name);
        assert WithoutStale(h, moves, name, instance) == kept;
      } else {
        assert WithoutStale(h, moves, name, instance) == kept + [moves[n]];
        assert (kept + [moves[n]])[..|kept|] == kept;
      }
    }
  }

  /** A loss cannot go unnoticed by the fence: the replacement instance is admitted by check-in only
      once the old one is no longer live. */
  lemma InstanceChangesByCheckIn(h: Hub, now: int, call: Call, name: string)
    requires name in h.agents && name in Apply(h, now, call).hub.agents
    requires Apply(h, now, call).hub.agents[name].instance != h.agents[name].instance
    ensures call.DoCheckIn? && call.name == name && !Live(h.agents[name].status)
  {
    hide Apply;
    if call.DoCheckIn? {
      CheckInReplaces(h, now, call.name, call.profile, call.instance, call.op, call.addr, name);
    } else if call.DoHeartbeat? {
      HeartbeatKeepsInstances(h, now, call.name, call.instance, call.current, call.addr, name);
    } else if call.DoRelease? {
      ReleaseKeepsInstances(h, now, call.name, name);
    } else {
      Growth.OneSteady(h, now, call, name);
    }
  }

  lemma CheckInReplaces(h: Hub, now: int, n: string, profile: Profile, instance: Instance, op: string,
                        addr: Option<string>, name: string)
    requires name in h.agents
    ensures var r := Apply(h, now, DoCheckIn(n, profile, instance, op, addr)).hub;
      name in r.agents && (r.agents[name].instance != h.agents[name].instance ==>
        n == name && !Live(h.agents[name].status))
  {
  }

  lemma HeartbeatKeepsInstances(h: Hub, now: int, n: string, instance: Instance, current: Option<nat>,
                                addr: Option<string>, name: string)
    requires name in h.agents
    ensures var r := Apply(h, now, DoHeartbeat(n, instance, current, addr)).hub;
      name in r.agents && r.agents[name].instance == h.agents[name].instance
  {
  }

  lemma ReleaseKeepsInstances(h: Hub, now: int, n: string, name: string)
    requires name in h.agents
    ensures var r := Apply(h, now, DoRelease(n)).hub;
      name in r.agents && r.agents[name].instance == h.agents[name].instance
  {
  }
}
