/** Workers, a network that loses, repeats and delays whatever it likes, and the hub: every operation
    id has at most one effect, and exactly one once its call has returned. */
module ExactlyOnce {
  import opened HubTypes
  import opened HubSpec
  import opened Client
  import P = Protocol
  import Growth
  import AgentHistory
  import HubRuns
  import Replays
  import Truth

  // -- the system -------------------------------------------------------------

  datatype CallState = Waiting | Returned | Raised

  /** One tool call of client number `client`. */
  datatype Invocation = Invocation(client: nat, request: P.Request, state: CallState)

  datatype Answer = Answer(request: P.Request, response: Response)

  /** `wire` and `replies` only grow: whatever was sent once may arrive any number of times, at any
      later moment, or never. `ledger` records what each actor first used an id for, `clash` whether
      anyone ever used one for something else, and `effects` every operation the hub carried out rather
      than replayed. */
  datatype World = World(
    hub: Hub,
    clients: seq<ClientState>,
    calls: seq<Invocation>,
    wire: set<P.Request>,
    replies: set<Answer>,
    ledger: map<OpKey, Payload>,
    clash: bool,
    effects: seq<OpKey>)

  const START: World := World(EMPTY, [], [], {}, {}, map[], false, [])

  datatype Action =
    | Launch(name: string, instance: Instance)
    | Invoke(client: nat, intent: Intent, source: Source)
    | Transmit(call: nat)
    | Deliver(request: P.Request, now: int, addr: Option<string>)
    | Receive(call: nat, response: Response)
    | GiveUp(call: nat)
    | Elsewhere(now: int, hubCall: Call)

  function Asks(r: P.Request): Payload
    requires r.ProgressRequest? || r.ResultRequest? || (r.CheckInRequest? && |r.instance| > 0)
  {
    match r
    case CheckInRequest(name, profile, instance, _) => CheckInAsk(name, instance, profile)
    case ProgressRequest(_, _, task, note, _) => ProgressPayload(task, note.body)
    case ResultRequest(_, _, task, result, _) => ResultPayload(task, result)
  }

  function Purpose(c: ClientState, intent: Intent): Payload {
    match intent
    case CheckInIntent(profile) => CheckInAsk(c.name, c.instance, profile)
    case ProgressIntent(task, note) => ProgressPayload(task, note.body)
    case ResultIntent(task, result) => ResultPayload(task, result)
  }

  /** The hub carries the request out, as opposed to refusing or replaying it. */
  predicate Effective(h: Hub, now: int, request: P.Request, addr: Option<string>) {
    var call := P.Admit(h, request, addr);
    && call.Some? && Replays.KeyOf(call.value).Some?
    && !Replays.IsReplay(h, call.value) && !Apply(h, now, call.value).response.Refused?
  }

  predicate Used(w: World, uuid: string) {
    exists k :: k in w.ledger && k.id == uuid
  }

  function Next(w: World, a: Action): World {
    match a
    case Launch(name, instance) =>
      if name == "" then w else w.(clients := w.clients + [NewClient(name, instance)])
    case Invoke(client, intent, source) =>
      if |w.clients| <= client || (source.Minted? && (source.uuid == "" || Used(w, source.uuid))) then w
      else
        var c := w.clients[client];
        var begun, key := Begin(c, intent, source), OpKey(c.name, OpFor(c, intent, source));
        if begun.request.None? then w
        else w.(clients := w.clients[client := begun.client],
                calls := w.calls + [Invocation(client, begun.request.value, Waiting)],
                ledger := if key in w.ledger then w.ledger else w.ledger[key := Purpose(c, intent)],
                clash := w.clash || (key in w.ledger && w.ledger[key] != Purpose(c, intent)))
    case Transmit(call) =>
      if |w.calls| <= call || w.calls[call].state != Waiting then w
      else w.(wire := w.wire + {w.calls[call].request})
    case Deliver(request, now, addr) =>
      if request !in w.wire then w
      else
        var step := P.Handle(w.hub, now, request, addr);
        w.(hub := step.hub, replies := w.replies + {Answer(request, step.response)},
           effects := if Effective(w.hub, now, request, addr)
                      then w.effects + [Replays.KeyOf(P.Admit(w.hub, request, addr).value).value] else w.effects)
    case Receive(call, response) =>
      if |w.calls| <= call || w.calls[call].state != Waiting
         || Answer(w.calls[call].request, response) !in w.replies
      then w
      else if response.Refused? || |w.clients| <= w.calls[call].client then
        w.(calls := w.calls[call := w.calls[call].(state := Raised)])
      else
        var i := w.calls[call].client;
        w.(calls := w.calls[call := w.calls[call].(state := Returned)],
           clients := w.clients[i := Settle(w.clients[i], w.calls[call].request, response)])
    case GiveUp(call) =>
      if |w.calls| <= call || w.calls[call].state != Waiting then w
      else w.(calls := w.calls[call := w.calls[call].(state := Raised)])
    case Elsewhere(now, hubCall) =>
      if Replays.KeyOf(hubCall).Some? then w else w.(hub := Apply(w.hub, now, hubCall).hub)
  }

  function Play(w: World, actions: seq<Action>): World {
    if actions == [] then w else Next(Play(w, actions[..|actions| - 1]), actions[|actions| - 1])
  }

  // -- the invariant ----------------------------------------------------------

  /** A context that belongs to `name`. */
  predicate ContextOf(h: Hub, context: nat, name: string) {
    context < |h.roster| && h.roster[context] == name
  }

  predicate Operates(r: P.Request) {
    r.CheckInRequest? || r.ProgressRequest? || r.ResultRequest?
  }

  /** The operation a request stands for: whose it is, and under which id. */
  function KeyFor(h: Hub, r: P.Request): OpKey
    requires Operates(r)
  {
    OpKey(if r.CheckInRequest? then r.name
          else if r.sender.ByContext? && r.sender.context < |h.roster| then h.roster[r.sender.context] else "",
          IdOf(r))
  }

  /** The request speaks for a known sender under an id used before, and unless ids clashed for exactly
      what it asks. */
  ghost predicate RequestOk(w: World, r: P.Request) {
    && Operates(r)
    && (r.CheckInRequest? ==> |r.instance| > 0)
    && (!r.CheckInRequest? ==> r.sender.ByContext? && r.sender.context < |w.hub.roster|)
    && KeyFor(w.hub, r) in w.ledger
    && (!w.clash ==> w.ledger[KeyFor(w.hub, r)] == Asks(r))
  }

  ghost predicate ClientOk(w: World, c: ClientState) {
    && c.name != ""
    && (c.context.Some? ==> ContextOf(w.hub, c.context.value, c.name))
    && (c.checkin.Some? ==>
          BoundTo(w, c.checkin.value.op, c.name, CheckInAsk(c.name, c.instance, c.checkin.value.what)))
    && (forall t :: t in c.progress ==>
          BoundTo(w, c.progress[t].op, c.name, ProgressPayload(t, c.progress[t].what.body)))
    && (forall t :: t in c.results ==> BoundTo(w, c.results[t].op, c.name, ResultPayload(t, c.results[t].what)))
  }

  ghost predicate BoundTo(w: World, op: string, name: string, payload: Payload) {
    OpKey(name, op) in w.ledger && w.ledger[OpKey(name, op)] == payload
  }

  /** What the hub has on record is, unless ids clashed, what the id was used for; a recorded check-in
      names its context. */
  ghost predicate RecordOk(w: World, key: OpKey)
    requires key in w.hub.operations
  {
    var row := w.hub.operations[key];
    && (!w.clash ==> BoundTo(w, key.id, key.actor, row.payload))
    && !row.response.Refused?
    && (row.payload.CheckInPayload? ==> row.response.Registered? && ContextOf(w.hub, row.response.context, key.actor))
  }

  /** The operation a request stands for is on record as what the request asks. */
  predicate CarriedOut(h: Hub, r: P.Request)
    requires Operates(r) && (r.CheckInRequest? ==> |r.instance| > 0)
  {
    KeyFor(h, r) in h.operations && h.operations[KeyFor(h, r)].payload == Asks(r)
  }

  /** An answer that is not a refusal means the operation is on record. */
  ghost predicate ReplyOk(w: World, r: Answer) {
    && RequestOk(w, r.request)
    && (!r.response.Refused? ==>
          && CarriedOut(w.hub, r.request)
          && (r.request.CheckInRequest? && r.response.Registered? ==>
                ContextOf(w.hub, r.response.context, r.request.name)))
  }

  ghost predicate CallOk(w: World, i: Invocation) {
    && RequestOk(w, i.request)
    && i.client < |w.clients|
    && w.clients[i.client].name == KeyFor(w.hub, i.request).actor
    && (i.state == Returned ==> CarriedOut(w.hub, i.request))
  }

  /** How often the hub carried out the operation `key`. */
  function Effects(effects: seq<OpKey>, key: OpKey): nat {
    if effects == [] then 0
    else Effects(effects[..|effects| - 1], key) + if effects[|effects| - 1] == key then 1 else 0
  }

  ghost predicate EffectsOk(w: World) {
    forall key: OpKey {:trigger Effects(w.effects, key)} ::
      Effects(w.effects, key) == if key in w.hub.operations then 1 else 0
  }

  ghost predicate Inv(w: World) {
    && HubRuns.Inv(w.hub)
    && (forall i :: 0 <= i < |w.clients| ==> ClientOk(w, w.clients[i]))
    && (forall i :: 0 <= i < |w.calls| ==> CallOk(w, w.calls[i]))
    && (forall r :: r in w.wire ==> RequestOk(w, r))
    && (forall r :: r in w.replies ==> ReplyOk(w, r))
    && (forall k :: k in w.hub.operations ==> RecordOk(w, k))
    && EffectsOk(w)
  }

  // -- steps keep it ----------------------------------------------------------

  /** Names, contexts, minted ids and recorded operations stay what they are. */
  ghost predicate Grows(w: World, v: World) {
    && w.hub.roster <= v.hub.roster
    && (forall k :: k in w.ledger ==> k in v.ledger && v.ledger[k] == w.ledger[k])
    && (w.clash ==> v.clash)
    && (forall k :: k in w.hub.operations ==> k in v.hub.operations && v.hub.operations[k] == w.hub.operations[k])
  }

  lemma ClientGrows(w: World, v: World, c: ClientState)
    requires ClientOk(w, c) && Grows(w, v)
    ensures ClientOk(v, c)
  {
    forall t | t in c.progress
      ensures BoundTo(v, c.progress[t].op, c.name, ProgressPayload(t, c.progress[t].what.body))
    {
      assert BoundTo(w, c.progress[t].op, c.name, ProgressPayload(t, c.progress[t].what.body));
    }
    forall t | t in c.results ensures BoundTo(v, c.results[t].op, c.name, ResultPayload(t, c.results[t].what)) {
      assert BoundTo(w, c.results[t].op, c.name, ResultPayload(t, c.results[t].what));
    }
  }

  lemma RequestGrows(w: World, v: World, r: P.Request)
    requires RequestOk(w, r) && Grows(w, v)
    ensures RequestOk(v, r)
  {
  }

  lemma ReplyGrows(w: World, v: World, r: Answer)
    requires ReplyOk(w, r) && Grows(w, v)
    ensures ReplyOk(v, r)
  {
    RequestGrows(w, v, r.request);
  }

  lemma CallGrows(w: World, v: World, i: Invocation)
    requires CallOk(w, i) && Grows(w, v)
    requires |w.clients| <= |v.clients| && v.clients[i.client].name == w.clients[i.client].name
    ensures CallOk(v, i)
  {
    RequestGrows(w, v, i.request);
  }

  /** Everything old is still in order after a step; only what is new needs looking at. */
  lemma OldStaysOk(w: World, v: World)
    requires Inv(w) && Grows(w, v)
    requires |w.clients| <= |v.clients| && forall i :: 0 <= i < |w.clients| ==> v.clients[i].name == w.clients[i].name
    ensures forall i :: 0 <= i < |w.clients| ==> ClientOk(v, w.clients[i])
    ensures forall i :: 0 <= i < |w.calls| ==> CallOk(v, w.calls[i])
    ensures forall r :: r in w.wire ==> RequestOk(v, r)
    ensures forall r :: r in w.replies ==> ReplyOk(v, r)
    ensures forall k :: k in w.hub.operations ==> RecordOk(v, k)
  {
    hide HubRuns.Inv;
    forall i | 0 <= i < |w.clients| ensures ClientOk(v, w.clients[i]) { ClientGrows(w, v, w.clients[i]); }
    forall i | 0 <= i < |w.calls| ensures CallOk(v, w.calls[i]) { CallGrows(w, v, w.calls[i]); }
    forall r | r in w.wire ensures RequestOk(v, r) { RequestGrows(w, v, r); }
    forall r | r in w.replies ensures ReplyOk(v, r) { ReplyGrows(w, v, r); }
    forall k | k in w.hub.operations ensures RecordOk(v, k) { assert RecordOk(w, k); }
  }

  lemma LaunchKeeps(w: World, name: string, instance: Instance)
    requires Inv(w)
    ensures Inv(Next(w, Launch(name, instance)))
  {
    hide Apply, P.Handle, Effective;
    hide HubRuns.Inv;
    OldStaysOk(w, Next(w, Launch(name, instance)));
  }

  /** An id the client chose itself, new or remembered, has only ever been used for this call. */
  lemma MintedFits(w: World, c: ClientState, intent: Intent, uuid: string)
    requires ClientOk(w, c) && !Used(w, uuid) && Begin(c, intent, Minted(uuid)).request.Some?
    ensures var key := OpKey(c.name, OpFor(c, intent, Minted(uuid)));
      key in w.ledger ==> w.ledger[key] == Purpose(c, intent)
  {
    if intent.ProgressIntent? && intent.task in c.progress {
      var p := c.progress[intent.task];
      assert BoundTo(w, p.op, c.name, ProgressPayload(intent.task, p.what.body));
    }
    if intent.ResultIntent? && intent.task in c.results {
      var p := c.results[intent.task];
      assert BoundTo(w, p.op, c.name, ResultPayload(intent.task, p.what));
    }
  }

  /** The request a call begins with goes out under an id used for exactly it, unless ids clashed. */
  lemma BeginOk(w: World, v: World, c: ClientState, intent: Intent, source: Source)
    requires ClientOk(w, c) && Grows(w, v) && Begin(c, intent, source).request.Some?
    requires var key := OpKey(c.name, OpFor(c, intent, source));
      key in v.ledger && ((source.Given? && v.clash) || v.ledger[key] == Purpose(c, intent))
    ensures var b := Begin(c, intent, source);
      && RequestOk(v, b.request.value)
      && KeyFor(v.hub, b.request.value) == OpKey(c.name, OpFor(c, intent, source))
      && ClientOk(v, b.client) && b.client.name == c.name
  {
    ClientGrows(w, v, c);
    var d := Begin(c, intent, source).client;
    forall t | t in d.progress
      ensures BoundTo(v, d.progress[t].op, d.name, ProgressPayload(t, d.progress[t].what.body))
    {
      if d.progress != c.progress && intent.task == t {
      } else {
        assert BoundTo(v, c.progress[t].op, c.name, ProgressPayload(t, c.progress[t].what.body));
      }
    }
    forall t | t in d.results ensures BoundTo(v, d.results[t].op, d.name, ResultPayload(t, d.results[t].what)) {
      if d.results != c.results && intent.task == t {
      } else {
        assert BoundTo(v, c.results[t].op, c.name, ResultPayload(t, c.results[t].what));
      }
    }
  }

  lemma InvokeKeeps(w: World, client: nat, intent: Intent, source: Source)
    requires Inv(w)
    ensures Inv(Next(w, Invoke(client, intent, source)))
  {
    hide Apply, P.Handle, Effective;
    hide HubRuns.Inv, ClientOk;
    var v := Next(w, Invoke(client, intent, source));
    if v != w {
      var c := w.clients[client];
      assert ClientOk(w, c);
      if source.Minted? { MintedFits(w, c, intent, source.uuid); }
      BeginOk(w, v, c, intent, source);
      OldStaysOk(w, v);
    }
  }

  /** A settled client remembers nothing it did not remember before, and learns at most its context. */
  lemma SettleOk(v: World, c: ClientState, r: P.Request, response: Response)
    requires ClientOk(v, c)
    requires r.CheckInRequest? && response.Registered? ==> ContextOf(v.hub, response.context, c.name)
    ensures ClientOk(v, Settle(c, r, response)) && Settle(c, r, response).name == c.name
  {
    var d := Settle(c, r, response);
    forall t | t in d.progress
      ensures BoundTo(v, d.progress[t].op, d.name, ProgressPayload(t, d.progress[t].what.body))
    {
      assert BoundTo(v, c.progress[t].op, c.name, ProgressPayload(t, c.progress[t].what.body));
    }
    forall t | t in d.results ensures BoundTo(v, d.results[t].op, d.name, ResultPayload(t, d.results[t].what)) {
      assert BoundTo(v, c.results[t].op, c.name, ResultPayload(t, c.results[t].what));
    }
  }

  lemma ReceiveKeeps(w: World, call: nat, response: Response)
    requires Inv(w)
    ensures Inv(Next(w, Receive(call, response)))
  {
    hide Apply, P.Handle, Effective;
    hide HubRuns.Inv, ClientOk, Settle, RecordOk;
    var v := Next(w, Receive(call, response));
    if v != w {
      var i := w.calls[call];
      assert CallOk(w, i) && ReplyOk(w, Answer(i.request, response));
      assert ClientOk(w, w.clients[i.client]);
      ClientGrows(w, v, w.clients[i.client]);
      if !response.Refused? { SettleOk(v, w.clients[i.client], i.request, response); }
      OldStaysOk(w, v);
    }
  }

  lemma LocalKeeps(w: World, a: Action)
    requires Inv(w) && (a.Transmit? || a.GiveUp?)
    ensures Inv(Next(w, a))
  {
    hide Apply, P.Handle, Effective;
    hide HubRuns.Inv, ClientOk, RecordOk, ReplyOk, RequestOk;
    OldStaysOk(w, Next(w, a));
    if a.call < |w.calls| { assert CallOk(w, w.calls[a.call]); CallSound(w, w.calls[a.call], Next(w, a)); }
  }

  /** A call may be given up at any time, and its request may go out again. */
  lemma CallSound(w: World, i: Invocation, v: World)
    requires CallOk(w, i) && Grows(w, v) && v.clients == w.clients
    ensures RequestOk(v, i.request) && CallOk(v, i.(state := Raised))
  {
    RequestGrows(w, v, i.request);
  }

  lemma CheckInRecords(h: Hub, now: int, name: string, profile: Profile, instance: Instance, op: string,
                       addr: Option<string>)
    ensures OperationsFollow(h, now, DoCheckIn(name, profile, instance, op, addr))
  {
  }

  lemma ProgressRecords(h: Hub, now: int, t: nat, agent: string, note: Text, op: string)
    ensures OperationsFollow(h, now, DoProgress(t, agent, note, op))
  {
  }

  lemma ResultRecords(h: Hub, now: int, t: nat, agent: string, result: TaskResult, op: string)
    ensures OperationsFollow(h, now, DoResult(t, agent, result, op))
  {
    hide ResultEcho, TerminalStatus;
  }

  /** A row appears in the operation table exactly when an operation succeeds for the first time. */
  predicate OperationsFollow(h: Hub, now: int, call: Call) {
    var r := Apply(h, now, call);
    if Replays.KeyOf(call).Some? && !Replays.IsReplay(h, call) && !r.response.Refused?
    then r.hub.operations == h.operations[Replays.KeyOf(call).value := Operation(Replays.PayloadOf(call), r.response)]
    else r.hub.operations == h.operations
  }

  /** What a call does to the operation table. */
  lemma OperationsAfter(h: Hub, now: int, call: Call)
    ensures OperationsFollow(h, now, call)
  {
    match call
    case DoSweep(lostAfter) =>
      SweepKeepsOperations(h, now, |h.tasks|);
      var h1 := ExpireLeases(h, now, |h.tasks|);
      LoseKeepsOperations(h1, now - lostAfter, |h1.roster|);
    case DoCheckIn(name, profile, instance, op, addr) => CheckInRecords(h, now, name, profile, instance, op, addr);
    case DoProgress(task, name, note, op) => ProgressRecords(h, now, task, name, note, op);
    case DoResult(task, name, result, op) => ResultRecords(h, now, task, name, result, op);
    case _ =>
  }

  lemma {:induction false} SweepKeepsOperations(h: Hub, now: int, k: nat)
    requires k <= |h.tasks|
    ensures ExpireLeases(h, now, k).operations == h.operations
  {
    if k > 0 { SweepKeepsOperations(h, now, k - 1); }
  }

  lemma {:induction false} LoseKeepsOperations(h: Hub, cutoff: int, k: nat)
    requires k <= |h.roster|
    ensures LoseAgents(h, cutoff, k).operations == h.operations
  {
    if k > 0 { LoseKeepsOperations(h, cutoff, k - 1); }
  }

  lemma ElsewhereKeeps(w: World, now: int, hubCall: Call)
    requires Inv(w)
    ensures Inv(Next(w, Elsewhere(now, hubCall)))
  {
    hide Apply, P.Handle;
    hide HubRuns.Inv;
    var v := Next(w, Elsewhere(now, hubCall));
    if v != w {
      HubRuns.StepKeeps(w.hub, now, hubCall);
      HubRuns.StepExtends(w.hub, now, hubCall);
      OperationsAfter(w.hub, now, hubCall);
      OldStaysOk(w, v);
    }
  }

  /** An admitted request becomes the operation it stands for, asking what it asks. */
  lemma AdmittedAsBound(w: World, r: P.Request, addr: Option<string>)
    requires RequestOk(w, r) && P.Admit(w.hub, r, addr).Some?
    ensures var call := P.Admit(w.hub, r, addr).value;
      && Replays.KeyOf(call) == Some(KeyFor(w.hub, r))
      && Replays.PayloadOf(call) == Asks(r)
  {
  }

  lemma CheckInContext(h: Hub, now: int, call: Call)
    requires HubRuns.Inv(h) && call.DoCheckIn? && !Replays.IsReplay(h, call) && !Apply(h, now, call).response.Refused?
    ensures Apply(h, now, call).response.Registered?
    ensures ContextOf(Apply(h, now, call).hub, Apply(h, now, call).response.context, call.name)
  {
    if call.name in h.agents { assert AgentHistory.Seated(h, call.name); }
  }

  lemma DeliverGrows(w: World, r: P.Request, now: int, addr: Option<string>)
    requires Inv(w) && r in w.wire
    ensures HubRuns.Inv(Next(w, Deliver(r, now, addr)).hub) && Grows(w, Next(w, Deliver(r, now, addr)))
  {
    hide HubRuns.Inv;
    if P.Admit(w.hub, r, addr).Some? {
      HubRuns.StepKeeps(w.hub, now, P.Admit(w.hub, r, addr).value);
      HubRuns.StepExtends(w.hub, now, P.Admit(w.hub, r, addr).value);
    }
  }

  lemma DeliverRecords(w: World, r: P.Request, now: int, addr: Option<string>)
    requires Inv(w) && r in w.wire
    ensures var v := Next(w, Deliver(r, now, addr)); forall k :: k in v.hub.operations ==> RecordOk(v, k)
  {
    hide HubRuns.Inv, Apply;
    var v := Next(w, Deliver(r, now, addr));
    DeliverGrows(w, r, now, addr);
    forall k | k in v.hub.operations ensures RecordOk(v, k) {
      if k in w.hub.operations { assert RecordOk(w, k); } else { NewRecord(w, r, now, addr, k); }
    }
  }

  lemma ReplayedResponse(h: Hub, now: int, call: Call)
    requires Replays.IsReplay(h, call) && !Apply(h, now, call).response.Refused?
    ensures var row := h.operations[Replays.KeyOf(call).value];
      row.payload == Replays.PayloadOf(call) && Apply(h, now, call).response == row.response
  {
  }

  /** A response that is not a refusal leaves the operation on record. */
  lemma AnswerOk(w: World, v: World, r: P.Request, now: int, addr: Option<string>)
    requires HubRuns.Inv(w.hub) && RequestOk(w, r) && RequestOk(v, r) && Grows(w, v)
    requires KeyFor(w.hub, r) in w.hub.operations ==> RecordOk(w, KeyFor(w.hub, r))
    requires v.hub == P.Handle(w.hub, now, r, addr).hub
    ensures ReplyOk(v, Answer(r, P.Handle(w.hub, now, r, addr).response))
  {
    hide HubRuns.Inv, Apply;
    var admitted := P.Admit(w.hub, r, addr);
    if admitted.Some? && !Apply(w.hub, now, admitted.value).response.Refused? {
      var call := admitted.value;
      OperationsAfter(w.hub, now, call);
      AdmittedAsBound(w, r, addr);
      if Replays.IsReplay(w.hub, call) {
        ReplayedResponse(w.hub, now, call);
      } else if call.DoCheckIn? {
        CheckInContext(w.hub, now, call);
      }
    }
  }

  lemma DeliverAnswers(w: World, r: P.Request, now: int, addr: Option<string>)
    requires Inv(w) && r in w.wire
    ensures ReplyOk(Next(w, Deliver(r, now, addr)), Answer(r, P.Handle(w.hub, now, r, addr).response))
  {
    hide HubRuns.Inv, Apply, P.Admit, RequestOk, RecordOk, ReplyOk, Grows;
    var v := Next(w, Deliver(r, now, addr));
    DeliverGrows(w, r, now, addr);
    RequestGrows(w, v, r);
    KeyStands(w, r);
    AnswerOk(w, v, r, now, addr);
  }

  lemma KeyStands(w: World, r: P.Request)
    requires Inv(w) && RequestOk(w, r)
    ensures KeyFor(w.hub, r) in w.hub.operations ==> RecordOk(w, KeyFor(w.hub, r))
    ensures Operates(r)
  {
    hide HubRuns.Inv, RecordOk;
  }

  lemma NewRecord(w: World, r: P.Request, now: int, addr: Option<string>, k: OpKey)
    requires Inv(w) && r in w.wire && P.Admit(w.hub, r, addr).Some?
    requires k in P.Handle(w.hub, now, r, addr).hub.operations && k !in w.hub.operations
    ensures k in Next(w, Deliver(r, now, addr)).hub.operations && RecordOk(Next(w, Deliver(r, now, addr)), k)
  {
    hide Apply, P.ResolveAgent, ClientOk, CallOk, ReplyOk, EffectsOk;
    hide HubRuns.Inv;
    var call := P.Admit(w.hub, r, addr).value;
    assert RequestOk(w, r);
    OperationsAfter(w.hub, now, call);
    AdmittedAsBound(w, r, addr);
    if call.DoCheckIn? { CheckInContext(w.hub, now, call); }
  }

  lemma DeliverEffects(w: World, r: P.Request, now: int, addr: Option<string>)
    requires Inv(w) && r in w.wire
    ensures EffectsOk(Next(w, Deliver(r, now, addr)))
  {
    hide HubRuns.Inv, Apply, P.ResolveAgent, ClientOk, CallOk, ReplyOk, RecordOk;
    var v := Next(w, Deliver(r, now, addr));
    assert RequestOk(w, r);
    var admitted := P.Admit(w.hub, r, addr);
    if admitted.Some? { OperationsAfter(w.hub, now, admitted.value); AdmittedAsBound(w, r, addr); }
    forall key: OpKey ensures Effects(v.effects, key) == if key in v.hub.operations then 1 else 0 {
      assert Effects(w.effects, key) == if key in w.hub.operations then 1 else 0;
      if v.effects != w.effects { assert v.effects[..|v.effects| - 1] == w.effects; }
    }
  }

  lemma DeliverKeeps(w: World, r: P.Request, now: int, addr: Option<string>)
    requires Inv(w)
    ensures Inv(Next(w, Deliver(r, now, addr)))
  {
    hide HubRuns.Inv;
    var v := Next(w, Deliver(r, now, addr));
    if r in w.wire {
      DeliverGrows(w, r, now, addr);
      DeliverRecords(w, r, now, addr);
      DeliverAnswers(w, r, now, addr);
      DeliverEffects(w, r, now, addr);
      OldStaysOk(w, v);
    }
  }

  lemma NextKeeps(w: World, a: Action)
    requires Inv(w)
    ensures Inv(Next(w, a))
  {
    match a
    case Launch(name, instance) => LaunchKeeps(w, name, instance);
    case Invoke(client, intent, source) => InvokeKeeps(w, client, intent, source);
    case Deliver(request, now, addr) => DeliverKeeps(w, request, now, addr);
    case Receive(call, response) => ReceiveKeeps(w, call, response);
    case Elsewhere(now, hubCall) => ElsewhereKeeps(w, now, hubCall);
    case _ => LocalKeeps(w, a);
  }

  lemma {:induction false} PlayKeeps(actions: seq<Action>)
    ensures Inv(Play(START, actions))
  {
    if actions == [] {
      HubRuns.EmptyInv();
    } else {
      PlayKeeps(actions[..|actions| - 1]);
      NextKeeps(Play(START, actions[..|actions| - 1]), actions[|actions| - 1]);
    }
  }

  // -- what it gives ----------------------------------------------------------

  /** Whatever the network and the callers do, no operation id is ever carried out twice. */
  lemma AtMostOnce(actions: seq<Action>, key: OpKey)
    ensures Effects(Play(START, actions).effects, key) <= 1
  {
    PlayKeeps(actions);
  }

  /** A call that returned was carried out exactly once, and what was carried out is what it asked. */
  lemma ReturnedExactlyOnce(actions: seq<Action>, call: nat)
    requires call < |Play(START, actions).calls| && Play(START, actions).calls[call].state == Returned
    ensures var w := Play(START, actions);
      var i := w.calls[call];
      && i.client < |w.clients| && Operates(i.request) && (i.request.CheckInRequest? ==> |i.request.instance| > 0)
      && KeyFor(w.hub, i.request).actor == w.clients[i.client].name && CarriedOut(w.hub, i.request)
      && Effects(w.effects, OpKey(w.clients[i.client].name, IdOf(i.request))) == 1
  {
    PlayKeeps(actions);
    var w := Play(START, actions);
    assert CallOk(w, w.calls[call]);
  }

  /** Ids clash exactly when a caller supplies one its client has already used for something else. */
  lemma ClashIff(w: World, a: Action)
    requires Inv(w) && !w.clash
    ensures Next(w, a).clash <==>
      && a.Invoke? && a.source.Given? && a.client < |w.clients|
      && var c := w.clients[a.client];
         var key := OpKey(c.name, a.source.op);
         && (a.intent.CheckInIntent? || c.context.Some?)
         && key in w.ledger && w.ledger[key] != Purpose(c, a.intent)
  {
    hide HubRuns.Inv;
    if a.Invoke? && a.client < |w.clients| && a.source.Minted? && !Used(w, a.source.uuid) {
      var c := w.clients[a.client];
      assert ClientOk(w, c);
      if Begin(c, a.intent, a.source).request.Some? { MintedFits(w, c, a.intent, a.source.uuid); }
    }
  }

  /** Ids the clients mint themselves never clash. */
  lemma {:induction false} MintedNeverClash(actions: seq<Action>)
    requires forall i :: 0 <= i < |actions| && actions[i].Invoke? ==> actions[i].source.Minted?
    ensures !Play(START, actions).clash
  {
    if actions != [] {
      var n := |actions| - 1;
      MintedNeverClash(actions[..n]);
      PlayKeeps(actions[..n]);
      ClashIff(Play(START, actions[..n]), actions[n]);
    }
  }

  /** Unless ids clashed, no two requests ever sent under one id of one actor ask for different things. */
  lemma OnePayloadPerId(actions: seq<Action>, r: P.Request, q: P.Request)
    requires !Play(START, actions).clash
    requires r in Play(START, actions).wire && q in Play(START, actions).wire && Operates(r) && Operates(q)
    requires KeyFor(Play(START, actions).hub, r) == KeyFor(Play(START, actions).hub, q)
    ensures (r.CheckInRequest? ==> |r.instance| > 0) && (q.CheckInRequest? ==> |q.instance| > 0) && Asks(r) == Asks(q)
  {
    PlayKeeps(actions);
    var w := Play(START, actions);
    assert RequestOk(w, r) && RequestOk(w, q);
  }

  /** A request that was ever sent is refused as a changed payload if and only if it passes the guards in
      front of the store, its result is within bounds, and its id is on record with another payload. */
  lemma ConflictIff(actions: seq<Action>, r: P.Request, now: int, addr: Option<string>)
    requires r in Play(START, actions).wire
    ensures var w := Play(START, actions);
      && Operates(r) && (r.CheckInRequest? ==> |r.instance| > 0)
      && (P.Handle(w.hub, now, r, addr).response == Refused(IdempotencyConflict) <==>
            && P.Admit(w.hub, r, addr).Some? && (r.ResultRequest? ==> r.result.detail.fits)
            && KeyFor(w.hub, r) in w.hub.operations && w.hub.operations[KeyFor(w.hub, r)].payload != Asks(r))
  {
    hide HubRuns.Inv;
    PlayKeeps(actions);
    var w := Play(START, actions);
    assert RequestOk(w, r);
    if P.Admit(w.hub, r, addr).Some? {
      AdmittedAsBound(w, r, addr);
      var call := P.Admit(w.hub, r, addr).value;
      if Replays.IsReplay(w.hub, call) { assert RecordOk(w, Replays.KeyOf(call).value); }
    }
  }

  // -- when ids clash ---------------------------------------------------------

  /** The call went out under this key to ask for this. */
  predicate Uses(h: Hub, i: Invocation, key: OpKey, payload: Payload) {
    && Operates(i.request) && (i.request.CheckInRequest? ==> |i.request.instance| > 0)
    && KeyFor(h, i.request) == key && Asks(i.request) == payload
  }

  ghost predicate UsedTwice(w: World, key: OpKey, p: Payload, q: Payload) {
    && p != q
    && (exists i :: 0 <= i < |w.calls| && Uses(w.hub, w.calls[i], key, p))
    && (exists j :: 0 <= j < |w.calls| && Uses(w.hub, w.calls[j], key, q))
  }

  /** Two calls went out under one id of one actor and asked for different things. */
  ghost predicate TwoUses(w: World) {
    exists key, p, q :: UsedTwice(w, key, p, q)
  }

  /** What the ledger says an id was used for some call asked, and a clash is two calls that differ. */
  ghost predicate Accounted(w: World) {
    && (forall k :: k in w.ledger ==> exists i :: 0 <= i < |w.calls| && Uses(w.hub, w.calls[i], k, w.ledger[k]))
    && (w.clash ==> TwoUses(w))
  }

  lemma NextGrows(w: World, a: Action)
    requires Inv(w)
    ensures Grows(w, Next(w, a))
  {
    hide HubRuns.Inv, Apply, P.Handle, Begin, Settle, ClientOk, CallOk, RecordOk, ReplyOk, RequestOk, EffectsOk;
    if a.Deliver? && a.request in w.wire {
      DeliverGrows(w, a.request, a.now, a.addr);
    } else if a.Elsewhere? && Replays.KeyOf(a.hubCall).None? {
      HubRuns.StepExtends(w.hub, a.now, a.hubCall);
      OperationsAfter(w.hub, a.now, a.hubCall);
    }
  }

  lemma CallsStay(w: World, a: Action)
    ensures |w.calls| <= |Next(w, a).calls|
    ensures forall i :: 0 <= i < |w.calls| ==>
              Next(w, a).calls[i].request == w.calls[i].request && Next(w, a).calls[i].client == w.calls[i].client
  {
    hide Apply, P.Handle;
  }

  /** Calls are never taken back, and a request keeps its key. */
  lemma UsesStay(w: World, a: Action, key: OpKey, p: Payload)
    requires Inv(w) && exists i :: 0 <= i < |w.calls| && Uses(w.hub, w.calls[i], key, p)
    ensures var v := Next(w, a); exists i :: 0 <= i < |v.calls| && Uses(v.hub, v.calls[i], key, p)
  {
    hide HubRuns.Inv, Next, Grows, Uses;
    var i :| 0 <= i < |w.calls| && Uses(w.hub, w.calls[i], key, p);
    NextGrows(w, a);
    CallsStay(w, a);
    UseStays(w, Next(w, a), w.calls[i], Next(w, a).calls[i], key, p);
  }

  lemma UseStays(w: World, v: World, i: Invocation, j: Invocation, key: OpKey, p: Payload)
    requires CallOk(w, i) && Uses(w.hub, i, key, p) && Grows(w, v) && j.request == i.request
    ensures Uses(v.hub, j, key, p)
  {
  }

  /** A call that begins uses its id for what its intent is for. */
  lemma InvokeUses(w: World, client: nat, intent: Intent, source: Source)
    requires Inv(w) && Next(w, Invoke(client, intent, source)) != w
    ensures var v := Next(w, Invoke(client, intent, source));
      && client < |w.clients| && |v.calls| == |w.calls| + 1
      && Uses(v.hub, v.calls[|w.calls|], OpKey(w.clients[client].name, OpFor(w.clients[client], intent, source)),
              Purpose(w.clients[client], intent))
  {
    hide HubRuns.Inv, Apply, P.Handle;
    var c := w.clients[client];
    assert ClientOk(w, c);
  }

  lemma AccountedStep(w: World, a: Action)
    requires Inv(w) && Accounted(w)
    ensures Accounted(Next(w, a))
  {
    hide HubRuns.Inv, Apply, P.Handle, ClientOk, CallOk, RecordOk, ReplyOk, RequestOk, EffectsOk, Uses;
    var v := Next(w, a);
    if a.Invoke? && v != w { InvokeUses(w, a.client, a.intent, a.source); }
    forall k | k in v.ledger ensures exists i :: 0 <= i < |v.calls| && Uses(v.hub, v.calls[i], k, v.ledger[k]) {
      if k in w.ledger { UsesStay(w, a, k, w.ledger[k]); }
    }
    if w.clash {
      var key, p, q :| UsedTwice(w, key, p, q);
      UsesStay(w, a, key, p);
      UsesStay(w, a, key, q);
      assert UsedTwice(v, key, p, q);
    } else if v.clash {
      var c := w.clients[a.client];
      var key := OpKey(c.name, OpFor(c, a.intent, a.source));
      UsesStay(w, a, key, w.ledger[key]);
      assert UsedTwice(v, key, w.ledger[key], Purpose(c, a.intent));
    }
  }

  lemma {:induction false} AlwaysAccounted(actions: seq<Action>)
    ensures Accounted(Play(START, actions))
  {
    if actions != [] {
      var n := |actions| - 1;
      AlwaysAccounted(actions[..n]);
      PlayKeeps(actions[..n]);
      AccountedStep(Play(START, actions[..n]), actions[n]);
    }
  }

  /** In any run, ids clash if and only if two of its calls went out under one id of one actor and asked for
      different things. */
  lemma ClashMeansTwoUses(actions: seq<Action>)
    ensures Play(START, actions).clash <==> TwoUses(Play(START, actions))
  {
    hide HubRuns.Inv;
    PlayKeeps(actions);
    AlwaysAccounted(actions);
    var w := Play(START, actions);
    if TwoUses(w) {
      var key, p, q :| UsedTwice(w, key, p, q);
      var i :| 0 <= i < |w.calls| && Uses(w.hub, w.calls[i], key, p);
      var j :| 0 <= j < |w.calls| && Uses(w.hub, w.calls[j], key, q);
      assert CallOk(w, w.calls[i]) && CallOk(w, w.calls[j]);
    }
  }

  /** So unless ids clashed, the hub's refusal of a changed payload cannot be provoked. */
  lemma ConflictUnreachable(actions: seq<Action>, r: P.Request, now: int, addr: Option<string>)
    requires !Play(START, actions).clash && r in Play(START, actions).wire
    ensures P.Handle(Play(START, actions).hub, now, r, addr).response != Refused(IdempotencyConflict)
  {
    ConflictIff(actions, r, now, addr);
    PlayKeeps(actions);
    var w := Play(START, actions);
    assert RequestOk(w, r);
    assert KeyFor(w.hub, r) in w.hub.operations ==> RecordOk(w, KeyFor(w.hub, r));
  }

  const PLAIN: Profile := Profile("", [], None, true)
  const OTHER: Profile := Profile("other", [], None, true)

  const ONE: P.Request := P.CheckInRequest("bob", PLAIN, "w", "id")
  const TWO: P.Request := P.CheckInRequest("bob", OTHER, "w", "id")

  /** A caller that supplies one id for two profiles. */
  const CARELESS: seq<Action> := [
    Launch("bob", "w"), Invoke(0, CheckInIntent(PLAIN), Given("id")), Transmit(0), Deliver(ONE, 0, None),
    Invoke(0, CheckInIntent(OTHER), Given("id")), Transmit(1)]

  lemma CarelessFirst()
    ensures var w, c := Play(START, CARELESS[..3]), NewClient("bob", "w");
      && w.hub == EMPTY && w.clients == [c] && w.calls == [Invocation(0, ONE, Waiting)] && w.wire == {ONE}
      && w.ledger == map[OpKey("bob", "id") := CheckInAsk("bob", "w", PLAIN)]
  {
    assert CARELESS[..1][..0] == [] && CARELESS[..2][..1] == CARELESS[..1] && CARELESS[..3][..2] == CARELESS[..2];
    var w1, w2 := Play(START, CARELESS[..1]), Play(START, CARELESS[..2]);
    assert Play(START, []) == START && CARELESS[..1][0] == CARELESS[0];
    assert w1 == Next(START, CARELESS[0]) && w2 == Next(w1, CARELESS[1]);
    assert w1.clients == [NewClient("bob", "w")] && w1.ledger == map[] && w1.wire == {};
    assert w2.calls == [Invocation(0, ONE, Waiting)] && w2.clients == w1.clients;
  }

  lemma CarelessSecond()
    ensures var w, c := Play(START, CARELESS[..4]), NewClient("bob", "w");
      && w.clients == [c] && |w.calls| == 1 && w.ledger == map[OpKey("bob", "id") := CheckInAsk("bob", "w", PLAIN)]
      && OpKey("bob", "id") in w.hub.operations
      && w.hub.operations[OpKey("bob", "id")].payload == CheckInAsk("bob", "w", PLAIN)
  {
    CarelessFirst();
    assert CARELESS[..4][..3] == CARELESS[..3];
    assert Play(START, CARELESS[..4]) == Next(Play(START, CARELESS[..3]), Deliver(ONE, 0, None));
  }

  /** The second check-in of such a caller is refused as a changed payload. */
  lemma ConflictReachable()
    ensures var w := Play(START, CARELESS);
      w.clash && TWO in w.wire && P.Handle(w.hub, 0, TWO, None).response == Refused(IdempotencyConflict)
  {
    CarelessSecond();
    var w4, w5, w6 := Play(START, CARELESS[..4]), Play(START, CARELESS[..5]), Play(START, CARELESS);
    assert CARELESS[..5][..4] == CARELESS[..4];
    assert w5 == Next(w4, CARELESS[4]) && w6 == Next(w5, Transmit(1));
    assert CheckInAsk("bob", "w", PLAIN).rest.details != CheckInAsk("bob", "w", OTHER).rest.details;
  }

  // -- calls made again -------------------------------------------------------

  /** The step neither settles the client's call nor has it start another in its place. */
  predicate Leaving(w: World, a: Action, client: nat, intent: Intent) {
    match a
    case Invoke(c, other, source) => c != client || source.Given? || other == intent || !SamePlace(other, intent)
    case Receive(call, response) =>
      call < |w.calls| && w.calls[call].client == client ==>
        response.Refused? || !Settling(w.calls[call].request, intent)
    case _ => true
  }

  lemma StillRemembers(w: World, a: Action, client: nat, intent: Intent, op: string)
    requires client < |w.clients| && Remembers(w.clients[client], intent, op) && Leaving(w, a, client, intent)
    ensures var v := Next(w, a); client < |v.clients| && Remembers(v.clients[client], intent, op)
  {
    hide Apply, P.Handle;
    var v := Next(w, a);
    if a.Invoke? && a.client == client && v != w {
      LeftStays(w.clients[client], Starts(a.intent, a.source), intent, op);
    } else if a.Receive? && v != w && w.calls[a.call].client == client && !a.response.Refused? {
      LeftStays(w.clients[client], Settles(w.calls[a.call].request, a.response), intent, op);
    }
  }

  /** The client made this call at step `i` of the run, minting the id if it had none, and this is the request. */
  ghost predicate Called(actions: seq<Action>, i: nat, client: nat, intent: Intent, r: P.Request) {
    && i < |actions| && actions[i].Invoke? && actions[i].source.Minted?
    && actions[i].client == client && actions[i].intent == intent
    && var w, v := Play(START, actions[..i]), Play(START, actions[..i + 1]);
    && |v.calls| == |w.calls| + 1 && v.calls[|w.calls|].request == r
  }

  lemma CalledRemembers(actions: seq<Action>, i: nat, client: nat, intent: Intent, r: P.Request)
    requires Called(actions, i, client, intent, r)
    ensures var w, v := Play(START, actions[..i]), Play(START, actions[..i + 1]);
      && client < |w.clients| && client < |v.clients| && Operates(r)
      && |v.calls| > 0 && v.calls[|v.calls| - 1].request == r && v.calls[|v.calls| - 1].client == client
      && Remembers(v.clients[client], intent, IdOf(r))
      && (forall op :: Remembers(w.clients[client], intent, op) ==> IdOf(r) == op)
  {
    hide Apply, P.Handle;
    var w := Play(START, actions[..i]);
    assert actions[..i + 1][..i] == actions[..i];
    BeginRemembers(w.clients[client], intent, actions[i].source.uuid);
    hide Remembers;
  }

  lemma {:induction false} StillPending(actions: seq<Action>, i: nat, k: nat, client: nat, intent: Intent, op: string)
    requires i <= k <= |actions|
    requires client < |Play(START, actions[..i]).clients|
    requires Remembers(Play(START, actions[..i]).clients[client], intent, op)
    requires forall n :: i <= n < k ==> Leaving(Play(START, actions[..n]), actions[n], client, intent)
    ensures client < |Play(START, actions[..k]).clients|
    ensures Remembers(Play(START, actions[..k]).clients[client], intent, op)
    decreases k
  {
    hide Next, Remembers, Leaving;
    if i < k {
      StillPending(actions, i, k - 1, client, intent, op);
      assert actions[..k][..k - 1] == actions[..k - 1];
      StillRemembers(Play(START, actions[..k - 1]), actions[k - 1], client, intent, op);
    }
  }

  lemma {:induction false} CallStands(actions: seq<Action>, i: nat, k: nat, c: nat)
    requires i <= k <= |actions| && c < |Play(START, actions[..i]).calls|
    ensures var w, v := Play(START, actions[..i]), Play(START, actions[..k]);
      c < |v.calls| && v.calls[c].request == w.calls[c].request && v.calls[c].client == w.calls[c].client
    decreases k
  {
    hide Next;
    if i < k {
      CallStands(actions, i, k - 1, c);
      assert actions[..k][..k - 1] == actions[..k - 1];
      CallsStay(Play(START, actions[..k - 1]), actions[k - 1]);
    }
  }

  /** To the end of the run the request stands for an operation of the client's, under its id. */
  lemma CalledAs(actions: seq<Action>, i: nat, client: nat, intent: Intent, r: P.Request)
    requires Called(actions, i, client, intent, r)
    ensures var w := Play(START, actions);
      client < |w.clients| && Operates(r) && KeyFor(w.hub, r) == OpKey(w.clients[client].name, IdOf(r))
  {
    hide Next, HubRuns.Inv, Remembers;
    CalledRemembers(actions, i, client, intent, r);
    var c := |Play(START, actions[..i + 1]).calls| - 1;
    CallStands(actions, i + 1, |actions|, c);
    assert actions[..|actions|] == actions;
    PlayKeeps(actions);
    assert CallOk(Play(START, actions), Play(START, actions).calls[c]);
  }

  /** A call made again before it settled, the id the client's own both times, goes out under the id it had
      and is the same operation: the two have at most one effect between them, in any run that follows. */
  lemma CalledAgain(actions: seq<Action>, i: nat, j: nat, client: nat, intent: Intent, r: P.Request, q: P.Request)
    requires i < j && Called(actions, i, client, intent, r) && Called(actions, j, client, intent, q)
    requires forall n :: i < n < j ==> Leaving(Play(START, actions[..n]), actions[n], client, intent)
    ensures Operates(r) && Operates(q) && IdOf(q) == IdOf(r)
    ensures var w := Play(START, actions);
      KeyFor(w.hub, r) == KeyFor(w.hub, q) && Effects(w.effects, KeyFor(w.hub, r)) <= 1
  {
    hide Next, Play, Remembers, Called, Leaving, KeyFor;
    CalledRemembers(actions, i, client, intent, r);
    CalledBefore(actions, i, j, client, intent, r, q);
    StillPending(actions, i + 1, j, client, intent, IdOf(r));
    CalledRemembers(actions, j, client, intent, q);
    CalledAs(actions, i, client, intent, r);
    CalledAs(actions, j, client, intent, q);
    AtMostOnce(actions, KeyFor(Play(START, actions).hub, r));
  }

  lemma CalledBefore(actions: seq<Action>, i: nat, j: nat, client: nat, intent: Intent, r: P.Request, q: P.Request)
    requires i < j && Called(actions, i, client, intent, r) && Called(actions, j, client, intent, q)
    ensures j < |actions|
  {
    hide Next, Play;
  }

  // -- effects are rows -------------------------------------------------------

  predicate OfOperation(body: EventBody) {
    body.AgentCheckedIn? || body.TaskProgress? || body.TaskCompleted? || body.TaskFailed?
  }

  function OperationEvents(es: seq<Event>, k: nat): nat
    requires k <= |es|
  {
    if k == 0 then 0 else OperationEvents(es, k - 1) + if OfOperation(es[k - 1].body) then 1 else 0
  }

  lemma {:induction false} OperationEventsFrame(a: seq<Event>, b: seq<Event>, k: nat)
    requires k <= |a| && k <= |b| && forall i :: 0 <= i < k ==> a[i].body == b[i].body
    ensures OperationEvents(a, k) == OperationEvents(b, k)
  {
    if k > 0 { OperationEventsFrame(a, b, k - 1); }
  }

  lemma {:induction false} OperationEventsSkip(es: seq<Event>, j: nat, k: nat)
    requires j <= k <= |es| && forall i :: j <= i < k ==> !OfOperation(es[i].body)
    ensures OperationEvents(es, k) == OperationEvents(es, j)
    decreases k
  {
    if j < k { OperationEventsSkip(es, j, k - 1); }
  }

  /** Carrying an operation out queues exactly one event; replaying or refusing it changes no row. */
  lemma OneEventEach(h: Hub, now: int, call: Call)
    requires Replays.KeyOf(call).Some?
    ensures var r := Apply(h, now, call);
      if Replays.IsReplay(h, call) || r.response.Refused? then r.hub == h
      else |r.hub.events| == |h.events| + 1 && r.hub.events[..|h.events|] == h.events
           && OfOperation(r.hub.events[|h.events|].body)
  {
    match call
    case DoCheckIn(_, _, _, _, _) =>
    case DoProgress(_, _, _, _) =>
    case DoResult(_, _, _, _) =>
  }

  /** No other call queues such an event. */
  lemma NoneElsewhere(h: Hub, now: int, call: Call)
    requires Replays.KeyOf(call).None? && Growth.Distinct(h.roster)
    ensures var r := Apply(h, now, call).hub;
      && Growth.EventsExtend(h.events, r.events)
      && (forall i :: |h.events| <= i < |r.events| ==> !OfOperation(r.events[i].body))
  {
    Growth.StepExtends(h, now, call);
    hide Growth.AgentsExtend, Growth.TasksExtend, ResultEcho;
    match call
    case DoSweep(lostAfter) =>
      ExpiryEvents(h, now, |h.tasks|);
      var h1 := ExpireLeases(h, now, |h.tasks|);
      LossEvents(h1, now - lostAfter, |h1.roster|);
    case DoQuestion(task, name, note, sentAs) => QuestionEvents(h, task, name, note, sentAs);
    case DoAck(_) =>
    case _ => Truth.NoNews(h, now, call);
  }

  lemma QuestionEvents(h: Hub, t: nat, agent: string, question: Text, sentAs: string)
    ensures var r := OpenQuestion(h, t, agent, question, sentAs).hub;
      forall i :: |h.events| <= i < |r.events| ==> !OfOperation(r.events[i].body)
  {
  }

  lemma {:induction false} ExpiryEvents(h: Hub, now: int, k: nat)
    requires k <= |h.tasks|
    ensures h.events <= ExpireLeases(h, now, k).events
    ensures forall i :: |h.events| <= i < |ExpireLeases(h, now, k).events| ==>
              !OfOperation(ExpireLeases(h, now, k).events[i].body)
  {
    if k > 0 { ExpiryEvents(h, now, k - 1); }
  }

  lemma {:induction false} LossEvents(h: Hub, cutoff: int, k: nat)
    requires k <= |h.roster|
    ensures h.events <= LoseAgents(h, cutoff, k).events
    ensures forall i :: |h.events| <= i < |LoseAgents(h, cutoff, k).events| ==>
              !OfOperation(LoseAgents(h, cutoff, k).events[i].body)
  {
    if k > 0 { LossEvents(h, cutoff, k - 1); }
  }

  /** Over every run, Alice's inbox has received exactly one check-in, progress or result event for each
      operation carried out: retries and repetitions on the wire never show there. */
  lemma {:induction false} EffectsAreEvents(actions: seq<Action>)
    ensures var w := Play(START, actions); OperationEvents(w.hub.events, |w.hub.events|) == |w.effects|
  {
    if actions != [] {
      var n := |actions| - 1;
      EffectsAreEvents(actions[..n]);
      PlayKeeps(actions[..n]);
      EffectsStep(Play(START, actions[..n]), actions[n]);
    }
  }

  lemma ElsewhereEvents(h: Hub, now: int, call: Call)
    requires HubRuns.Inv(h) && Replays.KeyOf(call).None?
    ensures var r := Apply(h, now, call).hub;
      OperationEvents(r.events, |r.events|) == OperationEvents(h.events, |h.events|)
  {
    var r := Apply(h, now, call).hub;
    NoneElsewhere(h, now, call);
    OperationEventsSkip(r.events, |h.events|, |r.events|);
    OperationEventsFrame(h.events, r.events, |h.events|);
  }

  lemma OperationEvent(h: Hub, now: int, call: Call)
    requires Replays.KeyOf(call).Some?
    ensures var r := Apply(h, now, call);
      OperationEvents(r.hub.events, |r.hub.events|) ==
      OperationEvents(h.events, |h.events|) + if Replays.IsReplay(h, call) || r.response.Refused? then 0 else 1
  {
    var r := Apply(h, now, call).hub;
    OneEventEach(h, now, call);
    if r != h { OperationEventsFrame(h.events, r.events, |h.events|); }
  }

  lemma EffectsStep(w: World, a: Action)
    requires Inv(w) && OperationEvents(w.hub.events, |w.hub.events|) == |w.effects|
    ensures var v := Next(w, a); OperationEvents(v.hub.events, |v.hub.events|) == |v.effects|
  {
    hide Apply, HubRuns.Inv, ClientOk, CallOk, ReplyOk, RecordOk, EffectsOk;
    if a.Elsewhere? && Replays.KeyOf(a.hubCall).None? {
      ElsewhereEvents(w.hub, a.now, a.hubCall);
    } else if a.Deliver? && a.request in w.wire && P.Admit(w.hub, a.request, a.addr).Some? {
      assert RequestOk(w, a.request);
      AdmittedAsBound(w, a.request, a.addr);
      OperationEvent(w.hub, a.now, P.Admit(w.hub, a.request, a.addr).value);
    }
  }
}
