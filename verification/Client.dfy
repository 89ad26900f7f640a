/** The worker's side of idempotency: which operation id a call goes out under, and when that id is
    forgotten.

    Every client call is two transitions with an await between them: one picks the id and builds the
    request, the other runs when a response arrives. Other calls of the same client may run in between.
 */
module Client {
  import opened HubTypes
  import P = Protocol

  datatype Pending<T> = Pending(what: T, op: string)

  datatype ClientState = ClientState(
    name: string,
    instance: Instance,
    context: Option<nat>,
    current: Option<nat>,
    checkin: Option<Pending<Profile>>,
    progress: map<nat, Pending<Text>>,
    results: map<nat, Pending<TaskResult>>,
    questions: map<nat, Pending<string>>)

  function NewClient(name: string, instance: Instance): ClientState {
    ClientState(name, instance, None, None, None, map[], map[], map[])
  }

  /** What a tool call asks of the client. */
  datatype Intent =
    | CheckInIntent(profile: Profile)
    | ProgressIntent(task: nat, note: Text)
    | ResultIntent(task: nat, result: TaskResult)

  /** Where the operation id comes from: the caller, or the client, which may need a new one. */
  datatype Source = Given(op: string) | Minted(uuid: string)

  datatype Begun = Begun(client: ClientState, request: Option<P.Request>)

  /** The id `what` goes out under: the pending one if it is for the same thing, else a fresh one. */
  function PickOp<T(==)>(pending: Option<Pending<T>>, what: T, uuid: string): string {
    if pending.Some? && pending.value.what == what then pending.value.op else uuid
  }

  function Lookup<T>(m: map<nat, Pending<T>>, task: nat): Option<Pending<T>> {
    if task in m then Some(m[task]) else None
  }

  /** The id a call goes out under. */
  function OpFor(c: ClientState, intent: Intent, source: Source): string {
    match source
    case Given(op) => op
    case Minted(uuid) =>
      match intent
      case CheckInIntent(profile) => PickOp(c.checkin, profile, uuid)
      case ProgressIntent(task, note) => PickOp(Lookup(c.progress, task), note, uuid)
      case ResultIntent(task, result) => PickOp(Lookup(c.results, task), result, uuid)
  }

  /** What the client remembers of a call; an id the caller supplied is the caller's to remember. */
  function Remembered(c: ClientState, intent: Intent, source: Source): ClientState {
    match source
    case Given(_) => c
    case Minted(_) =>
      var op := OpFor(c, intent, source);
      match intent
      case CheckInIntent(profile) => c.(checkin := Some(Pending(profile, op)))
      case ProgressIntent(task, note) => c.(progress := c.progress[task := Pending(note, op)])
      case ResultIntent(task, result) => c.(results := c.results[task := Pending(result, op)])
  }

  /** The first half of a call; without a context only check-in goes through. */
  function Begin(c: ClientState, intent: Intent, source: Source): Begun {
    var op := OpFor(c, intent, source);
    if c.context.None? && !intent.CheckInIntent? then Begun(c, None)
    else
      var kept := Remembered(c, intent, source);
      match intent
      case CheckInIntent(profile) => Begun(kept, Some(P.CheckInRequest(c.name, profile, c.instance, op)))
      case ProgressIntent(task, note) =>
        Begun(kept, Some(P.ProgressRequest(P.ByContext(c.context.value), c.instance, task, note, op)))
      case ResultIntent(task, result) =>
        Begun(kept.(questions := kept.questions - {task}),
              Some(P.ResultRequest(P.ByContext(c.context.value), c.instance, task, result, op)))
  }

  /** The second half: a response that is not an error settles the call. A pending result keeps its id,
      so submitting the same result again replays it. */
  function Settle(c: ClientState, request: P.Request, response: Response): ClientState {
    match request
    case CheckInRequest(_, _, _, _) =>
      if response.Registered? then c.(context := Some(response.context), current := None, checkin := None) else c
    case ProgressRequest(_, _, task, _, _) => c.(progress := c.progress - {task})
    case ResultRequest(_, _, task, _, _) => c.(progress := c.progress - {task}, current := None)
    case _ => c
  }

  // -- which id a retry goes out under ----------------------------------------

  /** The client keeps `op` for exactly this call. */
  predicate Remembers(c: ClientState, intent: Intent, op: string) {
    match intent
    case CheckInIntent(profile) => c.checkin == Some(Pending(profile, op))
    case ProgressIntent(task, note) => task in c.progress && c.progress[task] == Pending(note, op)
    case ResultIntent(task, result) => task in c.results && c.results[task] == Pending(result, op)
  }

  /** The two calls compete for one place in the client's memory. */
  predicate SamePlace(a: Intent, b: Intent) {
    || (a.CheckInIntent? && b.CheckInIntent?)
    || (a.ProgressIntent? && b.ProgressIntent? && a.task == b.task)
    || (a.ResultIntent? && b.ResultIntent? && a.task == b.task)
  }

  /** A response to this request settles what the client keeps for the call. */
  predicate Settling(request: P.Request, intent: Intent) {
    match intent
    case CheckInIntent(_) => request.CheckInRequest?
    case ProgressIntent(task, _) => (request.ProgressRequest? || request.ResultRequest?) && request.task == task
    case ResultIntent(_, _) => false
  }

  /** The operation id of a worker's request. */
  function IdOf(r: P.Request): string
    requires r.CheckInRequest? || r.ProgressRequest? || r.ResultRequest?
  {
    r.op
  }

  /** A call the client minted an id for, old or new, is kept under that id, which is new exactly if the client
      kept none for it. The request says who sends it and what it asks. */
  lemma BeginRemembers(c: ClientState, intent: Intent, uuid: string)
    requires intent.CheckInIntent? || c.context.Some?
    ensures var b := Begin(c, intent, Minted(uuid));
      && b.request.Some?
      && var r := b.request.value;
      && (r.CheckInRequest? || r.ProgressRequest? || r.ResultRequest?)
      && Remembers(b.client, intent, IdOf(r)) && Speaks(c, intent, r)
      && (forall op :: Remembers(c, intent, op) ==> IdOf(r) == op)
      && ((forall op :: !Remembers(c, intent, op)) ==> IdOf(r) == uuid)
  {
    match intent
    case CheckInIntent(profile) =>
      assert c.checkin.Some? && c.checkin.value.what == profile ==> Remembers(c, intent, c.checkin.value.op);
    case ProgressIntent(task, note) =>
      assert task in c.progress && c.progress[task].what == note ==> Remembers(c, intent, c.progress[task].op);
    case ResultIntent(task, result) =>
      assert task in c.results && c.results[task].what == result ==> Remembers(c, intent, c.results[task].op);
  }

  /** In the client's own name, from its own instance, about what was asked. */
  predicate Speaks(c: ClientState, intent: Intent, r: P.Request) {
    match intent
    case CheckInIntent(profile) =>
      r.CheckInRequest? && r.name == c.name && r.instance == c.instance && r.profile == profile
    case ProgressIntent(task, note) =>
      r.ProgressRequest? && c.context.Some? && r.sender == P.ByContext(c.context.value) && r.instance == c.instance
      && r.task == task && r.note == note
    case ResultIntent(task, result) =>
      r.ResultRequest? && c.context.Some? && r.sender == P.ByContext(c.context.value) && r.instance == c.instance
      && r.task == task && r.result == result
  }

  /** A caller's own id goes out as it is and leaves what the client keeps alone. */
  lemma GivenGoesOut(c: ClientState, intent: Intent, op: string, other: Intent, kept: string)
    requires intent.CheckInIntent? || c.context.Some?
    ensures var b := Begin(c, intent, Given(op));
      && b.request.Some?
      && (b.request.value.CheckInRequest? || b.request.value.ProgressRequest? || b.request.value.ResultRequest?)
      && IdOf(b.request.value) == op && Speaks(c, intent, b.request.value)
      && (Remembers(b.client, other, kept) <==> Remembers(c, other, kept))
  {
  }

  /** Once a note or a check-in went through, the same again is a new one; a result is kept for good, so that
      submitting it again replays it. */
  lemma SuccessForgets(c: ClientState, request: P.Request, response: Response, intent: Intent, op: string)
    requires request.CheckInRequest? ==> response.Registered?
    ensures Remembers(Settle(c, request, response), intent, op)
       <==> Remembers(c, intent, op) && !Settling(request, intent)
    ensures request.CheckInRequest? ==> Settle(c, request, response).context == Some(response.context)
  {
  }

  // -- questions --------------------------------------------------------------

  /** How holding a question ends for the worker. A timeout may name the id to ask again under. */
  datatype AskEnd = TaskEnded | HoldTimedOut(retryAs: Option<string>) | Replied

  /** The first half of asking: the same question on the same task goes out under the same message id. */
  function AskBegun(c: ClientState, task: nat, question: Text, uuid: string): Begun {
    if c.context.None? then Begun(c, None)
    else
      var id := if task in c.questions && c.questions[task].what == question.body then c.questions[task].op else uuid;
      Begun(c.(questions := c.questions[task := Pending(question.body, id)]),
            Some(P.QuestionRequest(P.ByContext(c.context.value), c.instance, task, question, id)))
  }

  function AskEnded(c: ClientState, task: nat, question: Text, sentAs: string, end: AskEnd): ClientState {
    match end
    case TaskEnded => c.(questions := c.questions - {task}, current := None)
    case HoldTimedOut(retryAs) =>
      c.(questions := c.questions[task := Pending(question.body, if retryAs.Some? then retryAs.value else sentAs)])
    case Replied => c.(questions := c.questions - {task})
  }

  /** Anything one client may do between two halves of its calls. */
  datatype Act =
    | Starts(intent: Intent, source: Source)
    | Settles(request: P.Request, response: Response)
    | Asks(task: nat, question: Text, uuid: string)
    | AskEnds(task: nat, question: Text, sentAs: string, end: AskEnd)
    | Assigned(task: nat)

  function Do(c: ClientState, a: Act): ClientState {
    match a
    case Starts(intent, source) => Begin(c, intent, source).client
    case Settles(request, response) => Settle(c, request, response)
    case Asks(task, question, uuid) => AskBegun(c, task, question, uuid).client
    case AskEnds(task, question, sentAs, end) => AskEnded(c, task, question, sentAs, end)
    case Assigned(task) => c.(current := Some(task))
  }

  function DoAll(c: ClientState, acts: seq<Act>): ClientState {
    if acts == [] then c else Do(DoAll(c, acts[..|acts| - 1]), acts[|acts| - 1])
  }

  /** The act neither settles the question pending on `task` nor replaces it by another. */
  predicate Spares(a: Act, task: nat, question: string, id: string) {
    match a
    case Starts(intent, _) => !(intent.ResultIntent? && intent.task == task)
    case Settles(_, _) => true
    case Asks(t, q, _) => t != task || q.body == question
    case AskEnds(t, q, sentAs, end) =>
      t != task || (q.body == question && sentAs == id && end.HoldTimedOut? && end.retryAs in {None, Some(id)})
    case Assigned(_) => true
  }

  /** Until a question is answered or its task ends, and whatever the client does meanwhile, asking it
      again sends it under the message id it was first asked under. */
  lemma {:induction false} KeepsAsking(c: ClientState, acts: seq<Act>, task: nat, question: Text, id: string,
                                       uuid: string)
    requires c.context.Some? && task in c.questions && c.questions[task] == Pending(question.body, id)
    requires forall i :: 0 <= i < |acts| ==> Spares(acts[i], task, question.body, id)
    ensures var later := DoAll(c, acts);
      && later.context.Some? && task in later.questions && later.questions[task] == Pending(question.body, id)
      && later.instance == c.instance
      && AskBegun(later, task, question, uuid).request ==
           Some(P.QuestionRequest(P.ByContext(later.context.value), c.instance, task, question, id))
  {
    if acts != [] {
      var n := |acts| - 1;
      KeepsAsking(c, acts[..n], task, question, id, uuid);
      assert Spares(acts[n], task, question.body, id);
      hide Spares, Do;
      SparedStays(DoAll(c, acts[..n]), acts[n], task, question, id);
    }
  }

  lemma SparedStays(c: ClientState, a: Act, task: nat, question: Text, id: string)
    requires c.context.Some? && task in c.questions && c.questions[task] == Pending(question.body, id)
    requires Spares(a, task, question.body, id)
    ensures var d := Do(c, a);
      d.context.Some? && d.instance == c.instance && task in d.questions && d.questions[task] == c.questions[task]
  {
  }

  /** The act neither settles the call nor puts another in its place. */
  predicate Leaves(a: Act, intent: Intent) {
    match a
    case Starts(other, source) => source.Given? || other == intent || !SamePlace(other, intent)
    case Settles(request, _) => !Settling(request, intent)
    case Asks(_, _, _) => true
    case AskEnds(_, _, _, _) => true
    case Assigned(_) => true
  }

  lemma LeftStays(c: ClientState, a: Act, intent: Intent, op: string)
    requires Remembers(c, intent, op) && Leaves(a, intent)
    ensures Remembers(Do(c, a), intent, op)
    ensures c.context.Some? ==> Do(c, a).context.Some?
  {
  }

  /** Until a call settles, and whatever else the client does meanwhile, making it again sends it under the id
      it was first sent under. */
  lemma {:induction false} KeepsPending(c: ClientState, acts: seq<Act>, intent: Intent, op: string, uuid: string)
    requires Remembers(c, intent, op) && (intent.CheckInIntent? || c.context.Some?)
    requires forall i :: 0 <= i < |acts| ==> Leaves(acts[i], intent)
    ensures var later := DoAll(c, acts);
      && Remembers(later, intent, op) && (c.context.Some? ==> later.context.Some?)
      && var r := Begin(later, intent, Minted(uuid)).request;
      && r.Some? && (r.value.CheckInRequest? || r.value.ProgressRequest? || r.value.ResultRequest?)
      && IdOf(r.value) == op && Speaks(later, intent, r.value)
  {
    if acts != [] {
      var n := |acts| - 1;
      KeepsPending(c, acts[..n], intent, op, uuid);
      assert Leaves(acts[n], intent);
      hide Leaves, Do;
      LeftStays(DoAll(c, acts[..n]), acts[n], intent, op);
    }
    hide Begin, Remembers, Speaks;
    BeginRemembers(DoAll(c, acts), intent, uuid);
  }

  /** Once a question was answered or its task ended, the same again is a new one; a timeout keeps it under the
      id the hub named, or under its own. */
  lemma AskGoesOn(c: ClientState, task: nat, question: Text, sentAs: string, end: AskEnd, uuid: string)
    requires c.context.Some?
    ensures var r := AskBegun(AskEnded(c, task, question, sentAs, end), task, question, uuid).request;
      r == Some(P.QuestionRequest(P.ByContext(c.context.value), c.instance, task, question,
                                  if end == HoldTimedOut(None) then sentAs
                                  else if end.HoldTimedOut? then end.retryAs.value else uuid))
    ensures AskEnded(c, task, question, sentAs, end).questions - {task} == c.questions - {task}
  {
  }

  /** Starting to submit a task's result forgets its question; no other call does. */
  lemma ResultDropsQuestion(c: ClientState, intent: Intent, source: Source, task: nat, question: Text, uuid: string)
    requires c.context.Some?
    ensures
      var before := AskBegun(c, task, question, uuid);
      var after := AskBegun(Begin(c, intent, source).client, task, question, uuid);
      && before.request.Some?
      && after.request == if intent.ResultIntent? && intent.task == task
                          then Some(before.request.value.(sentAs := uuid)) else before.request
  {
  }

  // -- which task heartbeats name ---------------------------------------------

  function Heartbeat(c: ClientState): Option<P.Request> {
    if c.context.None? then None else Some(P.HeartbeatRequest(c.name, c.instance, c.current))
  }

  /** The client takes it that it holds no task any more. */
  predicate Frees(a: Act) {
    match a
    case Settles(request, response) => (request.CheckInRequest? && response.Registered?) || request.ResultRequest?
    case AskEnds(_, _, _, end) => end.TaskEnded?
    case _ => false
  }

  /** The last assignment received, and nothing freed the client since. */
  predicate HeldSince(acts: seq<Act>, i: int, task: nat) {
    && 0 <= i < |acts| && acts[i] == Assigned(task)
    && forall j :: i < j < |acts| ==> !Frees(acts[j]) && !acts[j].Assigned?
  }

  /** Heartbeats name the task the client was last assigned, until it submits a result for some task, is told that a
      task of its ended, or checks in anew. */
  lemma {:induction false} CurrentIs(c: ClientState, acts: seq<Act>, task: nat)
    requires c.current.None?
    ensures DoAll(c, acts).current == Some(task) <==> exists i :: HeldSince(acts, i, task)
    ensures var beat := Heartbeat(DoAll(c, acts));
      beat.Some? ==> (beat.value.current == Some(task) <==> exists i :: HeldSince(acts, i, task))
  {
    if acts != [] {
      var n := |acts| - 1;
      var init := acts[..n];
      CurrentIs(c, init, task);
      CurrentMoves(DoAll(c, init), acts[n]);
      hide Do, Frees;
      if acts[n] == Assigned(task) { assert HeldSince(acts, n, task); }
      if exists i :: HeldSince(init, i, task) && !Frees(acts[n]) && !acts[n].Assigned? {
        var i :| HeldSince(init, i, task);
        assert HeldSince(acts, i, task);
      }
      if exists i :: HeldSince(acts, i, task) && i < n {
        var i :| HeldSince(acts, i, task) && i < n;
        assert HeldSince(init, i, task);
      }
    }
  }

  lemma CurrentMoves(c: ClientState, a: Act)
    ensures Do(c, a).current == if a.Assigned? then Some(a.task) else if Frees(a) then None else c.current
  {
  }

  class WorkerHubClient {
    const name: string
    const instance: Instance
    const maxRetries: nat
    var contextId: Option<nat>
    var currentTaskId: Option<nat>
    var pendingCheckin: Option<Pending<Profile>>
    var pendingProgress: map<nat, Pending<Text>>
    var pendingResults: map<nat, Pending<TaskResult>>
    var pendingQuestions: map<nat, Pending<string>>

    ghost function View(): ClientState
      reads this
    {
      ClientState(name, instance, contextId, currentTaskId, pendingCheckin, pendingProgress,
             pendingResults, pendingQuestions)
    }

    constructor (name: string, instance: Instance, maxRetries: nat)
      ensures View() == NewClient(name, instance) && this.maxRetries == maxRetries
    {
      this.name, this.instance, this.maxRetries := name, instance, maxRetries;
      contextId, currentTaskId, pendingCheckin := None, None, None;
      pendingProgress, pendingResults, pendingQuestions := map[], map[], map[];
    }

    method BeginCheckIn(profile: Profile, source: Source) returns (request: P.Request)
      modifies this
      ensures Begun(View(), Some(request)) == Begin(old(View()), CheckInIntent(profile), source)
    {
      var op;
      if source.Given? {
        op := source.op;
      } else if pendingCheckin.Some? && pendingCheckin.value.what == profile {
        op := pendingCheckin.value.op;
      } else {
        op := source.uuid;
        pendingCheckin := Some(Pending(profile, op));
      }
      request := P.CheckInRequest(name, profile, instance, op);
    }

    method EndCheckIn(context: nat)
      modifies this
      ensures forall request: P.Request, response: Response ::
                request.CheckInRequest? && response.Registered? && response.context == context ==>
                View() == Settle(old(View()), request, response)
    {
      contextId, currentTaskId, pendingCheckin := Some(context), None, None;
    }

    method BeginProgress(task: nat, note: Text, source: Source) returns (request: Option<P.Request>)
      modifies this
      ensures Begun(View(), request) == Begin(old(View()), ProgressIntent(task, note), source)
    {
      if contextId.None? {
        return None;
      }
      var op;
      if source.Given? {
        op := source.op;
      } else if task in pendingProgress && pendingProgress[task].what == note {
        op := pendingProgress[task].op;
        assert pendingProgress == pendingProgress[task := Pending(note, op)];
      } else {
        op := source.uuid;
        pendingProgress := pendingProgress[task := Pending(note, op)];
      }
      request := Some(P.ProgressRequest(P.ByContext(contextId.value), instance, task, note, op));
    }

    method EndProgress(task: nat)
      modifies this
      ensures forall request: P.Request, response: Response :: request.ProgressRequest? && request.task == task ==>
                View() == Settle(old(View()), request, response)
    {
      pendingProgress := pendingProgress - {task};
    }

    method BeginResult(task: nat, result: TaskResult, source: Source) returns (request: Option<P.Request>)
      modifies this
      ensures Begun(View(), request) == Begin(old(View()), ResultIntent(task, result), source)
    {
      if contextId.None? {
        return None;
      }
      pendingQuestions := pendingQuestions - {task};
      var op;
      if source.Given? {
        op := source.op;
      } else if task in pendingResults && pendingResults[task].what == result {
        op := pendingResults[task].op;
        assert pendingResults == pendingResults[task := Pending(result, op)];
      } else {
        op := source.uuid;
        pendingResults := pendingResults[task := Pending(result, op)];
      }
      request := Some(P.ResultRequest(P.ByContext(contextId.value), instance, task, result, op));
    }

    method EndResult(task: nat)
      modifies this
      ensures forall request: P.Request, response: Response :: request.ResultRequest? && request.task == task ==>
                View() == Settle(old(View()), request, response)
    {
      pendingProgress := pendingProgress - {task};
      currentTaskId := None;
    }

    /** An assignment arrives on the worker's stream. */
    method EndAwait(task: nat)
      modifies this
      ensures View() == Do(old(View()), Assigned(task))
    {
      currentTaskId := Some(task);
    }

    method BeginAsk(task: nat, question: Text, uuid: string) returns (request: Option<P.Request>)
      modifies this
      ensures Begun(View(), request) == AskBegun(old(View()), task, question, uuid)
    {
      if contextId.None? {
        return None;
      }
      var id := uuid;
      if task in pendingQuestions && pendingQuestions[task].what == question.body {
        id := pendingQuestions[task].op;
        assert pendingQuestions == pendingQuestions[task := Pending(question.body, id)];
      } else {
        pendingQuestions := pendingQuestions[task := Pending(question.body, uuid)];
      }
      request := Some(P.QuestionRequest(P.ByContext(contextId.value), instance, task, question, id));
    }

    method EndAsk(task: nat, question: Text, sentAs: string, end: AskEnd)
      modifies this
      ensures View() == AskEnded(old(View()), task, question, sentAs, end)
    {
      match end {
        case TaskEnded =>
          pendingQuestions, currentTaskId := pendingQuestions - {task}, None;
        case HoldTimedOut(retryAs) =>
          var id := if retryAs.Some? then retryAs.value else sentAs;
          pendingQuestions := pendingQuestions[task := Pending(question.body, id)];
        case Replied =>
          pendingQuestions := pendingQuestions - {task};
      }
    }

    /** Send one request until it is answered for good or the retries run out. `outcomes[i]` is what the
        network makes of attempt `i`. The very same request goes out each time, `sent` times in all. */
    method RequestWithRetry(outcomes: seq<Outcome>) returns (sent: nat, last: Outcome)
      requires |outcomes| > maxRetries
      ensures 1 <= sent <= maxRetries + 1 && last == outcomes[sent - 1]
      ensures forall i :: 0 <= i < sent - 1 ==> Retryable(outcomes[i])
      ensures Retryable(last) ==> sent == maxRetries + 1
    {
      var attempts := 0;
      while true
        invariant 0 <= attempts <= maxRetries
        invariant forall i :: 0 <= i < attempts ==> Retryable(outcomes[i])
        decreases maxRetries - attempts
      {
        last := outcomes[attempts];
        if last.Answered? {
          if !(last.status in {502, 503, 504} && attempts < maxRetries) {
            return attempts + 1, last;
          }
          attempts := attempts + 1;
        } else {
          if attempts == maxRetries {
            return attempts + 1, last;
          }
          attempts := attempts + 1;
        }
      }
    }
  }

  /** One attempt: an HTTP answer, or a transport error or timeout that may hide a request received. */
  datatype Outcome = Answered(status: nat) | TransportError

  predicate Retryable(o: Outcome) {
    o.TransportError? || o.status in {502, 503, 504}
  }
}
