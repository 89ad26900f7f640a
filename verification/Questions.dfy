/** The conversation on a task: questions and replies alternate, and the task's state says whose
    turn it is. */
module Questions {
  import opened HubTypes
  import opened HubSpec
  import Growth
  import Holder

  /** A message that hands the turn over: a question to Alice, or anything from her. */
  predicate IsTurn(m: Message, t: nat) {
    IsQuestion(m, t) || AnswersAfter(m, t)
  }

  /** The last turn on `t` among the first `k` messages. */
  function Turn(ms: seq<Message>, t: nat, k: nat): (r: Option<nat>)
    requires k <= |ms|
    ensures r.Some? ==> r.value < k && IsTurn(ms[r.value], t)
    ensures r.Some? ==> forall i :: r.value < i < k ==> !IsTurn(ms[i], t)
    ensures r.None? ==> forall i :: 0 <= i < k ==> !IsTurn(ms[i], t)
  {
    if k == 0 then None
    else if IsTurn(ms[k - 1], t) then Some(k - 1)
    else Turn(ms, t, k - 1)
  }

  /** Message `r` is the reply that answers the question at `q`. */
  predicate Answers(ms: seq<Message>, t: nat, r: nat, q: nat)
    requires r < |ms|
  {
    q < r && ms[r].task == Some(t) && ms[r].kind.Reply? && IsQuestion(ms[q], t) && Turn(ms, t, r) == Some(q)
  }

  /** An open task has been assigned, and awaits input exactly when the last turn is a question. */
  ghost predicate RowOk(h: Hub, t: nat)
    requires t < |h.tasks|
  {
    !Terminal(h.tasks[t].state) ==>
      var q := Turn(h.messages, t, |h.messages|);
      && q.Some?
      && (h.tasks[t].state == InputRequired <==> h.messages[q.value].kind.Question?)
  }

  /** A reply directly follows the question it answers, an assignment opens its conversation and an
      override closes it. */
  ghost predicate MessageOk(h: Hub, i: nat)
    requires i < |h.messages|
  {
    var m := h.messages[i];
    && (m.task.Some? ==> m.task.value < |h.tasks|)
    && (m.task.Some? && m.kind.StateOverride? ==> Terminal(h.tasks[m.task.value].state))
    && (m.kind.Reply? ==> m.task.Some? && Turn(h.messages, m.task.value, i).Some?
                          && IsQuestion(h.messages[Turn(h.messages, m.task.value, i).value], m.task.value))
    && (m.kind.Assignment? ==> m.task.Some? && Turn(h.messages, m.task.value, i).None?)
  }

  /** No two questions on one task were sent under the same message id. */
  ghost predicate SentOnce(ms: seq<Message>) {
    forall i, j :: 0 <= i < j < |ms| ==> !SameAsking(ms[i], ms[j])
  }

  predicate SameAsking(a: Message, b: Message) {
    a.kind.Question? && b.kind.Question? && a.task == b.task && a.kind.sentAs == b.kind.sentAs && a.kind.sentAs != ""
  }

  ghost predicate Inv(h: Hub) {
    && (forall t :: 0 <= t < |h.tasks| ==> RowOk(h, t))
    && (forall i :: 0 <= i < |h.messages| ==> MessageOk(h, i))
    && SentOnce(h.messages)
  }

  lemma {:induction false} TurnFrame(a: seq<Message>, b: seq<Message>, t: nat, k: nat)
    requires a <= b && k <= |a|
    ensures Turn(a, t, k) == Turn(b, t, k)
  {
    if k > 0 { TurnFrame(a, b, t, k - 1); }
  }

  lemma {:induction false} TurnSkip(ms: seq<Message>, t: nat, j: nat, k: nat)
    requires j <= k <= |ms|
    requires forall i :: j <= i < k ==> !IsTurn(ms[i], t)
    ensures Turn(ms, t, k) == Turn(ms, t, j)
    decreases k
  {
    if j < k { TurnSkip(ms, t, j, k - 1); }
  }

  // -- what the invariant gives -----------------------------------------------

  /** The search for an earlier reply never finds one when it is reached. */
  lemma PriorNeverFires(h: Hub, t: nat, m: nat)
    requires Inv(h) && t < |h.tasks| && h.tasks[t].state == InputRequired
    requires NewestQuestion(h.messages, t, |h.messages|) == Some(m)
    ensures FirstFromAlice(h.messages, t, m + 1).None?
  {
    assert RowOk(h, t);
    assert Turn(h.messages, t, |h.messages|) == Some(m);
  }

  /** A reply is applied exactly when it names the question that holds the last turn of an open task. */
  lemma ReplyAppliedIff(h: Hub, t: nat, text: Text, m: nat)
    requires Inv(h) && Holder.Inv(h) && text.fits
    ensures ReplyTo(h, t, text, m).response == Flag(true) <==>
              Open(h, t) && m < |h.messages| && IsQuestion(h.messages[m], t)
              && Turn(h.messages, t, |h.messages|) == Some(m)
  {
    if t < |h.tasks| {
      assert RowOk(h, t) && Holder.TaskHeld(h, t);
      if h.tasks[t].state == InputRequired {
        var q := Turn(h.messages, t, |h.messages|).value;
        assert NewestQuestion(h.messages, t, |h.messages|) == Some(q);
        PriorNeverFires(h, t, q);
      }
    }
  }

  /** Two replies never answer the same question, and so are never adjacent. */
  lemma OneReplyEach(h: Hub, t: nat, r: nat, s: nat, q: nat)
    requires Inv(h) && r < |h.messages| && s < |h.messages|
    requires Answers(h.messages, t, r, q) && Answers(h.messages, t, s, q)
    ensures r == s
  {
    if r < s { assert IsTurn(h.messages[r], t); }
    if s < r { assert IsTurn(h.messages[s], t); }
  }

  lemma EveryReplyAnswers(h: Hub, r: nat)
    requires Inv(h) && r < |h.messages| && h.messages[r].kind.Reply?
    ensures exists t, q :: Answers(h.messages, t, r, q)
  {
    assert MessageOk(h, r);
    var t := h.messages[r].task.value;
    assert Answers(h.messages, t, r, Turn(h.messages, t, r).value);
  }

  /** Asking again under the id of the newest question resumes it: no second question, no event. */
  lemma RetryResumes(h: Hub, t: nat, agent: string, question: Text, m: nat)
    requires Inv(h) && Open(h, t) && agent in h.agents
    requires NewestQuestion(h.messages, t, |h.messages|) == Some(m) && h.messages[m].kind.sentAs != ""
    ensures OpenQuestion(h, t, agent, question, h.messages[m].kind.sentAs) == Step(h, MessageId(m), {})
  {
    var asked := AskedQuestion(h.messages, t, h.messages[m].kind.sentAs, 0).value;
    assert asked <= m;
    if asked < m { assert SameAsking(h.messages[asked], h.messages[m]); }
  }

  /** A question asked once keeps its row: asked again under its id, whatever came in between, it is not
      asked anew. */
  lemma AskedAgain(h: Hub, t: nat, agent: string, question: Text, sentAs: string, later: Hub, again: Text)
    requires sentAs != "" && OpenQuestion(h, t, agent, question, sentAs).response.MessageId?
    requires SentOnce(later.messages) && OpenQuestion(h, t, agent, question, sentAs).hub.messages <= later.messages
    requires TaskRefusal(later, t, agent).None?
    ensures OpenQuestion(later, t, agent, again, sentAs) ==
              Step(later, OpenQuestion(h, t, agent, question, sentAs).response, {})
  {
    var first := OpenQuestion(h, t, agent, question, sentAs);
    var m, found := first.response.id, AskedQuestion(later.messages, t, sentAs, 0);
    assert m < |first.hub.messages| && later.messages[m] == first.hub.messages[m];
    forall i | 0 <= i < m ensures !(IsQuestion(later.messages[i], t) && later.messages[i].kind.sentAs == sentAs) {
      assert !SameAsking(later.messages[i], later.messages[m]);
    }
    assert found == Some(m);
  }

  /** The retry then waits for, or at once receives, the answer to that very question. */
  lemma RetryGetsItsAnswer(h: Hub, t: nat, m: nat)
    requires Inv(h) && Open(h, t) && NewestQuestion(h.messages, t, |h.messages|) == Some(m)
    ensures h.tasks[t].state == InputRequired <==> PendingReply(h, t, m).None?
    ensures PendingReply(h, t, m).Some? ==> Answers(h.messages, t, PendingReply(h, t, m).value, m)
  {
    assert RowOk(h, t);
    var q := Turn(h.messages, t, |h.messages|).value;
    var r := PendingReply(h, t, m);
    if r.Some? {
      assert MessageOk(h, r.value);
      FirstAnswer(h, t, m, r.value);
    }
  }

  /** What is pending for a question is an override of its task or a reply to the newest question before it.
      It answers `m` exactly when it is no override and no later question superseded `m`. */
  lemma FirstAnswer(h: Hub, t: nat, m: nat, r: nat)
    requires Inv(h) && m < |h.messages| && IsQuestion(h.messages[m], t)
    requires PendingReply(h, t, m) == Some(r)
    ensures h.messages[r].kind.StateOverride?
            || exists q :: m <= q && Answers(h.messages, t, r, q) && NewestQuestion(h.messages, t, r) == Some(q)
    ensures Answers(h.messages, t, r, m) <==>
              !h.messages[r].kind.StateOverride? && NewestQuestion(h.messages, t, r) == Some(m)
  {
    if !h.messages[r].kind.StateOverride? {
      assert MessageOk(h, r);
      var q := Turn(h.messages, t, r);
      assert IsTurn(h.messages[m], t);
      assert q.Some? && m <= q.value;
      assert Answers(h.messages, t, r, q.value);
      assert NewestQuestion(h.messages, t, r) == q;
    }
  }

  // -- the calls --------------------------------------------------------------

  /** Calls that add no question, reply or assignment and hand over no turn, except by ending the task. */
  ghost predicate Quiet(h: Hub, r: Hub) {
    && |r.tasks| == |h.tasks|
    && h.messages <= r.messages
    && (forall t :: 0 <= t < |h.tasks| ==>
          Terminal(r.tasks[t].state)
          || (!Terminal(h.tasks[t].state)
              && (r.tasks[t].state == InputRequired <==> h.tasks[t].state == InputRequired)))
    && (forall i :: |h.messages| <= i < |r.messages| ==> QuietMessage(r, r.messages[i]))
  }

  ghost predicate QuietMessage(r: Hub, m: Message) {
    && !m.kind.Question? && !m.kind.Reply? && !m.kind.Assignment?
    && (m.task.Some? ==> m.task.value < |r.tasks|)
    && (m.task.Some? && m.kind.StateOverride? ==> Terminal(r.tasks[m.task.value].state))
  }

  lemma QuietKeeps(h: Hub, r: Hub)
    requires Inv(h) && Quiet(h, r)
    ensures Inv(r)
  {
    forall t | 0 <= t < |r.tasks| ensures RowOk(r, t) {
      assert RowOk(h, t);
      if !Terminal(r.tasks[t].state) {
        TurnFrame(h.messages, r.messages, t, |h.messages|);
        forall i | |h.messages| <= i < |r.messages| ensures !IsTurn(r.messages[i], t) {
          assert QuietMessage(r, r.messages[i]);
        }
        TurnSkip(r.messages, t, |h.messages|, |r.messages|);
      }
    }
    MessagesKept(h, r);
  }

  /** Old messages stay well placed; the new ones need looking at only if they ask, answer or assign. */
  lemma MessagesKept(h: Hub, r: Hub)
    requires Inv(h) && h.messages <= r.messages && |h.tasks| <= |r.tasks|
    requires forall t :: 0 <= t < |h.tasks| ==> Terminal(h.tasks[t].state) ==> Terminal(r.tasks[t].state)
    requires forall i :: |h.messages| <= i < |r.messages| ==>
               MessageOk(r, i) && (r.messages[i].kind.Question? ==>
                 forall j :: 0 <= j < i ==> !SameAsking(r.messages[j], r.messages[i]))
    ensures forall i :: 0 <= i < |r.messages| ==> MessageOk(r, i)
    ensures SentOnce(r.messages)
  {
    forall i | 0 <= i < |r.messages| ensures MessageOk(r, i) {
      if i < |h.messages| {
        assert MessageOk(h, i);
        if h.messages[i].task.Some? { TurnFrame(h.messages, r.messages, h.messages[i].task.value, i); }
      }
    }
    forall i, j | 0 <= i < j < |r.messages| ensures !SameAsking(r.messages[i], r.messages[j]) {
      if j < |h.messages| { assert !SameAsking(h.messages[i], h.messages[j]); }
    }
  }

  lemma AssignKeeps(h: Hub, now: int, b: Brief)
    requires Inv(h)
    ensures Inv(AssignTask(h, now, b).hub)
  {
    var r := AssignTask(h, now, b).hub;
    if r != h {
      var n, t := |h.messages|, |h.tasks|;
      forall i | 0 <= i < n ensures !IsTurn(r.messages[i], t) { assert MessageOk(h, i); }
      TurnSkip(r.messages, t, 0, n);
      forall u | 0 <= u < |r.tasks| ensures RowOk(r, u) {
        if u < t {
          assert RowOk(h, u);
          TurnFrame(h.messages, r.messages, u, n);
        }
      }
      MessagesKept(h, r);
    }
  }

  lemma QuestionKeeps(h: Hub, t: nat, agent: string, question: Text, sentAs: string)
    requires Inv(h)
    ensures Inv(OpenQuestion(h, t, agent, question, sentAs).hub)
  {
    var r := OpenQuestion(h, t, agent, question, sentAs).hub;
    if r != h {
      var n := |h.messages|;
      assert r.messages == h.messages + [r.messages[n]];
      forall u | 0 <= u < |r.tasks| ensures RowOk(r, u) {
        assert RowOk(h, u);
        TurnFrame(h.messages, r.messages, u, n);
      }
      MessagesKept(h, r);
    }
  }

  lemma ReplyKeeps(h: Hub, t: nat, text: Text, m: nat)
    requires Inv(h)
    ensures Inv(ReplyTo(h, t, text, m).hub)
  {
    var r := ReplyTo(h, t, text, m).hub;
    if r != h {
      var n := |h.messages|;
      assert RowOk(h, t);
      forall u | 0 <= u < |r.tasks| ensures RowOk(r, u) {
        assert RowOk(h, u);
        TurnFrame(h.messages, r.messages, u, n);
      }
      TurnFrame(h.messages, r.messages, t, n);
      MessagesKept(h, r);
    }
  }

  lemma PlainQuiet(h: Hub, now: int, call: Call)
    requires Inv(h) && Growth.IsPlain(call)
    ensures Quiet(h, Apply(h, now, call).hub)
  {
    Growth.PlainCalls(h, now, call);
    var r := Apply(h, now, call).hub;
    PlainTasks(h, now, call);
  }

  /** A note on a task is about an existing task. */
  lemma PlainTasks(h: Hub, now: int, call: Call)
    requires Growth.IsPlain(call)
    ensures var r := Apply(h, now, call).hub;
      forall i :: |h.messages| <= i < |r.messages| && r.messages[i].task.Some? ==> r.messages[i].task.value < |r.tasks|
  {
    match call
    case DoProgress(task, name, note, op) => ProgressTask(h, now, task, name, note, op);
    case _ =>
  }

  lemma ProgressTask(h: Hub, now: int, t: nat, agent: string, note: Text, op: string)
    ensures var r := RecordProgress(h, now, t, agent, note, op).hub;
      forall i :: |h.messages| <= i < |r.messages| && r.messages[i].task.Some? ==> r.messages[i].task.value < |r.tasks|
  {
  }

  lemma HeartbeatQuiet(h: Hub, now: int, name: string, instance: Instance, current: Option<nat>,
                       addr: Option<string>)
    ensures Quiet(h, Heartbeat(h, now, name, instance, current, addr).hub)
  {
  }

  lemma ClaimQuiet(h: Hub, name: string)
    ensures Quiet(h, ClaimAssignment(h, name).hub)
  {
  }

  lemma ResultQuiet(h: Hub, t: nat, agent: string, result: TaskResult, op: string)
    ensures Quiet(h, SubmitResult(h, t, agent, result, op).hub)
  {
    hide ResultEcho, TerminalStatus;
  }

  lemma OverrideQuiet(h: Hub, t: nat, state: TaskState, note: Text)
    ensures Quiet(h, SetTaskState(h, t, state, note).hub)
    ensures Quiet(h, CancelTask(h, t).hub)
  {
  }

  lemma {:induction false} SweepPassesQuiet(h: Hub, now: int, k: nat)
    requires Inv(h) && k <= |h.tasks|
    ensures Inv(ExpireLeases(h, now, k))
  {
    if k > 0 {
      SweepPassesQuiet(h, now, k - 1);
      QuietKeeps(ExpireLeases(h, now, k - 1), ExpireLeases(h, now, k));
    }
  }

  lemma LoseOneQuiet(h: Hub, name: string, row: Agent)
    ensures Quiet(h, LoseAgent(h, name, row))
  {
  }

  lemma {:induction false} LoseKeeps(h: Hub, cutoff: int, k: nat)
    requires Inv(h) && k <= |h.roster|
    ensures Inv(LoseAgents(h, cutoff, k))
  {
    if k > 0 {
      LoseKeeps(h, cutoff, k - 1);
      var prev, name := LoseAgents(h, cutoff, k - 1), h.roster[k - 1];
      if name in h.agents && Silent(h.agents[name], cutoff) {
        LoseOneQuiet(prev, name, h.agents[name]);
        QuietKeeps(prev, LoseAgents(h, cutoff, k));
      }
    }
  }

  lemma SweepKeeps(h: Hub, now: int, lostAfter: int)
    requires Inv(h)
    ensures Inv(Sweep(h, now, lostAfter).hub)
  {
    SweepPassesQuiet(h, now, |h.tasks|);
    var h1 := ExpireLeases(h, now, |h.tasks|);
    LoseKeeps(h1, now - lostAfter, |h1.roster|);
  }

  lemma StepKeeps(h: Hub, now: int, call: Call)
    requires Inv(h)
    ensures Inv(Apply(h, now, call).hub)
  {
    var r := Apply(h, now, call).hub;
    match call
    case DoSweep(lostAfter) => SweepKeeps(h, now, lostAfter);
    case DoAssign(brief) => AssignKeeps(h, now, brief);
    case DoQuestion(task, name, note, sentAs) => QuestionKeeps(h, task, name, note, sentAs);
    case DoReply(task, text, messageId) => ReplyKeeps(h, task, text, messageId);
    case DoHeartbeat(name, instance, current, addr) =>
      HeartbeatQuiet(h, now, name, instance, current, addr); QuietKeeps(h, r);
    case DoClaim(name) => ClaimQuiet(h, name); QuietKeeps(h, r);
    case DoResult(task, name, result, op) => ResultQuiet(h, task, name, result, op); QuietKeeps(h, r);
    case DoOverride(task, state, text) => OverrideQuiet(h, task, state, text); QuietKeeps(h, r);
    case DoCancel(task) => OverrideQuiet(h, task, Canceled, Text("", true)); QuietKeeps(h, r);
    case _ => PlainQuiet(h, now, call); QuietKeeps(h, r);
  }
}
