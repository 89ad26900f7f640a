/** Idempotent operations: a call whose operation id already succeeded might as well not be there. */
module Replays {
  import opened HubTypes
  import opened HubSpec
  import HubRuns

  /** The operation a call carries, with what it asks for. */
  function KeyOf(call: Call): Option<OpKey> {
    match call
    case DoCheckIn(name, _, _, op, _) => Some(OpKey(name, op))
    case DoProgress(_, name, _, op) => Some(OpKey(name, op))
    case DoResult(_, name, _, op) => Some(OpKey(name, op))
    case _ => None
  }

  function PayloadOf(call: Call): Payload
    requires KeyOf(call).Some?
  {
    match call
    case DoCheckIn(name, profile, instance, _, _) => CheckInAsk(name, instance, profile)
    case DoProgress(task, _, note, _) => ProgressPayload(task, note.body)
    case DoResult(task, _, result, _) => ResultPayload(task, result)
  }

  /** The operation id already succeeded, whatever has become of the task or the agent since. */
  predicate IsReplay(h: Hub, call: Call) {
    KeyOf(call).Some? && KeyOf(call).value in h.operations
  }

  lemma ReplayChangesNothing(h: Hub, now: int, call: Call)
    requires IsReplay(h, call)
    ensures Apply(h, now, call).hub == h && Apply(h, now, call).notified == {}
  {
  }

  /** Carried out once, an operation answers every exact repetition, in any later state of any run,
      with the response it gave then; a different payload under its id is refused. */
  lemma ReplayAnswersAlike(h: Hub, now: int, call: Call, trace: seq<Timed>, now': int, again: Call)
    requires HubRuns.Inv(h) && KeyOf(call).Some? && !IsReplay(h, call) && !Apply(h, now, call).response.Refused?
    requires KeyOf(again) == KeyOf(call)
    requires again.DoResult? ==> again.result.detail.fits
    ensures var first := Apply(h, now, call);
            var later := Run(first.hub, trace);
            Apply(later, now', again) ==
            if PayloadOf(again) == PayloadOf(call) then Step(later, first.response, {})
            else Refuse(later, IdempotencyConflict)
  {
    var first := Apply(h, now, call);
    HubRuns.StepKeeps(h, now, call);
    HubRuns.RunExtends(first.hub, trace);
    Recorded(h, now, call);
  }

  lemma Recorded(h: Hub, now: int, call: Call)
    requires KeyOf(call).Some? && !IsReplay(h, call) && !Apply(h, now, call).response.Refused?
    ensures var r := Apply(h, now, call);
      KeyOf(call).value in r.hub.operations
      && r.hub.operations[KeyOf(call).value] == Operation(PayloadOf(call), r.response)
  {
    match call
    case DoCheckIn(_, _, _, _, _) =>
    case DoProgress(_, _, _, _) =>
    case DoResult(_, _, _, _) =>
  }

  /** The trace without its replays. */
  function Strip(h: Hub, trace: seq<Timed>): seq<Timed> {
    if trace == [] then []
    else
      var n := |trace| - 1;
      Strip(h, trace[..n]) + if IsReplay(Run(h, trace[..n]), trace[n].call) then [] else [trace[n]]
  }

  /** What the callers see, in order. */
  function Answers(h: Hub, trace: seq<Timed>): seq<Response> {
    if trace == [] then []
    else
      var n := |trace| - 1;
      Answers(h, trace[..n]) + [Apply(Run(h, trace[..n]), trace[n].now, trace[n].call).response]
  }

  /** What the callers that do not replay see. */
  function OtherAnswers(h: Hub, trace: seq<Timed>): seq<Response> {
    if trace == [] then []
    else
      var n := |trace| - 1;
      var mid := Run(h, trace[..n]);
      OtherAnswers(h, trace[..n])
      + if IsReplay(mid, trace[n].call) then [] else [Apply(mid, trace[n].now, trace[n].call).response]
  }

  /** Taking every replay out of a trace leaves the final state and all other answers as they were. */
  lemma {:induction false} ReplaysAreInvisible(h: Hub, trace: seq<Timed>)
    ensures Run(h, Strip(h, trace)) == Run(h, trace)
    ensures Answers(h, Strip(h, trace)) == OtherAnswers(h, trace)
  {
    if trace != [] {
      var n := |trace| - 1;
      ReplaysAreInvisible(h, trace[..n]);
      var kept := Strip(h, trace[..n]);
      if IsReplay(Run(h, trace[..n]), trace[n].call) {
        assert Strip(h, trace) == kept;
        ReplayChangesNothing(Run(h, trace[..n]), trace[n].now, trace[n].call);
      } else {
        assert Strip(h, trace) == kept + [trace[n]];
        assert (kept + [trace[n]])[..|kept|] == kept;
      }
    }
  }
}
