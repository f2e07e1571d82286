/** How a Cohere run fails: at which event, and with which error. */
module CohereFailures {
  import opened Wrappers
  import opened Json
  import opened Parts
  import opened CohereStream

  /** The event ends a call that is open. */
  predicate EndsCall(s: Snapshot, value: Json) {
    && s.started && !s.done && value.GetStr("type") == Some("tool-call-end")
    && match value.Get("index")
       case Some(Num(Unsigned(index))) => index < 1024 && index in s.tools && s.tools[index].active
       case _ => false
  }

  /** The event ends the message, were it not for the size of what is captured. */
  predicate EndsMessage(s: Snapshot, value: Json) {
    && s.started && !s.done && value.GetStr("type") == Some("message-end")
    && (forall i :: i in s.contents ==> !s.contents[i].active) && (forall i :: i in s.tools ==> !s.tools[i].active)
    && s.openCitations == {}
    && StringAt(value, ["delta", "finish_reason"]).Some?
    && StringAt(value, ["delta", "finish_reason"]) != Some("ERROR")
  }

  /** The error an event that is refused is refused with. */
  function Refusal(s: Snapshot, value: Json): Fault {
    if EndsCall(s, value) then InvalidToolInput
    else if EndsMessage(s, value) then ReplayTooLarge
    else InvalidEvent
  }

  lemma CallEndIsRefused(cfg: Config, s: Snapshot, value: Json)
    requires s.started && !s.done && EventType(value) == "tool-call-end" && ToolEnd(cfg, s, value).Err?
    ensures ToolEnd(cfg, s, value).error == Refusal(s, value)
  {
    hide ParsedArguments, FinishedCall;
    var index := Index(value);
    if index.Ok? {
      assert value.Get("index") == Some(Num(Unsigned(index.value)));
    }
  }

  lemma EndIsRefused(cfg: Config, s: Snapshot, value: Json)
    requires s.started && !s.done && EventType(value) == "message-end" && !ReportsError(value)
    requires MessageEnd(cfg, s, value).Err?
    ensures MessageEnd(cfg, s, value).error == Refusal(s, value)
  {
    hide StringAt, UsageFrom, MapFinish, NativeMessage, PayloadJson;
    assert forall i :: i in s.contents ==> (ContentOpen(s, i) <==> s.contents[i].active);
    assert forall i :: i in s.tools ==> (ToolOpen(s, i) <==> s.tools[i].active);
  }

  lemma OtherIsRefused(cfg: Config, s: Snapshot, value: Json)
    requires EventType(value) != "tool-call-end" && EventType(value) != "message-end"
    ensures ApplyEvent(cfg, s, value).Err? ==> ApplyEvent(cfg, s, value).error == InvalidEvent
  {
    hide StringAt, Reserved, BaseId, ToolEnd, MessageEnd, SourceFromCitation;
  }

  /** Every event that is refused is refused with the error its fault has. */
  lemma RefusedWith(cfg: Config, s: Snapshot, value: Json)
    requires Accept(cfg, s, value).Err?
    ensures Accept(cfg, s, value).error == Refusal(s, value)
  {
    hide ToolEnd, MessageEnd, StringAt, CloseContents;
    if !s.done {
      if ReportsError(value) || !s.started {
        if !ReportsError(value) {
          StartIsRefused(cfg, s, value);
        }
      } else if EventType(value) == "tool-call-end" {
        CallEndIsRefused(cfg, s, value);
      } else if EventType(value) == "message-end" {
        EndIsRefused(cfg, s, value);
      } else {
        OtherIsRefused(cfg, s, value);
      }
    }
  }

  lemma StartIsRefused(cfg: Config, s: Snapshot, value: Json)
    requires !s.started
    ensures ApplyEvent(cfg, s, value).Err? ==> ApplyEvent(cfg, s, value).error == InvalidEvent
  {
    hide ToolEnd, MessageEnd, StringAt, ContentStart, ContentDelta, ContentEnd, ToolPlanDelta, StartTool, ToolDelta;
  }

  /** The events before the k-th are accepted, and that one is refused with the error of the run. */
  predicate FailsAt(cfg: Config, s: Snapshot, values: seq<Json>, k: nat)
    requires k < |values|
  {
    var before := Run(cfg, s, values[..k]);
    && before.Ok? && Accept(cfg, before.value.0, values[k]).Err?
    && Run(cfg, s, values) == Err(Refusal(before.value.0, values[k]))
  }

  /**
   A run fails at the first event that is refused: the end of an open call whose arguments are no object,
   the end of a message that is too large to capture, and anything else out of order or form.
   */
  lemma {:induction false} RunFailsAt(cfg: Config, s: Snapshot, values: seq<Json>)
    requires Run(cfg, s, values).Err?
    ensures exists k: nat :: k < |values| && FailsAt(cfg, s, values, k)
    decreases |values|
  {
    hide Accept, Refusal;
    var first := Accept(cfg, s, values[0]);
    if first.Err? {
      RefusedWith(cfg, s, values[0]);
      assert values[..0] == [];
      assert FailsAt(cfg, s, values, 0);
    } else {
      var rest := values[1..];
      RunFailsAt(cfg, first.value.0, rest);
      var k: nat :| k < |rest| && FailsAt(cfg, first.value.0, rest, k);
      assert values[..k + 1][1..] == rest[..k];
      assert values[..k + 1] == [values[0]] + rest[..k];
      assert FailsAt(cfg, s, values, k + 1);
    }
  }
}
