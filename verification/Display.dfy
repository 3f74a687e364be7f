/** What a run snapshot shows, told from the event log alone: every item on display is the one that last arrived under
    its id, continued by the deltas since. */
module Display {
  import opened Text
  import opened RunEvents

  // ----- What a log says of one item -----

  predicate Carries(e: RunEvent, id: string) { CarriesItem(e) && e.item.id == id }

  /** The last event of the log that carries the item whole; `|log|` when there is none. */
  function Arrival(log: seq<RunEvent>, id: string): (m: nat)
    ensures m <= |log|
    ensures m < |log| ==> Carries(log[m], id) && forall k :: m < k < |log| ==> !Carries(log[k], id)
    ensures m == |log| ==> forall k :: 0 <= k < |log| ==> !Carries(log[k], id)
  {
    if log == [] then 0 else
      var n := |log| - 1;
      if Carries(log[n], id) then n else
        var m := Arrival(log[..n], id);
        if m == n then n + 1 else m
  }

  function Texts(log: seq<RunEvent>, id: string): seq<string> {
    if log == [] then [] else
      var (before, e) := (Texts(log[..|log| - 1], id), log[|log| - 1]);
      if e.TextDelta? && e.itemId == id then before + [e.text] else before
  }

  function Arguments(log: seq<RunEvent>, id: string): seq<string> {
    if log == [] then [] else
      var (before, e) := (Arguments(log[..|log| - 1], id), log[|log| - 1]);
      if e.ToolArgumentsDelta? && e.itemId == id then before + [e.delta] else before
  }

  function Outputs(log: seq<RunEvent>, id: string): seq<string> {
    if log == [] then [] else
      var (before, e) := (Outputs(log[..|log| - 1], id), log[|log| - 1]);
      if e.ToolOutputDelta? && e.itemId == id then before + [e.text] else before
  }

  /** The last call id given for the item, if any was. */
  function GivenCallId(log: seq<RunEvent>, id: string): Option<string> {
    if log == [] then None else
      var e := log[|log| - 1];
      if e.ToolArgumentsDelta? && e.itemId == id && e.newCallId.Some? then e.newCallId
      else GivenCallId(log[..|log| - 1], id)
  }

  function GivenName(log: seq<RunEvent>, id: string): Option<string> {
    if log == [] then None else
      var e := log[|log| - 1];
      if e.ToolArgumentsDelta? && e.itemId == id && e.newName.Some? then e.newName
      else GivenName(log[..|log| - 1], id)
  }

  /** `now` is the item that arrived as `was`, continued by the log since: each preview by the deltas of its kind and
      id, call id and name by the last ones given, and nothing else. */
  predicate Continues(was: WorkItem, since: seq<RunEvent>, now: WorkItem) {
    && now.id == was.id && now.step == was.step && now.state == was.state
    && match was.content
       case AgentMessage(message) => now.content == AgentMessage(AppendAll(message, Texts(since, was.id)))
       case ToolCall(callId, name, argumentsText, arguments, output, result, details) =>
         && now.content.ToolCall?
         && now.content.argumentsText == AppendAll(argumentsText, Arguments(since, was.id))
         && now.content.output == AppendAll(output, Outputs(since, was.id))
         && now.content.callId == (if GivenCallId(since, was.id).Some? then GivenCallId(since, was.id) else callId)
         && now.content.name == (if GivenName(since, was.id).Some? then Clip(GivenName(since, was.id).value, 128)
                                 else name)
         && now.content.arguments == arguments && now.content.result == result && now.content.details == details
  }

  lemma {:induction false} AppendAllLast(p: Preview, deltas: seq<string>, delta: string)
    ensures AppendAll(p, deltas + [delta]) == AppendPreview(AppendAll(p, deltas), delta)
    decreases |deltas|
  {
    hide AppendPreview;
    if deltas == [] {
      assert [delta][1..] == [] && [] + [delta] == [delta];
    } else {
      assert (deltas + [delta])[1..] == deltas[1..] + [delta];
      AppendAllLast(AppendPreview(p, deltas[0]), deltas[1..], delta);
    }
  }

  lemma NothingSince(was: WorkItem)
    ensures Continues(was, [], was)
  {
  }

  /** The content one delta event leaves an item with. */
  lemma ContinuesOne(was: WorkItem, since: seq<RunEvent>, now: WorkItem, e: RunEvent, next: WorkItem)
    requires Continues(was, since, now) && !Carries(e, was.id)
    requires next == now.(content := Touched(now, e))
    ensures Continues(was, since + [e], next)
  {
    var more := since + [e];
    assert more[..|more| - 1] == since && more[|more| - 1] == e;
    hide Clip, AppendPreview, AppendAll;
    match was.content {
      case AgentMessage(message) =>
        if e.TextDelta? { AppendAllLast(message, Texts(since, was.id), e.text); }
      case ToolCall(_, _, argumentsText, _, output, _, _) =>
        if e.ToolArgumentsDelta? { AppendAllLast(argumentsText, Arguments(since, was.id), e.delta); }
        if e.ToolOutputDelta? { AppendAllLast(output, Outputs(since, was.id), e.text); }
    }
  }

  function Touched(item: WorkItem, e: RunEvent): ItemContent {
    match e
    case TextDelta(id, text) => if id == item.id then AppendText(item.content, text) else item.content
    case ToolArgumentsDelta(id, callId, name, delta) =>
      if id == item.id then AppendArguments(item.content, callId, name, delta) else item.content
    case ToolOutputDelta(id, text) => if id == item.id then AppendOutput(item.content, text) else item.content
    case _ => item.content
  }

  // ----- One event -----

  /** An event that carries no item touches every item in place. */
  lemma TouchesInPlace(s: RunSnapshot, e: RunEvent, j: nat)
    requires UniqueIds(s.items) && !CarriesItem(e) && j < |s.items|
    ensures |Effect(s, e).items| == |s.items|
    ensures Effect(s, e).items[j] == s.items[j].(content := Touched(s.items[j], e))
  {
    hide AppendText, AppendArguments, AppendOutput;
  }

  /** What an event that carries an item does to the display: a known id keeps its place, a new one goes last, and on a
      full display the first settled item, or else the oldest, makes way. */
  lemma ShowsCarried(s: RunSnapshot, e: RunEvent)
    requires UniqueIds(s.items) && CarriesItem(e)
    ensures var (k, t) := (IndexOf(s.items, e.item.id), Effect(s, e));
      if k < |s.items| then
        && |t.items| == |s.items| && t.items[k] == e.item
        && forall j :: 0 <= j < |s.items| && j != k ==> t.items[j] == s.items[j]
      else
        && t.items != [] && t.items[|t.items| - 1] == e.item
        && t.items[..|t.items| - 1]
           == if |s.items| < UI_RETAINED_ITEMS then s.items
              else s.items[..Victim(s.items)] + s.items[Victim(s.items) + 1..]
  {
  }

  lemma ShownAfterCarried(was: seq<WorkItem>, item: WorkItem, now: seq<WorkItem>, j: nat) returns (i: nat)
    requires UniqueIds(was) && j < |now|
    requires var k := IndexOf(was, item.id);
      if k < |was| then |now| == |was| && now[k] == item && forall n :: 0 <= n < |was| && n != k ==> now[n] == was[n]
      else now != [] && now[|now| - 1] == item && now[..|now| - 1]
             == if |was| < UI_RETAINED_ITEMS then was else was[..Victim(was)] + was[Victim(was) + 1..]
    ensures if now[j].id == item.id then now[j] == item else i < |was| && was[i] == now[j]
  {
    hide Victim;
    i := j;
    if IndexOf(was, item.id) == |was| && j < |now| - 1 {
      assert now[j] == now[..|now| - 1][j];
      if |was| >= UI_RETAINED_ITEMS && Victim(was) <= j { i := j + 1; }
    }
  }

  /** Whatever is shown after an event was just carried by it, or was shown before under the same id. */
  lemma ShownAfter(s: RunSnapshot, e: RunEvent, j: nat) returns (i: nat)
    requires UniqueIds(s.items) && j < |Effect(s, e).items|
    ensures var now := Effect(s, e).items[j];
      if Carries(e, now.id) then now == e.item
      else i < |s.items| && s.items[i].id == now.id && now == s.items[i].(content := Touched(s.items[i], e))
  {
    hide Touched, Effect, UniqueIds, IndexOf, Victim;
    if CarriesItem(e) {
      ShowsCarried(s, e);
      i := ShownAfterCarried(s.items, e.item, Effect(s, e).items, j);
      CarriedTouchesNothing(e);
    } else {
      i := j;
      SameCount(s, e);
      TouchesInPlace(s, e, j);
    }
  }

  lemma CarriedTouchesNothing(e: RunEvent)
    requires CarriesItem(e)
    ensures forall item: WorkItem :: Touched(item, e) == item.content
  {
  }

  lemma SameCount(s: RunSnapshot, e: RunEvent)
    requires !CarriesItem(e)
    ensures |Effect(s, e).items| == |s.items|
  {
  }

  // ----- Main results -----

  /** Every item on display is the one that last arrived under its id, continued by exactly the deltas since. */
  lemma {:induction false} ShownIsArrivedAndContinued(runId: string, log: seq<RunEvent>, j: nat)
    requires j < |Fold(runId, log).items|
    ensures var now := Fold(runId, log).items[j];
      var m := Arrival(log, now.id);
      m < |log| && Continues(log[m].item, log[m + 1..], now)
    decreases |log|
  {
    hide Effect, Continues, Touched;
    var before, e := log[..|log| - 1], log[|log| - 1];
    var s := Fold(runId, before).(sequence := |log|);
    RetentionIsConserved(runId, before);
    var now := Fold(runId, log).items[j];
    var i := ShownAfter(s, e, j);
    if Carries(e, now.id) {
      assert log[|log|..] == [];
      NothingSince(now);
    } else {
      ShownIsArrivedAndContinued(runId, before, i);
      var m := Arrival(before, now.id);
      assert log[m + 1..] == before[m + 1..] + [e];
      ContinuesOne(log[m].item, before[m + 1..], s.items[i], e, now);
    }
  }

  /** In particular an item that arrived empty shows the clip of everything streamed to it since. */
  lemma StreamedFromEmpty(runId: string, log: seq<RunEvent>, j: nat)
    requires j < |Fold(runId, log).items|
    ensures var now := Fold(runId, log).items[j];
      var m := Arrival(log, now.id);
      && m < |log|
      && (log[m].item.content == AgentMessage(EMPTY_PREVIEW) ==>
            now.content == AgentMessage(ClippedPreview(Concat(Texts(log[m + 1..], now.id)))))
      && (log[m].item.content.ToolCall? && log[m].item.content.argumentsText == EMPTY_PREVIEW ==>
            now.content.ToolCall?
            && now.content.argumentsText == ClippedPreview(Concat(Arguments(log[m + 1..], now.id))))
      && (log[m].item.content.ToolCall? && log[m].item.content.output == EMPTY_PREVIEW ==>
            now.content.ToolCall? && now.content.output == ClippedPreview(Concat(Outputs(log[m + 1..], now.id))))
  {
    hide ClippedPreview, AppendAll, Fold;
    ShownIsArrivedAndContinued(runId, log, j);
    var now := Fold(runId, log).items[j];
    var since := log[Arrival(log, now.id) + 1..];
    PreviewRefinesClip(Texts(since, now.id));
    PreviewRefinesClip(Arguments(since, now.id));
    PreviewRefinesClip(Outputs(since, now.id));
  }

  function LastStep(log: seq<RunEvent>): nat {
    if log == [] then 0 else
      var e := log[|log| - 1];
      if e.StepStarted? then e.step else LastStep(log[..|log| - 1])
  }

  function LastOutcome(log: seq<RunEvent>): Option<RunOutcome> {
    if log == [] then None else
      var e := log[|log| - 1];
      if e.RunFinished? then Some(e.outcome) else LastOutcome(log[..|log| - 1])
  }

  lemma StatusAfter(s: RunSnapshot, e: RunEvent)
    ensures var t := Effect(s, e);
      && t.started == (s.started || e.RunStarted?)
      && t.step == (if e.StepStarted? then e.step else s.step)
      && t.outcome == (if e.RunFinished? then Some(e.outcome) else s.outcome)
  {
  }

  /** The run has started if it ever said so, is at the last step it began, and has the last outcome it gave. */
  lemma {:induction false} StatusIsLast(runId: string, log: seq<RunEvent>)
    ensures Fold(runId, log).started <==> RunStarted in log
    ensures Fold(runId, log).step == LastStep(log)
    ensures Fold(runId, log).outcome == LastOutcome(log)
    decreases |log|
  {
    hide Effect;
    if log != [] {
      var before, e := log[..|log| - 1], log[|log| - 1];
      StatusIsLast(runId, before);
      StatusAfter(Fold(runId, before).(sequence := |log|), e);
      assert log == before + [e];
    }
  }

  // ----- What clients see -----

  /** Of a snapshot or event only the text of an error is replaced, by one of two messages. */
  lemma PublicReplacesTheMessage(s: RunSnapshot, e: EventEnvelope)
    ensures PublicSnapshot(s).(outcome := s.outcome) == s
    ensures PublicSnapshot(s).outcome.Some? <==> s.outcome.Some?
    ensures s.outcome.Some? ==> Redacted(s.outcome.value, PublicSnapshot(s).outcome.value)
    ensures e.event.RunFinished? ==>
              && PublicEvent(e).event.RunFinished? && PublicEvent(e).(event := e.event) == e
              && Redacted(e.event.outcome, PublicEvent(e).event.outcome)
    ensures !e.event.RunFinished? ==> PublicEvent(e) == e
  {
  }

  predicate Redacted(was: RunOutcome, now: RunOutcome) {
    && now.(error := was.error) == was
    && (now.error.Some? <==> was.error.Some?)
    && (was.error.Some? ==>
          && now.error.value.(message := was.error.value.message) == was.error.value
          && (now.error.value.message == UNSUPPORTED_CAPABILITY_MESSAGE <==> was.error.value.code.Unsupported?)
          && (now.error.value.message == STOPPED_MESSAGE <==> !was.error.value.code.Unsupported?))
  }
}
