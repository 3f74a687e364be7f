/** The run snapshot that server and clients both fold events into, and its public projection. */
module RunEvents {
  import opened Text

  const STREAM_VERSION: nat := 2
  const UI_TEXT_BYTES: nat := 64 * 1024
  const UI_RETAINED_ITEMS: nat := 256

  // ----- Bounded text previews -----

  datatype Preview = Preview(text: string, truncated: bool)

  const EMPTY_PREVIEW := Preview("", false)

  function AppendPreview(p: Preview, delta: string): Preview {
    if p.truncated then p else
      var part := Clip(delta, SatSub(UI_TEXT_BYTES, Len(p.text)));
      Preview(p.text + part, Len(part) < Len(delta))
  }

  function AppendAll(p: Preview, deltas: seq<string>): Preview
    decreases |deltas|
  {
    if deltas == [] then p else AppendAll(AppendPreview(p, deltas[0]), deltas[1..])
  }

  function Concat(deltas: seq<string>): string {
    if deltas == [] then "" else deltas[0] + Concat(deltas[1..])
  }

  /** The preview one-shot clipping would give. */
  function ClippedPreview(text: string): Preview {
    Preview(Clip(text, UI_TEXT_BYTES), Len(text) > UI_TEXT_BYTES)
  }

  lemma AppendToClipped(text: string, delta: string)
    ensures AppendPreview(ClippedPreview(text), delta) == ClippedPreview(text + delta)
  {
    LenConcat(text, delta);
    if Len(text) > UI_TEXT_BYTES {
      ClipIgnoresTail(text, delta, UI_TEXT_BYTES);
    } else {
      ClipConcat(text, delta, UI_TEXT_BYTES);
      var room := UI_TEXT_BYTES - Len(text);
      if Len(delta) > room { ShorterClip(delta, room); }
    }
  }

  lemma ShorterClip(s: string, limit: nat)
    requires Len(s) > limit
    ensures Len(Clip(s, limit)) < Len(s)
  {
  }

  lemma {:induction false} AppendAllFrom(text: string, deltas: seq<string>)
    ensures AppendAll(ClippedPreview(text), deltas) == ClippedPreview(text + Concat(deltas))
    decreases |deltas|
  {
    if deltas == [] {
      assert text + Concat(deltas) == text;
    } else {
      hide ClippedPreview, AppendPreview;
      var head, rest := deltas[0], deltas[1..];
      AppendAllFrom(text + head, rest);
      AppendToClipped(text, head);
      Assoc(text, head, Concat(rest));
    }
  }

  /** Streaming any deltas into an empty preview equals clipping their concatenation once. */
  lemma PreviewRefinesClip(deltas: seq<string>)
    ensures AppendAll(EMPTY_PREVIEW, deltas) == ClippedPreview(Concat(deltas))
  {
    assert EMPTY_PREVIEW == ClippedPreview("");
    AppendAllFrom("", deltas);
    assert "" + Concat(deltas) == Concat(deltas);
  }

  // ----- Work items and events -----

  datatype ItemState = Pending | Running | Completed | Failed | Cancelled | Denied | Skipped | Unknown {
    predicate Terminal() { !Pending? && !Running? }
  }

  /** JSON values, tool results and UI details are carried as their serialized text. */
  datatype ItemContent =
    | AgentMessage(message: Preview)
    | ToolCall(callId: Option<string>, name: string, argumentsText: Preview, arguments: Option<string>,
               output: Preview, result: Option<string>, details: map<string, string>)

  datatype WorkItem = WorkItem(id: string, step: nat, state: ItemState, content: ItemContent)

  datatype ErrorCode =
    | Configuration | Unsupported | Checkpoint | Dependency | Plugin | Schema | Policy | ModelAuthentication
    | ModelQuota | ModelRateLimit | ModelServer | ModelContextWindow | ModelHistoryIncompatible | ModelRequest
    | ModelTransport | ModelProtocol | ModelTruncated | Tool | CancelledError | Deadline | Limit | Closed | Panic

  datatype AgentError = AgentError(code: ErrorCode, message: string, httpStatus: Option<nat>,
                                   retryAfterMs: Option<nat>, modelOutputStarted: bool)

  datatype RunStatus = CompletedRun | FailedRun | CancelledRun | TimedOut | Limited

  datatype TaskUsage = TaskUsage(modelCalls: nat, reportedTokens: nat, usageComplete: bool)

  datatype RunOutcome = RunOutcome(status: RunStatus, output: Option<string>, error: Option<AgentError>,
                                   taskUsage: TaskUsage, steps: nat)

  datatype RunEvent =
    | RunStarted
    | StepStarted(step: nat)
    | ItemStarted(item: WorkItem)
    | ItemUpdated(item: WorkItem)
    | TextDelta(itemId: string, text: string)
    | ToolArgumentsDelta(itemId: string, newCallId: Option<string>, newName: Option<string>, delta: string)
    | ToolOutputDelta(itemId: string, text: string)
    | ItemCompleted(item: WorkItem)
    | InputApplied
    | StepFinished(step: nat)
    | RunFinished(outcome: RunOutcome)

  datatype EventEnvelope = EventEnvelope(protocolVersion: nat, runId: string, sequence: nat, event: RunEvent)

  datatype RunSnapshot = RunSnapshot(protocolVersion: nat, runId: string, sequence: nat, started: bool, step: nat,
                                     items: seq<WorkItem>, prunedItems: nat, outcome: Option<RunOutcome>)

  function NewSnapshot(runId: string): RunSnapshot {
    RunSnapshot(STREAM_VERSION, runId, 0, false, 0, [], 0, None)
  }

  // ----- The fold -----

  /** First item with the given id; `|items|` when there is none. */
  function IndexOf(items: seq<WorkItem>, id: string): (k: nat)
    ensures k <= |items|
    ensures k < |items| ==> items[k].id == id
    ensures forall j :: 0 <= j < k ==> items[j].id != id
  {
    if items == [] || items[0].id == id then 0 else 1 + IndexOf(items[1..], id)
  }

  /** First settled item; the oldest item when none is settled. */
  function Victim(items: seq<WorkItem>): (k: nat)
    requires items != []
    ensures k < |items|
    ensures (exists j :: 0 <= j < |items| && items[j].state.Terminal()) ==> items[k].state.Terminal()
    ensures !items[k].state.Terminal() ==> k == 0
    ensures forall j :: 0 <= j < k ==> !items[j].state.Terminal()
  {
    if items[0].state.Terminal() then 0
    else if |items| == 1 then 0
    else
      var k := Victim(items[1..]);
      if items[1..][k].state.Terminal() then k + 1 else 0
  }

  function Upsert(s: RunSnapshot, item: WorkItem): RunSnapshot {
    var k := IndexOf(s.items, item.id);
    if k < |s.items| then s.(items := s.items[k := item])
    else if |s.items| >= UI_RETAINED_ITEMS then
      var v := Victim(s.items);
      s.(items := s.items[..v] + s.items[v + 1..] + [item], prunedItems := s.prunedItems + 1)
    else s.(items := s.items + [item])
  }

  function WithContent(s: RunSnapshot, id: string, change: ItemContent -> ItemContent): RunSnapshot {
    var k := IndexOf(s.items, id);
    if k < |s.items| then s.(items := s.items[k := s.items[k].(content := change(s.items[k].content))]) else s
  }

  function AppendText(c: ItemContent, text: string): ItemContent {
    match c
    case AgentMessage(p) => AgentMessage(AppendPreview(p, text))
    case ToolCall(_, _, _, _, _, _, _) => c
  }

  function AppendArguments(c: ItemContent, id: Option<string>, name: Option<string>, delta: string): ItemContent {
    match c
    case AgentMessage(_) => c
    case ToolCall(_, _, _, _, _, _, _) =>
      c.(callId := if id.Some? then id else c.callId,
         name := if name.Some? then Clip(name.value, 128) else c.name,
         argumentsText := AppendPreview(c.argumentsText, delta))
  }

  function AppendOutput(c: ItemContent, text: string): ItemContent {
    match c
    case AgentMessage(_) => c
    case ToolCall(_, _, _, _, _, _, _) => c.(output := AppendPreview(c.output, text))
  }

  /** False for an out-of-order, gapped or foreign event: the caller must fetch an atomic snapshot. */
  predicate Applicable(s: RunSnapshot, e: EventEnvelope) {
    e.protocolVersion == STREAM_VERSION && e.runId == s.runId && e.sequence == s.sequence + 1
  }

  function Effect(s: RunSnapshot, e: RunEvent): (t: RunSnapshot)
    ensures t.sequence == s.sequence && t.runId == s.runId && t.protocolVersion == s.protocolVersion
    ensures s.outcome.Some? ==> t.outcome.Some?
  {
    match e
    case RunStarted => s.(started := true)
    case StepStarted(step) => s.(step := step)
    case ItemStarted(item) => Upsert(s, item)
    case ItemUpdated(item) => Upsert(s, item)
    case ItemCompleted(item) => Upsert(s, item)
    case TextDelta(id, text) => WithContent(s, id, c => AppendText(c, text))
    case ToolArgumentsDelta(id, callId, name, delta) => WithContent(s, id, c => AppendArguments(c, callId, name, delta))
    case ToolOutputDelta(id, text) => WithContent(s, id, c => AppendOutput(c, text))
    case RunFinished(outcome) => s.(outcome := Some(outcome))
    case InputApplied => s
    case StepFinished(_) => s
  }

  function Applied(s: RunSnapshot, e: EventEnvelope): (t: RunSnapshot)
    ensures t.sequence == if Applicable(s, e) then e.sequence else s.sequence
    ensures t.runId == s.runId && t.protocolVersion == s.protocolVersion
    ensures s.outcome.Some? ==> t.outcome.Some?
  {
    if Applicable(s, e) then Effect(s.(sequence := e.sequence), e.event) else s
  }

  /** The snapshot as the mutable object both ends keep; `apply` edits it in place. */
  class LiveSnapshot {
    var protocolVersion: nat
    var runId: string
    var sequence: nat
    var started: bool
    var step: nat
    var items: seq<WorkItem>
    var prunedItems: nat
    var outcome: Option<RunOutcome>

    function View(): RunSnapshot
      reads this
    {
      RunSnapshot(protocolVersion, runId, sequence, started, step, items, prunedItems, outcome)
    }

    constructor (id: string)
      ensures View() == NewSnapshot(id)
    {
      protocolVersion, runId, sequence, started, step := STREAM_VERSION, id, 0, false, 0;
      items, prunedItems, outcome := [], 0, None;
    }

    /** `iter().position(..)` by id. */
    method Position(id: string) returns (k: nat)
      ensures k == IndexOf(items, id)
    {
      k := 0;
      while k < |items| && items[k].id != id
        invariant k <= |items|
        invariant forall j :: 0 <= j < k ==> items[j].id != id
      {
        k := k + 1;
      }
    }

    method Put(item: WorkItem)
      modifies this`items, this`prunedItems
      ensures View() == Upsert(old(View()), item)
    {
      var k := Position(item.id);
      if k < |items| {
        items := items[k := item];
      } else {
        if |items| >= UI_RETAINED_ITEMS {
          var v := 0;
          while v < |items| && !items[v].state.Terminal()
            invariant v <= |items|
            invariant forall j :: 0 <= j < v ==> !items[j].state.Terminal()
          {
            v := v + 1;
          }
          if v == |items| { v := 0; }
          items := items[..v] + items[v + 1..];
          prunedItems := prunedItems + 1;
        }
        items := items + [item];
      }
    }

    method Apply(e: EventEnvelope) returns (ok: bool)
      modifies this
      ensures ok == Applicable(old(View()), e)
      ensures ok <==> e.protocolVersion == 2 && e.runId == old(runId) && e.sequence == old(sequence) + 1
      ensures View() == Applied(old(View()), e)
    {
      if e.protocolVersion != STREAM_VERSION || e.runId != runId || e.sequence != sequence + 1 { return false; }
      sequence := e.sequence;
      match e.event {
        case RunStarted => started := true;
        case StepStarted(n) => step := n;
        case ItemStarted(item) => Put(item);
        case ItemUpdated(item) => Put(item);
        case ItemCompleted(item) => Put(item);
        case TextDelta(id, text) =>
          var k := Position(id);
          if k < |items| { items := items[k := items[k].(content := AppendText(items[k].content, text))]; }
        case ToolArgumentsDelta(id, callId, name, delta) =>
          var k := Position(id);
          if k < |items| {
            items := items[k := items[k].(content := AppendArguments(items[k].content, callId, name, delta))];
          }
        case ToolOutputDelta(id, text) =>
          var k := Position(id);
          if k < |items| { items := items[k := items[k].(content := AppendOutput(items[k].content, text))]; }
        case RunFinished(o) => outcome := Some(o);
        case InputApplied =>
        case StepFinished(_) =>
      }
      ok := true;
    }
  }

  // ----- The source's event log -----

  /** The source assigns sequence numbers 1, 2, .. atomically with its own snapshot. */
  function Stamp(runId: string, k: nat, e: RunEvent): EventEnvelope {
    EventEnvelope(STREAM_VERSION, runId, k, e)
  }

  function Fold(runId: string, log: seq<RunEvent>): (s: RunSnapshot)
    ensures s.sequence == |log| && s.runId == runId && s.protocolVersion == STREAM_VERSION
  {
    if log == [] then NewSnapshot(runId)
    else Applied(Fold(runId, log[..|log| - 1]), Stamp(runId, |log|, log[|log| - 1]))
  }

  /** A run stops publishing at its terminal event. */
  predicate SourceLog(log: seq<RunEvent>) {
    forall i :: 0 <= i < |log| - 1 ==> !log[i].RunFinished?
  }

  lemma {:induction false} FoldOutcome(runId: string, log: seq<RunEvent>)
    requires SourceLog(log)
    ensures Fold(runId, log).outcome.Some? <==> log != [] && log[|log| - 1].RunFinished?
  {
    if log != [] {
      var before := log[..|log| - 1];
      FoldOutcome(runId, before);
      assert before != [] ==> before[|before| - 1] == log[|log| - 2];
    }
  }

  // ----- Retention -----

  predicate UniqueIds(items: seq<WorkItem>) {
    forall i, j :: 0 <= i < j < |items| ==> items[i].id != items[j].id
  }

  predicate Retained(s: RunSnapshot) {
    UniqueIds(s.items) && |s.items| <= UI_RETAINED_ITEMS
  }

  predicate CarriesItem(e: RunEvent) { e.ItemStarted? || e.ItemUpdated? || e.ItemCompleted? }

  /** Item events whose id was not on display when they arrived. */
  function Insertions(runId: string, log: seq<RunEvent>): nat {
    if log == [] then 0 else
      var before := log[..|log| - 1];
      var e := log[|log| - 1];
      var items := Fold(runId, before).items;
      Insertions(runId, before) + if CarriesItem(e) && IndexOf(items, e.item.id) == |items| then 1 else 0
  }

  lemma UpsertRetains(s: RunSnapshot, item: WorkItem)
    requires Retained(s)
    ensures Retained(Upsert(s, item))
    ensures |Upsert(s, item).items| + Upsert(s, item).prunedItems
         == |s.items| + s.prunedItems + if IndexOf(s.items, item.id) == |s.items| then 1 else 0
  {
    hide Victim, UniqueIds;
    if IndexOf(s.items, item.id) < |s.items| {
      ReplacingKeepsUnique(s.items, IndexOf(s.items, item.id), item);
    } else if |s.items| >= UI_RETAINED_ITEMS {
      var v := Victim(s.items);
      RemovingKeepsUnique(s.items, v);
      AddingKeepsUnique(s.items[..v] + s.items[v + 1..], item);
    } else {
      AddingKeepsUnique(s.items, item);
    }
  }

  lemma ReplacingKeepsUnique(items: seq<WorkItem>, k: nat, item: WorkItem)
    requires k < |items| && items[k].id == item.id && UniqueIds(items)
    ensures UniqueIds(items[k := item])
  {
    assert forall j :: 0 <= j < |items| ==> items[k := item][j].id == items[j].id;
  }

  lemma RemovingKeepsUnique(items: seq<WorkItem>, v: nat)
    requires v < |items| && UniqueIds(items)
    ensures UniqueIds(items[..v] + items[v + 1..])
  {
    var rest := items[..v] + items[v + 1..];
    assert forall j :: 0 <= j < |rest| ==> rest[j] == items[if j < v then j else j + 1];
  }

  lemma AddingKeepsUnique(items: seq<WorkItem>, item: WorkItem)
    requires UniqueIds(items) && forall j :: 0 <= j < |items| ==> items[j].id != item.id
    ensures UniqueIds(items + [item])
  {
  }

  lemma WithContentRetains(s: RunSnapshot, id: string, change: ItemContent -> ItemContent)
    requires Retained(s)
    ensures Retained(WithContent(s, id, change))
    ensures |WithContent(s, id, change).items| == |s.items| && WithContent(s, id, change).prunedItems == s.prunedItems
  {
  }

  lemma EffectRetains(s: RunSnapshot, e: RunEvent)
    requires Retained(s)
    ensures Retained(Effect(s, e))
    ensures |Effect(s, e).items| + Effect(s, e).prunedItems
         == |s.items| + s.prunedItems + if CarriesItem(e) && IndexOf(s.items, e.item.id) == |s.items| then 1 else 0
  {
    if CarriesItem(e) {
      UpsertRetains(s, e.item);
    } else {
      match e {
        case TextDelta(id, text) => WithContentRetains(s, id, c => AppendText(c, text));
        case ToolArgumentsDelta(id, callId, name, delta) =>
          WithContentRetains(s, id, c => AppendArguments(c, callId, name, delta));
        case ToolOutputDelta(id, text) => WithContentRetains(s, id, c => AppendOutput(c, text));
        case _ =>
      }
    }
  }

  /** Every item ever shown is still retained or counted as pruned; ids never repeat on display. */
  lemma {:induction false} RetentionIsConserved(runId: string, log: seq<RunEvent>)
    ensures Retained(Fold(runId, log))
    ensures |Fold(runId, log).items| + Fold(runId, log).prunedItems == Insertions(runId, log)
  {
    if log != [] {
      var before := log[..|log| - 1];
      RetentionIsConserved(runId, before);
      EffectRetains(Fold(runId, before).(sequence := |log|), log[|log| - 1]);
    }
  }

  predicate Shows(items: seq<WorkItem>, id: string) { exists j :: 0 <= j < |items| && items[j].id == id }

  predicate Active(item: WorkItem) { item.state.Pending? || item.state.Running? }

  /** An item leaves the display only as the victim of an insertion into a full display: the first that has
      settled, or, when all are still active, the oldest. */
  lemma PruningSparesActiveItems(s: RunSnapshot, e: RunEvent, k: nat)
    requires Retained(s) && k < |s.items|
    ensures Shows(Effect(s, e).items, s.items[k].id)
         || (CarriesItem(e) && |s.items| == UI_RETAINED_ITEMS && k == Victim(s.items)
             && (Active(s.items[k]) ==> k == 0 && forall j :: 0 <= j < |s.items| ==> Active(s.items[j]))
             && (!Active(s.items[k]) ==> forall j :: 0 <= j < k ==> Active(s.items[j])))
  {
    var t := Effect(s, e);
    if CarriesItem(e) {
      UpsertShows(s, e.item, k);
    } else {
      assert t.items[k].id == s.items[k].id;
    }
  }

  lemma UpsertShows(s: RunSnapshot, item: WorkItem, k: nat)
    requires Retained(s) && k < |s.items|
    ensures Shows(Upsert(s, item).items, s.items[k].id) || (|s.items| == UI_RETAINED_ITEMS && k == Victim(s.items))
  {
    var t := Upsert(s, item);
    if IndexOf(s.items, item.id) == |s.items| && |s.items| >= UI_RETAINED_ITEMS {
      var v := Victim(s.items);
      if k != v { assert t.items[if k < v then k else k - 1] == s.items[k]; }
    } else {
      assert t.items[k].id == s.items[k].id;
    }
  }

  // ----- Public projection -----

  const UNSUPPORTED_CAPABILITY_MESSAGE: string := "当前模型协议或配置不支持本次请求中的能力或参数，请检查模型设置。"
  const STOPPED_MESSAGE: string := "run stopped; inspect trusted host diagnostics for details"

  function PublicOutcome(o: RunOutcome): RunOutcome {
    if o.error.None? then o else
      o.(error := Some(o.error.value.(message :=
        if o.error.value.code == Unsupported then UNSUPPORTED_CAPABILITY_MESSAGE else STOPPED_MESSAGE)))
  }

  function PublicSnapshot(s: RunSnapshot): RunSnapshot {
    if s.outcome.None? then s else s.(outcome := Some(PublicOutcome(s.outcome.value)))
  }

  function PublicEvent(e: EventEnvelope): EventEnvelope {
    if e.event.RunFinished? then e.(event := RunFinished(PublicOutcome(e.event.outcome))) else e
  }

  /** Projecting before or after the fold is the same. */
  lemma PublicCommutesWithApply(s: RunSnapshot, e: EventEnvelope)
    ensures Applicable(PublicSnapshot(s), PublicEvent(e)) == Applicable(s, e)
    ensures Applied(PublicSnapshot(s), PublicEvent(e)) == PublicSnapshot(Applied(s, e))
  {
    if !e.event.RunFinished? {
      hide Effect;
      EffectIgnoresOutcome(s.(sequence := e.sequence), e.event, PublicSnapshot(s).outcome);
    }
  }

  lemma EffectIgnoresOutcome(s: RunSnapshot, e: RunEvent, o: Option<RunOutcome>)
    requires !e.RunFinished?
    ensures Effect(s.(outcome := o), e) == Effect(s, e).(outcome := o)
  {
    hide IndexOf, Victim, AppendText, AppendArguments, AppendOutput;
  }

  function WithDiagnostics(o: RunOutcome, message: string): RunOutcome {
    if o.error.None? then o else o.(error := Some(o.error.value.(message := message)))
  }

  /** Provider diagnostics never reach a client, neither in an event nor in a snapshot. */
  lemma DiagnosticsStayPrivate(s: RunSnapshot, e: EventEnvelope, message: string)
    ensures s.outcome.Some? ==>
              PublicSnapshot(s.(outcome := Some(WithDiagnostics(s.outcome.value, message)))) == PublicSnapshot(s)
    ensures e.event.RunFinished? ==>
              PublicEvent(e.(event := RunFinished(WithDiagnostics(e.event.outcome, message)))) == PublicEvent(e)
  {
  }
}
