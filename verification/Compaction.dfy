/** The compactor: when a request grows too large, older settled groups are replaced by one model-written handoff. */
module Compaction {
  import opened Text
  import opened Messages
  import opened Grouping
  import opened Projection
  import opened SavedState
  import opened Sizing
  import opened Summaries
  import opened Handover

  datatype Config = Config(percentages: Percentages, recentGroups: nat, maxSummaryCalls: nat, maxCachedRuns: nat,
                           maxSummaryBytes: nat)
  {
    predicate Valid() {
      && percentages.Valid() && recentGroups > 0 && maxSummaryCalls > 0 && maxCachedRuns > 0
      && 256 <= maxSummaryBytes <= SavedState.MAX_SUMMARY_BYTES
    }
  }

  /** `anchor` is the provider's own estimate of a request's tokens, when it has one. */
  datatype Context = Context(runId: string, limits: Limits, wire: Wire, anchor: seq<Message> -> Option<nat>,
                             aux: Auxiliary, fingerprint: Group -> nat, sha256: seq<Message> -> string)

  function CodecOf(ctx: Context): Codec {
    Codec(text => ParseHandoff(ctx.aux.json, text).Some?, ctx.sha256)
  }

  function RequestTokens(ctx: Context, messages: seq<Message>): nat {
    var estimate := ctx.anchor(messages);
    if estimate.Some? then estimate.value else EstimatedTokens(RequestBytes(ctx.wire, messages))
  }

  // ----- The cached summary of a run -----

  datatype Fingerprint = Fingerprint(index: nat, hash: nat)

  datatype CachedSummary = CachedSummary(fingerprints: seq<Fingerprint>, text: string, state: CompactionState)

  function Selection(entry: CachedSummary): (s: seq<nat>)
    ensures |s| == |entry.fingerprints| && forall k :: 0 <= k < |s| ==> s[k] == entry.fingerprints[k].index
  {
    seq(|entry.fingerprints|, k requires 0 <= k < |entry.fingerprints| => entry.fingerprints[k].index)
  }

  function SelectionOf(cached: Option<CachedSummary>): seq<nat> {
    if cached.None? then [] else Selection(cached.value)
  }

  predicate Sorted(cached: Option<CachedSummary>) {
    var s := SelectionOf(cached);
    forall j, k :: 0 <= j < k < |s| ==> s[j] < s[k]
  }

  /** Every summarized group is still there, unchanged. */
  predicate Fresh(ctx: Context, groups: seq<Group>, entry: CachedSummary) {
    forall k :: 0 <= k < |entry.fingerprints| ==>
      && entry.fingerprints[k].index < |groups|
      && ctx.fingerprint(groups[entry.fingerprints[k].index]) == entry.fingerprints[k].hash
  }

  /** A summary whose groups changed is not used again. */
  function Kept(ctx: Context, groups: seq<Group>, cached: Option<CachedSummary>): (kept: Option<CachedSummary>)
    requires Sorted(cached)
    ensures Ascending(SelectionOf(kept), |groups|) && Sorted(kept)
  {
    if cached.Some? && !Fresh(ctx, groups, cached.value) then None else cached
  }

  /** What the model sees of a history under a cached summary. */
  function View(groups: seq<Group>, cached: Option<CachedSummary>): seq<Message>
    requires Ascending(SelectionOf(cached), |groups|)
  {
    if cached.None? then Flatten(groups)
    else Projected(groups, Marks(|groups|, Selection(cached.value)), cached.value.text)
  }

  // ----- Choosing groups -----

  predicate HasUser(g: Group) { exists i :: 0 <= i < |g| && g[i].User? }

  /** The last group with a user message. */
  function LatestUser(groups: seq<Group>): (latest: Option<nat>)
    ensures latest.Some? ==> latest.value < |groups| && HasUser(groups[latest.value])
    ensures forall i :: 0 <= i < |groups| && HasUser(groups[i]) ==> latest.Some? && i <= latest.value
  {
    if groups == [] then None
    else if HasUser(groups[|groups| - 1]) then Some(|groups| - 1)
    else
      var rest := groups[..|groups| - 1];
      assert forall i :: 0 <= i < |groups| && HasUser(groups[i]) ==> i < |rest| && rest[i] == groups[i];
      LatestUser(rest)
  }

  predicate Eligible(groups: seq<Group>, i: nat) {
    i < |groups| && Some(i) != LatestUser(groups) && SafeToSummarize(groups[i])
  }

  /** The groups summarized when the last `retain` groups are kept, among the first `n`. */
  function Select(groups: seq<Group>, previous: seq<nat>, retain: nat, n: nat): (selected: seq<nat>)
    requires n <= |groups|
    ensures Ascending(selected, n)
    ensures forall i :: 0 <= i < n ==>
            (i in selected <==> i in previous || (i + retain < |groups| && Eligible(groups, i)))
  {
    if n == 0 then [] else
      var earlier := Select(groups, previous, retain, n - 1);
      if n - 1 in previous || (n - 1 + retain < |groups| && Eligible(groups, n - 1)) then earlier + [n - 1] else earlier
  }

  function Minimum(ctx: Context, groups: seq<Group>, selected: seq<nat>): nat {
    RequestBytes(ctx.wire, Projected(groups, Marks(|groups|, selected), ""))
  }

  /** Keeping the last `retain` groups leaves a worthwhile selection with room for a summary under the target. */
  predicate Settles(ctx: Context, groups: seq<Group>, previous: seq<nat>, retain: nat, force: bool, target: nat) {
    var selected := Select(groups, previous, retain, |groups|);
    && selected != [] && (force ==> AddsTo(selected, previous))
    && SatAdd(Minimum(ctx, groups, selected), 256) <= target
  }

  datatype Choice = Chosen(selected: seq<nat>) | KeepCurrent | NothingSettled

  ghost predicate KeepsMost(ctx: Context, groups: seq<Group>, previous: seq<nat>, retain: nat, most: nat, force: bool,
                            target: nat, selected: seq<nat>)
  {
    && selected == Select(groups, previous, retain, |groups|)
    && (Settles(ctx, groups, previous, retain, force, target) || retain == 1)
    && forall more :: retain < more <= most ==> !Settles(ctx, groups, previous, more, force, target)
  }

  /** As many recent groups stay as the target allows, and always the last one. */
  ghost predicate ChoiceIs(ctx: Context, groups: seq<Group>, previous: seq<nat>, cached: bool, recent: nat, force: bool,
                           target: nat, c: Choice)
  {
    var last := Select(groups, previous, 1, |groups|);
    var most := Max(Min(recent, |groups|), 1);
    match c
    case KeepCurrent => force && !cached && !AddsTo(last, previous)
    case NothingSettled => last == [] && !(force && !cached)
    case Chosen(selected) =>
      selected != [] && (force ==> cached || AddsTo(last, previous))
      && exists retain :: 1 <= retain <= most && KeepsMost(ctx, groups, previous, retain, most, force, target, selected)
  }

  lemma FewerKeptAddsMore(groups: seq<Group>, previous: seq<nat>, retain: nat)
    requires retain >= 1 && AddsTo(Select(groups, previous, retain, |groups|), previous)
    ensures AddsTo(Select(groups, previous, 1, |groups|), previous)
  {
    var selected := Select(groups, previous, retain, |groups|);
    var k :| 0 <= k < |selected| && selected[k] !in previous;
    assert selected[k] in Select(groups, previous, 1, |groups|);
  }

  /** The retain loop of `compact`: each round keeps one group fewer. */
  method ChooseGroups(ctx: Context, groups: seq<Group>, previous: seq<nat>, cached: bool, recent: nat, force: bool,
                      target: nat)
    returns (c: Choice)
    ensures ChoiceIs(ctx, groups, previous, cached, recent, force, target, c)
  {
    hide Minimum, Select;
    var retain := Max(Min(recent, |groups|), 1);
    while true
      invariant 1 <= retain <= Max(Min(recent, |groups|), 1)
      invariant forall more :: retain < more <= Max(Min(recent, |groups|), 1) ==>
                !Settles(ctx, groups, previous, more, force, target)
      decreases retain
    {
      var selected := Select(groups, previous, retain, |groups|);
      if force && !AddsTo(selected, previous) {
        if retain > 1 { retain := retain - 1; continue; }
        if !cached { return KeepCurrent; }
      }
      if selected == [] {
        if retain > 1 { retain := retain - 1; continue; }
        return NothingSettled;
      }
      if SatAdd(Minimum(ctx, groups, selected), 256) <= target || retain == 1 {
        if AddsTo(selected, previous) { FewerKeptAddsMore(groups, previous, retain); }
        assert KeepsMost(ctx, groups, previous, retain, Max(Min(recent, |groups|), 1), force, target, selected);
        return Chosen(selected);
      }
      retain := retain - 1;
    }
  }

  // ----- One compaction -----

  datatype CompactError =
    Stopped | Unsettled | WindowTooSmall | NothingToCompact | NoSummaryBudget | SummaryFailed(SummaryError)
                        | DidNotShrink | MissedTarget | AboveThreshold | CaptureFailed | CacheFull

  /** What other tasks may do to this call: stop it at its start, after the summary, or as it publishes. */
  datatype Stops = Stops(before: bool, after: bool, publishing: bool)

  function TokenBudget(ctx: Context): Option<Option<nat>> {
    TokenInputBudget(ctx.limits.window, ctx.limits.maxOutputTokens)
  }

  function PressureFor(config: Config, ctx: Context): Pressure
    requires TokenBudget(ctx).Some?
  {
    PressureOf(ctx.limits.maxContextBytes, TokenBudget(ctx).value, config.percentages)
  }

  predicate Eligibles(groups: seq<Group>, previous: seq<nat>) {
    exists i :: 0 <= i < |groups| - 1 && i !in previous && Eligible(groups, i)
  }

  /** When a call leaves the cached summary as it is. */
  predicate NothingToDo(config: Config, ctx: Context, groups: seq<Group>, kept: Option<CachedSummary>, force: bool)
    requires Ascending(SelectionOf(kept), |groups|)
  {
    var view := View(groups, kept);
    if force then !Eligibles(groups, SelectionOf(kept)) && (kept.Some? ==> Escaped(kept.value.text) < 2)
    else
      && TokenBudget(ctx).Some?
      && !UnderPressure(PressureFor(config, ctx), RequestBytes(ctx.wire, view), RequestTokens(ctx, view))
  }

  /** The selection keeps every earlier group and adds only eligible ones before the last. */
  predicate Grows(groups: seq<Group>, previous: seq<nat>, selected: seq<nat>) {
    && selected != [] && Ascending(selected, |groups|)
    && (forall i :: i in previous && i < |groups| ==> i in selected)
    && forall i :: i in selected ==> i in previous || (i + 1 < |groups| && Eligible(groups, i))
  }

  predicate Records(ctx: Context, groups: seq<Group>, entry: CachedSummary)
    requires Ascending(Selection(entry), |groups|)
  {
    && (forall k :: 0 <= k < |entry.fingerprints| ==>
        entry.fingerprints[k].hash == ctx.fingerprint(groups[entry.fingerprints[k].index]))
    && Captured(CodecOf(ctx), groups, Marks(|groups|, Selection(entry)), entry.text) == Some(entry.state)
    && Len(entry.text) <= SavedState.MAX_SUMMARY_BYTES
  }

  function FingerprintsOf(ctx: Context, groups: seq<Group>, selected: seq<nat>): seq<Fingerprint>
    requires Ascending(selected, |groups|)
  {
    seq(|selected|, k requires 0 <= k < |selected| => Fingerprint(selected[k], ctx.fingerprint(groups[selected[k]])))
  }

  lemma EntryRecords(ctx: Context, groups: seq<Group>, selected: seq<nat>, entry: CachedSummary)
    requires Ascending(selected, |groups|) && entry.fingerprints == FingerprintsOf(ctx, groups, selected)
    requires Captured(CodecOf(ctx), groups, Marks(|groups|, selected), entry.text) == Some(entry.state)
    requires Len(entry.text) <= SavedState.MAX_SUMMARY_BYTES
    ensures Selection(entry) == selected && Records(ctx, groups, entry)
  {
    assert Selection(entry) == selected;
  }

  predicate Budgeted(config: Config, ctx: Context, groups: seq<Group>, kept: Option<CachedSummary>, force: bool,
                     entry: CachedSummary)
    requires Ascending(SelectionOf(kept), |groups|) && Ascending(Selection(entry), |groups|)
  {
    && TokenBudget(ctx).Some?
    && MeetsBudget(PressureFor(config, ctx), Minimum(ctx, groups, Selection(entry)),
                   RequestBytes(ctx.wire, View(groups, kept)), force, RequestBytes(ctx.wire, View(groups, Some(entry))),
                     RequestTokens(ctx, View(groups, Some(entry))))
  }

  /** The handoff a summarizer starts from. */
  function SeedOf(cached: Option<CachedSummary>): string { if cached.Some? then cached.value.text else "" }

  /** How a call on grouped messages ends, given the summary that is still fresh. */
  ghost predicate Outcome(config: Config, ctx: Context, groups: seq<Group>, kept: Option<CachedSummary>, force: bool,
                    r: Result<seq<Message>, CompactError>, after: Option<CachedSummary>)
    requires Ascending(SelectionOf(kept), |groups|)
  {
    match r
    case Err(_) => after == kept
    case Ok(out) =>
      || (after == kept && NothingToDo(config, ctx, groups, kept, force) && out == View(groups, kept))
      || (after.Some? && Grows(groups, SelectionOf(kept), Selection(after.value)) && Records(ctx, groups, after.value)
          && Budgeted(config, ctx, groups, kept, force, after.value) && out == View(groups, after)
          && Handed(ctx.aux, groups, SelectionOf(kept), Selection(after.value), SeedOf(kept), after.value.text))
  }

  /** What one call may do to its own run's cached summary. */
  ghost predicate Step(config: Config, ctx: Context, before: Option<CachedSummary>, messages: seq<Message>, force: bool,
                 r: Result<seq<Message>, CompactError>, after: Option<CachedSummary>)
    requires Sorted(before)
  {
    var groups := GroupsOf(messages);
    || (r.Err? && after == before)
    || (groups.Some? && Outcome(config, ctx, groups.value, Kept(ctx, groups.value, before), force, r, after))
  }

  /** The byte-based token estimate is in use. */
  ghost predicate PlainEstimates(ctx: Context) {
    PlainTextIsEscaped(ctx.wire) && forall messages :: ctx.anchor(messages).None?
  }

  // ----- What a call answers, and why -----

  /** Everything a call on grouped messages depends on, but for what other tasks do to it. */
  datatype Case = Case(config: Config, ctx: Context, groups: seq<Group>, cached: Option<CachedSummary>, force: bool) {
    predicate Valid() { Ascending(SelectionOf(cached), |groups|) && TokenBudget(ctx).Some? }

    function Previous(): seq<nat> { SelectionOf(cached) }

    function Seed(): string { SeedOf(cached) }

    function Current(): seq<Message>
      requires Valid()
    {
      View(groups, cached)
    }

    function Before(): nat
      requires Valid()
    {
      RequestBytes(ctx.wire, Current())
    }

    /** Room for the summary once everything else of the request is counted. */
    function Room(selected: seq<nat>): nat
      requires Valid()
    {
      SummaryBudget(PressureFor(config, ctx), Minimum(ctx, groups, selected), Before(), force, config.maxSummaryBytes)
    }

    /** A forced call with nothing new to fold in may only shorten the summary it has. */
    predicate Shortening(selected: seq<nat>) { force && cached.Some? && !AddsTo(selected, Previous()) }

    /** The budget the model is asked to meet. */
    function Budget(selected: seq<nat>): nat
      requires Valid()
    {
      if Shortening(selected) then Min(Room(selected), Escaped(Seed()) / 2) else Room(selected)
    }

    ghost predicate Chooses(c: Choice)
      requires Valid()
    {
      ChoiceIs(ctx, groups, Previous(), cached.Some?, config.recentGroups, force, PressureFor(config, ctx).target, c)
    }

    /** The requests the model was sent for a selection, and how they ended. */
    ghost predicate Asks(selected: seq<nat>, t: Trace, s: Result<string, SummaryError>)
      requires Valid() && Ascending(selected, |groups|)
    {
      var added := NewGroups(groups, Previous(), selected);
      && t.Valid(ctx.aux, ctx.limits, added, Seed(), Budget(selected)) && |t.requests| <= config.maxSummaryCalls
      && Ended(ctx.aux, ctx.limits, added, Seed(), Budget(selected), config.maxSummaryCalls, t, s)
    }

    /** The checks made on a finished handoff. */
    function Sized(selected: seq<nat>, summary: string): Result<Option<string>, CompactError>
      requires Valid()
    {
      var q := PressureFor(config, ctx);
      var projected := Projected(groups, Marks(|groups|, selected), summary);
      var after := RequestBytes(ctx.wire, projected);
      if after >= Before() then Err(DidNotShrink)
      else if after > EffectiveTarget(q, Minimum(ctx, groups, selected), Before(), force) then Err(MissedTarget)
      else if q.tokenTrigger.Some? && RequestTokens(ctx, projected) >= q.tokenTrigger.value then Err(AboveThreshold)
      else Ok(Some(summary))
    }

    /** What comes of a selection: a handoff, nothing to do, or the first thing that goes wrong. */
    ghost predicate Writes(selected: seq<nat>, w: Result<Option<string>, CompactError>)
      requires Valid() && Ascending(selected, |groups|)
    {
      if Room(selected) < 160 then w == Err(NoSummaryBudget)
      else if Budget(selected) == 0 then w == Ok(None)
      else exists t, s :: Asks(selected, t, s)
                          && w == match s case Err(e) => Err(SummaryFailed(e)) case Ok(text) => Sized(selected, text)
    }

    /** What the call makes of that; `crowded` is whether every cache slot belongs to another run. */
    function Finishes(selected: seq<nat>, w: Result<Option<string>, CompactError>, stops: Stops, crowded: bool)
      : Result<seq<Message>, CompactError>
      requires Valid()
    {
      match w
      case Err(e) => Err(e)
      case Ok(None) => Ok(Current())
      case Ok(Some(text)) =>
        var marks := Marks(|groups|, selected);
        if stops.after then Err(Stopped)
        else if Captured(CodecOf(ctx), groups, marks, text).None? then Err(CaptureFailed)
        else if stops.publishing then Err(Stopped)
        else if crowded then Err(CacheFull)
        else Ok(Projected(groups, marks, text))
    }

    /** The answer of a call that has to compact. */
    ghost predicate Answers(stops: Stops, crowded: bool, r: Result<seq<Message>, CompactError>)
      requires Valid()
    {
      exists c :: Chooses(c) && Resolves(c, stops, crowded, r)
    }

    ghost predicate Resolves(c: Choice, stops: Stops, crowded: bool, r: Result<seq<Message>, CompactError>)
      requires Valid()
    {
      match c
      case KeepCurrent => r == Ok(Current())
      case NothingSettled => r == Err(NothingToCompact)
      case Chosen(selected) =>
        Ascending(selected, |groups|)
        && exists w :: Writes(selected, w) && r == Finishes(selected, w, stops, crowded)
    }
  }

  /** The whole answer of `compact`, cause by cause. */
  ghost predicate Explained(config: Config, ctx: Context, before: Option<CachedSummary>, messages: seq<Message>,
                            force: bool, stops: Stops, crowded: bool, r: Result<seq<Message>, CompactError>)
    requires Sorted(before)
  {
    if stops.before then r == Err(Stopped)
    else if GroupsOf(messages).None? then r == Err(Unsettled)
    else if TokenBudget(ctx).None? then r == Err(WindowTooSmall)
    else
      var groups := GroupsOf(messages).value;
      var k := Case(config, ctx, groups, Kept(ctx, groups, before), force);
      if !force && !UnderPressure(PressureFor(config, ctx), k.Before(), RequestTokens(ctx, k.Current()))
        then r == Ok(k.Current())
      else k.Answers(stops, crowded, r)
  }

  /** Publishing stores selection, fingerprints and state together, unless the state cannot be captured, the run was
      cancelled, or every slot is taken by another run. */
  function Publication(config: Config, cache: map<string, CachedSummary>, ctx: Context, groups: seq<Group>,
                       selected: seq<nat>, summary: string, stopped: bool)
    : (map<string, CachedSummary>, Option<CompactError>)
    requires Ascending(selected, |groups|)
  {
    var state := Captured(CodecOf(ctx), groups, Marks(|groups|, selected), summary);
    if state.None? then (cache, Some(CaptureFailed))
    else if stopped then (cache, Some(Stopped))
    else if ctx.runId !in cache && |cache| >= config.maxCachedRuns then (cache, Some(CacheFull))
    else (cache[ctx.runId := CachedSummary(FingerprintsOf(ctx, groups, selected), summary, state.value)], None)
  }

  lemma PutOne<V>(m: map<string, V>, key: string, value: V)
    ensures m[key := value] - {key} == m - {key}
    ensures |m[key := value]| == |m| + if key in m then 0 else 1
  {
    assert m[key := value].Keys == m.Keys + {key};
    assert |m[key := value].Keys| == |m.Keys| + if key in m.Keys then 0 else 1;
  }

  lemma RemoveOne<V>(m: map<string, V>, key: string)
    ensures |m - {key}| == |m| - if key in m then 1 else 0
  {
    assert (m - {key}).Keys == m.Keys - {key};
    assert |m.Keys - {key}| == |m.Keys| - if key in m.Keys then 1 else 0;
  }

  class Compactor {
    const config: Config
    var cache: map<string, CachedSummary>

    ghost predicate Valid()
      reads this
    {
      config.Valid() && |cache| <= config.maxCachedRuns && forall run :: run in cache ==> Sorted(Some(cache[run]))
    }

    function Cached(run: string): Option<CachedSummary>
      reads this
    {
      if run in cache then Some(cache[run]) else None
    }

    constructor (config: Config)
      requires config.Valid()
      ensures Valid() && this.config == config && cache == map[]
    {
      this.config := config;
      cache := map[];
    }

    /** `new`: an invalid configuration is refused. */
    static method New(config: Config) returns (compactor: Compactor?)
      ensures compactor != null <==> config.Valid()
      ensures compactor != null ==>
              fresh(compactor) && compactor.Valid() && compactor.config == config && compactor.cache == map[]
    {
      if !config.Valid() { return null; }
      compactor := new Compactor(config);
    }

    /** `finish`. */
    method Finish(run: string)
      requires Valid()
      modifies this`cache
      ensures Valid() && cache == old(cache) - {run}
      ensures |cache| == |old(cache)| - if run in old(cache) then 1 else 0
    {
      RemoveOne(cache, run);
      cache := cache - {run};
    }

    method DropStale(ctx: Context, groups: seq<Group>) returns (kept: Option<CachedSummary>)
      requires Valid()
      modifies this`cache
      ensures Valid() && kept == Kept(ctx, groups, old(Cached(ctx.runId))) && Cached(ctx.runId) == kept
      ensures cache - {ctx.runId} == old(cache) - {ctx.runId}
      ensures Crowded(ctx.runId) == old(Crowded(ctx.runId))
    {
      kept := Cached(ctx.runId);
      if kept.Some? && !Fresh(ctx, groups, kept.value) {
        Finish(ctx.runId);
        kept := None;
      }
    }

    /** The view under the cached summary. */
    method CurrentView(groups: seq<Group>, cached: Option<CachedSummary>, messages: seq<Message>)
      returns (current: seq<Message>)
      requires Ascending(SelectionOf(cached), |groups|) && Flatten(groups) == messages
      ensures current == View(groups, cached)
    {
      if cached.None? { return messages; }
      current := ProjectGroups(groups, Selection(cached.value), cached.value.text);
    }

    /** Store a finished summary. */
    method Publish(ctx: Context, groups: seq<Group>, selected: seq<nat>, summary: string, stopped: bool)
      returns (error: Option<CompactError>)
      requires Valid() && selected != [] && Ascending(selected, |groups|)
               && Len(summary) <= SavedState.MAX_SUMMARY_BYTES
      modifies this`cache
      ensures Valid() && cache - {ctx.runId} == old(cache) - {ctx.runId}
      ensures (cache, error) == Publication(config, old(cache), ctx, groups, selected, summary, stopped)
      ensures error.None? ==> Cached(ctx.runId).Some? && Selection(cache[ctx.runId]) == selected
                              && cache[ctx.runId].text == summary && Records(ctx, groups, cache[ctx.runId])
    {
      hide Captured, Records, FingerprintsOf, Selection;
      var state := Capture(CodecOf(ctx), groups, selected, summary);
      if state.None? { return Some(CaptureFailed); }
      if stopped { return Some(Stopped); }
      if ctx.runId !in cache && |cache| >= config.maxCachedRuns { return Some(CacheFull); }
      var entry := CachedSummary(FingerprintsOf(ctx, groups, selected), summary, state.value);
      EntryRecords(ctx, groups, selected, entry);
      PutOne(cache, ctx.runId, entry);
      cache := cache[ctx.runId := entry];
      error := None;
    }

    /** From the chosen groups to a finished handoff, checked against every size limit; `None` when a forced call
        has nothing new to fold in and no room to shorten what it has. */
    method WriteSummary(ctx: Context, groups: seq<Group>, cached: Option<CachedSummary>, selected: seq<nat>,
                        before: nat, force: bool)
      returns (r: Result<Option<string>, CompactError>, projected: seq<Message>)
      requires Valid() && Lawful(ctx.aux.json) && selected != [] && Ascending(selected, |groups|)
      requires Case(config, ctx, groups, cached, force).Valid()
               && before == Case(config, ctx, groups, cached, force).Before()
      ensures Case(config, ctx, groups, cached, force).Writes(selected, r)
      ensures r.Ok? && r.value.None? ==>
                force && !AddsTo(selected, SelectionOf(cached)) && cached.Some? && Escaped(cached.value.text) < 2
      ensures r.Ok? && r.value.Some? ==>
                Len(r.value.value) <= SavedState.MAX_SUMMARY_BYTES
                && projected == Projected(groups, Marks(|groups|, selected), r.value.value)
                && MeetsBudget(PressureFor(config, ctx), Minimum(ctx, groups, selected), before, force,
                               RequestBytes(ctx.wire, projected), RequestTokens(ctx, projected))
      ensures r.Ok? && r.value.Some? && force && cached.Some? && !AddsTo(selected, SelectionOf(cached)) ==>
                2 * Escaped(r.value.value) <= Escaped(cached.value.text)
      ensures r.Ok? && r.value.Some? ==>
                Handed(ctx.aux, groups, SelectionOf(cached), selected, SeedOf(cached), r.value.value)
      ensures (r.Err? && PlainEstimates(ctx)
               && (force || UnderPressure(PressureFor(config, ctx), before, EstimatedTokens(before))))
              ==> r.error !in {DidNotShrink, MissedTarget, AboveThreshold}
      ensures r.Err? ==> r.error.NoSummaryBudget? || r.error.SummaryFailed?
                         || r.error in {DidNotShrink, MissedTarget, AboveThreshold}
    {
      hide Projected, RequestBytes, EffectiveTarget, PressureOf, View, Ended;
      projected := [];
      ghost var k := Case(config, ctx, groups, cached, force);
      var q := PressureFor(config, ctx);
      var minimum := Minimum(ctx, groups, selected);
      var summaryBudget := SummaryBudget(q, minimum, before, force, config.maxSummaryBytes);
      if summaryBudget < 160 { return Err(NoSummaryBudget), projected; }
      var added := NewGroups(groups, SelectionOf(cached), selected);
      if force && added == [] && cached.Some? {
        summaryBudget := Min(summaryBudget, Escaped(cached.value.text) / 2);
        if summaryBudget == 0 { return Ok(None), projected; }
      }
      var seed := SeedOf(cached);
      var summary, trace := Summarize(ctx.aux, ctx.limits, seed, added, config.maxSummaryCalls, summaryBudget);
      assert k.Asks(selected, trace, summary);
      if summary.Err? { return Err(SummaryFailed(summary.error)), projected; }
      HandoffIsPublishable(ctx.aux, ctx.limits, added, seed, summaryBudget, config.maxSummaryCalls, trace,
                           summary.value);
      EscapingNeverShrinks(summary.value);
      TraceHandsOver(ctx.aux, ctx.limits, groups, SelectionOf(cached), selected, seed, summaryBudget,
                     config.maxSummaryCalls, trace, summary.value);
      projected := ProjectGroups(groups, selected, summary.value);
      var after := RequestBytes(ctx.wire, projected);
      if PlainEstimates(ctx) && (force || UnderPressure(q, before, EstimatedTokens(before))) {
        SummaryWithinBudgetMeetsIt(config, ctx, groups, selected, summary.value, before, force);
      }
      if after >= before { return Err(DidNotShrink), projected; }
      if after > EffectiveTarget(q, minimum, before, force) { return Err(MissedTarget), projected; }
      if q.tokenTrigger.Some? && RequestTokens(ctx, projected) >= q.tokenTrigger.value {
        return Err(AboveThreshold), projected;
      }
      r := Ok(Some(summary.value));
    }

    /** Whether the call's run has no slot and there is none left. */
    predicate Crowded(run: string)
      reads this
    {
      run !in cache && |cache| >= config.maxCachedRuns
    }

    /** `compact` once the request is known to need it. */
    method Replace(ctx: Context, groups: seq<Group>, cached: Option<CachedSummary>, current: seq<Message>, force: bool,
                   stops: Stops)
      returns (r: Result<seq<Message>, CompactError>)
      requires Valid() && Lawful(ctx.aux.json) && TokenBudget(ctx).Some?
      requires cached == Cached(ctx.runId) && Ascending(SelectionOf(cached), |groups|)
               && current == View(groups, cached)
      requires force || UnderPressure(PressureFor(config, ctx), RequestBytes(ctx.wire, current),
                                      RequestTokens(ctx, current))
      modifies this`cache
      ensures Valid() && cache - {ctx.runId} == old(cache) - {ctx.runId}
      ensures Outcome(config, ctx, groups, cached, force, r, Cached(ctx.runId))
      ensures Case(config, ctx, groups, cached, force).Answers(stops, old(Crowded(ctx.runId)), r)
      ensures r.Err? && PlainEstimates(ctx) ==> r.error !in {DidNotShrink, MissedTarget, AboveThreshold}
    {
      hide Captured, Projected, RequestBytes, Minimum, Records, ChoiceIs, UnderPressure, EffectiveTarget, PressureOf,
           MeetsBudget, Select, Case.Writes, Case.Finishes;
      ghost var k, crowded := Case(config, ctx, groups, cached, force), Crowded(ctx.runId);
      var previous, before := SelectionOf(cached), RequestBytes(ctx.wire, current);
      var target := PressureFor(config, ctx).target;
      var choice := ChooseGroups(ctx, groups, previous, cached.Some?, config.recentGroups, force, target);
      assert k.Chooses(choice);
      ChoiceGrows(ctx, groups, previous, cached.Some?, config.recentGroups, force, target, choice);
      if choice.KeepCurrent? {
        assert k.Resolves(choice, stops, crowded, Ok(current));
        return Ok(current);
      }
      if choice.NothingSettled? {
        assert k.Resolves(choice, stops, crowded, Err(NothingToCompact));
        return Err(NothingToCompact);
      }
      var selected := choice.selected;
      var summary, projected := WriteSummary(ctx, groups, cached, selected, before, force);
      r := Settle(ctx, groups, cached, selected, summary, projected, force, stops);
      assert k.Resolves(choice, stops, crowded, r);
    }

    /** The last part of `compact`: the handoff is published, or the reason it is not is passed on. */
    method Settle(ctx: Context, groups: seq<Group>, cached: Option<CachedSummary>, selected: seq<nat>,
                  w: Result<Option<string>, CompactError>, projected: seq<Message>, force: bool, stops: Stops)
      returns (r: Result<seq<Message>, CompactError>)
      requires Valid() && TokenBudget(ctx).Some? && cached == Cached(ctx.runId)
               && Ascending(SelectionOf(cached), |groups|)
      requires Grows(groups, SelectionOf(cached), selected)
      requires w.Ok? && w.value.None? ==> NothingToDo(config, ctx, groups, cached, force)
      requires w.Ok? && w.value.Some? ==>
                 Handed(ctx.aux, groups, SelectionOf(cached), selected, SeedOf(cached), w.value.value)
      requires w.Ok? && w.value.Some? ==>
                 Len(w.value.value) <= SavedState.MAX_SUMMARY_BYTES
                 && projected == Projected(groups, Marks(|groups|, selected), w.value.value)
                 && MeetsBudget(PressureFor(config, ctx), Minimum(ctx, groups, selected),
                                Case(config, ctx, groups, cached, force).Before(), force,
                                RequestBytes(ctx.wire, projected), RequestTokens(ctx, projected))
      modifies this`cache
      ensures Valid() && cache - {ctx.runId} == old(cache) - {ctx.runId}
      ensures Outcome(config, ctx, groups, cached, force, r, Cached(ctx.runId))
      ensures r == Case(config, ctx, groups, cached, force).Finishes(selected, w, stops, old(Crowded(ctx.runId)))
      ensures r.Err? ==> w == Err(r.error) || r.error in {Stopped, CaptureFailed, CacheFull}
    {
      hide Captured, Projected, RequestBytes, Minimum, Records, PressureOf, MeetsBudget, NothingToDo, Grows;
      match w {
        case Err(e) => return Err(e);
        case Ok(None) =>
          var current := CurrentView(groups, cached, Flatten(groups));
          return Ok(current);
        case Ok(Some(text)) =>
          if stops.after { return Err(Stopped); }
          GrowsIsNonempty(groups, SelectionOf(cached), selected);
          var error := Publish(ctx, groups, selected, text, stops.publishing);
          if error.Some? { return Err(error.value); }
          r := Ok(projected);
      }
    }

    /** `compact`. */
    method Compact(ctx: Context, messages: seq<Message>, force: bool, stops: Stops)
      returns (r: Result<seq<Message>, CompactError>)
      requires Valid() && Lawful(ctx.aux.json)
      modifies this`cache
      ensures Valid() && cache - {ctx.runId} == old(cache) - {ctx.runId}
      ensures Step(config, ctx, old(Cached(ctx.runId)), messages, force, r, Cached(ctx.runId))
      ensures Explained(config, ctx, old(Cached(ctx.runId)), messages, force, stops, old(Crowded(ctx.runId)), r)
      ensures r.Err? && PlainEstimates(ctx) ==> r.error !in {DidNotShrink, MissedTarget, AboveThreshold}
    {
      hide UnderPressure, PressureOf, RequestBytes, Projected, Records, Grows, Budgeted, Case.Answers;
      if stops.before { return Err(Stopped); }
      var groups := GroupMessages(messages);
      if groups.None? { return Err(Unsettled); }
      var cached := DropStale(ctx, groups.value);
      var current := CurrentView(groups.value, cached, messages);
      if TokenBudget(ctx).None? { return Err(WindowTooSmall); }
      if !force
        && !UnderPressure(PressureFor(config, ctx), RequestBytes(ctx.wire, current), RequestTokens(ctx, current)) {
        return Ok(current);
      }
      r := Replace(ctx, groups.value, cached, current, force, stops);
    }

    /** `recover_context`: a forced compaction counts only when it made the history smaller; what it did to the cache
        stands either way. */
    method RecoverContext(ctx: Context, messages: seq<Message>, stops: Stops)
      returns (r: Result<Option<seq<Message>>, CompactError>)
      requires Valid() && Lawful(ctx.aux.json)
      modifies this`cache
      ensures Valid() && cache - {ctx.runId} == old(cache) - {ctx.runId}
      ensures exists compacted ::
                && Step(config, ctx, old(Cached(ctx.runId)), messages, true, compacted, Cached(ctx.runId))
                && Explained(config, ctx, old(Cached(ctx.runId)), messages, true, stops, old(Crowded(ctx.runId)),
                             compacted)
                && r == Recovered(ctx, messages, compacted)
                && (r.Err? <==> compacted.Err?) && (r.Err? ==> r.error == compacted.error)
                && (r == Ok(None) <==> compacted.Ok? && SerializedBytes(ctx.wire, compacted.value)
                                                        >= SerializedBytes(ctx.wire, messages))
                && (r.Ok? && r.value.Some? ==> compacted == Ok(r.value.value))
    {
      hide Step, Explained;
      var compacted := Compact(ctx, messages, true, stops);
      if compacted.Err? { return Err(compacted.error); }
      r := Ok(if SerializedBytes(ctx.wire, compacted.value) < SerializedBytes(ctx.wire, messages)
              then Some(compacted.value) else None);
    }
  }

  /** What a forced compaction is worth to recovery. */
  function Recovered(ctx: Context, messages: seq<Message>, r: Result<seq<Message>, CompactError>)
    : Result<Option<seq<Message>>, CompactError>
  {
    match r
    case Err(e) => Err(e)
    case Ok(out) => Ok(if SerializedBytes(ctx.wire, out) < SerializedBytes(ctx.wire, messages) then Some(out) else None)
  }

  lemma GrowsIsNonempty(groups: seq<Group>, previous: seq<nat>, selected: seq<nat>)
    requires Grows(groups, previous, selected)
    ensures selected != [] && Ascending(selected, |groups|)
  {
  }

  lemma ChoiceGrows(ctx: Context, groups: seq<Group>, previous: seq<nat>, cached: bool, recent: nat, force: bool,
                    target: nat, c: Choice)
    requires ChoiceIs(ctx, groups, previous, cached, recent, force, target, c) && Ascending(previous, |groups|)
    ensures c.Chosen? ==> Grows(groups, previous, c.selected)
    ensures c.KeepCurrent? ==> force && !cached && !Eligibles(groups, previous)
    ensures c.Chosen? && force && !AddsTo(c.selected, previous) ==> cached && !Eligibles(groups, previous)
  {
    hide Settles, Eligible, Minimum;
    var last := Select(groups, previous, 1, |groups|);
    if Eligibles(groups, previous) {
      var i :| 0 <= i < |groups| - 1 && i !in previous && Eligible(groups, i);
      assert i in last;
      assert AddsTo(last, previous);
    }
    if c.Chosen? && force && !AddsTo(c.selected, previous) {
      NotAddingIsLast(ctx, groups, previous, cached, recent, target, c);
    }
  }

  lemma NotAddingIsLast(ctx: Context, groups: seq<Group>, previous: seq<nat>, cached: bool, recent: nat, target: nat,
                        c: Choice)
    requires ChoiceIs(ctx, groups, previous, cached, recent, true, target, c) && c.Chosen?
             && !AddsTo(c.selected, previous)
    ensures cached && c.selected == Select(groups, previous, 1, |groups|)
  {
  }

  /** With the byte-based estimate, a handoff within its budget cannot fail the checks made on the projection. */
  lemma SummaryWithinBudgetMeetsIt(config: Config, ctx: Context, groups: seq<Group>, selected: seq<nat>,
                                   summary: string, before: nat, force: bool)
    requires PlainEstimates(ctx) && TokenBudget(ctx).Some? && selected != [] && Ascending(selected, |groups|)
    requires var q := PressureFor(config, ctx);
      && (force || UnderPressure(q, before, EstimatedTokens(before)))
      && Escaped(summary) <= SummaryBudget(q, Minimum(ctx, groups, selected), before, force, config.maxSummaryBytes)
      && 0 < SummaryBudget(q, Minimum(ctx, groups, selected), before, force, config.maxSummaryBytes)
    ensures var projected := Projected(groups, Marks(|groups|, selected), summary);
      MeetsBudget(PressureFor(config, ctx), Minimum(ctx, groups, selected), before, force,
                  RequestBytes(ctx.wire, projected), RequestTokens(ctx, projected))
  {
    var marks := Marks(|groups|, selected);
    assert marks[selected[0]];
    SummaryCostsItsEscapedLength(ctx.wire, groups, marks, summary);
    BudgetSuffices(PressureFor(config, ctx), Minimum(ctx, groups, selected), before, force, config.maxSummaryBytes,
                   Escaped(summary), RequestBytes(ctx.wire, Projected(groups, marks, summary)));
  }

  // ----- One answer -----

  /** At most one choice is right. */
  lemma ChoiceIsDetermined(ctx: Context, groups: seq<Group>, previous: seq<nat>, cached: bool, recent: nat, force: bool,
                           target: nat, c: Choice, d: Choice)
    requires ChoiceIs(ctx, groups, previous, cached, recent, force, target, c)
    requires ChoiceIs(ctx, groups, previous, cached, recent, force, target, d)
    ensures c == d
  {
    hide Settles;
    var last := Select(groups, previous, 1, |groups|);
    if c.Chosen? { ChosenIsInLast(ctx, groups, previous, cached, recent, force, target, c); }
    if d.Chosen? { ChosenIsInLast(ctx, groups, previous, cached, recent, force, target, d); }
    if c.Chosen? && d.Chosen? {
      var most := Max(Min(recent, |groups|), 1);
      var x :| 1 <= x <= most && KeepsMost(ctx, groups, previous, x, most, force, target, c.selected);
      var y :| 1 <= y <= most && KeepsMost(ctx, groups, previous, y, most, force, target, d.selected);
      assert x == y;
    }
  }

  lemma ChosenIsInLast(ctx: Context, groups: seq<Group>, previous: seq<nat>, cached: bool, recent: nat, force: bool,
                       target: nat, c: Choice)
    requires ChoiceIs(ctx, groups, previous, cached, recent, force, target, c) && c.Chosen?
    ensures Select(groups, previous, 1, |groups|) != [] && Ascending(c.selected, |groups|)
  {
    hide Settles;
    assert c.selected[0] in c.selected;
    assert c.selected[0] in Select(groups, previous, 1, |groups|);
  }

  lemma WritesOneThing(k: Case, selected: seq<nat>, v: Result<Option<string>, CompactError>,
                       w: Result<Option<string>, CompactError>)
    requires k.Valid() && Ascending(selected, |k.groups|) && k.Writes(selected, v) && k.Writes(selected, w)
    ensures v == w
  {
    hide Case.Room, Case.Budget, Case.Sized, Ended;
    if k.Room(selected) >= 160 && k.Budget(selected) != 0 {
      var t, s :| k.Asks(selected, t, s)
        && v == match s case Err(e) => Err(SummaryFailed(e)) case Ok(text) => k.Sized(selected, text);
      var u, q :| k.Asks(selected, u, q)
        && w == match q case Err(e) => Err(SummaryFailed(e)) case Ok(text) => k.Sized(selected, text);
      SummaryIsDetermined(k.ctx.aux, k.ctx.limits, NewGroups(k.groups, k.Previous(), selected), k.Seed(),
                          k.Budget(selected), k.config.maxSummaryCalls, t, s, u, q);
    }
  }

  lemma AnswersOneThing(k: Case, stops: Stops, crowded: bool, r: Result<seq<Message>, CompactError>,
                        q: Result<seq<Message>, CompactError>)
    requires k.Valid() && k.Answers(stops, crowded, r) && k.Answers(stops, crowded, q)
    ensures r == q
  {
    hide Case.Writes, Case.Finishes, Case.Current, ChoiceIs;
    var c :| k.Chooses(c) && k.Resolves(c, stops, crowded, r);
    var d :| k.Chooses(d) && k.Resolves(d, stops, crowded, q);
    ChoiceIsDetermined(k.ctx, k.groups, k.Previous(), k.cached.Some?, k.config.recentGroups, k.force,
                       PressureFor(k.config, k.ctx).target, c, d);
    if c.Chosen? {
      var v :| k.Writes(c.selected, v) && r == k.Finishes(c.selected, v, stops, crowded);
      var w :| k.Writes(c.selected, w) && q == k.Finishes(c.selected, w, stops, crowded);
      WritesOneThing(k, c.selected, v, w);
    }
  }

  /** The answer of a call is determined by its inputs: every error has its cause, and without one the call succeeds. */
  lemma ExplanationIsUnique(config: Config, ctx: Context, before: Option<CachedSummary>, messages: seq<Message>,
                            force: bool, stops: Stops, crowded: bool, r: Result<seq<Message>, CompactError>,
                            q: Result<seq<Message>, CompactError>)
    requires Sorted(before)
    requires Explained(config, ctx, before, messages, force, stops, crowded, r)
    requires Explained(config, ctx, before, messages, force, stops, crowded, q)
    ensures r == q
  {
    hide Case.Answers, Case.Current, Case.Before, UnderPressure, PressureOf;
    if !stops.before && GroupsOf(messages).Some? && TokenBudget(ctx).Some? {
      var groups := GroupsOf(messages).value;
      var k := Case(config, ctx, groups, Kept(ctx, groups, before), force);
      if force || UnderPressure(PressureFor(config, ctx), k.Before(), RequestTokens(ctx, k.Current())) {
        AnswersOneThing(k, stops, crowded, r, q);
      }
    }
  }
}
