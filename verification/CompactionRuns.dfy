/** A whole run of compactions over a growing history: what is never summarized, and that the saved state always
    reproduces what the model saw. */
module CompactionRuns {
  import opened Text
  import opened Messages
  import opened Grouping
  import opened Projection
  import opened SavedState
  import opened Sizing
  import opened Summaries
  import opened Handover
  import opened Compaction

  // ----- Histories that grow -----

  lemma HeadGroup(g: Group, rest: seq<Message>)
    requires IsGroup(g)
    ensures GroupsOf(g + rest) == if GroupsOf(rest).None? then None else Some([g] + GroupsOf(rest).value)
  {
    FirstGroupIs(g, rest);
    assert (g + rest)[..|g|] == g && (g + rest)[|g|..] == rest;
  }

  /** When a history and an extension of it both group, the extension only appends groups. */
  lemma {:induction false} GroupsGrow(a: seq<Message>, b: seq<Message>)
    requires GroupsOf(a).Some? && GroupsOf(a + b).Some?
    ensures GroupsOf(b).Some? && GroupsOf(a + b).value == GroupsOf(a).value + GroupsOf(b).value
    decreases |a|
  {
    if a == [] {
      assert a + b == b && [] + GroupsOf(b).value == GroupsOf(b).value;
    } else {
      var n := FirstGroup(a);
      GroupsGrowStep(a[..n], a[n..], b, a);
      GroupsGrow(a[n..], b);
    }
  }

  lemma GroupsGrowStep(g: Group, rest: seq<Message>, b: seq<Message>, a: seq<Message>)
    requires IsGroup(g) && a == g + rest
    ensures GroupsOf(a) == if GroupsOf(rest).None? then None else Some([g] + GroupsOf(rest).value)
    ensures GroupsOf(a + b) == if GroupsOf(rest + b).None? then None else Some([g] + GroupsOf(rest + b).value)
    ensures GroupsOf(rest).Some? && GroupsOf(b).Some? ==>
              [g] + (GroupsOf(rest).value + GroupsOf(b).value) == [g] + GroupsOf(rest).value + GroupsOf(b).value
  {
    hide GroupsOf, IsGroup;
    HeadGroup(g, rest);
    Assoc(g, rest, b);
    HeadGroup(g, rest + b);
    if GroupsOf(rest).Some? && GroupsOf(b).Some? { Assoc([g], GroupsOf(rest).value, GroupsOf(b).value); }
  }

  /** A group that may be summarized stays so: the latest user request only moves forward. */
  lemma EligibleGrows(g: seq<Group>, h: seq<Group>, i: nat)
    requires Eligible(g, i)
    ensures Eligible(g + h, i)
  {
    assert (g + h)[i] == g[i];
    if LatestUser(g).Some? { assert (g + h)[LatestUser(g).value] == g[LatestUser(g).value]; }
  }

  /** Only settled text before the last group is ever summarized: no System message, no media or opaque provider
      data, never the latest user request. */
  predicate Protected(groups: seq<Group>, selected: seq<nat>) {
    && selected != [] && Ascending(selected, |groups|)
    && (forall i :: i in selected ==> i + 1 < |groups| && Eligible(groups, i))
  }

  lemma ProtectedGrows(g: seq<Group>, h: seq<Group>, selected: seq<nat>)
    requires Protected(g, selected)
    ensures Protected(g + h, selected)
  {
    forall i | i in selected ensures Eligible(g + h, i) { EligibleGrows(g, h, i); }
  }

  // ----- Runs -----

  /** One call for a run: its input, its result, and the run's cached summary afterwards. */
  datatype Turn = Turn(ctx: Context, messages: seq<Message>, force: bool, result: Result<seq<Message>, CompactError>,
                       entry: Option<CachedSummary>)

  /** Limits, models and sizes may change between calls; how messages are hashed and handoffs parsed may not. */
  ghost predicate SameHost(a: Context, b: Context) {
    a.fingerprint == b.fingerprint && a.sha256 == b.sha256 && a.aux.json == b.aux.json
  }

  function Before(turns: seq<Turn>, i: nat): Option<CachedSummary>
    requires i < |turns|
  {
    if i == 0 then None else turns[i - 1].entry
  }

  ghost predicate Follows(config: Config, turns: seq<Turn>, i: nat)
    requires i < |turns|
  {
    && Sorted(Before(turns, i)) && Sorted(turns[i].entry)
    && Step(config, turns[i].ctx, Before(turns, i), turns[i].messages, turns[i].force, turns[i].result, turns[i].entry)
    && (i > 0 ==> turns[i - 1].messages <= turns[i].messages && SameHost(turns[i - 1].ctx, turns[i].ctx))
  }

  ghost predicate IsRun(config: Config, turns: seq<Turn>) {
    forall i :: 0 <= i < |turns| ==> Follows(config, turns, i)
  }

  /** A summary as it was published for history `m`. */
  predicate Settled(ctx: Context, m: seq<Message>, entry: CachedSummary) {
    GroupsOf(m).Some? && Protected(GroupsOf(m).value, Selection(entry)) && Records(ctx, GroupsOf(m).value, entry)
  }

  /** The summary was published for a prefix of `messages`. */
  ghost predicate Holds(ctx: Context, messages: seq<Message>, entry: Option<CachedSummary>) {
    entry.Some? ==> exists m :: m <= messages && Settled(ctx, m, entry.value)
  }

  lemma HoldsLater(a: Context, b: Context, messages: seq<Message>, more: seq<Message>, entry: Option<CachedSummary>)
    requires Holds(a, messages, entry) && SameHost(a, b) && messages <= more
    ensures Holds(b, more, entry)
  {
    if entry.Some? {
      var m :| m <= messages && Settled(a, m, entry.value);
      assert CodecOf(a) == CodecOf(b) by { SameCodec(a, b); }
      assert Settled(b, m, entry.value);
      assert m <= more by { assert more[..|m|] == messages[..|m|]; }
    }
  }

  lemma SameCodec(a: Context, b: Context)
    requires SameHost(a, b)
    ensures CodecOf(a) == CodecOf(b)
  {
  }

  /** A published summary stays fresh and protected under every grouped extension of its history. */
  lemma StaysFresh(ctx: Context, messages: seq<Message>, entry: CachedSummary)
    requires GroupsOf(messages).Some? && Holds(ctx, messages, Some(entry))
    ensures Protected(GroupsOf(messages).value, Selection(entry)) && Fresh(ctx, GroupsOf(messages).value, entry)
  {
    hide Captured, GroupsOf;
    var m :| m <= messages && Settled(ctx, m, entry);
    var tail := messages[|m|..];
    assert messages == m + tail;
    GroupsGrow(m, tail);
    FreshGrows(ctx, GroupsOf(m).value, GroupsOf(tail).value, entry);
  }

  lemma FreshGrows(ctx: Context, g: seq<Group>, h: seq<Group>, entry: CachedSummary)
    requires Protected(g, Selection(entry)) && Fresh(ctx, g, entry)
    ensures Protected(g + h, Selection(entry)) && Fresh(ctx, g + h, entry)
  {
    hide Eligible;
    ProtectedGrows(g, h, Selection(entry));
    forall k | 0 <= k < |entry.fingerprints|
      ensures entry.fingerprints[k].index < |g + h|
              && ctx.fingerprint((g + h)[entry.fingerprints[k].index]) == entry.fingerprints[k].hash
    {
      assert Selection(entry)[k] < |g|;
      assert (g + h)[Selection(entry)[k]] == g[Selection(entry)[k]];
    }
  }

  // ----- Every step keeps it -----

  lemma StepHolds(config: Config, ctx: Context, before: Option<CachedSummary>, messages: seq<Message>, force: bool,
                  r: Result<seq<Message>, CompactError>, after: Option<CachedSummary>)
    requires Sorted(before) && Step(config, ctx, before, messages, force, r, after) && Holds(ctx, messages, before)
    ensures Holds(ctx, messages, after)
    ensures before.Some? ==> after.Some? && forall i :: i in Selection(before.value) ==> i in Selection(after.value)
    ensures r.Ok? ==> GroupsOf(messages).Some? && Ascending(SelectionOf(after), |GroupsOf(messages).value|)
                      && r.value == View(GroupsOf(messages).value, after)
  {
    hide Captured, Budgeted, NothingToDo, View;
    if r.Err? && after == before {
    } else {
      var groups := GroupsOf(messages).value;
      if before.Some? { StaysFresh(ctx, messages, before.value); }
      assert Kept(ctx, groups, before) == before;
      if after != before { Published(config, ctx, before, messages, force, r, after); }
    }
  }

  lemma Published(config: Config, ctx: Context, before: Option<CachedSummary>, messages: seq<Message>, force: bool,
                  r: Result<seq<Message>, CompactError>, after: Option<CachedSummary>)
    requires GroupsOf(messages).Some? && Sorted(before)
    requires before.Some? ==> Protected(GroupsOf(messages).value, Selection(before.value))
    requires Ascending(SelectionOf(before), |GroupsOf(messages).value|) && after != before
    requires Outcome(config, ctx, GroupsOf(messages).value, before, force, r, after)
    ensures after.Some? && Settled(ctx, messages, after.value) && r == Ok(View(GroupsOf(messages).value, after))
    ensures before.Some? ==> forall i :: i in Selection(before.value) ==> i in Selection(after.value)
  {
    hide Captured, Budgeted, NothingToDo, View;
    var groups, selected := GroupsOf(messages).value, Selection(after.value);
    forall i | i in selected ensures i + 1 < |groups| && Eligible(groups, i) {
      assert i in SelectionOf(before) || (i + 1 < |groups| && Eligible(groups, i));
    }
  }

  lemma {:induction false} RunHolds(config: Config, turns: seq<Turn>, i: nat)
    requires IsRun(config, turns) && i < |turns|
    ensures Holds(turns[i].ctx, turns[i].messages, Before(turns, i))
    ensures Holds(turns[i].ctx, turns[i].messages, turns[i].entry)
    decreases i
  {
    hide Step;
    var t := turns[i];
    assert Follows(config, turns, i);
    if i > 0 {
      RunHolds(config, turns, i - 1);
      HoldsLater(turns[i - 1].ctx, t.ctx, turns[i - 1].messages, t.messages, turns[i - 1].entry);
    }
    StepHolds(config, t.ctx, Before(turns, i), t.messages, t.force, t.result, t.entry);
  }

  // ----- Main results -----

  /** Once summarized, always summarized: along a run the selection only grows. */
  lemma {:induction false} SelectionOnlyGrows(config: Config, turns: seq<Turn>, i: nat, j: nat)
    requires IsRun(config, turns) && i <= j < |turns| && turns[i].entry.Some?
    ensures turns[j].entry.Some?
    ensures forall x :: x in Selection(turns[i].entry.value) ==> x in Selection(turns[j].entry.value)
    decreases j
  {
    hide Step;
    if i < j {
      SelectionOnlyGrows(config, turns, i, j - 1);
      assert Follows(config, turns, j);
      RunHolds(config, turns, j);
      StepHolds(config, turns[j].ctx, Before(turns, j), turns[j].messages, turns[j].force, turns[j].result,
                turns[j].entry);
    }
  }

  /** Every successful call returns the history with, at most, its summarized groups replaced by one summary in the
      place of the first; everything else stays verbatim and in order, and an accepted history stays accepted. */
  lemma OutputKeepsTheRest(config: Config, turns: seq<Turn>, i: nat)
    requires IsRun(config, turns) && i < |turns| && turns[i].result.Ok?
    ensures GroupsOf(turns[i].messages).Some?
    ensures turns[i].entry.None? ==> turns[i].result.value == turns[i].messages
    ensures turns[i].entry.Some? ==>
              var (groups, selected) := (GroupsOf(turns[i].messages).value, Selection(turns[i].entry.value));
              && Protected(groups, selected)
              && var (first, marks) := (selected[0], Marks(|groups|, selected));
              turns[i].result.value
                == Flatten(groups[..first]) + [SummaryMessage(turns[i].entry.value.text, Marked(groups, marks))]
                                       + Flatten(Marked(groups[first + 1..], Complement(marks[first + 1..])))
    ensures WellPaired(turns[i].messages) ==> WellPaired(turns[i].result.value)
  {
    hide Step, SummaryMessage, WellPaired, GroupsOf, Holds, Protected, Fresh, Complement;
    var t := turns[i];
    RunHolds(config, turns, i);
    assert Follows(config, turns, i);
    StepHolds(config, t.ctx, Before(turns, i), t.messages, t.force, t.result, t.entry);
    if t.entry.Some? {
      StaysFresh(t.ctx, t.messages, t.entry.value);
      ViewIs(GroupsOf(t.messages).value, t.entry.value);
    }
  }

  /** The view under a protected summary. */
  lemma ViewIs(groups: seq<Group>, entry: CachedSummary)
    requires Protected(groups, Selection(entry)) && AllGroups(groups)
    ensures var (selected, view) := (Selection(entry), View(groups, Some(entry)));
      && selected != [] && selected[0] < |groups|
      && var (first, marks) := (selected[0], Marks(|groups|, selected));
      && view == Flatten(groups[..first]) + [SummaryMessage(entry.text, Marked(groups, marks))]
                 + Flatten(Marked(groups[first + 1..], Complement(marks[first + 1..])))
      && (WellPaired(Flatten(groups)) ==> WellPaired(view))
  {
    hide SummaryMessage, WellPaired, Complement, Eligible, AllGroups;
    var selected := Selection(entry);
    var marks := Marks(|groups|, selected);
    FirstMark(|groups|, selected, selected[0]);
    SummaryTakesFirstPlace(groups, marks, entry.text, selected[0]);
    if WellPaired(Flatten(groups)) { ProjectionStaysPaired(groups, marks, entry.text); }
  }

  lemma {:induction false} SystemFreeTwice(messages: seq<Message>)
    ensures SystemFree(SystemFree(messages)) == SystemFree(messages)
  {
    SystemFreeHasNone(messages);
    NothingToFilter(SystemFree(messages));
  }

  /** What a summary shows of an extended history is what it showed of its own, with the new messages behind it. */
  lemma ViewGrows(g: seq<Group>, h: seq<Group>, entry: CachedSummary)
    requires Protected(g, Selection(entry))
    ensures Protected(g + h, Selection(entry)) && View(g + h, Some(entry)) == View(g, Some(entry)) + Flatten(h)
  {
    hide SummaryMessage;
    var selected := Selection(entry);
    ProtectedGrows(g, h, selected);
    var none := seq(|h|, i => false);
    var marks := Marks(|g|, selected);
    assert Marks(|g + h|, selected) == marks + none;
    MarkedConcat(g, marks, h, none);
    var message := SummaryMessage(entry.text, Marked(g, marks));
    ProjectConcat(g, marks, h, none, message, false);
    NothingMarked(h, none, message, true);
    assert marks[selected[0]];
    assert Marked(g, marks) + [] == Marked(g, marks);
  }

  lemma ProtectedIsSafe(groups: seq<Group>, selected: seq<nat>)
    requires Protected(groups, selected)
    ensures MarksOnlySafe(groups, Marks(|groups|, selected)) && true in Marks(|groups|, selected)
  {
    assert Marks(|groups|, selected)[selected[0]];
  }

  /** Whenever a run holds a summary, replaying its saved state on the history without System messages gives exactly
      what the model sees, without System messages. */
  lemma SavedStateReproducesView(config: Config, turns: seq<Turn>, i: nat)
    requires IsRun(config, turns) && i < |turns| && turns[i].entry.Some? && GroupsOf(turns[i].messages).Some?
    ensures Ascending(Selection(turns[i].entry.value), |GroupsOf(turns[i].messages).value|)
    ensures Replayed(CodecOf(turns[i].ctx), turns[i].entry.value.state, SystemFree(turns[i].messages))
         == Some(SystemFree(View(GroupsOf(turns[i].messages).value, turns[i].entry)))
  {
    hide Replayed, Captured, View, Records, Eligible, GroupsOf, SystemFree;
    var t := turns[i];
    var entry := t.entry.value;
    RunHolds(config, turns, i);
    StaysFresh(t.ctx, t.messages, entry);
    var m :| m <= t.messages && Settled(t.ctx, m, entry);
    ReplayOfExtension(t.ctx, m, t.messages[|m|..], t.messages, entry);
  }

  lemma ReplayOfExtension(ctx: Context, m: seq<Message>, tail: seq<Message>, messages: seq<Message>,
                          entry: CachedSummary)
    requires Settled(ctx, m, entry) && messages == m + tail && GroupsOf(messages).Some?
    ensures Protected(GroupsOf(messages).value, Selection(entry))
    ensures Replayed(CodecOf(ctx), entry.state, SystemFree(messages))
            == Some(SystemFree(View(GroupsOf(messages).value, Some(entry))))
  {
    hide Replayed, Captured, Projected;
    GroupsGrow(m, tail);
    var g, h := GroupsOf(m).value, GroupsOf(tail).value;
    var marks := Marks(|g|, Selection(entry));
    ProtectedIsSafe(g, Selection(entry));
    SystemFreeTwice(tail);
    SystemFreeCommutes(h);
    GroupingIsUnique(SystemFreeGroups(h));
    CaptureThenReplay(CodecOf(ctx), m, marks, entry.text, SystemFree(tail));
    ViewGrows(g, h, entry);
    SystemFreeConcat(m, tail);
    SystemFreeConcat(Projected(g, marks, entry.text), tail);
  }

  // ----- Nothing is summarized unread -----

  /** Whatever a call newly summarizes it has handed over to the model. */
  lemma StepHandsOver(config: Config, ctx: Context, before: Option<CachedSummary>, messages: seq<Message>, force: bool,
                      r: Result<seq<Message>, CompactError>, after: Option<CachedSummary>)
    requires Sorted(before) && Step(config, ctx, before, messages, force, r, after) && Holds(ctx, messages, before)
    requires after != before
    ensures GroupsOf(messages).Some? && after.Some?
    ensures Handed(ctx.aux, GroupsOf(messages).value, SelectionOf(before), Selection(after.value), SeedOf(before),
                   after.value.text)
  {
    hide Captured, Budgeted, NothingToDo, View, Handed, Grows, Records;
    var groups := GroupsOf(messages).value;
    if before.Some? { StaysFresh(ctx, messages, before.value); }
    assert Kept(ctx, groups, before) == before;
  }

  lemma {:induction false} InSomePart(parts: seq<seq<nat>>, x: nat) returns (n: nat)
    requires x in Joined(parts)
    ensures n < |parts| && x in parts[n]
    decreases |parts|
  {
    var last := |parts| - 1;
    if x in parts[last] { n := last; } else { n := InSomePart(parts[..last], x); }
  }

  /** Along a run every summarized group was carried whole by a request of the call that first summarized it, whose
      answer went into the summary then kept; and the group has not changed since. */
  lemma {:induction false} SummarizedGroupsWereHandedOver(config: Config, turns: seq<Turn>, i: nat, x: nat)
    returns (j: nat, c: Course, n: nat)
    requires IsRun(config, turns) && i < |turns| && turns[i].entry.Some? && x in Selection(turns[i].entry.value)
    ensures j <= i && turns[j].messages <= turns[i].messages && turns[j].entry.Some?
    ensures GroupsOf(turns[j].messages).Some?
    ensures x !in SelectionOf(Before(turns, j)) && x in Selection(turns[j].entry.value)
    ensures HandsOver(turns[j].ctx.aux, GroupsOf(turns[j].messages).value, SelectionOf(Before(turns, j)),
                      Selection(turns[j].entry.value), SeedOf(Before(turns, j)), turns[j].entry.value.text, c)
    ensures n < |c.carried| && x in c.carried[n] && x < |GroupsOf(turns[j].messages).value|
    ensures c.requests != [] && c.requests[0].seed
         == if Before(turns, j).None? then "" else Before(turns, j).value.text
    ensures GroupsOf(turns[i].messages).Some? ==>
              && x < |GroupsOf(turns[i].messages).value|
              && GroupsOf(turns[i].messages).value[x] == GroupsOf(turns[j].messages).value[x]
    decreases i
  {
    hide Step, Holds, GroupsOf, Carries;
    assert Follows(config, turns, i);
    if x in SelectionOf(Before(turns, i)) {
      j, c, n := SummarizedGroupsWereHandedOver(config, turns, i - 1, x);
      PrefixOfLater(turns[j].messages, turns[i - 1].messages, turns[i].messages);
    } else {
      RunHolds(config, turns, i);
      StepHandsOver(config, turns[i].ctx, Before(turns, i), turns[i].messages, turns[i].force, turns[i].result,
                    turns[i].entry);
      j := i;
      c :| HandsOver(turns[i].ctx.aux, GroupsOf(turns[i].messages).value, SelectionOf(Before(turns, i)),
                     Selection(turns[i].entry.value), SeedOf(Before(turns, i)), turns[i].entry.value.text, c);
      n := InSomePart(c.carried, x);
      FirstSeed(turns[i].ctx.aux, GroupsOf(turns[i].messages).value, SeedOf(Before(turns, i)), c);
      InPartIsInRange(c, GroupsOf(turns[i].messages).value, x);
    }
    if GroupsOf(turns[i].messages).Some? { SameGroup(turns[j].messages, turns[i].messages, x); }
  }

  lemma FirstSeed(aux: Auxiliary, groups: seq<Group>, first: string, c: Course)
    requires 0 < |c.requests| == |c.carried| == |c.handoffs| && Carries(aux, groups, first, c, 0)
    ensures c.requests[0].seed == first
  {
  }

  lemma PrefixOfLater(a: seq<Message>, b: seq<Message>, c: seq<Message>)
    requires a <= b <= c
    ensures a <= c
  {
    assert c[..|a|] == b[..|a|];
  }

  lemma InPartIsInRange(c: Course, groups: seq<Group>, x: nat)
    requires Ascending(Joined(c.carried), |groups|) && x in Joined(c.carried)
    ensures x < |groups|
  {
  }

  lemma SameGroup(a: seq<Message>, b: seq<Message>, x: nat)
    requires a <= b && GroupsOf(a).Some? && GroupsOf(b).Some? && x < |GroupsOf(a).value|
    ensures x < |GroupsOf(b).value| && GroupsOf(b).value[x] == GroupsOf(a).value[x]
  {
    assert b == a + b[|a|..];
    GroupsGrow(a, b[|a|..]);
  }

  // ----- What is never summarized -----

  /** No run ever summarizes a System message, media, an artifact outside the archive, or data only its provider can
      read; and behind every summarized user request there is a later one. */
  lemma OpaqueIsNeverSummarized(config: Config, turns: seq<Turn>, i: nat, x: nat, m: Message)
    requires IsRun(config, turns) && i < |turns| && turns[i].entry.Some? && GroupsOf(turns[i].messages).Some?
    requires x in Selection(turns[i].entry.value)
    ensures x + 1 < |GroupsOf(turns[i].messages).value|
    ensures m in GroupsOf(turns[i].messages).value[x] ==>
              match m
              case System(_) => false
              case User(input) =>
                !HasMedia(input)
                && exists y, k :: x < y < |GroupsOf(turns[i].messages).value|
                                  && 0 <= k < |GroupsOf(turns[i].messages).value[y]|
                                  && GroupsOf(turns[i].messages).value[y][k].User?
              case Tool(r) => !HasMedia(r.content) && (r.artifact.Some? ==> "spill:" <= r.artifact.value.uri)
              case Assistant(_, calls, reasoning, data) =>
                reasoning.None? && data.None? && forall c :: c in calls ==> c.providerData.None?
  {
    hide GroupsOf, Holds;
    var groups := GroupsOf(turns[i].messages).value;
    RunHolds(config, turns, i);
    StaysFresh(turns[i].ctx, turns[i].messages, turns[i].entry.value);
    if m in groups[x] {
      var k :| 0 <= k < |groups[x]| && groups[x][k] == m;
      assert SafeMessage(groups[x][k]);
      if m.User? {
        assert HasUser(groups[x]);
        var y := LatestUser(groups).value;
        assert x < y && HasUser(groups[y]);
        var n :| 0 <= n < |groups[y]| && groups[y][n].User?;
        assert x < y < |groups| && 0 <= n < |groups[y]| && groups[y][n].User?;
      }
    }
  }

  /** A request is due for compaction exactly when it reaches the trigger share of the context in bytes, or that share
      of the window left for input in tokens; what it should come down to is the target share of either, at three
      bytes a token. */
  lemma PressureIff(config: Config, ctx: Context, bytes: nat, tokens: nat)
    requires TokenBudget(ctx).Some?
    ensures UnderPressure(PressureFor(config, ctx), bytes, tokens) <==>
              || bytes >= SatMul(ctx.limits.maxContextBytes, config.percentages.trigger) / 100
              || (ctx.limits.window.Some?
                  && tokens >= SatMul(ctx.limits.window.value - ctx.limits.maxOutputTokens, config.percentages.trigger)
                               / 100)
    ensures var target := SatMul(ctx.limits.maxContextBytes, config.percentages.target) / 100;
      PressureFor(config, ctx).target
        == if ctx.limits.window.None? then target
           else Min(target, SatMul(SatMul(ctx.limits.window.value - ctx.limits.maxOutputTokens,
                                          config.percentages.target) / 100, 3))
  {
  }

  /** What is published relieves the pressure: the new request is smaller than the old one and no longer due. */
  lemma PublishedIsRelieved(config: Config, ctx: Context, groups: seq<Group>, kept: Option<CachedSummary>, force: bool,
                            entry: CachedSummary)
    requires Ascending(SelectionOf(kept), |groups|) && Ascending(Selection(entry), |groups|)
    requires Budgeted(config, ctx, groups, kept, force, entry) && PressureFor(config, ctx).trigger > 0
    ensures var (was, now) := (View(groups, kept), View(groups, Some(entry)));
      && RequestBytes(ctx.wire, now) < RequestBytes(ctx.wire, was)
      && !UnderPressure(PressureFor(config, ctx), RequestBytes(ctx.wire, now), RequestTokens(ctx, now))
  {
    hide View, RequestBytes, PressureOf, Minimum;
  }

  // ----- When a summary is dropped -----

  /** Different groups have different fingerprints. */
  ghost predicate TellsApart(ctx: Context) {
    forall g: Group, h: Group :: ctx.fingerprint(g) == ctx.fingerprint(h) ==> g == h
  }

  /** A cached summary is dropped exactly when one of the groups it was made from is gone or has changed. */
  lemma DroppedIffChanged(ctx: Context, was: seq<Group>, now: seq<Group>, entry: CachedSummary)
    requires TellsApart(ctx) && Sorted(Some(entry)) && Ascending(Selection(entry), |was|) && Records(ctx, was, entry)
    ensures Kept(ctx, now, Some(entry)).None? <==>
              exists i :: i in Selection(entry) && (i >= |now| || now[i] != was[i])
  {
    hide Captured;
    forall k | 0 <= k < |entry.fingerprints|
      ensures entry.fingerprints[k].index == Selection(entry)[k] && Selection(entry)[k] in Selection(entry)
    {
    }
    forall i | i in Selection(entry)
      ensures exists k :: 0 <= k < |entry.fingerprints| && entry.fingerprints[k].index == i
    {
      var k :| 0 <= k < |Selection(entry)| && Selection(entry)[k] == i;
      assert entry.fingerprints[k].index == i;
    }
  }

  // ----- Which groups are chosen -----

  /** A choice keeps `retain` recent groups out of reach and takes every other one that may be summarized. */
  predicate Takes(groups: seq<Group>, previous: seq<nat>, retain: nat, selected: seq<nat>) {
    && Ascending(selected, |groups|)
    && forall i :: 0 <= i < |groups| ==>
         (i in selected <==> i in previous || (i + retain < |groups| && Eligible(groups, i)))
  }

  /** The selection leaves at least 256 bytes for a summary below the target. */
  predicate LeavesRoom(ctx: Context, groups: seq<Group>, target: nat, selected: seq<nat>) {
    SatAdd(RequestBytes(ctx.wire, Projected(groups, Marks(|groups|, selected), "")), 256) <= target
  }

  /** The choice keeps as many recent groups as leave a worthwhile selection with room for a summary, up to the
      configured number; when none do, all but the last are taken. */
  lemma ChoiceKeepsMost(ctx: Context, groups: seq<Group>, previous: seq<nat>, cached: bool, recent: nat, force: bool,
                        target: nat, selected: seq<nat>)
    returns (retain: nat)
    requires ChoiceIs(ctx, groups, previous, cached, recent, force, target, Chosen(selected))
    ensures 1 <= retain <= Max(Min(recent, |groups|), 1) && Takes(groups, previous, retain, selected)
    ensures retain == 1 || (LeavesRoom(ctx, groups, target, selected) && (force ==> AddsTo(selected, previous)))
    ensures forall more, other ::
            retain < more <= Max(Min(recent, |groups|), 1) && Takes(groups, previous, more, other) ==>
              other == [] || (force && !AddsTo(other, previous)) || !LeavesRoom(ctx, groups, target, other)
  {
    hide Projected, RequestBytes, Eligible;
    var most := Max(Min(recent, |groups|), 1);
    retain :| 1 <= retain <= most && KeepsMost(ctx, groups, previous, retain, most, force, target, selected);
    forall more, other | retain < more <= most && Takes(groups, previous, more, other)
      ensures other == [] || (force && !AddsTo(other, previous)) || !LeavesRoom(ctx, groups, target, other)
    {
      SameTaken(groups, previous, more, other, Select(groups, previous, more, |groups|));
      assert !Settles(ctx, groups, previous, more, force, target);
    }
  }

  lemma SameTaken(groups: seq<Group>, previous: seq<nat>, retain: nat, a: seq<nat>, b: seq<nat>)
    requires Takes(groups, previous, retain, a) && Takes(groups, previous, retain, b)
    ensures a == b
  {
    hide Eligible;
    assert forall i :: i in a <==> i in b;
    AscendingIsUnique(a, b, |groups|);
  }

  lemma LastIsLargest(a: seq<nat>, n: nat)
    requires Ascending(a, n) && a != []
    ensures var (front, last) := (a[..|a| - 1], a[|a| - 1]);
      last in a && Ascending(front, n) && forall i :: i in front <==> i in a && i != last
    ensures forall i :: i in a ==> i <= a[|a| - 1]
  {
    assert a == a[..|a| - 1] + [a[|a| - 1]];
  }

  lemma {:induction false} AscendingIsUnique(a: seq<nat>, b: seq<nat>, n: nat)
    requires Ascending(a, n) && Ascending(b, n) && forall i :: i in a <==> i in b
    ensures a == b
    decreases |a|
  {
    assert b == [] || b[0] in b;
    if a != [] {
      assert a[0] in a && b != [];
      LastIsLargest(a, n);
      LastIsLargest(b, n);
      assert a[|a| - 1] in b && b[|b| - 1] in a && a[|a| - 1] == b[|b| - 1];
      hide Ascending;
      AscendingIsUnique(a[..|a| - 1], b[..|b| - 1], n);
      assert a == a[..|a| - 1] + [a[|a| - 1]] && b == b[..|b| - 1] + [b[|b| - 1]];
    }
  }
}
