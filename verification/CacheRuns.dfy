/** The compactor's cache while compactions, of many runs or of one, overlap: each reads it when it begins, drops what
    it found stale under the lock again, and publishes when its model has answered; runs are cancelled and finished in
    between. */
module CacheRuns {
  import opened Text
  import opened Messages
  import opened Grouping
  import opened Projection
  import opened SavedState
  import opened Compaction

  /** A compaction under way: the summary it read, and once that is checked, the one it goes on from. */
  datatype Job = Job(ctx: Context, groups: seq<Group>, cached: Option<CachedSummary>, checked: bool)

  datatype Shared = Shared(cache: map<string, CachedSummary>, cancelled: set<string>, jobs: map<nat, Job>)

  datatype Action =
    | Begin(id: nat, ctx: Context, groups: seq<Group>)
    | Check(id: nat)
    | Publish(id: nat, selected: seq<nat>, summary: string)
    | Abandon(id: nat)
    | Cancel(run: string)
    | Finish(run: string)

  function Lookup(s: Shared, run: string): Option<CachedSummary> {
    if run in s.cache then Some(s.cache[run]) else None
  }

  /** An action that is not possible where it stands changes nothing. */
  function Do(config: Config, s: Shared, a: Action): Shared {
    match a
    case Begin(id, ctx, groups) =>
      if id in s.jobs then s else s.(jobs := s.jobs[id := Job(ctx, groups, Lookup(s, ctx.runId), false)])
    case Check(id) =>
      if id !in s.jobs || s.jobs[id].checked || !Sorted(s.jobs[id].cached) then s
      else
        var job := s.jobs[id];
        var kept := Kept(job.ctx, job.groups, job.cached);
        Shared(if kept == job.cached then s.cache else s.cache - {job.ctx.runId}, s.cancelled,
               s.jobs[id := job.(cached := kept, checked := true)])
    case Publish(id, selected, summary) =>
      if id !in s.jobs || !s.jobs[id].checked || !Ascending(selected, |s.jobs[id].groups|) then s
      else
        var job := s.jobs[id];
        var (cache, _) := Publication(config, s.cache, job.ctx, job.groups, selected, summary,
                                      job.ctx.runId in s.cancelled);
        s.(cache := cache, jobs := s.jobs - {id})
    case Abandon(id) => s.(jobs := s.jobs - {id})
    case Cancel(run) => s.(cancelled := s.cancelled + {run})
    case Finish(run) => s.(cache := s.cache - {run})
  }

  function Run(config: Config, s: Shared, actions: seq<Action>): Shared {
    if actions == [] then s else Do(config, Run(config, s, actions[..|actions| - 1]), actions[|actions| - 1])
  }

  // ----- Capacity -----

  lemma PublicationFits(config: Config, cache: map<string, CachedSummary>, ctx: Context, groups: seq<Group>,
                        selected: seq<nat>, summary: string, stopped: bool)
    requires Ascending(selected, |groups|) && |cache| <= config.maxCachedRuns
    ensures |Publication(config, cache, ctx, groups, selected, summary, stopped).0| <= config.maxCachedRuns
  {
    hide Captured, FingerprintsOf;
    var state := Captured(CodecOf(ctx), groups, Marks(|groups|, selected), summary);
    if state.Some? {
      PutOne(cache, ctx.runId, CachedSummary(FingerprintsOf(ctx, groups, selected), summary, state.value));
    }
  }

  lemma CheckMayDrop(config: Config, s: Shared, id: nat)
    requires id in s.jobs
    ensures Do(config, s, Check(id)).cache in {s.cache, s.cache - {s.jobs[id].ctx.runId}}
  {
    hide Kept;
  }

  lemma StepKeepsCapacity(config: Config, s: Shared, a: Action)
    requires |s.cache| <= config.maxCachedRuns
    ensures |Do(config, s, a).cache| <= config.maxCachedRuns
  {
    hide Kept, Publication;
    match a {
      case Check(id) =>
        if id in s.jobs {
          RemoveOne(s.cache, s.jobs[id].ctx.runId);
          hide Do;
          CheckMayDrop(config, s, id);
        }
      case Publish(id, selected, summary) =>
        if id in s.jobs && Ascending(selected, |s.jobs[id].groups|) {
          PublicationFits(config, s.cache, s.jobs[id].ctx, s.jobs[id].groups, selected, summary,
                          s.jobs[id].ctx.runId in s.cancelled);
        }
      case Finish(run) => RemoveOne(s.cache, run);
      case _ =>
    }
  }

  /** In every interleaving no more runs than allowed have a cached summary. */
  lemma {:induction false} CapacityHolds(config: Config, s: Shared, actions: seq<Action>)
    requires |s.cache| <= config.maxCachedRuns
    ensures |Run(config, s, actions).cache| <= config.maxCachedRuns
    decreases |actions|
  {
    hide Do;
    if actions != [] {
      CapacityHolds(config, s, actions[..|actions| - 1]);
      StepKeepsCapacity(config, Run(config, s, actions[..|actions| - 1]), actions[|actions| - 1]);
    }
  }

  // ----- Released runs -----

  /** Nothing is cached for the run and nothing can still be published for it. */
  predicate Released(s: Shared, run: string) {
    run !in s.cache && run in s.cancelled
  }

  lemma StepKeepsReleased(config: Config, s: Shared, a: Action, run: string)
    requires Released(s, run)
    ensures Released(Do(config, s, a), run)
  {
    hide Captured, Kept, FingerprintsOf;
  }

  lemma {:induction false} ReleasedForGood(config: Config, s: Shared, actions: seq<Action>, run: string)
    requires Released(s, run)
    ensures Released(Run(config, s, actions), run)
    decreases |actions|
  {
    hide Do, Released;
    if actions != [] {
      ReleasedForGood(config, s, actions[..|actions| - 1], run);
      StepKeepsReleased(config, Run(config, s, actions[..|actions| - 1]), actions[|actions| - 1], run);
    }
  }

  /** Once a run is cancelled and then finished, no compaction of it still under way brings a summary back. */
  lemma CancelledWorkIsNotPublished(config: Config, s: Shared, between: seq<Action>, later: seq<Action>, run: string)
    ensures run !in Run(config, Do(config, Run(config, Do(config, s, Cancel(run)), between), Finish(run)), later).cache
  {
    var t := Do(config, s, Cancel(run));
    StaysCancelled(config, t, between, run);
    ReleasedForGood(config, Do(config, Run(config, t, between), Finish(run)), later, run);
  }

  lemma {:induction false} StaysCancelled(config: Config, s: Shared, actions: seq<Action>, run: string)
    requires run in s.cancelled
    ensures run in Run(config, s, actions).cancelled
    decreases |actions|
  {
    if actions != [] { StaysCancelled(config, s, actions[..|actions| - 1], run); }
  }

  /** The other order is safe exactly when nothing was published in between. */
  lemma CancelledLaterIff(config: Config, s: Shared, between: seq<Action>, run: string)
    ensures var t := Run(config, Do(config, s, Finish(run)), between);
      (forall later :: run !in Run(config, Do(config, t, Cancel(run)), later).cache) <==> run !in t.cache
  {
    hide Run, Do;
    var t := Run(config, Do(config, s, Finish(run)), between);
    var u := Do(config, t, Cancel(run));
    CancelKeepsCache(config, t, run);
    if run !in t.cache {
      forall later ensures run !in Run(config, u, later).cache { ReleasedForGood(config, u, later, run); }
    } else {
      var none: seq<Action> := [];
      NothingHappens(config, u, none);
      assert run in Run(config, u, none).cache;
    }
  }

  lemma CancelKeepsCache(config: Config, s: Shared, run: string)
    ensures Do(config, s, Cancel(run)).cache == s.cache && run in Do(config, s, Cancel(run)).cancelled
  {
  }

  lemma NothingHappens(config: Config, s: Shared, none: seq<Action>)
    requires none == []
    ensures Run(config, s, none) == s
  {
  }

  /** Finishing alone is not enough: exactly when the run is not cancelled, a waiting compaction with something to
      publish puts it back. */
  lemma FinishedComesBackIff(config: Config, s: Shared, id: nat, selected: seq<nat>, summary: string)
    requires config.Valid() && |s.cache| <= config.maxCachedRuns && id in s.jobs && s.jobs[id].checked
    requires Ascending(selected, |s.jobs[id].groups|)
    requires Captured(CodecOf(s.jobs[id].ctx), s.jobs[id].groups, Marks(|s.jobs[id].groups|, selected), summary).Some?
    requires s.jobs[id].ctx.runId in s.cache || |s.cache| < config.maxCachedRuns
    ensures var run := s.jobs[id].ctx.runId;
      run in Do(config, Do(config, s, Finish(run)), Publish(id, selected, summary)).cache <==> run !in s.cancelled
  {
    hide Captured, FingerprintsOf;
    RemoveOne(s.cache, s.jobs[id].ctx.runId);
  }

  // ----- A run on its own -----

  /** Whether an action touches a run's own cached summary. */
  predicate Concerns(s: Shared, a: Action, run: string) {
    match a
    case Begin(_, _, _) => false
    case Check(id) => id in s.jobs && s.jobs[id].ctx.runId == run
    case Publish(id, _, _) => id in s.jobs && s.jobs[id].ctx.runId == run
    case Abandon(_) => false
    case Cancel(_) => false
    case Finish(other) => other == run
  }

  lemma OthersDoNotDisturb(config: Config, s: Shared, a: Action, run: string)
    requires !Concerns(s, a, run)
    ensures Lookup(Do(config, s, a), run) == Lookup(s, run)
  {
    hide Captured, Kept, FingerprintsOf;
  }

  ghost predicate LeavesAlone(config: Config, s: Shared, actions: seq<Action>, run: string) {
    forall i :: 0 <= i < |actions| ==> !Concerns(Run(config, s, actions[..i]), actions[i], run)
  }

  lemma {:induction false} UndisturbedMeanwhile(config: Config, s: Shared, actions: seq<Action>, run: string)
    requires LeavesAlone(config, s, actions, run)
    ensures Lookup(Run(config, s, actions), run) == Lookup(s, run)
    decreases |actions|
  {
    hide Do, Lookup, Concerns;
    if actions != [] {
      var front := actions[..|actions| - 1];
      forall i | 0 <= i < |front| ensures !Concerns(Run(config, s, front[..i]), front[i], run) {
        assert front[..i] == actions[..i] && front[i] == actions[i];
      }
      UndisturbedMeanwhile(config, s, front, run);
      OthersDoNotDisturb(config, Run(config, s, front), actions[|actions| - 1], run);
    }
  }

  /** Other actions leave a compaction where it is. */
  lemma JobStays(config: Config, s: Shared, a: Action, id: nat)
    requires id in s.jobs && !Concerns(s, a, s.jobs[id].ctx.runId) && a != Abandon(id)
    ensures id in Do(config, s, a).jobs && Do(config, s, a).jobs[id] == s.jobs[id]
  {
    hide Captured, Kept, FingerprintsOf;
  }

  lemma {:induction false} JobWaits(config: Config, s: Shared, actions: seq<Action>, id: nat)
    requires id in s.jobs && LeavesAlone(config, s, actions, s.jobs[id].ctx.runId) && Abandon(id) !in actions
    ensures id in Run(config, s, actions).jobs && Run(config, s, actions).jobs[id] == s.jobs[id]
    decreases |actions|
  {
    hide Do, Concerns;
    if actions != [] {
      var front := actions[..|actions| - 1];
      forall i | 0 <= i < |front| ensures !Concerns(Run(config, s, front[..i]), front[i], s.jobs[id].ctx.runId) {
        assert front[..i] == actions[..i] && front[i] == actions[i];
      }
      JobWaits(config, s, front, id);
      JobStays(config, Run(config, s, front), actions[|actions| - 1], id);
    }
  }

  lemma BeginReads(config: Config, s: Shared, id: nat, ctx: Context, groups: seq<Group>)
    requires id !in s.jobs
    ensures var t := Do(config, s, Begin(id, ctx, groups));
      id in t.jobs && t.jobs[id] == Job(ctx, groups, Lookup(s, ctx.runId), false)
      && Lookup(t, ctx.runId) == Lookup(s, ctx.runId)
  {
  }

  lemma CheckKeeps(config: Config, s: Shared, id: nat)
    requires id in s.jobs && !s.jobs[id].checked && Sorted(s.jobs[id].cached)
    requires Lookup(s, s.jobs[id].ctx.runId) == s.jobs[id].cached
    ensures var (job, t) := (s.jobs[id], Do(config, s, Check(id)));
      Lookup(t, job.ctx.runId) == Kept(job.ctx, job.groups, job.cached)
  {
    hide Fresh;
  }

  /** However many other runs begin, check, publish and finish while a compaction checks what it read and asks the
      model, it publishes over exactly the summary it goes on from, as it would alone. */
  lemma PublishesOverItsOwn(config: Config, s: Shared, id: nat, ctx: Context, groups: seq<Group>,
                            first: seq<Action>, second: seq<Action>)
    requires id !in s.jobs && Sorted(Lookup(s, ctx.runId)) && Abandon(id) !in first
    requires LeavesAlone(config, Do(config, s, Begin(id, ctx, groups)), first, ctx.runId)
    requires LeavesAlone(config, Do(config, Run(config, Do(config, s, Begin(id, ctx, groups)), first), Check(id)),
                         second, ctx.runId)
    ensures var checked := Do(config, Run(config, Do(config, s, Begin(id, ctx, groups)), first), Check(id));
      Lookup(Run(config, checked, second), ctx.runId) == Kept(ctx, groups, Lookup(s, ctx.runId))
  {
    hide Do, Run, Lookup, Concerns, Kept, LeavesAlone;
    var begun := Do(config, s, Begin(id, ctx, groups));
    BeginReads(config, s, id, ctx, groups);
    JobWaits(config, begun, first, id);
    UndisturbedMeanwhile(config, begun, first, ctx.runId);
    var reached := Run(config, begun, first);
    CheckKeeps(config, reached, id);
    UndisturbedMeanwhile(config, Do(config, reached, Check(id)), second, ctx.runId);
  }

  // ----- Compactions of one run that overlap -----

  /** A summary that still matches the history is dropped exactly when another one, read before it was published, no
      longer did. */
  lemma FreshOneDroppedIff(config: Config, s: Shared, id: nat)
    requires id in s.jobs && !s.jobs[id].checked && Sorted(s.jobs[id].cached) && s.jobs[id].ctx.runId in s.cache
    requires Fresh(s.jobs[id].ctx, s.jobs[id].groups, s.cache[s.jobs[id].ctx.runId])
    ensures var job := s.jobs[id];
      job.ctx.runId !in Do(config, s, Check(id)).cache <==>
        job.cached.Some? && job.cached != Lookup(s, job.ctx.runId) && !Fresh(job.ctx, job.groups, job.cached.value)
  {
    hide Fresh;
  }

  /** What a publication stored, if it went through. */
  predicate Stores(s: Shared, a: Action, run: string, entry: CachedSummary) {
    && a.Publish? && a.id in s.jobs && s.jobs[a.id].ctx.runId == run && run !in s.cancelled
    && var job := s.jobs[a.id];
    && Ascending(a.selected, |job.groups|)
    && var state := Captured(CodecOf(job.ctx), job.groups, Marks(|job.groups|, a.selected), a.summary);
    state.Some? && entry == CachedSummary(FingerprintsOf(job.ctx, job.groups, a.selected), a.summary, state.value)
  }

  lemma StepStores(config: Config, s: Shared, a: Action, run: string)
    requires run in Do(config, s, a).cache
    ensures var entry := Do(config, s, a).cache[run]; Lookup(s, run) == Some(entry) || Stores(s, a, run, entry)
  {
    hide Captured, Kept, FingerprintsOf;
  }

  /** Whatever overlaps, a cached summary is one that a compaction of its own run made of its own history while the run
      was not cancelled. */
  lemma {:induction false} SummariesAreOwn(config: Config, s: Shared, actions: seq<Action>, run: string)
    requires s.cache == map[] && run in Run(config, s, actions).cache
    ensures exists n :: 0 <= n < |actions| &&
              Stores(Run(config, s, actions[..n]), actions[n], run, Run(config, s, actions).cache[run])
    decreases |actions|
  {
    hide Do, Stores;
    if actions != [] {
      var front, last := actions[..|actions| - 1], |actions| - 1;
      StepStores(config, Run(config, s, front), actions[last], run);
      if !Stores(Run(config, s, front), actions[last], run, Run(config, s, actions).cache[run]) {
        SummariesAreOwn(config, s, front, run);
        var entry := Run(config, s, front).cache[run];
        var n :| 0 <= n < |front| && Stores(Run(config, s, front[..n]), front[n], run, entry);
        assert front[..n] == actions[..n] && front[n] == actions[n];
      } else {
        assert actions[..last] == front;
      }
    }
  }
}
