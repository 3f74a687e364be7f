/** The guidance records of many runs, as their calls begin and commit, and as runs are cancelled and finished. The
    limit on runs is tested only when a call begins, and a commit creates the record of its run anew if it is gone. */
module InstructionSlots {
  import opened Text
  import opened Instructions
  import Alone = InstructionRuns
  import Limits = InstructionLimits

  /** A call in flight and the run it belongs to. */
  datatype Call = Call(run: string, op: Alone.Op)

  datatype Slots = Slots(runs: map<string, RunRules>, ops: map<nat, Call>, cancelled: set<string>)

  datatype Action =
    | Act(run: string, step: Alone.Action)
    | Cancel(run: string)
    | Finish(run: string)

  const EMPTY: Slots := Slots(map[], map[], {})

  function RulesOf(s: Slots, run: string): RunRules { if run in s.runs then s.runs[run] else NO_RULES }

  /** What one run has recorded and has in flight. */
  function View(s: Slots, run: string): Alone.System {
    Alone.System(RulesOf(s, run), map id | id in s.ops && s.ops[id].run == run :: s.ops[id].op)
  }

  /** A call begins unless its run was cancelled or there is no place for a new run. */
  predicate Admitted(s: Slots, run: string) {
    run !in s.cancelled && (run in s.runs || |s.runs| < MAX_RUNS)
  }

  function Begun(s: Slots, run: string, id: nat, op: Alone.Op): Slots {
    if id in s.ops || !Admitted(s, run) then s
    else s.(runs := s.runs[run := RulesOf(s, run)], ops := s.ops[id := Call(run, op)])
  }

  /** A call that is stopped, or fails, records nothing; one that commits creates the record if it is gone. */
  ghost function Ended(host: Host, s: Slots, id: nat, world: World, stopped: bool): Slots
    requires id in s.ops
  {
    var (run, op) := (s.ops[id].run, s.ops[id].op);
    if stopped || run in s.cancelled || Limits.Learned(host, op, world).None? then s.(ops := s.ops - {id})
    else s.(runs := s.runs[run := Alone.Committed(host, View(s, run), op, world)], ops := s.ops - {id})
  }

  /** An action that is not possible where it stands changes nothing. */
  ghost function Do(host: Host, s: Slots, a: Action): Slots {
    match a
    case Act(run, BeginCheck(id, path, sideEffects)) =>
      Begun(s, run, id, Alone.Checking(RulesOf(s, run), path, sideEffects))
    case Act(run, BeginRefresh(id, history, paths)) =>
      Begun(s, run, id, Alone.Refreshing(RulesOf(s, run), history, paths))
    case Act(run, End(id, world, stopped)) =>
      if id in s.ops && s.ops[id].run == run then Ended(host, s, id, world, stopped) else s
    case Cancel(run) => s.(cancelled := s.cancelled + {run})
    case Finish(run) => s.(runs := s.runs - {run})
  }

  ghost function Run(host: Host, s: Slots, actions: seq<Action>): Slots {
    if actions == [] then s else Do(host, Run(host, s, actions[..|actions| - 1]), actions[|actions| - 1])
  }

  // ----- One run among many -----

  lemma BeginIsLocal(s: Slots, run: string, id: nat, op: Alone.Op, other: string)
    ensures var (v, w) := (View(s, other), View(Begun(s, run, id, op), other));
      w == v || (other == run && id !in v.ops && w == v.(ops := v.ops[id := op]))
  {
    var (v, w) := (View(s, other), View(Begun(s, run, id, op), other));
    if id !in s.ops && Admitted(s, run) {
      if other == run {
        assert w.ops == v.ops[id := op];
      } else {
        assert w.ops == v.ops;
      }
    }
  }

  lemma EndIsLocal(host: Host, s: Slots, id: nat, world: World, stopped: bool, other: string)
    requires id in s.ops
    ensures var (v, w) := (View(s, other), View(Ended(host, s, id, world, stopped), other));
      w == if other != s.ops[id].run then v
           else Alone.Do(host, v, Alone.End(id, world, stopped || other in s.cancelled))
  {
    hide Alone.Committed, Limits.Learned;
    var (v, w) := (View(s, other), View(Ended(host, s, id, world, stopped), other));
    if Limits.Learned(host, s.ops[id].op, world).None? { Limits.FailsWithout(host, v, s.ops[id].op, world); }
    assert w.ops == v.ops - {id};
    if other != s.ops[id].run { assert v.ops - {id} == v.ops; }
  }

  /** Unless it finishes the run, an action leaves the run as it was or is one step of the run on its own. */
  lemma StepIsLocal(host: Host, s: Slots, a: Action, run: string)
    requires a != Finish(run)
    ensures View(Do(host, s, a), run) == View(s, run)
         || exists step :: View(Do(host, s, a), run) == Alone.Do(host, View(s, run), step)
  {
    hide Begun, Ended;
    match a {
      case Act(r, BeginCheck(id, path, sideEffects)) =>
        BeginIsLocal(s, r, id, Alone.Checking(RulesOf(s, r), path, sideEffects), run);
        assert Alone.Do(host, View(s, run), Alone.BeginCheck(id, path, sideEffects))
            == if id in View(s, run).ops then View(s, run)
               else View(s, run).(ops := View(s, run).ops[id := Alone.Checking(RulesOf(s, run), path, sideEffects)]);
      case Act(r, BeginRefresh(id, history, paths)) =>
        BeginIsLocal(s, r, id, Alone.Refreshing(RulesOf(s, r), history, paths), run);
        assert Alone.Do(host, View(s, run), Alone.BeginRefresh(id, history, paths))
            == if id in View(s, run).ops then View(s, run)
               else View(s, run).(ops := View(s, run).ops[id := Alone.Refreshing(RulesOf(s, run), history, paths)]);
      case Act(r, End(id, world, stopped)) =>
        if id in s.ops { EndIsLocal(host, s, id, world, stopped, run); }
      case Cancel(_) =>
      case Finish(_) =>
    }
  }

  /** Whatever other runs do, a run that is not finished goes through a run of its own steps, so all that is proved of
      a run alone holds of it. */
  lemma {:induction false} RunsAreIndependent(host: Host, s: Slots, actions: seq<Action>, run: string)
    returns (own: seq<Alone.Action>)
    requires forall i :: 0 <= i < |actions| ==> actions[i] != Finish(run)
    ensures View(Run(host, s, actions), run) == Alone.Run(host, View(s, run), own)
    decreases |actions|
  {
    hide Do, View, Alone.Do;
    if actions == [] {
      own := [];
      Alone.NoActions(host, View(s, run), own);
    } else {
      var before := Run(host, s, actions[..|actions| - 1]);
      own := RunsAreIndependent(host, s, actions[..|actions| - 1], run);
      StepIsLocal(host, before, actions[|actions| - 1], run);
      if View(Do(host, before, actions[|actions| - 1]), run) != View(before, run) {
        var step :| View(Do(host, before, actions[|actions| - 1]), run) == Alone.Do(host, View(before, run), step);
        Alone.RunOneMore(host, View(s, run), own, step);
        own := own + [step];
      }
    }
  }

  // ----- Finished runs that come back -----

  predicate Begins(a: Action) { a.Act? && !a.step.End? }

  predicate BeginsOf(a: Action, run: string) { Begins(a) && a.run == run }

  /** A call of the run is in flight that may still commit. */
  ghost predicate MayCommit(s: Slots, run: string) {
    run !in s.cancelled && exists id :: id in s.ops && s.ops[id].run == run && Alone.Commits(s.ops[id].op)
  }

  lemma StepKeepsGone(host: Host, s: Slots, a: Action, run: string)
    requires run !in s.runs && !MayCommit(s, run) && !BeginsOf(a, run)
    ensures run !in Do(host, s, a).runs && !MayCommit(Do(host, s, a), run)
  {
    hide Alone.Commits, Alone.Committed, Limits.Learned, View;
    if a.Act? && a.step.End? && a.step.id in s.ops && Limits.Learned(host, s.ops[a.step.id].op, a.step.world).Some? {
      Limits.LearnsAtMost(host, s.ops[a.step.id].op, a.step.world);
    }
  }

  lemma {:induction false} StaysGone(host: Host, s: Slots, actions: seq<Action>, run: string)
    requires run !in s.runs && !MayCommit(s, run)
    requires forall i :: 0 <= i < |actions| ==> !BeginsOf(actions[i], run)
    ensures run !in Run(host, s, actions).runs && !MayCommit(Run(host, s, actions), run)
    decreases |actions|
  {
    hide Do, MayCommit;
    if actions != [] {
      StaysGone(host, s, actions[..|actions| - 1], run);
      StepKeepsGone(host, Run(host, s, actions[..|actions| - 1]), actions[|actions| - 1], run);
    }
  }

  lemma OneStep(host: Host, s: Slots, a: Action)
    ensures Run(host, s, [a]) == Do(host, s, a)
  {
    assert [a][..0] == [] && Run(host, s, []) == s;
  }

  /** A call that may commit creates the record of its run. */
  lemma CommitCreates(host: Host, s: Slots, id: nat)
    requires id in s.ops && s.ops[id].run !in s.cancelled && Alone.Commits(s.ops[id].op)
    ensures var t := Do(host, s, Act(s.ops[id].run, Alone.End(id, Alone.EmptyWorld(), false)));
      t.runs.Keys == s.runs.Keys + {s.ops[id].run} && t.ops == s.ops - {id} && t.cancelled == s.cancelled
  {
    hide Alone.Commits, Alone.Committed, Limits.Learned, View;
    Limits.LearnsNothing(host, s.ops[id].op);
  }

  /** A finished run has a record again, without a new call of its own, if and only if it was not cancelled and one of
      its calls was still in flight and able to commit. */
  lemma ComesBackIff(host: Host, s: Slots, run: string)
    ensures (exists actions :: (forall i :: 0 <= i < |actions| ==> !BeginsOf(actions[i], run))
                               && run in Run(host, Do(host, s, Finish(run)), actions).runs)
       <==> MayCommit(s, run)
  {
    hide MayCommit;
    var t := Do(host, s, Finish(run));
    assert MayCommit(t, run) == MayCommit(s, run) by { SamePending(s, t, run); }
    if MayCommit(t, run) {
      var id := SomeCall(t, run);
      CommitCreates(host, t, id);
      var a := Act(run, Alone.End(id, Alone.EmptyWorld(), false));
      OneStep(host, t, a);
      assert run in Run(host, t, [a]).runs;
    } else {
      forall actions | forall i :: 0 <= i < |actions| ==> !BeginsOf(actions[i], run)
        ensures run !in Run(host, t, actions).runs
      {
        StaysGone(host, t, actions, run);
      }
    }
  }

  lemma SamePending(s: Slots, t: Slots, run: string)
    requires s.ops == t.ops && s.cancelled == t.cancelled
    ensures MayCommit(t, run) == MayCommit(s, run)
  {
  }

  lemma SomeCall(s: Slots, run: string) returns (id: nat)
    requires MayCommit(s, run)
    ensures id in s.ops && s.ops[id].run == run && run !in s.cancelled && Alone.Commits(s.ops[id].op)
  {
    id :| id in s.ops && s.ops[id].run == run && Alone.Commits(s.ops[id].op);
  }

  // ----- The limit on runs -----

  /** The runs with a call in flight that may still commit. */
  ghost function Pending(s: Slots): set<string> {
    set id | id in s.ops && s.ops[id].run !in s.cancelled && Alone.Commits(s.ops[id].op) :: s.ops[id].run
  }

  predicate NoBegins(actions: seq<Action>) { forall i :: 0 <= i < |actions| ==> !Begins(actions[i]) }

  lemma FewerPending(s: Slots, t: Slots)
    requires s.cancelled <= t.cancelled && forall id :: id in t.ops ==> id in s.ops && t.ops[id] == s.ops[id]
    ensures Pending(t) <= Pending(s)
  {
    hide Alone.Commits;
  }

  lemma StepKeepsPlaces(host: Host, s: Slots, a: Action)
    requires !Begins(a)
    ensures Do(host, s, a).runs.Keys + Pending(Do(host, s, a)) <= s.runs.Keys + Pending(s)
  {
    hide Alone.Commits, Alone.Committed, Limits.Learned, View;
    var t := Do(host, s, a);
    FewerPending(s, t);
    if a.Act? && a.step.id in s.ops && Limits.Learned(host, s.ops[a.step.id].op, a.step.world).Some? {
      Limits.LearnsAtMost(host, s.ops[a.step.id].op, a.step.world);
    }
  }

  lemma {:induction false} RunKeepsPlaces(host: Host, s: Slots, actions: seq<Action>)
    requires NoBegins(actions)
    ensures Run(host, s, actions).runs.Keys + Pending(Run(host, s, actions)) <= s.runs.Keys + Pending(s)
    decreases |actions|
  {
    hide Do, Pending;
    if actions != [] {
      RunKeepsPlaces(host, s, actions[..|actions| - 1]);
      StepKeepsPlaces(host, Run(host, s, actions[..|actions| - 1]), actions[|actions| - 1]);
    }
  }

  lemma {:induction false} FirstStep(host: Host, s: Slots, a: Action, rest: seq<Action>)
    ensures Run(host, s, [a] + rest) == Run(host, Do(host, s, a), rest)
    decreases |rest|
  {
    hide Do;
    if rest == [] {
      assert [a] + rest == [a];
      OneStep(host, s, a);
    } else {
      assert ([a] + rest)[..|rest|] == [a] + rest[..|rest| - 1];
      FirstStep(host, s, a, rest[..|rest| - 1]);
    }
  }

  lemma PendingCall(s: Slots, run: string) returns (id: nat)
    requires run in Pending(s)
    ensures id in s.ops && s.ops[id].run == run && run !in s.cancelled && Alone.Commits(s.ops[id].op)
  {
    id :| id in s.ops && s.ops[id].run == run && run !in s.cancelled && Alone.Commits(s.ops[id].op);
  }

  lemma OtherPending(s: Slots, t: Slots, id: nat)
    requires id in s.ops && t.ops == s.ops - {id} && t.cancelled == s.cancelled
    ensures Pending(t) <= Pending(s) <= Pending(t) + {s.ops[id].run}
  {
    hide Alone.Commits;
    forall run | run in Pending(s) && run != s.ops[id].run ensures run in Pending(t) {
      var k := PendingCall(s, run);
      assert k in t.ops && t.ops[k] == s.ops[k];
    }
  }

  lemma OneBack(keys: set<string>, pending: set<string>, later: set<string>, run: string)
    requires run in pending && run !in keys && later <= pending <= later + {run}
    ensures keys + pending == keys + {run} + later
    ensures |later - (keys + {run})| < |pending - keys|
  {
    SubsetSize(later - (keys + {run}), pending - keys - {run});
  }

  lemma NoSteps(host: Host, s: Slots, none: seq<Action>)
    requires none == []
    ensures Run(host, s, none) == s
  {
  }

  /** Commit a call of each run that is gone. */
  lemma {:induction false} AllComeBack(host: Host, s: Slots) returns (actions: seq<Action>)
    ensures NoBegins(actions) && Run(host, s, actions).runs.Keys == s.runs.Keys + Pending(s)
    decreases |Pending(s) - s.runs.Keys|
  {
    hide Do, Run, Pending, NoBegins, Alone.Commits;
    if Pending(s) <= s.runs.Keys {
      actions := [];
      NoSteps(host, s, actions);
      assert NoBegins(actions) by { NothingBegins(); }
      assert s.runs.Keys + Pending(s) == s.runs.Keys;
    } else {
      var run :| run in Pending(s) && run !in s.runs.Keys;
      var id := PendingCall(s, run);
      CommitCreates(host, s, id);
      var a := Act(run, Alone.End(id, Alone.EmptyWorld(), false));
      var t := Do(host, s, a);
      OtherPending(s, t, id);
      OneBack(s.runs.Keys, Pending(s), Pending(t), run);
      var rest := AllComeBack(host, t);
      FirstStep(host, s, a, rest);
      NothingBegunBefore(a, rest);
      actions := [a] + rest;
    }
  }

  lemma NothingBegins()
    ensures NoBegins([])
  {
  }

  lemma NothingBegunBefore(a: Action, rest: seq<Action>)
    requires !Begins(a) && NoBegins(rest)
    ensures NoBegins([a] + rest)
  {
  }

  /** However the calls in flight end and runs are cancelled and finished, no more than 64 runs have a record if and
      only if those that have one and those that a call in flight may still give one are no more than 64 together. */
  lemma PlacesHoldIff(host: Host, s: Slots)
    ensures (forall actions :: NoBegins(actions) ==> |Run(host, s, actions).runs| <= MAX_RUNS)
       <==> |s.runs.Keys + Pending(s)| <= MAX_RUNS
  {
    hide Run, Pending, NoBegins;
    if |s.runs.Keys + Pending(s)| <= MAX_RUNS {
      forall actions | NoBegins(actions) ensures |Run(host, s, actions).runs| <= MAX_RUNS {
        RunKeepsPlaces(host, s, actions);
        SubsetSize(Run(host, s, actions).runs.Keys, s.runs.Keys + Pending(s));
        KeysSize(Run(host, s, actions).runs);
      }
    } else {
      var actions := AllComeBack(host, s);
      KeysSize(Run(host, s, actions).runs);
      assert NoBegins(actions) && |Run(host, s, actions).runs| > MAX_RUNS;
    }
  }

  lemma KeysSize<K, V>(m: map<K, V>)
    ensures |m| == |m.Keys|
  {
  }

  /** Every run with a call that may commit has its place. */
  ghost predicate Tidy(s: Slots) { Pending(s) <= s.runs.Keys && |s.runs.Keys| <= MAX_RUNS }

  lemma BeginKeepsTidy(s: Slots, run: string, id: nat, op: Alone.Op)
    requires Tidy(s)
    ensures Tidy(Begun(s, run, id, op))
  {
    hide Alone.Commits;
    var t := Begun(s, run, id, op);
    KeysSize(s.runs);
    if t != s {
      assert t.runs.Keys == s.runs.Keys + {run};
      assert run in s.runs ==> t.runs.Keys == s.runs.Keys;
    }
  }

  lemma EndKeepsTidy(host: Host, s: Slots, a: Action)
    requires Tidy(s) && a.Act? && a.step.End?
    ensures Tidy(Do(host, s, a))
  {
    hide Do, Pending;
    StepKeepsPlaces(host, s, a);
    EndsOnlyAdd(host, s, a);
    assert s.runs.Keys + Pending(s) == s.runs.Keys;
    SubsetSize(Do(host, s, a).runs.Keys, s.runs.Keys);
  }

  lemma FinishKeepsTidy(host: Host, s: Slots, run: string)
    requires Tidy(s) && !MayCommit(s, run)
    ensures Tidy(Do(host, s, Finish(run)))
  {
    hide Pending, MayCommit;
    var t := Do(host, s, Finish(run));
    FewerPending(s, t);
    assert t.runs.Keys == s.runs.Keys - {run};
    SubsetSize(t.runs.Keys, s.runs.Keys);
    if run in Pending(s) { PendingMayCommit(s, run); }
  }

  lemma PendingMayCommit(s: Slots, run: string)
    requires run in Pending(s)
    ensures MayCommit(s, run)
  {
    hide Alone.Commits;
  }

  lemma StepKeepsTidy(host: Host, s: Slots, a: Action)
    requires Tidy(s) && (a.Finish? ==> !MayCommit(s, a.run))
    ensures Tidy(Do(host, s, a))
  {
    hide MayCommit, Begun, Ended, Pending;
    match a {
      case Act(run, BeginCheck(id, path, e)) => BeginKeepsTidy(s, run, id, Alone.Checking(RulesOf(s, run), path, e));
      case Act(run, BeginRefresh(id, h, paths)) =>
        BeginKeepsTidy(s, run, id, Alone.Refreshing(RulesOf(s, run), h, paths));
      case Act(_, End(_, _, _)) => EndKeepsTidy(host, s, a);
      case Cancel(_) => FewerPending(s, Do(host, s, a));
      case Finish(run) => FinishKeepsTidy(host, s, run);
    }
  }

  lemma EndsOnlyAdd(host: Host, s: Slots, a: Action)
    requires a.Act? && a.step.End?
    ensures s.runs.Keys <= Do(host, s, a).runs.Keys
  {
    hide Alone.Committed, Limits.Learned, View;
  }

  /** As long as runs are finished only when none of their calls may still commit, no more than 64 have a record. */
  lemma {:induction false} TidyRunsFit(host: Host, actions: seq<Action>)
    requires forall n :: 0 <= n < |actions| && actions[n].Finish? ==>
               !MayCommit(Run(host, EMPTY, actions[..n]), actions[n].run)
    ensures Tidy(Run(host, EMPTY, actions))
    decreases |actions|
  {
    hide Do, MayCommit, Tidy;
    if actions == [] {
      assert Tidy(EMPTY) by { EmptyIsTidy(); }
    } else {
      var front := actions[..|actions| - 1];
      forall n | 0 <= n < |front| && front[n].Finish?
        ensures !MayCommit(Run(host, EMPTY, front[..n]), front[n].run)
      {
        assert front[..n] == actions[..n] && front[n] == actions[n];
      }
      TidyRunsFit(host, front);
      StepKeepsTidy(host, Run(host, EMPTY, front), actions[|actions| - 1]);
    }
  }

  lemma EmptyIsTidy()
    ensures Tidy(EMPTY)
  {
  }

  // ----- One run too many -----

  function Opening(k: nat): Action { Act(Limits.Name(k), Alone.BeginCheck(k, None, false)) }

  function OpeningAll(n: nat): seq<Action> { seq(n, k requires 0 <= k < n => Opening(k)) }

  function RunNames(n: nat): set<string> { set k | 0 <= k < n :: Limits.Name(k) }

  lemma {:induction false} RunNamesAre(n: nat)
    ensures |RunNames(n)| == n && Limits.Name(n) !in RunNames(n)
  {
    NewName(n);
    hide Limits.Name;
    if n > 0 {
      RunNamesAre(n - 1);
      OneMoreName(n - 1);
    }
  }

  lemma NewName(n: nat)
    ensures Limits.Name(n) !in RunNames(n)
  {
    forall k | 0 <= k < n ensures Limits.Name(k) != Limits.Name(n) {
      assert |Limits.Name(k)| == k && |Limits.Name(n)| == n;
    }
  }

  lemma OneMoreName(n: nat)
    ensures RunNames(n + 1) == RunNames(n) + {Limits.Name(n)}
  {
    hide Limits.Name;
  }

  /** A check of each of the first `n` runs is in flight. */
  ghost predicate Opened(s: Slots, n: nat) {
    && s.runs.Keys == RunNames(n) && s.cancelled == {}
    && (forall id: nat :: id in s.ops <==> id < n)
    && forall k :: 0 <= k < n ==> s.ops[k] == Call(Limits.Name(k), Alone.Checking(NO_RULES, None, false))
  }

  lemma BegunIs(s: Slots, run: string, id: nat, op: Alone.Op)
    requires id !in s.ops && Admitted(s, run)
    ensures var t := Begun(s, run, id, op);
      t.runs.Keys == s.runs.Keys + {run} && t.ops == s.ops[id := Call(run, op)] && t.cancelled == s.cancelled
  {
  }

  lemma OpenedMore(s: Slots, t: Slots, n: nat)
    requires Opened(s, n) && t.runs.Keys == s.runs.Keys + {Limits.Name(n)} && t.cancelled == s.cancelled
    requires t.ops == s.ops[n := Call(Limits.Name(n), Alone.Checking(NO_RULES, None, false))]
    ensures Opened(t, n + 1)
  {
    hide Limits.Name, RunNames;
    OneMoreName(n);
  }

  lemma OpenOne(host: Host, s: Slots, n: nat)
    requires Opened(s, n) && n < MAX_RUNS
    ensures Opened(Do(host, s, Opening(n)), n + 1)
  {
    hide Limits.Name, RunNames, Begun;
    RunNamesAre(n);
    KeysSize(s.runs);
    assert RulesOf(s, Limits.Name(n)) == NO_RULES && n !in s.ops && Admitted(s, Limits.Name(n));
    BegunIs(s, Limits.Name(n), n, Alone.Checking(NO_RULES, None, false));
    hide Opened;
    OpenedMore(s, Do(host, s, Opening(n)), n);
  }

  lemma NothingOpened()
    ensures Opened(EMPTY, 0)
  {
    assert RunNames(0) == {};
  }

  lemma {:induction false} OpenAll(host: Host, n: nat)
    requires n <= MAX_RUNS
    ensures Opened(Run(host, EMPTY, OpeningAll(n)), n)
  {
    hide Do, Opening, Run, Opened;
    if n == 0 {
      NoSteps(host, EMPTY, OpeningAll(n));
      NothingOpened();
    } else {
      OpenAll(host, n - 1);
      assert OpeningAll(n) == OpeningAll(n - 1) + [Opening(n - 1)];
      OneMoreStep(host, EMPTY, OpeningAll(n - 1), Opening(n - 1));
      OpenOne(host, Run(host, EMPTY, OpeningAll(n - 1)), n - 1);
    }
  }

  /** 64 runs with a check of each in flight; one is finished, another takes its place, and the check commits. */
  function OneTooMany(): seq<Action> {
    OpeningAll(MAX_RUNS) + [Finish(Limits.Name(0))] + [Opening(MAX_RUNS)]
    + [Act(Limits.Name(0), Alone.End(0, Alone.EmptyWorld(), false))]
  }

  lemma OneMoreStep(host: Host, s: Slots, actions: seq<Action>, a: Action)
    ensures Run(host, s, actions + [a]) == Do(host, Run(host, s, actions), a)
  {
    assert (actions + [a])[..|actions|] == actions;
  }

  lemma NamesNest(n: nat)
    requires n > 0
    ensures Limits.Name(0) in RunNames(n) && Limits.Name(n) != Limits.Name(0)
  {
    NewName(n);
  }

  /** The limit does not hold in every run: that leaves 65. */
  lemma PlacesOverflow(host: Host)
    ensures |Run(host, EMPTY, OneTooMany()).runs| == MAX_RUNS + 1
  {
    hide Run, Limits.Name, RunNames, Begun;
    var n := MAX_RUNS;
    NamesNest(n);
    var s := Run(host, EMPTY, OpeningAll(n));
    OpenAll(host, n);
    RunNamesAre(n);
    var t := Do(host, s, Finish(Limits.Name(0)));
    OneMoreStep(host, EMPTY, OpeningAll(n), Finish(Limits.Name(0)));
    assert t.runs.Keys == RunNames(n) - {Limits.Name(0)};
    KeysSize(t.runs);
    BegunIs(t, Limits.Name(n), n, Alone.Checking(NO_RULES, None, false));
    var u := Do(host, t, Opening(n));
    OneMoreStep(host, EMPTY, OpeningAll(n) + [Finish(Limits.Name(0))], Opening(n));
    assert u.runs.Keys == t.runs.Keys + {Limits.Name(n)};
    assert Alone.Commits(u.ops[0].op) by { Limits.NothingAbove(); }
    CommitCreates(host, u, 0);
    OneMoreStep(host, EMPTY, OpeningAll(n) + [Finish(Limits.Name(0))] + [Opening(n)],
                Act(Limits.Name(0), Alone.End(0, Alone.EmptyWorld(), false)));
    KeysSize(Run(host, EMPTY, OneTooMany()).runs);
  }

  /** A call begins if and only if its number is free, its run is not cancelled, and the run has a record or there is a
      place for one; it then holds what its run has recorded. */
  lemma BeginsIff(host: Host, s: Slots, run: string, id: nat, path: Option<string>, sideEffects: bool)
    ensures var t := Do(host, s, Act(run, Alone.BeginCheck(id, path, sideEffects)));
      && (t == s || (id !in s.ops && run !in s.cancelled && (run in s.runs || |s.runs| < 64)))
      && (id !in s.ops && run !in s.cancelled && (run in s.runs || |s.runs| < 64) ==>
            && id in t.ops && run in t.runs && t.runs[run] == RulesOf(s, run)
            && t.ops[id] == Call(run, Alone.Checking(RulesOf(s, run), path, sideEffects)))
  {
  }
}
