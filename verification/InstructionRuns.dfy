/** Runs of the freshness gate in which refreshes and checks overlap: each takes a snapshot of the run's rules, reads
    the file tree without a lock, and commits later. */
module InstructionRuns {
  import opened Text
  import opened Instructions

  // ----- Steps -----

  /** A call between its snapshot and its commit. */
  datatype Op =
    | Checking(snapshot: RunRules, path: Option<string>, sideEffects: bool)
    | Refreshing(snapshot: RunRules, history: Result<seq<string>, Error>, paths: seq<string>)

  /** One run: what is recorded for it, and its calls in flight. */
  datatype System = System(saved: RunRules, ops: map<nat, Op>)

  /** `world` is the file tree as the call happened to read it. */
  datatype Action =
    | BeginCheck(id: nat, path: Option<string>, sideEffects: bool)
    | BeginRefresh(id: nat, history: Result<seq<string>, Error>, paths: seq<string>)
    | End(id: nat, world: World, stopped: bool)

  /** What a check that commits now answers. */
  ghost function Verdict(host: Host, s: System, op: Op, world: World): Result<bool, Error>
    requires op.Checking?
  {
    var found := Surveyed(host, world, op.snapshot, op.path);
    if found.Err? then Err(found.error)
    else Answer(s.saved, found.value.0, found.value.1 != op.snapshot.delivered, op.sideEffects)
  }

  ghost function Committed(host: Host, s: System, op: Op, world: World): RunRules {
    match op
    case Checking(snapshot, path, _) =>
      var found := Surveyed(host, world, snapshot, path);
      if found.Err? then s.saved else Recorded(s.saved, found.value.0)
    case Refreshing(snapshot, history, paths) =>
      var r := Refreshed(host, world, snapshot, history, paths);
      if r.Err? then s.saved else r.value
  }

  /** An action that is not possible where it stands changes nothing. */
  ghost function Do(host: Host, s: System, a: Action): System {
    match a
    case BeginCheck(id, path, sideEffects) =>
      if id in s.ops then s else s.(ops := s.ops[id := Checking(s.saved, path, sideEffects)])
    case BeginRefresh(id, history, paths) =>
      if id in s.ops then s else s.(ops := s.ops[id := Refreshing(s.saved, history, paths)])
    case End(id, world, stopped) =>
      if id !in s.ops then s
      else System(if stopped then s.saved else Committed(host, s, s.ops[id], world), s.ops - {id})
  }

  ghost function Run(host: Host, s: System, actions: seq<Action>): System {
    if actions == [] then s else Do(host, Run(host, s, actions[..|actions| - 1]), actions[|actions| - 1])
  }

  lemma RunOneMore(host: Host, s: System, actions: seq<Action>, a: Action)
    ensures Run(host, s, actions + [a]) == Do(host, Run(host, s, actions), a)
  {
    assert (actions + [a])[..|actions|] == actions;
  }

  const START: System := System(NO_RULES, map[])

  // ----- What a refresh can do -----

  lemma RefreshKeepsSnapshot(host: Host, world: World, op: Op)
    requires op.Refreshing? && Refreshed(host, world, op.snapshot, op.history, op.paths).Ok?
    ensures op.snapshot.directories <= Refreshed(host, world, op.snapshot, op.history, op.paths).value.directories
    ensures Overwrites(op)
  {
    hide LoadScopes, Ancestors;
    var more := if op.snapshot.historyLoaded then op.paths else op.history.value + op.paths;
    AddPathsGrow(world, op.snapshot.directories, more);
    MoreAncestors(op.snapshot.directories, AddPaths(world, op.snapshot.directories, more).value);
  }

  predicate HasHistory(op: Op) { op.Refreshing? ==> op.snapshot.historyLoaded || op.history.Ok? }

  /** Some file tree lets the call commit. */
  ghost predicate Commits(op: Op) {
    |Ancestors(op.snapshot.directories)| <= MAX_SCOPES && HasHistory(op)
  }

  /** Only a refresh writes over the record. */
  ghost predicate Overwrites(op: Op) { op.Refreshing? && Commits(op) }

  /** A project with no instruction files, in which only the given paths lead anywhere. */
  function Tree(leads: map<string, Directory>): World {
    World((d, name) => Missing, path => Ok(if path in leads then Some(leads[path]) else None))
  }

  function EmptyWorld(): World { Tree(map[]) }

  lemma {:induction false} NoPathsAdded(dirs: set<Directory>, paths: seq<string>)
    ensures AddPaths(EmptyWorld(), dirs, paths) == Ok(dirs)
    decreases |paths|
  {
    if paths != [] { NoPathsAdded(dirs, paths[1..]); }
  }

  lemma {:induction false} NothingChosen(host: Host, leads: map<string, Directory>, scope: Directory,
                                         names: seq<string>)
    ensures Choose(host, Tree(leads), scope, names) == Ok(None)
    decreases |names|
  {
    if names != [] { NothingChosen(host, leads, scope, names[1..]); }
  }

  lemma {:induction false} NothingLoaded(host: Host, leads: map<string, Directory>, scopes: seq<Directory>)
    ensures LoadScopes(host, Tree(leads), scopes) == Ok(Loaded([], map[], 0))
    decreases |scopes|
  {
    if scopes != [] {
      NothingLoaded(host, leads, scopes[..|scopes| - 1]);
      NothingChosen(host, leads, scopes[|scopes| - 1], NAMES);
    }
  }

  lemma EmptyRefresh(host: Host, op: Op)
    requires Overwrites(op)
    ensures Refreshed(host, EmptyWorld(), op.snapshot, op.history, op.paths)
         == Ok(RunRules(op.snapshot.directories, map[], true))
  {
    hide Ancestors, LoadScopes;
    NoPathsAdded(op.snapshot.directories, if op.snapshot.historyLoaded then op.paths else op.history.value + op.paths);
    NothingLoaded(host, map[], host.order(Ancestors(op.snapshot.directories)));
  }

  // ----- When a recorded directory is lost -----

  /** The directory is recorded, and every refresh that may still overwrite the record began with it recorded. */
  ghost predicate Safe(s: System, d: Directory) {
    && d in s.saved.directories
    && forall id :: id in s.ops && Overwrites(s.ops[id]) ==> d in s.ops[id].snapshot.directories
  }

  lemma CommitKeeps(host: Host, s: System, op: Op, world: World, d: Directory)
    requires d in s.saved.directories && (Overwrites(op) ==> d in op.snapshot.directories)
    ensures d in Committed(host, s, op, world).directories
  {
    hide Surveyed, Refreshed, Overwrites;
    if op.Refreshing? && Refreshed(host, world, op.snapshot, op.history, op.paths).Ok? {
      RefreshKeepsSnapshot(host, world, op);
    }
  }

  lemma StepKeepsSafe(host: Host, s: System, a: Action, d: Directory)
    requires Safe(s, d)
    ensures Safe(Do(host, s, a), d)
  {
    hide Committed, Overwrites;
    if a.End? && a.id in s.ops && !a.stopped { CommitKeeps(host, s, s.ops[a.id], a.world, d); }
  }

  lemma {:induction false} SafeForGood(host: Host, s: System, actions: seq<Action>, d: Directory)
    requires Safe(s, d)
    ensures Safe(Run(host, s, actions), d)
    decreases |actions|
  {
    hide Do, Safe;
    if actions != [] {
      SafeForGood(host, s, actions[..|actions| - 1], d);
      StepKeepsSafe(host, Run(host, s, actions[..|actions| - 1]), actions[|actions| - 1], d);
    }
  }

  /** A recorded directory survives whatever follows exactly when no refresh in flight that could commit began before
      it was recorded: such a refresh writes its own older record over it. */
  lemma RecordedForGoodIff(host: Host, s: System, d: Directory)
    ensures (forall actions :: d in Run(host, s, actions).saved.directories) <==> Safe(s, d)
  {
    if Safe(s, d) {
      forall actions ensures d in Run(host, s, actions).saved.directories { SafeForGood(host, s, actions, d); }
    } else if d !in s.saved.directories {
      var none: seq<Action> := [];
      NoActions(host, s, none);
      assert d !in Run(host, s, none).saved.directories;
    } else {
      var id :| id in s.ops && Overwrites(s.ops[id]) && d !in s.ops[id].snapshot.directories;
      EmptyRefresh(host, s.ops[id]);
      OneAction(host, s, End(id, EmptyWorld(), false));
      assert d !in Run(host, s, [End(id, EmptyWorld(), false)]).saved.directories;
    }
  }

  lemma NoActions(host: Host, s: System, none: seq<Action>)
    requires none == []
    ensures Run(host, s, none) == s
  {
  }

  lemma OneAction(host: Host, s: System, a: Action)
    ensures Run(host, s, [a]) == Do(host, s, a)
  {
    assert [a][..0] == [] && Run(host, s, []) == s;
  }

  // ----- Freshness -----

  /** Every call in flight began with what some earlier moment of the run had recorded. */
  lemma {:induction false} SnapshotIsPast(host: Host, actions: seq<Action>, id: nat) returns (n: nat)
    requires id in Run(host, START, actions).ops
    ensures n < |actions| && !actions[n].End? && actions[n].id == id
    ensures Run(host, START, actions).ops[id].snapshot == Run(host, START, actions[..n]).saved
    decreases |actions|
  {
    hide Committed;
    var front, a := actions[..|actions| - 1], actions[|actions| - 1];
    var s := Run(host, START, front);
    if id in s.ops {
      n := SnapshotIsPast(host, front, id);
      assert front[..n] == actions[..n];
    } else {
      n := |actions| - 1;
      assert actions[..n] == front;
    }
  }

  /** Along any run, any edits and any overlap: a side-effecting call goes ahead exactly when the call could look up
      its path and load what applies, no more directories are recorded than the limit, and every ancestor scope of
      every directory recorded when the call began, and of the one it names itself, shows what had been delivered by
      then. */
  lemma AllowedIffFreshInRuns(host: Host, actions: seq<Action>, id: nat, world: World) returns (n: nat)
    requires Lists(host) && id in Run(host, START, actions).ops && Run(host, START, actions).ops[id].Checking?
    requires Run(host, START, actions).ops[id].sideEffects
    ensures n < |actions| && !actions[n].End? && actions[n].id == id
    ensures var s, began := Run(host, START, actions), Run(host, START, actions[..n]).saved;
      var found := Surveyed(host, world, began, s.ops[id].path);
      Verdict(host, s, s.ops[id], world) == Ok(true) <==>
        && found.Ok? && |s.saved.directories + found.value.0| <= MAX_DIRS
        && forall scope, file, hash ::
             Shows(began.delivered, scope, file, hash) <==>
             scope in Ancestors(found.value.0) && Picks(host, world, scope, file, hash)
  {
    hide Surveyed, Picks, Shows, Do, Run, Ancestors;
    var s := Run(host, START, actions);
    var op := s.ops[id];
    n := SnapshotIsPast(host, actions, id);
    var found := Surveyed(host, world, op.snapshot, op.path);
    if found.Ok? { SurveyIsFreshIff(host, world, op.snapshot, op.path, found.value.0, found.value.1); }
  }

  /** A call without side effects needs no fresh guidance: it goes ahead whenever it can be judged at all. */
  lemma ReadersPassIff(host: Host, s: System, op: Op, world: World)
    requires op.Checking? && !op.sideEffects
    ensures var found := Surveyed(host, world, op.snapshot, op.path);
      Verdict(host, s, op, world) == Ok(true) <==>
        found.Ok? && |s.saved.directories + found.value.0| <= MAX_DIRS
    ensures Verdict(host, s, op, world) != Ok(false)
  {
    hide Surveyed;
  }

  /** In particular the root, every directory visited before, and the directory the call names: a first action in a
      directory whose rules were never shown is refused. */
  lemma AllowedCallsAreFresh(host: Host, actions: seq<Action>, id: nat, world: World, scope: Directory) returns (n: nat)
    requires Lists(host) && id in Run(host, START, actions).ops && Run(host, START, actions).ops[id].Checking?
    requires Run(host, START, actions).ops[id].sideEffects
    requires Verdict(host, Run(host, START, actions), Run(host, START, actions).ops[id], world) == Ok(true)
    ensures n < |actions| && !actions[n].End? && actions[n].id == id
    ensures var began, path := Run(host, START, actions[..n]).saved, Run(host, START, actions).ops[id].path;
      (|| scope == []
       || (exists d :: d in began.directories && scope <= d)
       || (path.Some? && world.resolve(path.value).Ok? && world.resolve(path.value).value.Some?
           && scope <= world.resolve(path.value).value.value))
      ==> forall file, hash :: Picks(host, world, scope, file, hash) <==> Shows(began.delivered, scope, file, hash)
  {
    n := AllowedIffFreshInRuns(host, actions, id, world);
    hide Picks, Shows, Do, Run;
    var s, began := Run(host, START, actions), Run(host, START, actions[..n]).saved;
    var (dirs, f) := Surveyed(host, world, began, s.ops[id].path).value;
    SurveyGrows(host, world, began, s.ops[id].path, dirs, f);
    CoversNamed(host, world, began, s.ops[id].path, dirs, f);
    forall d | d in dirs && scope <= d ensures scope in Ancestors(dirs) { assert scope == d[..|scope|]; }
  }

  lemma CoversNamed(host: Host, world: World, rules: RunRules, path: Option<string>, dirs: set<Directory>,
                    f: Fingerprints)
    requires Surveyed(host, world, rules, path) == Ok((dirs, f))
    ensures path.Some? && world.resolve(path.value).Ok? && world.resolve(path.value).value.Some? ==>
              world.resolve(path.value).value.value in dirs
  {
    hide Load;
  }

  /** What is recorded as delivered was loaded by a refresh that committed, for the directories it then recorded. */
  lemma {:induction false} DeliveredByARefresh(host: Host, actions: seq<Action>)
    ensures var saved := Run(host, START, actions).saved;
      saved.delivered == map[] ||
      exists n :: 0 <= n < |actions| && Delivers(host, Run(host, START, actions[..n]), actions[n], saved.delivered)
    decreases |actions|
  {
    hide Surveyed, Refreshed;
    if actions != [] {
      var front, last := actions[..|actions| - 1], |actions| - 1;
      var saved := Run(host, START, actions).saved;
      DeliveredByARefresh(host, front);
      assert actions[..last] == front;
      if saved.delivered == Run(host, START, front).saved.delivered {
        if saved.delivered != map[] {
          var n :| 0 <= n < |front| && Delivers(host, Run(host, START, front[..n]), front[n], saved.delivered);
          assert front[..n] == actions[..n];
        }
      } else {
        assert Delivers(host, Run(host, START, actions[..last]), actions[last], saved.delivered);
      }
    }
  }

  ghost predicate Delivers(host: Host, s: System, a: Action, f: Fingerprints) {
    && a.End? && !a.stopped && a.id in s.ops && s.ops[a.id].Refreshing?
    && var r := Refreshed(host, a.world, s.ops[a.id].snapshot, s.ops[a.id].history, s.ops[a.id].paths);
    r.Ok? && r.value.delivered == f
  }
}
