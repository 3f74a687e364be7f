/** How many directories a run comes to record while its calls overlap. Each call tests the limit against its own
    copy of the record, so only what is in flight together decides whether the record outgrows it. */
module InstructionLimits {
  import opened Text
  import opened Instructions
  import opened InstructionRuns

  // ----- What one call can bring -----

  /** The path arguments a call looks up. */
  function PathsOf(op: Op): seq<string> {
    match op
    case Checking(_, path, _) => if path.None? then [] else [path.value]
    case Refreshing(snapshot, history, paths) =>
      if snapshot.historyLoaded || history.Err? then paths else history.value + paths
  }

  function Paths(op: Op): set<string> { set p | p in PathsOf(op) }

  /** How many directories the call may add to those it began with. */
  function Room(op: Op): nat {
    var known := |op.snapshot.directories|;
    if known < MAX_DIRS then Min(|Paths(op)|, MAX_DIRS - known) else 0
  }

  /** The directories a call has in hand when it commits, if it gets that far. */
  ghost function Learned(host: Host, op: Op, world: World): Option<set<Directory>> {
    match op
    case Checking(snapshot, path, _) =>
      var found := Surveyed(host, world, snapshot, path);
      if found.Ok? then Some(found.value.0) else None
    case Refreshing(snapshot, history, paths) =>
      var r := Refreshed(host, world, snapshot, history, paths);
      if r.Ok? then Some(r.value.directories) else None
  }

  lemma CommittedIs(host: Host, s: System, op: Op, world: World)
    ensures Committed(host, s, op, world).directories
         == match Learned(host, op, world)
            case None => s.saved.directories
            case Some(dirs) => if op.Checking? then s.saved.directories + dirs else dirs
  {
    hide Surveyed, Refreshed;
  }

  lemma FailsWithout(host: Host, s: System, op: Op, world: World)
    requires Learned(host, op, world).None?
    ensures Committed(host, s, op, world) == s.saved
  {
    hide Surveyed, Refreshed;
  }

  function LeadsOf(world: World, paths: set<string>): set<Directory> {
    set p | p in paths && world.resolve(p).Ok? && world.resolve(p).value.Some? :: world.resolve(p).value.value
  }

  lemma {:induction false} FewLeads(world: World, paths: set<string>)
    ensures |LeadsOf(world, paths)| <= |paths|
    decreases paths
  {
    if paths != {} {
      var p :| p in paths;
      FewLeads(world, paths - {p});
      var r := world.resolve(p);
      var one := if r.Ok? && r.value.Some? then {r.value.value} else {};
      assert LeadsOf(world, paths) == LeadsOf(world, paths - {p}) + one;
    }
  }

  lemma {:induction false} AddPathsFollow(world: World, dirs: set<Directory>, paths: seq<string>)
    requires AddPaths(world, dirs, paths).Ok?
    ensures AddPaths(world, dirs, paths).value <= dirs + LeadsOf(world, set p | p in paths)
    ensures |dirs| >= MAX_DIRS ==> AddPaths(world, dirs, paths).value == dirs
    decreases |paths|
  {
    if paths != [] {
      var next := AddPath(world, dirs, paths[0]).value;
      assert |dirs| >= MAX_DIRS ==> next == dirs;
      assert paths[0] in paths && forall p :: p in paths[1..] ==> p in paths;
      AddPathsFollow(world, next, paths[1..]);
    }
  }

  /** Both kinds of call look up their paths and load what applies. */
  lemma LearnedIs(host: Host, op: Op, world: World)
    ensures Learned(host, op, world)
         == var all := AddPaths(world, op.snapshot.directories, PathsOf(op));
            if HasHistory(op) && all.Ok? && Load(host, world, all.value).Ok? then Some(all.value) else None
  {
    hide Load, AddPath;
    if op.Checking? && op.path.Some? { assert [op.path.value][1..] == []; }
  }

  lemma LoadedFits(host: Host, world: World, dirs: set<Directory>)
    requires Load(host, world, dirs).Ok?
    ensures |Ancestors(dirs)| <= MAX_SCOPES
  {
  }

  /** Whatever the files hold, a call that commits brings what it began with and at most its room beyond. */
  lemma LearnsAtMost(host: Host, op: Op, world: World)
    requires Learned(host, op, world).Some?
    ensures Commits(op)
    ensures var dirs := Learned(host, op, world).value;
      op.snapshot.directories <= dirs && |dirs - op.snapshot.directories| <= Room(op)
  {
    hide Load, Ancestors, AddPath, AddPaths, LeadsOf, Learned;
    LearnedIs(host, op, world);
    var known, dirs := op.snapshot.directories, Learned(host, op, world).value;
    AddPathsGrow(world, known, PathsOf(op));
    AddPathsFollow(world, known, PathsOf(op));
    FewLeads(world, Paths(op));
    SubsetSize(dirs - known, LeadsOf(world, Paths(op)));
    assert |dirs - known| == |dirs| - |known|;
    LoadedFits(host, world, dirs);
    MoreAncestors(known, dirs);
  }

  // ----- What one call can be made to bring -----

  function Lead(leads: map<string, Directory>, p: string): set<Directory> { if p in leads then {leads[p]} else {} }

  function Followed(leads: map<string, Directory>, paths: seq<string>): set<Directory> {
    if paths == [] then {} else Lead(leads, paths[0]) + Followed(leads, paths[1..])
  }

  lemma {:induction false} FollowedIs(leads: map<string, Directory>, paths: seq<string>)
    ensures Followed(leads, paths) == set p | p in paths && p in leads :: leads[p]
    decreases |paths|
  {
    if paths != [] {
      FollowedIs(leads, paths[1..]);
      assert paths == [paths[0]] + paths[1..];
    }
  }

  lemma AddOneIn(leads: map<string, Directory>, dirs: set<Directory>, p: string)
    requires Lead(leads, p) == {} || |dirs + Lead(leads, p)| <= MAX_DIRS
    ensures AddPath(Tree(leads), dirs, p) == Ok(dirs + Lead(leads, p))
  {
    if p in leads {
      if leads[p] !in dirs { assert |dirs + {leads[p]}| == |dirs| + 1; }
    } else {
      assert dirs + {} == dirs;
    }
  }

  lemma {:induction false} AddPathsIn(leads: map<string, Directory>, dirs: set<Directory>, paths: seq<string>)
    requires Followed(leads, paths) == {} || |dirs + Followed(leads, paths)| <= MAX_DIRS
    ensures AddPaths(Tree(leads), dirs, paths) == Ok(dirs + Followed(leads, paths))
    decreases |paths|
  {
    hide AddPath, Tree, Lead;
    if paths == [] {
      assert dirs + {} == dirs;
    } else {
      var one, rest := Lead(leads, paths[0]), Followed(leads, paths[1..]);
      UnionAssoc(dirs, one, rest);
      if one + rest != {} { SubsetSize(dirs + one, dirs + (one + rest)); }
      AddOneIn(leads, dirs, paths[0]);
      AddPathsIn(leads, dirs + one, paths[1..]);
    }
  }

  lemma UnionAssoc<T>(a: set<T>, b: set<T>, c: set<T>)
    ensures a + b + c == a + (b + c)
  {
  }

  lemma TreeLoads(host: Host, leads: map<string, Directory>, dirs: set<Directory>)
    requires |Ancestors(dirs)| <= MAX_SCOPES
    ensures Load(host, Tree(leads), dirs).Ok?
  {
    hide Ancestors, LoadScopes;
    NothingLoaded(host, leads, host.order(Ancestors(dirs)));
  }

  /** A file tree can lead the paths of a call that may commit to any new directories within its limits. */
  lemma LearnsAny(host: Host, op: Op, leads: map<string, Directory>)
    requires Commits(op)
    requires var more := Followed(leads, PathsOf(op));
      && (more == {} || |op.snapshot.directories + more| <= MAX_DIRS)
      && |Ancestors(op.snapshot.directories + more)| <= MAX_SCOPES
    ensures Learned(host, op, Tree(leads)) == Some(op.snapshot.directories + Followed(leads, PathsOf(op)))
  {
    hide Load, Ancestors, AddPath, AddPaths, Learned, PathsOf, Tree, Followed;
    LearnedIs(host, op, Tree(leads));
    AddPathsIn(leads, op.snapshot.directories, PathsOf(op));
    TreeLoads(host, leads, op.snapshot.directories + Followed(leads, PathsOf(op)));
  }

  /** With no files and no paths that lead anywhere, a call that may commit brings what it began with. */
  lemma LearnsNothing(host: Host, op: Op)
    requires Commits(op)
    ensures Learned(host, op, EmptyWorld()) == Some(op.snapshot.directories)
  {
    hide Learned, Ancestors, PathsOf, Tree;
    FollowedIs(map[], PathsOf(op));
    assert op.snapshot.directories + Followed(map[], PathsOf(op)) == op.snapshot.directories;
    LearnsAny(host, op, map[]);
  }

  lemma AllFollowed(op: Op, leads: map<string, Directory>)
    requires leads.Keys <= Paths(op)
    ensures Followed(leads, PathsOf(op)) == leads.Values
  {
    hide PathsOf;
    FollowedIs(leads, PathsOf(op));
    forall d | d in leads.Values ensures d in Followed(leads, PathsOf(op)) {
      var p :| p in leads && leads[p] == d;
      assert p in Paths(op);
    }
  }

  // ----- New directories -----

  function Name(n: nat): string { seq(n, _ => 'x') }

  function Tops(n: nat): set<Directory> { set k | 0 <= k < n :: [Name(k)] }

  lemma {:induction false} TopsAre(n: nat)
    ensures |Tops(n)| == n
  {
    if n > 0 {
      TopsAre(n - 1);
      forall k | 0 <= k < n - 1 ensures [Name(k)] != [Name(n - 1)] { assert |Name(k)| == k && |Name(n - 1)| == n - 1; }
      assert Tops(n) == Tops(n - 1) + {[Name(n - 1)]};
    }
  }

  /** There is always one more directory outside `avoid` that keeps the ancestors within their limit. */
  lemma NewDirectory(known: set<Directory>, avoid: set<Directory>) returns (d: Directory)
    requires |Ancestors(known)| <= MAX_SCOPES && |avoid| < MAX_SCOPES
    ensures d !in avoid && |Ancestors(known + {d})| <= MAX_SCOPES
  {
    if |Ancestors(known)| < MAX_SCOPES {
      TopsAre(|avoid| + 1);
      if Tops(|avoid| + 1) <= avoid { SubsetSize(Tops(|avoid| + 1), avoid); }
      d :| d in Tops(|avoid| + 1) && d !in avoid;
      OneMoreDirectory(known, d);
      assert |d| == 1 && d[..0] == [] && d[..1] == d;
      SubsetSize(Ancestors(known + {d}), Ancestors(known) + {d});
    } else {
      if Ancestors(known) <= avoid { SubsetSize(Ancestors(known), avoid); }
      d :| d in Ancestors(known) && d !in avoid;
      AncestorsAreClosed(known, d);
      OneMoreDirectory(known, d);
      assert Ancestors(known + {d}) == Ancestors(known);
    }
  }

  lemma NothingAbove()
    ensures |Ancestors({})| == 1
  {
    assert Ancestors({}) == {[]};
  }

  lemma AncestorsAreClosed(known: set<Directory>, d: Directory)
    requires d in Ancestors(known)
    ensures Prefixes(d, |d| + 1) <= Ancestors(known)
  {
    if d == [] {
      assert d[..0] == [];
    } else {
      var e, n :| e in known && 0 <= n <= |e| && d == e[..n];
      forall k | 0 <= k < |d| + 1 ensures d[..k] in Ancestors(known) { assert d[..k] == e[..k]; }
    }
  }

  lemma {:induction false} NewLeads(known: set<Directory>, avoid: set<Directory>, paths: set<string>, n: nat)
    returns (leads: map<string, Directory>)
    requires n <= |paths| && |Ancestors(known)| <= MAX_SCOPES && |avoid| + n <= MAX_SCOPES
    ensures leads.Keys <= paths && |leads.Keys| == n
    ensures leads.Values !! avoid && |leads.Values| == n && |Ancestors(known + leads.Values)| <= MAX_SCOPES
    decreases n
  {
    hide Ancestors;
    leads := map[];
    assert known + leads.Values == known;
    if n > 0 {
      var fewer := NewLeads(known, avoid, paths, n - 1);
      if paths <= fewer.Keys { SubsetSize(paths, fewer.Keys); }
      var p :| p in paths && p !in fewer.Keys;
      var d := NewDirectory(known + fewer.Values, avoid + fewer.Values);
      leads := fewer[p := d];
      assert leads.Keys == fewer.Keys + {p};
      assert leads.Values == fewer.Values + {d} by {
        assert leads[p] == d && forall q :: q in fewer ==> leads[q] == fewer[q];
      }
      assert known + leads.Values == known + fewer.Values + {d};
    }
  }

  // ----- All commits of the calls in flight -----

  /** No call begins. */
  predicate OnlyEnds(actions: seq<Action>) { forall i :: 0 <= i < |actions| ==> actions[i].End? }

  ghost predicate Adds(op: Op) { op.Checking? && Commits(op) }

  /** What the checks in flight that may commit already hold. */
  ghost function Held(s: System): set<Directory> {
    set id, d | id in s.ops && Adds(s.ops[id]) && d in s.ops[id].snapshot.directories :: d
  }

  /** The checks in flight that may still bring a new directory. */
  ghost function Adding(s: System): set<nat> { set id | id in s.ops && Adds(s.ops[id]) && Room(s.ops[id]) > 0 }

  /** A record of `base` and `extra` more directories leaves room for everything the checks in flight may add. */
  ghost predicate Fits(s: System, base: set<Directory>, extra: nat) {
    |base + Held(s)| + extra + |Adding(s)| <= MAX_DIRS
  }

  /** The record leaves room for all checks in flight, and so does what any refresh in flight may write over it. */
  ghost predicate Bounded(s: System) {
    && Fits(s, s.saved.directories, 0)
    && forall id :: id in s.ops && Overwrites(s.ops[id]) ==> Fits(s, s.ops[id].snapshot.directories, Room(s.ops[id]))
  }

  /** Ending a check takes away what it held and may bring. */
  lemma EndHeld(s: System, t: System, id: nat)
    requires id in s.ops && t.ops == s.ops - {id}
    ensures Held(t) <= Held(s)
    ensures Held(s) == Held(t) + if Adds(s.ops[id]) then s.ops[id].snapshot.directories else {}
  {
    hide Adds;
    forall d | d in Held(s) ensures d in Held(t) || (Adds(s.ops[id]) && d in s.ops[id].snapshot.directories) {
      var k :| k in s.ops && Adds(s.ops[k]) && d in s.ops[k].snapshot.directories;
      if k != id { assert k in t.ops && t.ops[k] == s.ops[k]; }
    }
    forall d | d in Held(t) ensures d in Held(s) {
      var k :| k in t.ops && Adds(t.ops[k]) && d in t.ops[k].snapshot.directories;
      assert k in s.ops && t.ops[k] == s.ops[k];
    }
  }

  lemma EndAdding(s: System, t: System, id: nat)
    requires id in s.ops && t.ops == s.ops - {id}
    ensures Adding(t) <= Adding(s)
    ensures |Adding(s)| == |Adding(t)| + if Adds(s.ops[id]) then Room(s.ops[id]) else 0
  {
    hide Commits, Room;
    if s.ops[id].Checking? { CheckHasRoomForOne(s.ops[id]); }
    assert Adding(t) == Adding(s) - {id};
  }

  lemma CheckHasRoomForOne(op: Op)
    requires op.Checking?
    ensures Room(op) <= 1
  {
    if op.path.Some? { assert Paths(op) == {op.path.value}; } else { assert Paths(op) == {}; }
  }

  /** A union grows by at most what is new. */
  lemma GrowsBy<T>(a: set<T>, b: set<T>, held: set<T>)
    requires a <= b
    ensures |b + held| <= |a + held| + |b - a|
  {
    assert b + held == (a + held) + (b - a);
    UnionSize(a + held, b - a);
  }

  lemma UnionSize<T>(a: set<T>, b: set<T>)
    ensures |a + b| <= |a| + |b|
  {
    assert a + b == a + (b - a);
    SubsetSize(b - a, b);
  }

  lemma FitsLater(s: System, t: System, base: set<Directory>, extra: nat)
    requires Fits(s, base, extra) && Held(t) <= Held(s) && Adding(t) <= Adding(s)
    ensures Fits(t, base, extra)
  {
    hide Held, Adding;
    SubsetSize(base + Held(t), base + Held(s));
    SubsetSize(Adding(t), Adding(s));
  }

  lemma EndKeepsBounded(host: Host, s: System, a: Action)
    requires Bounded(s) && a.End?
    ensures Bounded(Do(host, s, a))
  {
    hide Committed, Commits, Held, Adding, Adds, Fits;
    if a.id in s.ops {
      var t, op := Do(host, s, a), s.ops[a.id];
      EndHeld(s, t, a.id);
      EndAdding(s, t, a.id);
      forall id | id in t.ops && Overwrites(t.ops[id])
        ensures Fits(t, t.ops[id].snapshot.directories, Room(t.ops[id]))
      {
        FitsLater(s, t, t.ops[id].snapshot.directories, Room(t.ops[id]));
      }
      CommittedIs(host, s, op, a.world);
      if a.stopped || Learned(host, op, a.world).None? {
        FitsLater(s, t, s.saved.directories, 0);
      } else {
        LearnsAtMost(host, op, a.world);
        CommitFits(s, t, a.id, Learned(host, op, a.world).value);
      }
    }
  }

  lemma CommitFits(s: System, t: System, id: nat, dirs: set<Directory>)
    requires id in s.ops && t.ops == s.ops - {id} && Commits(s.ops[id])
    requires s.ops[id].snapshot.directories <= dirs && |dirs - s.ops[id].snapshot.directories| <= Room(s.ops[id])
    requires t.saved.directories == if s.ops[id].Checking? then s.saved.directories + dirs else dirs
    requires if s.ops[id].Checking? then Fits(s, s.saved.directories, 0)
             else Fits(s, s.ops[id].snapshot.directories, Room(s.ops[id]))
    ensures Fits(t, t.saved.directories, 0)
  {
    hide Commits, Held, Adding, Room;
    EndHeld(s, t, id);
    EndAdding(s, t, id);
    var known := s.ops[id].snapshot.directories;
    if s.ops[id].Checking? {
      var saved := s.saved.directories;
      assert saved + dirs + Held(t) <= dirs + (saved + Held(s));
      assert known + (saved + Held(s)) == saved + Held(s);
      SubsetSize(saved + dirs + Held(t), dirs + (saved + Held(s)));
      GrowsBy(known, dirs, saved + Held(s));
    } else {
      SubsetSize(dirs + Held(t), dirs + Held(s));
      SubsetSize(Adding(t), Adding(s));
      GrowsBy(known, dirs, Held(s));
    }
  }

  lemma {:induction false} EndsKeepBounded(host: Host, s: System, actions: seq<Action>)
    requires Bounded(s) && OnlyEnds(actions)
    ensures Bounded(Run(host, s, actions))
    decreases |actions|
  {
    hide Do, Bounded;
    if actions != [] {
      EndsKeepBounded(host, s, actions[..|actions| - 1]);
      EndKeepsBounded(host, Run(host, s, actions[..|actions| - 1]), actions[|actions| - 1]);
    }
  }

  lemma BoundedIsWithin(s: System)
    requires Bounded(s)
    ensures |s.saved.directories| <= MAX_DIRS
  {
    hide Held, Adding;
    SubsetSize(s.saved.directories, s.saved.directories + Held(s));
  }

  // ----- A file tree that brings as many directories as there is room for -----

  /** New directories for a call, as many as it has room for, unless there are too many already. */
  lemma FillRoom(op: Op, avoid: set<Directory>) returns (leads: map<string, Directory>)
    requires Commits(op) && op.snapshot.directories <= avoid
    ensures leads.Keys <= Paths(op) && leads.Values !! avoid
    ensures |avoid| > MAX_DIRS || |leads.Values| == Room(op)
    ensures leads == map[] || |op.snapshot.directories + leads.Values| <= MAX_DIRS
    ensures |Ancestors(op.snapshot.directories + leads.Values)| <= MAX_SCOPES
  {
    hide Ancestors, Paths;
    var known := op.snapshot.directories;
    leads := map[];
    assert known + leads.Values == known;
    if |avoid| <= MAX_DIRS && Room(op) > 0 {
      leads := NewLeads(known, avoid, Paths(op), Room(op));
      UnionSize(known, leads.Values);
    }
  }

  /** What the record has to fit when a call commits: a check adds to it, a refresh starts over. */
  function BaseOf(s: System, op: Op): set<Directory> {
    if op.Checking? then s.saved.directories else op.snapshot.directories
  }

  lemma NewOnTop(base: set<Directory>, known: set<Directory>, held: set<Directory>, more: set<Directory>)
    requires more !! (base + known + held)
    ensures |base + (known + more) + held| == |base + known + held| + |more|
  {
    assert base + (known + more) + held == (base + known + held) + more;
  }

  /** A commit that brings as many new directories as the call has room for. */
  lemma FullCommit(host: Host, s: System, id: nat, avoid: set<Directory>)
    returns (world: World, more: set<Directory>)
    requires id in s.ops && Commits(s.ops[id]) && s.ops[id].snapshot.directories <= avoid
    ensures more !! avoid && (|avoid| > MAX_DIRS || |more| == Room(s.ops[id]))
    ensures var t, op := Do(host, s, End(id, world, false)), s.ops[id];
      t.ops == s.ops - {id} && t.saved.directories == BaseOf(s, op) + (op.snapshot.directories + more)
  {
    hide Committed, Commits, Learned, Ancestors, Paths, PathsOf, Room, Followed;
    var op := s.ops[id];
    var leads := FillRoom(op, avoid);
    world, more := Tree(leads), leads.Values;
    AllFollowed(op, leads);
    LearnsAny(host, op, leads);
    CommittedIs(host, s, op, world);
    assert op.snapshot.directories + (op.snapshot.directories + more) == op.snapshot.directories + more;
  }

  /** One commit that keeps the record from fitting. */
  lemma CommitOverflows(host: Host, s: System, id: nat) returns (world: World)
    requires id in s.ops && Commits(s.ops[id])
    requires !Fits(s, BaseOf(s, s.ops[id]), if s.ops[id].Checking? then 0 else Room(s.ops[id]))
    ensures var t := Do(host, s, End(id, world, false));
      t.ops == s.ops - {id} && !Fits(t, t.saved.directories, 0)
  {
    hide Do, Commits, Room, Fits;
    var op, left := s.ops[id], System(s.saved, s.ops - {id});
    var more;
    world, more := FullCommit(host, s, id, BaseOf(s, op) + op.snapshot.directories + Held(left));
    var t := Do(host, s, End(id, world, false));
    SameOps(left, t);
    StillOverflows(s, t, id, more);
  }

  lemma StillOverflows(s: System, t: System, id: nat, more: set<Directory>)
    requires id in s.ops && t.ops == s.ops - {id} && Commits(s.ops[id])
    requires !Fits(s, BaseOf(s, s.ops[id]), if s.ops[id].Checking? then 0 else Room(s.ops[id]))
    requires t.saved.directories == BaseOf(s, s.ops[id]) + (s.ops[id].snapshot.directories + more)
    requires var avoid := BaseOf(s, s.ops[id]) + s.ops[id].snapshot.directories + Held(t);
      more !! avoid && (|avoid| > MAX_DIRS || |more| == Room(s.ops[id]))
    ensures !Fits(t, t.saved.directories, 0)
  {
    hide Commits, Held, Adding, Room;
    var op := s.ops[id];
    EndHeld(s, t, id);
    EndAdding(s, t, id);
    NewOnTop(BaseOf(s, op), op.snapshot.directories, Held(t), more);
    assert BaseOf(s, op) + Held(s) == BaseOf(s, op) + op.snapshot.directories + Held(t);
  }

  lemma SameOps(s: System, t: System)
    requires s.ops == t.ops
    ensures Held(s) == Held(t) && Adding(s) == Adding(t)
  {
  }

  /** When the record does not fit, ending the checks in flight one by one makes it outgrow the limit. */
  lemma {:induction false} Overflows(host: Host, s: System) returns (actions: seq<Action>)
    requires !Fits(s, s.saved.directories, 0)
    ensures OnlyEnds(actions) && |Run(host, s, actions).saved.directories| > MAX_DIRS
    decreases |s.ops.Keys|
  {
    hide Do, Commits, Room;
    if Held(s) == {} && Adding(s) == {} {
      assert s.saved.directories + {} == s.saved.directories;
      actions := [];
      NoActions(host, s, actions);
    } else {
      hide Held, Adding;
      var id := SomeCheck(s);
      var world := CommitOverflows(host, s, id);
      var t := Do(host, s, End(id, world, false));
      assert t.ops.Keys == s.ops.Keys - {id};
      var rest := Overflows(host, t);
      actions := [End(id, world, false)] + rest;
      FirstAction(host, s, End(id, world, false), rest);
    }
  }

  lemma SomeCheck(s: System) returns (id: nat)
    requires Held(s) != {} || Adding(s) != {}
    ensures id in s.ops && s.ops[id].Checking? && Commits(s.ops[id])
  {
    hide Commits, Room;
    if Held(s) != {} {
      var d :| d in Held(s);
      id :| id in s.ops && Adds(s.ops[id]) && d in s.ops[id].snapshot.directories;
    } else {
      id :| id in Adding(s);
    }
  }

  lemma {:induction false} FirstAction(host: Host, s: System, a: Action, rest: seq<Action>)
    ensures Run(host, s, [a] + rest) == Run(host, Do(host, s, a), rest)
    decreases |rest|
  {
    hide Do;
    if rest == [] {
      assert [a] + rest == [a];
      OneAction(host, s, a);
    } else {
      assert ([a] + rest)[..|rest|] == [a] + rest[..|rest| - 1];
      FirstAction(host, s, a, rest[..|rest| - 1]);
    }
  }

  // ----- Within the limit -----

  /** Whatever the files hold and in whatever order the calls in flight commit, the record stays within 64 directories
      if and only if it leaves room for all of them. */
  lemma DrainStaysWithinIff(host: Host, s: System)
    ensures (forall actions :: OnlyEnds(actions) ==> |Run(host, s, actions).saved.directories| <= MAX_DIRS)
       <==> Bounded(s)
  {
    if Bounded(s) {
      forall actions | OnlyEnds(actions) ensures |Run(host, s, actions).saved.directories| <= MAX_DIRS {
        EndsKeepBounded(host, s, actions);
        BoundedIsWithin(Run(host, s, actions));
      }
    } else {
      var actions := UnboundedOverflows(host, s);
      assert OnlyEnds(actions) && |Run(host, s, actions).saved.directories| > MAX_DIRS;
    }
  }

  lemma UnboundedOverflows(host: Host, s: System) returns (actions: seq<Action>)
    requires !Bounded(s)
    ensures OnlyEnds(actions) && |Run(host, s, actions).saved.directories| > MAX_DIRS
  {
    hide Do, Commits, Room, Fits;
    if !Fits(s, s.saved.directories, 0) {
      actions := Overflows(host, s);
    } else {
      var id :| id in s.ops && Overwrites(s.ops[id]) && !Fits(s, s.ops[id].snapshot.directories, Room(s.ops[id]));
      var world := CommitOverflows(host, s, id);
      var a := End(id, world, false);
      var rest := Overflows(host, Do(host, s, a));
      actions := [a] + rest;
      FirstAction(host, s, a, rest);
    }
  }

  /** A commit cannot take the record beyond the limit. */
  ghost predicate Harmless(s: System, op: Op) {
    Commits(op) ==> |BaseOf(s, op) + op.snapshot.directories| + Room(op) <= MAX_DIRS
  }

  /** One commit keeps the record within the limit, whatever the files hold, exactly when it is harmless: a refresh
      unless it began beyond the limit, a check unless what was recorded meanwhile leaves it too little room. */
  lemma CommitStaysWithinIff(host: Host, s: System, id: nat)
    requires id in s.ops && |s.saved.directories| <= MAX_DIRS
    ensures (forall world :: |Do(host, s, End(id, world, false)).saved.directories| <= MAX_DIRS)
       <==> Harmless(s, s.ops[id])
  {
    hide Committed, Commits, Learned, Room;
    var op := s.ops[id];
    if Harmless(s, op) {
      forall world ensures |Do(host, s, End(id, world, false)).saved.directories| <= MAX_DIRS {
        CommittedIs(host, s, op, world);
        if Learned(host, op, world).Some? {
          LearnsAtMost(host, op, world);
          GrowsBy(op.snapshot.directories, Learned(host, op, world).value, BaseOf(s, op));
          BaseOrMore(s, op, Learned(host, op, world).value);
        }
      }
    } else {
      var world := HarmfulCommit(host, s, id);
      assert |Do(host, s, End(id, world, false)).saved.directories| > MAX_DIRS;
    }
  }

  lemma BaseOrMore(s: System, op: Op, dirs: set<Directory>)
    requires op.snapshot.directories <= dirs
    ensures BaseOf(s, op) + op.snapshot.directories == op.snapshot.directories + BaseOf(s, op)
    ensures dirs + BaseOf(s, op) == if op.Checking? then s.saved.directories + dirs else dirs
  {
  }

  lemma HarmfulCommit(host: Host, s: System, id: nat) returns (world: World)
    requires id in s.ops && !Harmless(s, s.ops[id])
    ensures |Do(host, s, End(id, world, false)).saved.directories| > MAX_DIRS
  {
    hide Do, Commits, Room;
    var op := s.ops[id];
    var avoid := BaseOf(s, op) + op.snapshot.directories;
    var more;
    world, more := FullCommit(host, s, id, avoid);
    NewOnTop(BaseOf(s, op), op.snapshot.directories, {}, more);
    var after := BaseOf(s, op) + (op.snapshot.directories + more);
    assert avoid + {} == avoid && after + {} == after;
  }

  /** Along a run, every way of ending the calls in flight at any moment stays within the limit if and only if, each
      time a call begins, the record leaves room for all calls then in flight. */
  lemma RunStaysWithinIff(host: Host, actions: seq<Action>)
    ensures (forall n, ends :: 0 <= n <= |actions| && OnlyEnds(ends) ==>
              |Run(host, Run(host, START, actions[..n]), ends).saved.directories| <= MAX_DIRS)
       <==> (forall n :: 0 <= n < |actions| && !actions[n].End? ==> Bounded(Run(host, START, actions[..n + 1])))
  {
    hide Run, Bounded, OnlyEnds;
    if forall n :: 0 <= n < |actions| && !actions[n].End? ==> Bounded(Run(host, START, actions[..n + 1])) {
      forall n, ends | 0 <= n <= |actions| && OnlyEnds(ends)
        ensures |Run(host, Run(host, START, actions[..n]), ends).saved.directories| <= MAX_DIRS
      {
        BegunBounded(host, actions, n);
        DrainStaysWithinIff(host, Run(host, START, actions[..n]));
      }
    }
    if forall n, ends :: 0 <= n <= |actions| && OnlyEnds(ends) ==>
         |Run(host, Run(host, START, actions[..n]), ends).saved.directories| <= MAX_DIRS
    {
      forall n | 0 <= n < |actions| && !actions[n].End? ensures Bounded(Run(host, START, actions[..n + 1])) {
        DrainStaysWithinIff(host, Run(host, START, actions[..n + 1]));
      }
    }
  }

  lemma {:induction false} BegunBounded(host: Host, actions: seq<Action>, n: nat)
    requires n <= |actions|
    requires forall k :: 0 <= k < n && !actions[k].End? ==> Bounded(Run(host, START, actions[..k + 1]))
    ensures Bounded(Run(host, START, actions[..n]))
    decreases n
  {
    hide Bounded, Do;
    if n == 0 {
      NoActions(host, START, actions[..0]);
      assert Bounded(START) by { StartIsBounded(); }
    } else if actions[n - 1].End? {
      BegunBounded(host, actions, n - 1);
      assert actions[..n] == actions[..n - 1] + [actions[n - 1]];
      RunOneMore(host, START, actions[..n - 1], actions[n - 1]);
      EndKeepsBounded(host, Run(host, START, actions[..n - 1]), actions[n - 1]);
    }
  }

  lemma StartIsBounded()
    ensures Bounded(START)
  {
    assert Held(START) == {} && Adding(START) == {};
    assert START.saved.directories + {} == {};
  }

  /** No call begins while another is in flight. */
  ghost predicate OneAtATime(host: Host, actions: seq<Action>) {
    forall n :: 0 <= n < |actions| && !actions[n].End? ==> Run(host, START, actions[..n]).ops == map[]
  }

  /** A call that begins alone leaves the record bounded. */
  lemma AloneIsBounded(host: Host, s: System, a: Action)
    requires s.ops == map[] && !a.End? && |s.saved.directories| <= MAX_DIRS
    ensures Bounded(Do(host, s, a))
  {
    hide Commits, Room;
    var t := Do(host, s, a);
    assert forall id :: id in t.ops ==> id == a.id && t.ops[id].snapshot == t.saved;
    assert t.saved.directories + Held(t) == t.saved.directories;
    assert Adding(t) <= {a.id};
    SubsetSize(Adding(t), {a.id});
    RoomWithin(t.ops[a.id]);
    if a.BeginRefresh? {
      assert Held(t) == {} && Adding(t) == {};
    } else {
      CheckHasRoomForOne(t.ops[a.id]);
      if a.id !in Adding(t) { assert Adding(t) == {}; }
    }
  }

  lemma RoomWithin(op: Op)
    requires |op.snapshot.directories| <= MAX_DIRS
    ensures |op.snapshot.directories| + Room(op) <= MAX_DIRS
  {
  }

  /** As long as no two calls overlap, a run never records more than 64 directories. */
  lemma AloneNeverWedges(host: Host, actions: seq<Action>)
    requires OneAtATime(host, actions)
    ensures |Run(host, START, actions).saved.directories| <= MAX_DIRS
  {
    hide Bounded;
    assert actions[..|actions|] == actions;
    AloneBounded(host, actions, |actions|);
    BoundedIsWithin(Run(host, START, actions));
  }

  lemma {:induction false} AloneBounded(host: Host, actions: seq<Action>, n: nat)
    requires n <= |actions| && OneAtATime(host, actions)
    ensures forall k :: 0 <= k <= n ==> Bounded(Run(host, START, actions[..k]))
    decreases n
  {
    hide Bounded, Do;
    if n > 0 {
      AloneBounded(host, actions, n - 1);
      var front := Run(host, START, actions[..n - 1]);
      assert actions[..n] == actions[..n - 1] + [actions[n - 1]];
      RunOneMore(host, START, actions[..n - 1], actions[n - 1]);
      BoundedIsWithin(front);
      if actions[n - 1].End? {
        EndKeepsBounded(host, front, actions[n - 1]);
      } else {
        AloneIsBounded(host, front, actions[n - 1]);
      }
    } else {
      NoActions(host, START, actions[..0]);
      assert Bounded(START) by { StartIsBounded(); }
    }
  }
}
