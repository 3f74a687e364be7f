/** Runs that have outgrown their limit of directories: no check of theirs is answered any more. */
module InstructionWedge {
  import opened Text
  import opened Instructions
  import opened InstructionRuns
  import opened InstructionLimits

  // ----- Beyond the limit -----

  /** More directories are recorded than the limit, and no refresh that could commit remembers fewer. */
  ghost predicate Wedged(s: System) {
    && |s.saved.directories| > MAX_DIRS
    && forall id :: id in s.ops && Overwrites(s.ops[id]) ==> |s.ops[id].snapshot.directories| > MAX_DIRS
  }

  lemma CommitKeepsWedged(host: Host, s: System, op: Op, world: World)
    requires |s.saved.directories| > MAX_DIRS && (Overwrites(op) ==> |op.snapshot.directories| > MAX_DIRS)
    ensures |Committed(host, s, op, world).directories| > MAX_DIRS
    ensures op.Checking? ==> Verdict(host, s, op, world).Err?
  {
    hide Surveyed, Refreshed, Overwrites;
    match op {
      case Checking(snapshot, path, _) =>
        var found := Surveyed(host, world, snapshot, path);
        if found.Ok? { SubsetSize(s.saved.directories, s.saved.directories + found.value.0); }
      case Refreshing(snapshot, history, paths) =>
        if Refreshed(host, world, snapshot, history, paths).Ok? {
          RefreshKeepsSnapshot(host, world, op);
          SubsetSize(snapshot.directories, Refreshed(host, world, snapshot, history, paths).value.directories);
        }
    }
  }

  lemma StepKeepsWedged(host: Host, s: System, a: Action)
    requires Wedged(s)
    ensures Wedged(Do(host, s, a))
  {
    hide Committed, Overwrites, Verdict;
    if a.End? && a.id in s.ops && !a.stopped { CommitKeepsWedged(host, s, s.ops[a.id], a.world); }
  }

  /** A wedged run stays wedged, and every later check that reaches its commit is an error. */
  lemma {:induction false} WedgedForGood(host: Host, s: System, actions: seq<Action>, id: nat, world: World)
    requires Wedged(s)
    ensures Wedged(Run(host, s, actions))
    ensures id in Run(host, s, actions).ops && Run(host, s, actions).ops[id].Checking? ==>
              Verdict(host, Run(host, s, actions), Run(host, s, actions).ops[id], world).Err?
    decreases |actions|
  {
    hide Do, Verdict;
    if actions != [] {
      WedgedForGood(host, s, actions[..|actions| - 1], id, world);
      StepKeepsWedged(host, Run(host, s, actions[..|actions| - 1]), actions[|actions| - 1]);
    }
    var t := Run(host, s, actions);
    if id in t.ops && t.ops[id].Checking? { CommitKeepsWedged(host, t, t.ops[id], world); }
  }

  /** A run stays beyond the limit whatever follows exactly when it is wedged. */
  lemma WedgedIff(host: Host, s: System)
    ensures (forall actions :: |Run(host, s, actions).saved.directories| > MAX_DIRS) <==> Wedged(s)
  {
    if Wedged(s) {
      forall actions ensures |Run(host, s, actions).saved.directories| > MAX_DIRS {
        WedgedForGood(host, s, actions, 0, EmptyWorld());
      }
    } else if |s.saved.directories| <= MAX_DIRS {
      var none: seq<Action> := [];
      NoActions(host, s, none);
      assert |Run(host, s, none).saved.directories| <= MAX_DIRS;
    } else {
      var id :| id in s.ops && Overwrites(s.ops[id]) && |s.ops[id].snapshot.directories| <= MAX_DIRS;
      EmptyRefresh(host, s.ops[id]);
      OneAction(host, s, End(id, EmptyWorld(), false));
      assert |Run(host, s, [End(id, EmptyWorld(), false)]).saved.directories| <= MAX_DIRS;
    }
  }

  lemma FourActions(host: Host, s: System, a: Action, b: Action, c: Action, d: Action)
    ensures Run(host, s, [a, b, c, d]) == Do(host, Do(host, Do(host, Do(host, s, a), b), c), d)
  {
    hide Do, Run;
    OneAction(host, s, a);
    RunOneMore(host, s, [a], b);
    assert [a] + [b] == [a, b] && [a, b] + [c] == [a, b, c] && [a, b, c] + [d] == [a, b, c, d];
    RunOneMore(host, s, [a, b], c);
    RunOneMore(host, s, [a, b, c], d);
  }

  /** Two checks that overlap at 63 directories, each of a new directory, leave 65 recorded: the run is wedged. */
  lemma OverlapWedges(host: Host, s: System, world: World, p: string, q: string, d: Directory, e: Directory)
    requires s.ops == map[] && |s.saved.directories| == MAX_DIRS - 1
    requires world.resolve(p) == Ok(Some(d)) && world.resolve(q) == Ok(Some(e)) && d != e
    requires d !in s.saved.directories && e !in s.saved.directories
    requires Load(host, world, s.saved.directories + {d}).Ok? && Load(host, world, s.saved.directories + {e}).Ok?
    ensures var actions := [BeginCheck(0, Some(p), false), BeginCheck(1, Some(q), false),
                            End(0, world, false), End(1, world, false)];
      && |Run(host, s, actions).saved.directories| == MAX_DIRS + 1 && Wedged(Run(host, s, actions))
  {
    hide Load;
    var b := BeginCheck(0, Some(p), false);
    var c := BeginCheck(1, Some(q), false);
    FourActions(host, s, b, c, End(0, world, false), End(1, world, false));
    var s2 := Do(host, Do(host, s, b), c);
    assert s2.ops == map[0 := Checking(s.saved, Some(p), false), 1 := Checking(s.saved, Some(q), false)];
    var s3 := Do(host, s2, End(0, world, false));
    assert s3.saved.directories == s.saved.directories + {d} && s3.ops[1] == s2.ops[1];
    var s4 := Do(host, s3, End(1, world, false));
    assert s4.saved.directories == s.saved.directories + {d} + {e} && s4.ops == map[];
  }

  // ----- A run that wedges itself -----

  function Names(n: nat): seq<string> { seq(n, k requires 0 <= k < n => Name(k)) }

  /** A project with no instruction files, in which each of the first 65 names leads to its own directory. */
  function Flat(): World { Tree(Leads()) }

  function Leads(): map<string, Directory> { map p | p in Names(MAX_DIRS + 1) :: [p] }

  /** A run's first refresh finds 63 directories in its history. */
  function FirstRefresh(): seq<Action> { [BeginRefresh(0, Ok(Names(MAX_DIRS - 1)), []), End(0, Flat(), false)] }

  /** Then two checks overlap, each of one more directory. */
  function TwoChecks(): seq<Action> {
    [BeginCheck(0, Some(Name(MAX_DIRS - 1)), false), BeginCheck(1, Some(Name(MAX_DIRS)), false),
     End(0, Flat(), false), End(1, Flat(), false)]
  }

  lemma {:induction false} RunConcat(host: Host, s: System, a: seq<Action>, b: seq<Action>)
    ensures Run(host, s, a + b) == Run(host, Run(host, s, a), b)
    decreases |b|
  {
    if b == [] {
      assert a + b == a;
    } else {
      assert (a + b)[..|a + b| - 1] == a + b[..|b| - 1];
      RunConcat(host, s, a, b[..|b| - 1]);
    }
  }

  lemma NamesAreLeads(n: nat)
    requires n <= MAX_DIRS + 1
    ensures Followed(Leads(), Names(n)) == Tops(n)
  {
    var leads := Leads();
    forall k | 0 <= k < n ensures Name(k) in Names(n) && Name(k) in leads && leads[Name(k)] == [Name(k)] {
      assert Names(n)[k] == Name(k) && Names(MAX_DIRS + 1)[k] == Name(k);
    }
    FollowedIs(leads, Names(n));
    forall d | d in Followed(leads, Names(n)) ensures d in Tops(n) {
      var p :| p in Names(n) && p in leads && leads[p] == d;
      var k :| 0 <= k < n && Names(n)[k] == p;
    }
  }

  lemma NameLeads(k: nat)
    requires k <= MAX_DIRS
    ensures Flat().resolve(Name(k)) == Ok(Some([Name(k)]))
  {
    assert Names(MAX_DIRS + 1)[k] == Name(k);
  }

  lemma NotATop(n: nat, k: nat)
    requires n <= k
    ensures [Name(k)] !in Tops(n)
  {
    forall j | 0 <= j < n ensures [Name(k)] != [Name(j)] { assert |Name(k)| == k && |Name(j)| == j; }
  }

  lemma TopsFit(n: nat)
    requires n < MAX_SCOPES
    ensures |Ancestors(Tops(n))| <= n + 1
  {
    forall d | d in Ancestors(Tops(n)) ensures d in {[]} + Tops(n) {
      if d != [] {
        var e, k :| e in Tops(n) && 0 <= k <= |e| && d == e[..k];
        assert |e| == 1 && e[..1] == e && e[..0] == [];
      }
    }
    SubsetSize(Ancestors(Tops(n)), {[]} + Tops(n));
    UnionSize({[]}, Tops(n));
    TopsAre(n);
  }

  lemma SixtyThree(host: Host)
    ensures var s := Run(host, START, FirstRefresh()); s.ops == map[] && s.saved.directories == Tops(MAX_DIRS - 1)
  {
    hide Committed, Learned, Ancestors, Followed, Tops, Tree, Names, Leads;
    var n := MAX_DIRS - 1;
    var b, e := BeginRefresh(0, Ok(Names(n)), []), End(0, Flat(), false);
    var op := Refreshing(NO_RULES, Ok(Names(n)), []);
    NamesAreLeads(n);
    TopsAre(n);
    TopsFit(n);
    assert Names(n) + [] == Names(n) && {} + Tops(n) == Tops(n);
    NothingAbove();
    LearnsAny(host, op, Leads());
    CommittedIs(host, System(NO_RULES, map[0 := op]), op, Flat());
    OneAction(host, START, b);
    assert [b] + [e] == FirstRefresh();
    RunOneMore(host, START, [b], e);
  }

  lemma OneMoreLoads(host: Host, d: Directory, k: nat)
    requires d == [Name(k)]
    ensures Load(host, Flat(), Tops(MAX_DIRS - 1) + {d}).Ok?
  {
    hide Load;
    var n := MAX_DIRS - 1;
    TopsFit(n);
    OneMoreDirectory(Tops(n), d);
    assert Prefixes(d, 2) <= {d[..0], d[..1]};
    SubsetSize(Prefixes(d, 2), {d[..0], d[..1]});
    UnionSize(Ancestors(Tops(n)), Prefixes(d, 2));
    TreeLoads(host, Leads(), Tops(n) + {d});
  }

  /** From an empty record, with files that never change: a refresh that finds 63 directories and two overlapping
      checks of one more each leave 65 recorded, and the run is wedged. */
  lemma OverlapWedgesARun(host: Host)
    ensures var s := Run(host, START, FirstRefresh() + TwoChecks());
      |s.saved.directories| == MAX_DIRS + 1 && Wedged(s)
  {
    hide Run, Do, Wedged, Load, Tops, Tree, Names, Leads;
    var n := MAX_DIRS - 1;
    var s := Run(host, START, FirstRefresh());
    SixtyThree(host);
    TopsAre(n);
    NotATop(n, n);
    NotATop(n, n + 1);
    NameLeads(n);
    NameLeads(n + 1);
    assert |Name(n)| == n && |Name(n + 1)| == n + 1;
    OneMoreLoads(host, [Name(n)], n);
    OneMoreLoads(host, [Name(n + 1)], n + 1);
    OverlapWedges(host, s, Flat(), Name(n), Name(n + 1), [Name(n)], [Name(n + 1)]);
    RunConcat(host, START, FirstRefresh(), TwoChecks());
  }
}
