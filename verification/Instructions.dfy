/** Project guidance: which instruction files a run has been shown, and which calls may go ahead. */
module Instructions {
  import opened Text

  /** A directory below the project root, as its path components; the root is `[]`. */
  type Directory = seq<string>

  const MAX_DIRS: nat := 64
  const MAX_SCOPES: nat := 128
  const MAX_BYTES: nat := 64 * 1024
  const MAX_BODY: nat := 128 * 1024
  const MAX_RUNS: nat := 64

  datatype Error = Configuration | Cancelled

  datatype Found = Missing | Irregular | Unreadable | File(content: seq<byte>)

  /** The file tree at one moment: what stands under a name in a directory, and the directory inside the project
      that a call's path argument leads to, if any. */
  datatype World = World(at: (Directory, string) -> Found, resolve: string -> Result<Option<Directory>, Error>)

  datatype Record = Record(scope: Directory, file: string, text: string)

  datatype Host = Host(sha256: seq<byte> -> string, decode: seq<byte> -> Option<string>,
                       order: set<Directory> -> seq<Directory>, bodySize: seq<Record> -> nat)

  /** An ordered set lists each of its elements once. */
  ghost predicate Lists(host: Host) {
    forall s: set<Directory> ::
      (forall d :: d in host.order(s) <==> d in s)
      && forall i, j :: 0 <= i < j < |host.order(s)| ==> host.order(s)[i] != host.order(s)[j]
  }

  // ----- Loading -----

  /** Every directory from the root down to each of `dirs`. */
  ghost function Ancestors(dirs: set<Directory>): set<Directory> {
    {[]} + set d, n | d in dirs && 0 <= n <= |d| :: d[..n]
  }

  ghost function Prefixes(d: Directory, n: nat): set<Directory>
    requires n <= |d| + 1
  {
    set k | 0 <= k < n :: d[..k]
  }

  lemma OneMoreDirectory(dirs: set<Directory>, d: Directory)
    ensures Ancestors(dirs + {d}) == Ancestors(dirs) + Prefixes(d, |d| + 1)
  {
  }

  datatype Chosen = Chosen(file: string, hash: string, text: string, bytes: nat)

  /** The one instruction file that applies in a scope: the first of the two names that exists. */
  function Choose(host: Host, world: World, scope: Directory, names: seq<string>): Result<Option<Chosen>, Error> {
    if names == [] then Ok(None) else
      match world.at(scope, names[0])
      case Missing => Choose(host, world, scope, names[1..])
      case Irregular => Err(Configuration)
      case Unreadable => Err(Configuration)
      case File(content) =>
        if |content| > MAX_BYTES || host.decode(content).None? then Err(Configuration)
        else Ok(Some(Chosen(names[0], host.sha256(content), host.decode(content).value, |content|)))
  }

  const NAMES: seq<string> := ["AGENTS.md", "CLAUDE.md"]

  type Fingerprints = map<(Directory, string), string>

  datatype Loaded = Loaded(records: seq<Record>, fingerprints: Fingerprints, bytes: nat)

  /** The scopes in order, as far as the combined size allows. */
  function LoadScopes(host: Host, world: World, scopes: seq<Directory>): Result<Loaded, Error>
    decreases |scopes|
  {
    if scopes == [] then Ok(Loaded([], map[], 0)) else
      var n := |scopes| - 1;
      var before := LoadScopes(host, world, scopes[..n]);
      if before.Err? then before else AddScope(before.value, scopes[n], Choose(host, world, scopes[n], NAMES))
  }

  function AddScope(l: Loaded, scope: Directory, choice: Result<Option<Chosen>, Error>): Result<Loaded, Error> {
    if choice.Err? then Err(choice.error)
    else if choice.value.None? then Ok(l)
    else
      var c := choice.value.value;
      if l.bytes + c.bytes > MAX_BYTES then Err(Configuration)
      else Ok(Loaded(l.records + [Record(scope, c.file, c.text)], l.fingerprints[(scope, c.file) := c.hash],
                     l.bytes + c.bytes))
  }

  ghost function Load(host: Host, world: World, dirs: set<Directory>): Result<Loaded, Error> {
    if |Ancestors(dirs)| > MAX_SCOPES then Err(Configuration) else
      var all := LoadScopes(host, world, host.order(Ancestors(dirs)));
      if all.Ok? && host.bodySize(all.value.records) > MAX_BODY && all.value.records != []
      then Err(Configuration) else all
  }

  /** Add every directory on the way down to `d`. */
  method AddScopes(found: set<Directory>, d: Directory) returns (more: Option<set<Directory>>)
    requires |found| <= MAX_SCOPES && [] in found
    ensures more.Some? ==> more.value == found + Prefixes(d, |d| + 1) && |more.value| <= MAX_SCOPES
    ensures more.None? ==> |found + Prefixes(d, |d| + 1)| > MAX_SCOPES
  {
    var all := found;
    assert d[..0] == [] && Prefixes(d, 1) == {[]};
    for n := 1 to |d| + 1
      invariant |all| <= MAX_SCOPES && all == found + Prefixes(d, n)
    {
      var current := d[..n];
      assert Prefixes(d, n + 1) == Prefixes(d, n) + {current};
      if |all| >= MAX_SCOPES && current !in all {
        SubsetSize(all + {current}, found + Prefixes(d, |d| + 1));
        return None;
      }
      all := all + {current};
    }
    more := Some(all);
  }

  /** Collect the ancestor scopes of every directory. */
  method CollectScopes(dirs: set<Directory>) returns (scopes: Option<set<Directory>>)
    ensures scopes == if |Ancestors(dirs)| > MAX_SCOPES then None else Some(Ancestors(dirs))
  {
    var found: set<Directory> := {[]};
    var left := dirs;
    assert Ancestors(dirs - left) == {[]};
    while left != {}
      invariant left <= dirs && |found| <= MAX_SCOPES
      invariant found == Ancestors(dirs - left)
      decreases left
    {
      var d :| d in left;
      var more := AddScopes(found, d);
      OneMoreDirectory(dirs - left, d);
      assert dirs - (left - {d}) == (dirs - left) + {d};
      if more.None? {
        MoreAncestors(dirs - left + {d}, dirs);
        return None;
      }
      left, found := left - {d}, more.value;
    }
    assert dirs - left == dirs;
    scopes := Some(found);
  }

  lemma MoreAncestors(some: set<Directory>, dirs: set<Directory>)
    requires some <= dirs
    ensures |Ancestors(some)| <= |Ancestors(dirs)|
  {
    SubsetSize(Ancestors(some), Ancestors(dirs));
  }

  lemma {:induction false} SubsetSize<T>(a: set<T>, b: set<T>)
    requires a <= b
    ensures |a| <= |b|
  {
    if a != {} {
      var x :| x in a;
      SubsetSize(a - {x}, b - {x});
    }
  }

  /** `load`. */
  method LoadRules(host: Host, world: World, dirs: set<Directory>, cancelled: bool) returns (r: Result<Loaded, Error>)
    ensures r == Load(host, world, dirs) || (cancelled && r == Err(Cancelled))
  {
    var scopes := CollectScopes(dirs);
    if scopes.None? { return Err(Configuration); }
    var order := host.order(scopes.value);
    var loaded := Loaded([], map[], 0);
    for i := 0 to |order|
      invariant LoadScopes(host, world, order[..i]) == Ok(loaded)
    {
      if cancelled { return Err(Cancelled); }
      assert order[..i + 1][..i] == order[..i];
      var choice := Choose(host, world, order[i], NAMES);
      var next := AddScope(loaded, order[i], choice);
      if next.Err? {
        FailsAll(host, world, order, i + 1);
        return Err(next.error);
      }
      loaded := next.value;
    }
    assert order[..|order|] == order;
    if loaded.records != [] && host.bodySize(loaded.records) > MAX_BODY { return Err(Configuration); }
    r := Ok(loaded);
  }

  lemma {:induction false} FailsAll(host: Host, world: World, scopes: seq<Directory>, n: nat)
    requires n <= |scopes| && LoadScopes(host, world, scopes[..n]).Err?
    ensures LoadScopes(host, world, scopes) == LoadScopes(host, world, scopes[..n])
    decreases |scopes|
  {
    if n == |scopes| {
      assert scopes[..n] == scopes;
    } else {
      assert scopes[..|scopes| - 1][..n] == scopes[..n];
      FailsAll(host, world, scopes[..|scopes| - 1], n);
    }
  }

  // ----- What a loaded set of fingerprints says -----

  /** The file and hash recorded for a scope, if any. */
  ghost predicate Shows(f: Fingerprints, scope: Directory, file: string, hash: string) {
    (scope, file) in f && f[(scope, file)] == hash
  }

  /** The file and hash a scope has in the tree now. */
  predicate Picks(host: Host, world: World, scope: Directory, file: string, hash: string) {
    var choice := Choose(host, world, scope, NAMES);
    choice.Ok? && choice.value.Some? && choice.value.value.file == file && choice.value.value.hash == hash
  }

  /** Each listed scope has exactly its chosen file and hash; nothing else is recorded. */
  lemma {:induction false} LoadedIsChosen(host: Host, world: World, scopes: seq<Directory>, f: Fingerprints)
    requires LoadScopes(host, world, scopes).Ok? && LoadScopes(host, world, scopes).value.fingerprints == f
    requires forall i, j :: 0 <= i < j < |scopes| ==> scopes[i] != scopes[j]
    ensures forall scope, file, hash ::
              Shows(f, scope, file, hash) <==> scope in scopes && Picks(host, world, scope, file, hash)
    decreases |scopes|
  {
    hide Choose;
    if scopes != [] {
      var n := |scopes| - 1;
      var front, last := scopes[..n], scopes[n];
      assert scopes == front + [last] && last !in front;
      var g := LoadScopes(host, world, front).value.fingerprints;
      LoadedIsChosen(host, world, front, g);
      var choice := Choose(host, world, last, NAMES).value;
      forall scope, file, hash
        ensures Shows(f, scope, file, hash) <==> scope in scopes && Picks(host, world, scope, file, hash)
      {
        assert Shows(g, scope, file, hash) <==> scope in front && Picks(host, world, scope, file, hash);
        OneMoreShown(g, f, last, choice, scope, file, hash);
      }
    }
  }

  lemma OneMoreShown(g: Fingerprints, f: Fingerprints, last: Directory, choice: Option<Chosen>, scope: Directory,
                     file: string, hash: string)
    requires f == if choice.None? then g else g[(last, choice.value.file) := choice.value.hash]
    ensures scope != last || choice.None? || file != choice.value.file ==>
            (Shows(f, scope, file, hash) <==> Shows(g, scope, file, hash))
    ensures scope == last && choice.Some? && file == choice.value.file ==>
            (Shows(f, scope, file, hash) <==> hash == choice.value.hash)
  {
  }

  // ----- The rules of a run -----

  datatype RunRules = RunRules(directories: set<Directory>, delivered: Fingerprints, historyLoaded: bool)

  const NO_RULES: RunRules := RunRules({}, map[], false)

  function AddPath(world: World, dirs: set<Directory>, path: string): Result<set<Directory>, Error> {
    var found := world.resolve(path);
    if found.Err? then Err(found.error)
    else if found.value.None? then Ok(dirs)
    else if |dirs| >= MAX_DIRS && found.value.value !in dirs then Err(Configuration)
    else Ok(dirs + {found.value.value})
  }

  function AddPaths(world: World, dirs: set<Directory>, paths: seq<string>): Result<set<Directory>, Error>
    decreases |paths|
  {
    if paths == [] then Ok(dirs) else
      var next := AddPath(world, dirs, paths[0]);
      if next.Err? then next else AddPaths(world, next.value, paths[1..])
  }

  method AddMessages(world: World, dirs: set<Directory>, paths: seq<string>) returns (r: Result<set<Directory>, Error>)
    ensures r == AddPaths(world, dirs, paths)
  {
    var all := dirs;
    assert paths[0..] == paths;
    for i := 0 to |paths|
      invariant AddPaths(world, dirs, paths) == AddPaths(world, all, paths[i..])
    {
      assert paths[i..][1..] == paths[i + 1..];
      var next := AddPath(world, all, paths[i]);
      if next.Err? { return next; }
      all := next.value;
    }
    r := Ok(all);
  }

  /** A refresh: the history once, the messages every time, then everything that applies is delivered. */
  ghost function Refreshed(host: Host, world: World, rules: RunRules, history: Result<seq<string>, Error>,
                           paths: seq<string>): Result<RunRules, Error> {
    if !rules.historyLoaded && history.Err? then Err(history.error) else
      var all := AddPaths(world, rules.directories, if rules.historyLoaded then paths else history.value + paths);
      if all.Err? then Err(all.error) else
        var loaded := Load(host, world, all.value);
        if loaded.Err? then Err(loaded.error) else Ok(RunRules(all.value, loaded.value.fingerprints, true))
  }

  /** What a check finds out, from the rules it started with: the directories it knows and what they show now. */
  ghost function Surveyed(host: Host, world: World, rules: RunRules, path: Option<string>)
    : Result<(set<Directory>, Fingerprints), Error>
  {
    var all := if path.None? then Ok(rules.directories) else AddPath(world, rules.directories, path.value);
    if all.Err? then Err(all.error) else
      var loaded := Load(host, world, all.value);
      if loaded.Err? then Err(loaded.error) else Ok((all.value, loaded.value.fingerprints))
  }

  /** The second critical section of a check: its directories are recorded whatever the answer is. */
  function Recorded(saved: RunRules, dirs: set<Directory>): RunRules { saved.(directories := saved.directories + dirs) }

  function Answer(saved: RunRules, dirs: set<Directory>, changed: bool, sideEffects: bool): Result<bool, Error> {
    if |saved.directories + dirs| > MAX_DIRS then Err(Configuration) else Ok(!(sideEffects && changed))
  }

  /** A check that nothing overlaps: the run's rules afterwards, and whether the call may go ahead. */
  ghost function Judged(host: Host, world: World, rules: RunRules, path: Option<string>, sideEffects: bool)
    : Result<(RunRules, bool), Error>
  {
    var found := Surveyed(host, world, rules, path);
    if found.Err? then Err(found.error) else
      var answer := Answer(rules, found.value.0, found.value.1 != rules.delivered, sideEffects);
      if answer.Err? then Err(answer.error) else Ok((Recorded(rules, found.value.0), answer.value))
  }

  class ProjectInstructions {
    const host: Host
    var runs: map<string, RunRules>

    constructor (host: Host)
      ensures this.host == host && runs == map[]
    {
      this.host := host;
      runs := map[];
    }

    ghost function Rules(run: string): RunRules
      reads this
    {
      if run in runs then runs[run] else NO_RULES
    }

    /** A run's rules, created empty at first use. */
    method State(run: string, cancelled: bool) returns (r: Result<RunRules, Error>)
      modifies this`runs
      ensures forall other :: Rules(other) == old(Rules(other))
      ensures r.Ok? ==> r.value == Rules(run) && run in runs
      ensures !cancelled && (run in old(runs) || |old(runs)| < MAX_RUNS) ==> r.Ok?
    {
      if cancelled { return Err(Cancelled); }
      if run !in runs && |runs| >= MAX_RUNS { return Err(Configuration); }
      if run !in runs { runs := runs[run := NO_RULES]; }
      r := Ok(runs[run]);
    }

    /** `sources`. */
    method Sources(run: string, world: World, history: Result<seq<string>, Error>, paths: seq<string>, early: bool,
                   late: bool)
      returns (r: Result<seq<Record>, Error>)
      modifies this`runs
      ensures forall other :: other != run ==> Rules(other) == old(Rules(other))
      ensures r.Ok? ==> Refreshed(host, world, old(Rules(run)), history, paths) == Ok(Rules(run))
                        && Load(host, world, Rules(run).directories).Ok?
                        && Load(host, world, Rules(run).directories).value.records == r.value
      ensures r.Err? ==> Rules(run) == old(Rules(run))
      ensures && !early && !late && (run in old(runs) || |old(runs)| < MAX_RUNS)
              && Refreshed(host, world, old(Rules(run)), history, paths).Ok?
              ==> r.Ok?
    {
      hide Load;
      var state := State(run, early);
      if state.Err? { return Err(state.error); }
      var rules := state.value;
      if !rules.historyLoaded && history.Err? { return Err(history.error); }
      var all := AddMessages(world, rules.directories, if rules.historyLoaded then paths else history.value + paths);
      if all.Err? { return Err(all.error); }
      var loaded := LoadRules(host, world, all.value, late);
      if loaded.Err? { return Err(loaded.error); }
      var stored := CommitSources(run, RunRules(all.value, loaded.value.fingerprints, true), late);
      r := if stored then Ok(loaded.value.records) else Err(Cancelled);
    }

    /** The commit of `sources`: the rules it worked out replace whatever is recorded by then. */
    method CommitSources(run: string, rules: RunRules, cancelled: bool) returns (stored: bool)
      modifies this`runs
      ensures forall other :: other != run ==> Rules(other) == old(Rules(other))
      ensures stored == !cancelled && Rules(run) == if stored then rules else old(Rules(run))
    {
      if cancelled { return false; }
      runs := runs[run := rules];
      stored := true;
    }

    /** The commit of `check`, under the lock again; other calls may have committed since its snapshot. */
    method CommitCheck(run: string, dirs: set<Directory>, changed: bool, sideEffects: bool, cancelled: bool)
      returns (r: Result<bool, Error>)
      modifies this`runs
      ensures forall other :: other != run ==> Rules(other) == old(Rules(other))
      ensures cancelled ==> r == Err(Cancelled) && Rules(run) == old(Rules(run))
      ensures !cancelled ==> r == Answer(old(Rules(run)), dirs, changed, sideEffects)
                             && Rules(run) == Recorded(old(Rules(run)), dirs)
    {
      if cancelled { return Err(Cancelled); }
      var saved := if run in runs then runs[run] else NO_RULES;
      saved := saved.(directories := saved.directories + dirs);
      runs := runs[run := saved];
      if |saved.directories| > MAX_DIRS { return Err(Configuration); }
      r := Ok(!(sideEffects && changed));
    }

    /** `check`, when nothing overlaps it: a directory counts as visited even when the call is refused. */
    method Check(run: string, world: World, path: Option<string>, sideEffects: bool, early: bool, late: bool)
      returns (r: Result<bool, Error>)
      modifies this`runs
      ensures forall other :: other != run ==> Rules(other) == old(Rules(other))
      ensures r.Ok? ==> Judged(host, world, old(Rules(run)), path, sideEffects) == Ok((Rules(run), r.value))
      ensures (!early && !late && (run in old(runs) || |old(runs)| < MAX_RUNS)
               && Judged(host, world, old(Rules(run)), path, sideEffects).Ok?) ==> r.Ok?
      ensures r.Err? ==> Rules(run) == old(Rules(run))
                         || (Surveyed(host, world, old(Rules(run)), path).Ok?
                             && Rules(run)
                               == Recorded(old(Rules(run)), Surveyed(host, world, old(Rules(run)), path).value.0))
    {
      hide Load;
      var state := State(run, early);
      if state.Err? { return Err(state.error); }
      var rules := state.value;
      var all := if path.None? then Ok(rules.directories) else AddPath(world, rules.directories, path.value);
      if all.Err? { return Err(all.error); }
      var loaded := LoadRules(host, world, all.value, late);
      if loaded.Err? { return Err(loaded.error); }
      r := CommitCheck(run, all.value, loaded.value.fingerprints != rules.delivered, sideEffects, late);
    }

    /** `finish`. */
    method Finish(run: string)
      modifies this`runs
      ensures runs == old(runs) - {run}
    {
      runs := runs - {run};
    }
  }

  // ----- Main results -----

  lemma LoadShows(host: Host, world: World, dirs: set<Directory>)
    requires Lists(host) && Load(host, world, dirs).Ok?
    ensures forall scope, file, hash :: Shows(Load(host, world, dirs).value.fingerprints, scope, file, hash) <==>
                                        scope in Ancestors(dirs) && Picks(host, world, scope, file, hash)
  {
    hide LoadScopes, Picks, Ancestors, Shows;
    LoadedIsChosen(host, world, host.order(Ancestors(dirs)), Load(host, world, dirs).value.fingerprints);
  }

  lemma SurveyGrows(host: Host, world: World, rules: RunRules, path: Option<string>, dirs: set<Directory>,
                    f: Fingerprints)
    requires Surveyed(host, world, rules, path) == Ok((dirs, f))
    ensures rules.directories <= dirs && rules.directories + dirs == dirs
    ensures Load(host, world, dirs).Ok? && Load(host, world, dirs).value.fingerprints == f
  {
    hide Load;
  }

  /** What a check finds is what was delivered exactly when, in every ancestor scope of every directory it knows, the
      file and hash in the tree now are the delivered ones, and nothing else was delivered. */
  lemma SurveyIsFreshIff(host: Host, world: World, rules: RunRules, path: Option<string>, dirs: set<Directory>,
                         f: Fingerprints)
    requires Lists(host) && Surveyed(host, world, rules, path) == Ok((dirs, f))
    ensures f == rules.delivered <==>
              forall scope, file, hash ::
                Shows(rules.delivered, scope, file, hash) <==>
                scope in Ancestors(dirs) && Picks(host, world, scope, file, hash)
  {
    hide Load, Picks, Ancestors, Shows, Surveyed;
    SurveyGrows(host, world, rules, path, dirs, f);
    LoadShows(host, world, dirs);
    SameShown(f, rules.delivered);
  }

  /** A check that nothing overlaps lets a side-effecting call go ahead exactly when every ancestor scope of every
      visited directory shows what was last delivered. */
  lemma AllowedIffFresh(host: Host, world: World, rules: RunRules, path: Option<string>, after: RunRules, allowed: bool)
    requires Lists(host) && Judged(host, world, rules, path, true) == Ok((after, allowed))
    ensures allowed <==> forall scope, file, hash ::
                           Shows(rules.delivered, scope, file, hash) <==>
                           scope in Ancestors(after.directories) && Picks(host, world, scope, file, hash)
  {
    hide Picks, Ancestors, Shows, Surveyed;
    var (dirs, f) := Surveyed(host, world, rules, path).value;
    SurveyGrows(host, world, rules, path, dirs, f);
    SurveyIsFreshIff(host, world, rules, path, dirs, f);
  }

  lemma SameShown(f: Fingerprints, g: Fingerprints)
    ensures f == g <==> forall scope, file, hash :: Shows(f, scope, file, hash) <==> Shows(g, scope, file, hash)
  {
    if forall scope, file, hash :: Shows(f, scope, file, hash) <==> Shows(g, scope, file, hash) {
      forall k | k in f ensures k in g && g[k] == f[k] { assert Shows(f, k.0, k.1, f[k]); }
      forall k | k in g ensures k in f { assert Shows(g, k.0, k.1, g[k]); }
    }
  }

  lemma {:induction false} AddPathsGrow(world: World, dirs: set<Directory>, paths: seq<string>)
    requires AddPaths(world, dirs, paths).Ok?
    ensures dirs <= AddPaths(world, dirs, paths).value
    ensures |dirs| <= MAX_DIRS ==> |AddPaths(world, dirs, paths).value| <= MAX_DIRS
    decreases |paths|
  {
    if paths != [] { AddPathsGrow(world, AddPath(world, dirs, paths[0]).value, paths[1..]); }
  }

  /** After a refusal, a successful refresh with the files unchanged makes the same call go ahead. */
  lemma RefreshUnblocks(host: Host, world: World, rules: RunRules, path: Option<string>, denied: RunRules,
                        history: Result<seq<string>, Error>, paths: seq<string>, refreshed: RunRules)
    requires Judged(host, world, rules, path, true) == Ok((denied, false))
    requires Refreshed(host, world, denied, history, paths) == Ok(refreshed)
    ensures Judged(host, world, refreshed, path, true) == Ok((refreshed, true))
  {
    hide Load;
    var more := if denied.historyLoaded then paths else history.value + paths;
    AddPathsGrow(world, denied.directories, more);
    assert refreshed.directories + refreshed.directories == refreshed.directories;
    if path.Some? && world.resolve(path.value).value.Some? {
      var d := world.resolve(path.value).value.value;
      assert d in denied.directories && d in refreshed.directories;
      assert refreshed.directories + {d} == refreshed.directories;
    }
  }

  // ----- What is loaded and why -----

  /** A file that may be read as guidance. */
  predicate Readable(host: Host, found: Found) {
    found.File? && |found.content| <= MAX_BYTES && host.decode(found.content).Some?
  }

  function ChosenFrom(host: Host, name: string, content: seq<byte>, text: string): Chosen {
    Chosen(name, host.sha256(content), text, |content|)
  }

  lemma OneName(host: Host, world: World, scope: Directory, name: string, names: seq<string>)
    requires names != [] && names[0] == name
    ensures var found := world.at(scope, name);
      Choose(host, world, scope, names)
        == if found == Missing then Choose(host, world, scope, names[1..])
           else if !Readable(host, found) then Err(Configuration)
           else Ok(Some(ChosenFrom(host, name, found.content, host.decode(found.content).value)))
  {
  }

  /** In a scope the first of the two names that stands for anything decides: it must be a readable regular file, and is
      then the one that applies. */
  lemma ChoiceIs(host: Host, world: World, scope: Directory)
    ensures var (a, c) := (world.at(scope, "AGENTS.md"), world.at(scope, "CLAUDE.md"));
      var (name, found) := if a != Missing then ("AGENTS.md", a) else ("CLAUDE.md", c);
      Choose(host, world, scope, NAMES)
        == if found == Missing then Ok(None)
           else if !Readable(host, found) then Err(Configuration)
           else Ok(Some(ChosenFrom(host, name, found.content, host.decode(found.content).value)))
  {
    var later := NAMES[1..];
    assert later == ["CLAUDE.md"] && later[1..] == [];
    OneName(host, world, scope, "CLAUDE.md", later);
    OneName(host, world, scope, "AGENTS.md", NAMES);
  }

  function BytesOf(host: Host, world: World, scopes: seq<Directory>): nat {
    if scopes == [] then 0 else
      var choice := Choose(host, world, scopes[|scopes| - 1], NAMES);
      BytesOf(host, world, scopes[..|scopes| - 1])
      + if choice.Ok? && choice.value.Some? then choice.value.value.bytes else 0
  }

  function RecordsOf(host: Host, world: World, scopes: seq<Directory>): seq<Record> {
    if scopes == [] then [] else
      var (last, choice) := (scopes[|scopes| - 1], Choose(host, world, scopes[|scopes| - 1], NAMES));
      RecordsOf(host, world, scopes[..|scopes| - 1])
      + if choice.Err? || choice.value.None? then []
        else [Record(last, choice.value.value.file, choice.value.value.text)]
  }

  /** Loading succeeds exactly when every scope is regular and all files together stay within 64 KiB; what is delivered
      is one record for each scope that has a file, ancestors before descendants as the scopes are ordered. */
  lemma {:induction false} LoadIs(host: Host, world: World, scopes: seq<Directory>)
    ensures LoadScopes(host, world, scopes).Ok? <==>
              && (forall i :: 0 <= i < |scopes| ==> Choose(host, world, scopes[i], NAMES).Ok?)
              && BytesOf(host, world, scopes) <= MAX_BYTES
    ensures LoadScopes(host, world, scopes).Ok? ==>
              && LoadScopes(host, world, scopes).value.records == RecordsOf(host, world, scopes)
              && LoadScopes(host, world, scopes).value.bytes == BytesOf(host, world, scopes)
    decreases |scopes|
  {
    hide Choose;
    if scopes != [] {
      var n := |scopes| - 1;
      LoadIs(host, world, scopes[..n]);
      assert forall i :: 0 <= i < n ==> scopes[..n][i] == scopes[i];
      assert RecordsOf(host, world, scopes[..n]) + [] == RecordsOf(host, world, scopes[..n]);
    }
  }

  lemma {:induction false} PathsAreAdded(world: World, dirs: set<Directory>, paths: seq<string>, p: string)
    requires AddPaths(world, dirs, paths).Ok? && p in paths
    ensures world.resolve(p).Ok?
    ensures world.resolve(p).value.Some? ==> world.resolve(p).value.value in AddPaths(world, dirs, paths).value
    decreases |paths|
  {
    var next := AddPath(world, dirs, paths[0]).value;
    if p == paths[0] {
      AddPathsGrow(world, next, paths[1..]);
    } else {
      PathsAreAdded(world, next, paths[1..], p);
    }
  }

  /** A refresh knows the directory of every path the messages name, and of every path of the history, which is read
      once; and it is then up to date with all of them. */
  lemma RefreshCovers(host: Host, world: World, rules: RunRules, history: Result<seq<string>, Error>,
                      paths: seq<string>, p: string)
    requires Refreshed(host, world, rules, history, paths).Ok?
    requires p in paths || (!rules.historyLoaded && history.Ok? && p in history.value)
    ensures Refreshed(host, world, rules, history, paths).value.historyLoaded && world.resolve(p).Ok?
    ensures world.resolve(p).value.Some? ==>
              world.resolve(p).value.value in Refreshed(host, world, rules, history, paths).value.directories
  {
    hide Load;
    PathsAreAdded(world, rules.directories, if rules.historyLoaded then paths else history.value + paths, p);
  }

  /** Everything that applies to some directories loads exactly when they have at most 128 ancestor scopes, every scope
      is regular, all files together stay within 64 KiB, and so does what is made of them within 128 KiB. */
  lemma LoadIff(host: Host, world: World, dirs: set<Directory>)
    ensures var scopes := host.order(Ancestors(dirs));
      Load(host, world, dirs).Ok? <==>
        && |Ancestors(dirs)| <= 128
        && (forall i :: 0 <= i < |scopes| ==> Choose(host, world, scopes[i], NAMES).Ok?)
        && BytesOf(host, world, scopes) <= 64 * 1024
        && (RecordsOf(host, world, scopes) == [] || host.bodySize(RecordsOf(host, world, scopes)) <= 128 * 1024)
  {
    hide Choose, Ancestors;
    LoadIs(host, world, host.order(Ancestors(dirs)));
  }
}
