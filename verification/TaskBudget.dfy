/** Accounting branches under one root quota: a tree of counters updated by concurrent calls, one atomic at a time. */
module TaskBudget {
  import opened Text

  // ----- Counters -----

  datatype Usage = Usage(input: nat, output: nat) {
    function Total(): nat { SatAdd(input, output) }
  }

  /** One branch: its two atomics, and the statistics its mutex guards. */
  datatype Node = Node(parent: Option<nat>, calls: nat, tokens: nat, incomplete: bool, input: nat, output: nat)

  datatype Limits = Limits(maxModelCalls: nat, maxReportedTokens: Option<nat>)

  /** Branches in the order they were made; only the first is a root. */
  predicate Tree(nodes: seq<Node>) {
    && nodes != [] && nodes[0].parent.None?
    && forall i :: 0 < i < |nodes| ==> nodes[i].parent.Some? && nodes[i].parent.value < i
  }

  /** From the root down to a branch. */
  function Path(nodes: seq<Node>, v: nat): (path: seq<nat>)
    requires Tree(nodes) && v < |nodes|
    ensures path != [] && path[0] == 0 && path[|path| - 1] == v
    ensures forall i :: 0 <= i < |path| ==> path[i] <= v
  {
    if v == 0 then [0] else Path(nodes, nodes[v].parent.value) + [v]
  }

  lemma {:induction false} PathAscends(nodes: seq<Node>, v: nat)
    requires Tree(nodes) && v < |nodes|
    ensures forall i, j :: 0 <= i < j < |Path(nodes, v)| ==> Path(nodes, v)[i] < Path(nodes, v)[j]
  {
    if v > 0 { PathAscends(nodes, nodes[v].parent.value); }
  }

  function EmptyNode(parent: Option<nat>): Node { Node(parent, 0, 0, false, 0, 0) }

  /** Only the counters of one branch change. */
  predicate SameShape(a: seq<Node>, b: seq<Node>) {
    |a| <= |b| && forall i :: 0 <= i < |a| ==> a[i].parent == b[i].parent
  }

  lemma {:induction false} PathKept(a: seq<Node>, b: seq<Node>, v: nat)
    requires Tree(a) && Tree(b) && SameShape(a, b) && v < |a|
    ensures Path(a, v) == Path(b, v)
  {
    if v > 0 { PathKept(a, b, a[v].parent.value); }
  }

  // ----- Atomic updates -----

  function Counted(n: Node): Node { n.(calls := n.calls + 1) }

  /** One branch's share of `record_attempt`, under its statistics lock. */
  function Recorded(n: Node, usage: Option<Usage>): Node {
    if usage.None? then n.(incomplete := true)
    else n.(input := SatAdd(n.input, usage.value.input), output := SatAdd(n.output, usage.value.output),
            tokens := SatAdd(n.tokens, usage.value.Total()))
  }

  predicate Alive(limits: Limits, seen: nat) {
    limits.maxReportedTokens.Some? ==> seen < limits.maxReportedTokens.value
  }

  // ----- One caller alone -----

  /** The tree as its only user sees it. */
  class TaskTree {
    const limits: Limits
    var nodes: seq<Node>

    constructor (limits: Limits)
      ensures this.limits == limits && nodes == [EmptyNode(None)] && Tree(nodes)
    {
      this.limits := limits;
      nodes := [EmptyNode(None)];
    }

    method Branch(parent: nat) returns (v: nat)
      requires Tree(nodes) && parent < |nodes|
      modifies this`nodes
      ensures Tree(nodes) && v == |old(nodes)| && nodes == old(nodes) + [EmptyNode(Some(parent))]
    {
      v := |nodes|;
      nodes := nodes + [EmptyNode(Some(parent))];
    }

    /** Neither cancelled, past the deadline, nor over the reported-token limit. */
    predicate Open(v: nat, stopped: nat -> bool)
      requires v < |nodes|
      reads this
    {
      !stopped(v) && Alive(limits, nodes[v].tokens)
    }

    /** `check`: the branch and every ancestor, ancestors first. */
    method Check(v: nat, stopped: nat -> bool) returns (ok: bool)
      requires Tree(nodes) && v < |nodes|
      ensures ok <==> forall u :: u in Path(nodes, v) ==>
                        !stopped(u) && (limits.maxReportedTokens.Some? ==>
                                          nodes[u].tokens < limits.maxReportedTokens.value)
      ensures ok <==> forall u :: u in Path(nodes, v) ==> Open(u, stopped)
      decreases v
    {
      assert v in Path(nodes, v) by { assert Path(nodes, v)[|Path(nodes, v)| - 1] == v; }
      if nodes[v].parent.Some? {
        var above := Check(nodes[v].parent.value, stopped);
        assert Path(nodes, v) == Path(nodes, nodes[v].parent.value) + [v];
        if !above { return false; }
      }
      ok := !stopped(v) && Alive(limits, nodes[v].tokens);
    }

    /** `reserve_model_call`: the root grants, and the grant is counted on the whole path or nowhere. */
    method ReserveModelCall(v: nat, stopped: nat -> bool) returns (ok: bool)
      requires Tree(nodes) && v < |nodes|
      modifies this`nodes
      ensures Tree(nodes) && SameShape(old(nodes), nodes) && |nodes| == |old(nodes)|
      ensures ok <==> old((forall u :: u in Path(nodes, v) ==> Open(u, stopped))
                          && nodes[0].calls < limits.maxModelCalls)
      ensures ok ==> forall u :: 0 <= u < |nodes| ==>
                       nodes[u] == if u in Path(old(nodes), v) then Counted(old(nodes)[u]) else old(nodes)[u]
      ensures !ok ==> nodes == old(nodes)
      decreases v
    {
      assert nodes[v].parent.Some? ==> Path(nodes, v) == Path(nodes, nodes[v].parent.value) + [v];
      var free := Check(v, stopped);
      if !free { return false; }
      if nodes[v].parent.Some? {
        ok := ReserveModelCall(nodes[v].parent.value, stopped);
        if !ok { return; }
        nodes := nodes[v := Counted(nodes[v])];
      } else {
        if nodes[0].calls >= limits.maxModelCalls { return false; }
        nodes := nodes[0 := Counted(nodes[0])];
        ok := true;
      }
    }

    /** `record_attempt`: the branch first, then every ancestor. */
    method RecordAttempt(v: nat, usage: Option<Usage>)
      requires Tree(nodes) && v < |nodes|
      modifies this`nodes
      ensures Tree(nodes) && SameShape(old(nodes), nodes) && |nodes| == |old(nodes)|
      ensures forall u :: 0 <= u < |nodes| ==>
              nodes[u] == if u in Path(old(nodes), v) then Recorded(old(nodes)[u], usage) else old(nodes)[u]
      decreases v
    {
      ghost var before := nodes;
      nodes := nodes[v := Recorded(nodes[v], usage)];
      if nodes[v].parent.Some? {
        PathKept(before, nodes, nodes[v].parent.value);
        RecordAttempt(nodes[v].parent.value, usage);
      }
    }
  }

  // ----- Many callers at once -----

  /** A call in flight. `Reserving` still has `left` checks to pass, from its branch up to the root; `Counting` holds a
      grant already counted on the first `done` branches of its path; `Recording` is still to reach the first `left`. */
  datatype Op =
    | Reserving(path: seq<nat>, left: nat, since: seq<nat>)
    | Counting(path: seq<nat>, done: nat)
    | Recording(path: seq<nat>, left: nat, usage: Option<Usage>)

  datatype Report = Report(path: seq<nat>, usage: Option<Usage>)

  /** `grants` and `reports` remember the calls that have returned. */
  datatype System = System(nodes: seq<Node>, ops: seq<Op>, grants: seq<seq<nat>>, reports: seq<Report>)

  function Tokens(nodes: seq<Node>): (t: seq<nat>)
    ensures |t| == |nodes| && forall i :: 0 <= i < |t| ==> t[i] == nodes[i].tokens
  {
    seq(|nodes|, i requires 0 <= i < |nodes| => nodes[i].tokens)
  }

  /** Every step any thread can take next. A check may read each counter at any moment since its call began. */
  datatype Action =
    | Branch(parent: nat)
    | StartReserve(v: nat)
    | Check(op: nat, seen: nat -> nat, stopped: bool)
    | Grant(op: nat)
    | Count(op: nat)
    | StartRecord(v: nat, usage: Option<Usage>)
    | Record(op: nat)
    | Return(op: nat)

  function Without(ops: seq<Op>, i: nat): seq<Op>
    requires i < |ops|
  {
    ops[..i] + ops[i + 1..]
  }

  ghost predicate Enabled(limits: Limits, s: System, a: Action)
    requires Inv(limits, s)
  {
    match a
    case Branch(parent) => parent < |s.nodes|
    case StartReserve(v) => v < |s.nodes|
    case StartRecord(v, _) => v < |s.nodes|
    case Check(i, seen, _) =>
      i < |s.ops| && s.ops[i].Reserving? && s.ops[i].left > 0
      && forall u :: u in s.ops[i].path ==> s.ops[i].since[u] <= seen(u) <= s.nodes[u].tokens
    case Grant(i) => i < |s.ops| && s.ops[i].Reserving? && s.ops[i].left == 0
    case Count(i) => i < |s.ops| && s.ops[i].Counting? && s.ops[i].done < |s.ops[i].path|
    case Record(i) => i < |s.ops| && s.ops[i].Recording? && s.ops[i].left > 0
    case Return(i) =>
      i < |s.ops|
        && ((s.ops[i].Counting? && s.ops[i].done == |s.ops[i].path|) || (s.ops[i].Recording? && s.ops[i].left == 0))
  }

  /** A check at one branch reads the counters of that branch and everything above it. */
  predicate Passes(limits: Limits, op: Op, seen: nat -> nat)
    requires op.Reserving? && 0 < op.left <= |op.path|
  {
    forall k :: 0 <= k < op.left ==> Alive(limits, seen(op.path[k]))
  }

  function Step(limits: Limits, s: System, a: Action): System
    requires Inv(limits, s) && Enabled(limits, s, a)
  {
    match a
    case Branch(parent) => s.(nodes := s.nodes + [EmptyNode(Some(parent))])
    case StartReserve(v) => var path := Path(s.nodes, v); s.(ops := s.ops + [Reserving(path, |path|, Tokens(s.nodes))])
    case StartRecord(v, usage) => var path := Path(s.nodes, v); s.(ops := s.ops + [Recording(path, |path|, usage)])
    case Check(i, seen, stopped) =>
      if stopped || !Passes(limits, s.ops[i], seen) then s.(ops := Without(s.ops, i))
      else s.(ops := s.ops[i := Reserving(s.ops[i].path, s.ops[i].left - 1, s.ops[i].since)])
    case Grant(i) =>
      if s.nodes[0].calls < limits.maxModelCalls
      then s.(nodes := s.nodes[0 := Counted(s.nodes[0])], ops := s.ops[i := Counting(s.ops[i].path, 1)])
      else s.(ops := Without(s.ops, i))
    case Count(i) =>
      var u := s.ops[i].path[s.ops[i].done];
      s.(nodes := s.nodes[u := Counted(s.nodes[u])], ops := s.ops[i := Counting(s.ops[i].path, s.ops[i].done + 1)])
    case Record(i) =>
      var u := s.ops[i].path[s.ops[i].left - 1];
      var op := Recording(s.ops[i].path, s.ops[i].left - 1, s.ops[i].usage);
      s.(nodes := s.nodes[u := Recorded(s.nodes[u], s.ops[i].usage)], ops := s.ops[i := op])
    case Return(i) =>
      if s.ops[i].Counting? then s.(ops := Without(s.ops, i), grants := s.grants + [s.ops[i].path])
      else s.(ops := Without(s.ops, i), reports := s.reports + [Report(s.ops[i].path, s.ops[i].usage)])
  }

  // ----- Sums over calls -----

  function SumOver<T>(s: seq<T>, f: T -> nat): nat {
    if s == [] then 0 else SumOver(s[..|s| - 1], f) + f(s[|s| - 1])
  }

  lemma {:induction false} SumConcat<T>(a: seq<T>, b: seq<T>, f: T -> nat)
    ensures SumOver(a + b, f) == SumOver(a, f) + SumOver(b, f)
    decreases |b|
  {
    if b == [] {
      assert a + b == a;
    } else {
      assert (a + b)[..|a + b| - 1] == a + b[..|b| - 1];
      SumConcat(a, b[..|b| - 1], f);
    }
  }

  lemma SumAppend<T>(s: seq<T>, x: T, f: T -> nat)
    ensures SumOver(s + [x], f) == SumOver(s, f) + f(x)
  {
    assert (s + [x])[..|s|] == s;
  }

  lemma SumSplit<T>(s: seq<T>, i: nat, f: T -> nat)
    requires i < |s|
    ensures SumOver(s, f) == SumOver(s[..i] + s[i + 1..], f) + f(s[i])
  {
    hide SumOver;
    assert s == s[..i] + [s[i]] + s[i + 1..];
    SumConcat(s[..i] + [s[i]], s[i + 1..], f);
    SumAppend(s[..i], s[i], f);
    SumConcat(s[..i], s[i + 1..], f);
  }

  lemma SumUpdate<T>(s: seq<T>, i: nat, x: T, f: T -> nat)
    requires i < |s|
    ensures SumOver(s[i := x], f) + f(s[i]) == SumOver(s, f) + f(x)
  {
    SumSplit(s, i, f);
    SumSplit(s[i := x], i, f);
    assert s[i := x][..i] == s[..i] && s[i := x][i + 1..] == s[i + 1..];
  }

  function One(b: bool): nat { if b then 1 else 0 }

  datatype Kind = InTotal | Inputs | Outputs | Unknowns

  /** What a report adds to each statistic. */
  function Amount(kind: Kind, usage: Option<Usage>): nat {
    match kind
    case InTotal => if usage.None? then 0 else usage.value.Total()
    case Inputs => if usage.None? then 0 else usage.value.input
    case Outputs => if usage.None? then 0 else usage.value.output
    case Unknowns => One(usage.None?)
  }

  /** What calls in flight have put on branch `v` so far, and what returned calls put there. */
  function CallsBy(v: nat): Op -> nat {
    (op: Op) => One(op.Counting? && op.done <= |op.path| && v in op.path[..op.done])
  }

  function Reached(v: nat, op: Op): bool { op.Recording? && op.left <= |op.path| && v in op.path[op.left..] }

  function AmountBy(kind: Kind, v: nat): Op -> nat { (op: Op) => if Reached(v, op) then Amount(kind, op.usage) else 0 }

  function GrantOn(v: nat): seq<nat> -> nat { (path: seq<nat>) => One(v in path) }

  function AmountOn(kind: Kind, v: nat): Report -> nat {
    (r: Report) => if v in r.path then Amount(kind, r.usage) else 0
  }

  function CallsAt(s: System, v: nat): nat { SumOver(s.grants, GrantOn(v)) + SumOver(s.ops, CallsBy(v)) }

  /** Everything reported that has reached the branch. */
  function AmountAt(s: System, kind: Kind, v: nat): nat {
    SumOver(s.reports, AmountOn(kind, v)) + SumOver(s.ops, AmountBy(kind, v))
  }

  // ----- The invariant -----

  ghost predicate IsPath(nodes: seq<Node>, path: seq<nat>)
    requires Tree(nodes)
  {
    exists v :: 0 <= v < |nodes| && path == Path(nodes, v)
  }

  ghost predicate ValidOp(nodes: seq<Node>, op: Op)
    requires Tree(nodes)
  {
    && IsPath(nodes, op.path)
    && match op
       case Reserving(path, left, since) => left <= |path| && forall u :: u in path ==> u < |since|
       case Counting(path, done) => 1 <= done <= |path|
       case Recording(path, left, _) => left <= |path|
  }

  /** A branch shows exactly what reached it, up to saturation. */
  predicate Balanced(s: System, v: nat)
    requires v < |s.nodes|
  {
    && s.nodes[v].calls == CallsAt(s, v)
    && s.nodes[v].tokens == Min(AmountAt(s, InTotal, v), WORD_MAX)
    && s.nodes[v].input == Min(AmountAt(s, Inputs, v), WORD_MAX)
    && s.nodes[v].output == Min(AmountAt(s, Outputs, v), WORD_MAX)
    && (s.nodes[v].incomplete <==> AmountAt(s, Unknowns, v) > 0)
    && s.nodes[v].tokens == SatAdd(s.nodes[v].input, s.nodes[v].output)
  }

  ghost predicate Inv(limits: Limits, s: System) {
    && Tree(s.nodes) && s.nodes[0].calls <= limits.maxModelCalls
    && (forall i :: 0 <= i < |s.ops| ==> ValidOp(s.nodes, s.ops[i]))
    && (forall i :: 0 <= i < |s.grants| ==> IsPath(s.nodes, s.grants[i]))
    && (forall i :: 0 <= i < |s.reports| ==> IsPath(s.nodes, s.reports[i].path))
    && forall v :: 0 <= v < |s.nodes| ==> Balanced(s, v)
  }

  predicate IsStart(s: System) {
    s.nodes == [EmptyNode(None)] && s.ops == [] && s.grants == [] && s.reports == []
  }

  lemma StartHolds(limits: Limits, s: System)
    requires IsStart(s)
    ensures Inv(limits, s)
  {
    hide CallsAt, AmountAt;
    NothingCounted(s, 0);
    assert Balanced(s, 0);
  }

  lemma NothingCounted(s: System, v: nat)
    requires s.ops == [] && s.grants == [] && s.reports == []
    ensures CallsAt(s, v) == 0 && forall kind: Kind :: AmountAt(s, kind, v) == 0
  {
    SumZero(s.ops, CallsBy(v));
    SumZero(s.grants, GrantOn(v));
    forall kind: Kind ensures AmountAt(s, kind, v) == 0 {
      SumZero(s.ops, AmountBy(kind, v));
      SumZero(s.reports, AmountOn(kind, v));
    }
  }

  lemma PathsKept(a: seq<Node>, b: seq<Node>, path: seq<nat>)
    requires Tree(a) && Tree(b) && SameShape(a, b) && IsPath(a, path)
    ensures IsPath(b, path) && forall u :: u in path ==> u < |a|
  {
    var v :| 0 <= v < |a| && path == Path(a, v);
    PathKept(a, b, v);
    assert path == Path(b, v);
  }

  /** The shape part of the invariant, kept by any change of counters and any new branch. */
  lemma ShapeKept(limits: Limits, s: System, t: System)
    requires Inv(limits, s) && Tree(t.nodes) && SameShape(s.nodes, t.nodes)
    ensures forall i :: 0 <= i < |s.ops| ==> ValidOp(t.nodes, s.ops[i])
    ensures forall i :: 0 <= i < |s.grants| ==> IsPath(t.nodes, s.grants[i])
    ensures forall i :: 0 <= i < |s.reports| ==> IsPath(t.nodes, s.reports[i].path)
  {
    hide Balanced;
    forall i | 0 <= i < |s.ops| ensures ValidOp(t.nodes, s.ops[i]) {
      assert ValidOp(s.nodes, s.ops[i]);
      PathsKept(s.nodes, t.nodes, s.ops[i].path);
    }
    forall i | 0 <= i < |s.grants| ensures IsPath(t.nodes, s.grants[i]) { PathsKept(s.nodes, t.nodes, s.grants[i]); }
    forall i | 0 <= i < |s.reports| ensures IsPath(t.nodes, s.reports[i].path) {
      PathsKept(s.nodes, t.nodes, s.reports[i].path);
    }
  }

  /** Saturating once per report or once at the end comes to the same. */
  lemma SaturationCommutes(n: Node, sum: nat, usage: Usage)
    requires n.tokens == Min(sum, WORD_MAX) && n.tokens == SatAdd(n.input, n.output)
    ensures Recorded(n, Some(usage)).tokens == Min(sum + usage.Total(), WORD_MAX)
    ensures Recorded(n, Some(usage)).tokens == SatAdd(Recorded(n, Some(usage)).input, Recorded(n, Some(usage)).output)
    ensures forall i: nat :: n.input == Min(i, WORD_MAX) ==>
              Recorded(n, Some(usage)).input == Min(i + usage.input, WORD_MAX)
    ensures forall o: nat :: n.output == Min(o, WORD_MAX) ==>
              Recorded(n, Some(usage)).output == Min(o + usage.output, WORD_MAX)
  {
  }

  // ----- Every step keeps the invariant -----

  ghost predicate SameCounts(s: System, t: System, v: nat) {
    CallsAt(t, v) == CallsAt(s, v) && forall kind: Kind :: AmountAt(t, kind, v) == AmountAt(s, kind, v)
  }

  /** Replacing one call in flight shifts the counts by what it contributes. */
  lemma OpReplaced(s: System, t: System, i: nat, op: Op, v: nat)
    requires i < |s.ops| && t.ops == s.ops[i := op] && t.grants == s.grants && t.reports == s.reports
    ensures CallsAt(t, v) + CallsBy(v)(s.ops[i]) == CallsAt(s, v) + CallsBy(v)(op)
    ensures forall kind: Kind ::
              AmountAt(t, kind, v) + AmountBy(kind, v)(s.ops[i]) == AmountAt(s, kind, v) + AmountBy(kind, v)(op)
  {
    hide SumOver;
    SumUpdate(s.ops, i, op, CallsBy(v));
    forall kind: Kind
      ensures AmountAt(t, kind, v) + AmountBy(kind, v)(s.ops[i]) == AmountAt(s, kind, v) + AmountBy(kind, v)(op)
    {
      SumUpdate(s.ops, i, op, AmountBy(kind, v));
    }
  }

  lemma OpAdded(s: System, op: Op, v: nat)
    requires (op.Reserving?) || (op.Recording? && op.left == |op.path|)
    ensures SameCounts(s, s.(ops := s.ops + [op]), v)
  {
    hide SumOver;
    SumAppend(s.ops, op, CallsBy(v));
    forall kind: Kind ensures AmountAt(s.(ops := s.ops + [op]), kind, v) == AmountAt(s, kind, v) {
      SumAppend(s.ops, op, AmountBy(kind, v));
    }
  }

  lemma OpRefused(s: System, i: nat, v: nat)
    requires i < |s.ops| && s.ops[i].Reserving?
    ensures SameCounts(s, s.(ops := Without(s.ops, i)), v)
  {
    hide SumOver;
    OpGone(s, i, v);
  }

  lemma GrantReturned(s: System, i: nat, v: nat)
    requires i < |s.ops| && s.ops[i].Counting? && s.ops[i].done == |s.ops[i].path|
    ensures SameCounts(s, s.(ops := Without(s.ops, i), grants := s.grants + [s.ops[i].path]), v)
  {
    hide SumOver;
    var path := s.ops[i].path;
    assert path[..|path|] == path;
    OpGone(s, i, v);
    SumAppend(s.grants, path, GrantOn(v));
  }

  lemma ReportReturned(s: System, i: nat, v: nat)
    requires i < |s.ops| && s.ops[i].Recording? && s.ops[i].left == 0
    ensures SameCounts(s, s.(ops := Without(s.ops, i), reports := s.reports + [Report(s.ops[i].path, s.ops[i].usage)]),
                       v)
  {
    hide SumOver;
    var path := s.ops[i].path;
    assert path[0..] == path;
    OpGone(s, i, v);
    var r := Report(path, s.ops[i].usage);
    var t := s.(ops := Without(s.ops, i), reports := s.reports + [r]);
    forall kind: Kind ensures AmountAt(t, kind, v) == AmountAt(s, kind, v) {
      SumAppend(s.reports, r, AmountOn(kind, v));
    }
  }

  lemma OpGone(s: System, i: nat, v: nat)
    requires i < |s.ops|
    ensures SumOver(s.ops, CallsBy(v)) == SumOver(Without(s.ops, i), CallsBy(v)) + CallsBy(v)(s.ops[i])
    ensures forall kind: Kind :: SumOver(s.ops, AmountBy(kind, v))
                                == SumOver(Without(s.ops, i), AmountBy(kind, v)) + AmountBy(kind, v)(s.ops[i])
  {
    hide SumOver;
    SumSplit(s.ops, i, CallsBy(v));
    forall kind: Kind ensures SumOver(s.ops, AmountBy(kind, v))
                             == SumOver(Without(s.ops, i), AmountBy(kind, v)) + AmountBy(kind, v)(s.ops[i])
    {
      SumSplit(s.ops, i, AmountBy(kind, v));
    }
  }

  /** The counters do not move and neither does what they should show. */
  lemma QuietStep(limits: Limits, s: System, t: System)
    requires Inv(limits, s) && t.nodes == s.nodes && forall v :: 0 <= v < |s.nodes| ==> SameCounts(s, t, v)
    requires forall i :: 0 <= i < |t.ops| ==> ValidOp(t.nodes, t.ops[i])
    requires forall i :: 0 <= i < |t.grants| ==> IsPath(t.nodes, t.grants[i])
    requires forall i :: 0 <= i < |t.reports| ==> IsPath(t.nodes, t.reports[i].path)
    ensures Inv(limits, t)
  {
    hide CallsAt, AmountAt, ValidOp, IsPath;
    forall v | 0 <= v < |t.nodes| ensures Balanced(t, v) { assert Balanced(s, v) && SameCounts(s, t, v); }
  }

  lemma {:induction false} SumZero<T>(s: seq<T>, f: T -> nat)
    requires forall i :: 0 <= i < |s| ==> f(s[i]) == 0
    ensures SumOver(s, f) == 0
  {
    if s != [] { SumZero(s[..|s| - 1], f); }
  }

  /** A new branch has been reached by nothing. */
  lemma NewBranchIsEmpty(limits: Limits, s: System, v: nat)
    requires Inv(limits, s) && v >= |s.nodes|
    ensures CallsAt(s, v) == 0 && forall kind: Kind :: AmountAt(s, kind, v) == 0
  {
    hide Balanced;
    forall path | IsPath(s.nodes, path) ensures v !in path { }
    forall i | 0 <= i < |s.ops| ensures v !in s.ops[i].path { assert ValidOp(s.nodes, s.ops[i]); }
    SumZero(s.ops, CallsBy(v));
    SumZero(s.grants, GrantOn(v));
    forall kind: Kind ensures AmountAt(s, kind, v) == 0 {
      SumZero(s.ops, AmountBy(kind, v));
      SumZero(s.reports, AmountOn(kind, v));
    }
  }

  lemma BranchKeeps(limits: Limits, s: System, parent: nat)
    requires Inv(limits, s) && parent < |s.nodes|
    ensures Inv(limits, s.(nodes := s.nodes + [EmptyNode(Some(parent))]))
  {
    var t := s.(nodes := s.nodes + [EmptyNode(Some(parent))]);
    ShapeKept(limits, s, t);
    NewBranchIsEmpty(limits, s, |s.nodes|);
    hide ValidOp, IsPath, SumOver, CallsBy, AmountBy, GrantOn, AmountOn;
    forall v | 0 <= v < |t.nodes| ensures Balanced(t, v) {
      assert SameCounts(s, t, v);
      if v < |s.nodes| { assert Balanced(s, v); }
    }
  }

  lemma PathIs(nodes: seq<Node>, path: seq<nat>)
    requires Tree(nodes) && IsPath(nodes, path)
    ensures path != [] && path[0] == 0 && forall i :: 0 <= i < |path| ==> path[i] < |nodes|
    ensures forall i, j :: 0 <= i < j < |path| ==> path[i] < path[j]
  {
    var v :| 0 <= v < |nodes| && path == Path(nodes, v);
    PathAscends(nodes, v);
  }

  lemma SameBalance(s: System, t: System, v: nat)
    requires v < |s.nodes| && v < |t.nodes| && t.nodes[v] == s.nodes[v] && Balanced(s, v) && SameCounts(s, t, v)
    ensures Balanced(t, v)
  {
    hide CallsAt, AmountAt;
  }

  /** One counter moves, and with it what one call in flight has contributed there. */
  lemma CounterStep(limits: Limits, s: System, t: System, i: nat, op: Op, u: nat, n: Node)
    requires Inv(limits, s) && i < |s.ops| && u < |s.nodes|
    requires t == s.(nodes := s.nodes[u := n], ops := s.ops[i := op]) && n.parent == s.nodes[u].parent
    requires op.path == s.ops[i].path && ValidOp(s.nodes, op)
    requires forall v :: 0 <= v < |s.nodes| && v != u ==> SameCounts(s, t, v)
    requires Balanced(t, u) && (u == 0 ==> n.calls <= limits.maxModelCalls)
    ensures Inv(limits, t)
  {
    assert Tree(t.nodes) && SameShape(s.nodes, t.nodes);
    ShapeKept(limits, s, t);
    PathsKept(s.nodes, t.nodes, op.path);
    hide Balanced, SameCounts, IsPath;
    forall v | 0 <= v < |t.nodes| ensures Balanced(t, v) {
      if v != u { SameBalance(s, t, v); }
    }
    forall k | 0 <= k < |t.ops| ensures ValidOp(t.nodes, t.ops[k]) {
      if k != i { assert ValidOp(t.nodes, s.ops[k]); }
    }
  }

  lemma GrantKeeps(limits: Limits, s: System, i: nat)
    requires Inv(limits, s) && i < |s.ops| && s.ops[i].Reserving? && s.nodes[0].calls < limits.maxModelCalls
    ensures Inv(limits, s.(nodes := s.nodes[0 := Counted(s.nodes[0])], ops := s.ops[i := Counting(s.ops[i].path, 1)]))
  {
    var op := Counting(s.ops[i].path, 1);
    var t := s.(nodes := s.nodes[0 := Counted(s.nodes[0])], ops := s.ops[i := op]);
    assert ValidOp(s.nodes, s.ops[i]);
    PathIs(s.nodes, op.path);
    forall v | 0 <= v < |s.nodes| ensures v != 0 ==> SameCounts(s, t, v) { OpReplaced(s, t, i, op, v); }
    OpReplaced(s, t, i, op, 0);
    assert Balanced(s, 0);
    CounterStep(limits, s, t, i, op, 0, Counted(s.nodes[0]));
  }

  lemma CountMoves(s: System, t: System, i: nat, path: seq<nat>, done: nat, v: nat)
    requires i < |s.ops| && s.ops[i] == Counting(path, done) && done < |path| && path[done] !in path[..done]
    requires t.ops == s.ops[i := Counting(path, done + 1)] && t.grants == s.grants && t.reports == s.reports
    ensures CallsAt(t, v) == CallsAt(s, v) + One(v == path[done])
    ensures forall kind: Kind :: AmountAt(t, kind, v) == AmountAt(s, kind, v)
  {
    hide CallsAt, AmountAt, SumOver;
    var op := Counting(path, done + 1);
    assert path[..done + 1] == path[..done] + [path[done]];
    OpReplaced(s, t, i, op, v);
  }

  lemma CountKeeps(limits: Limits, s: System, i: nat)
    requires Inv(limits, s) && i < |s.ops| && s.ops[i].Counting? && s.ops[i].done < |s.ops[i].path|
    requires ValidOp(s.nodes, s.ops[i]) && s.ops[i].path[s.ops[i].done] < |s.nodes|
    ensures var u := s.ops[i].path[s.ops[i].done];
      Inv(limits,
          s.(nodes := s.nodes[u := Counted(s.nodes[u])], ops := s.ops[i := Counting(s.ops[i].path, s.ops[i].done + 1)]))
  {
    var (path, done) := (s.ops[i].path, s.ops[i].done);
    var u, op := path[done], Counting(path, done + 1);
    var t := s.(nodes := s.nodes[u := Counted(s.nodes[u])], ops := s.ops[i := op]);
    PathIs(s.nodes, path);
    assert u !in path[..done] && u != 0;
    hide CallsAt, AmountAt, IsPath;
    forall v | 0 <= v < |s.nodes| ensures v != u ==> SameCounts(s, t, v) { CountMoves(s, t, i, path, done, v); }
    CountMoves(s, t, i, path, done, u);
    assert Balanced(s, u);
    CounterStep(limits, s, t, i, op, u, Counted(s.nodes[u]));
  }

  lemma RecordMoves(s: System, t: System, i: nat, path: seq<nat>, left: nat, usage: Option<Usage>, v: nat)
    requires i < |s.ops| && s.ops[i] == Recording(path, left, usage) && 0 < left <= |path|
             && path[left - 1] !in path[left..]
    requires t.ops == s.ops[i := Recording(path, left - 1, usage)] && t.grants == s.grants && t.reports == s.reports
    ensures CallsAt(t, v) == CallsAt(s, v)
    ensures forall kind: Kind ::
            AmountAt(t, kind, v) == AmountAt(s, kind, v) + if v == path[left - 1] then Amount(kind, usage) else 0
  {
    hide CallsAt, AmountAt, SumOver;
    var op := Recording(path, left - 1, usage);
    assert path[left - 1..] == [path[left - 1]] + path[left..];
    OpReplaced(s, t, i, op, v);
  }

  lemma RecordBalances(s: System, t: System, u: nat, usage: Option<Usage>)
    requires u < |s.nodes| && u < |t.nodes| && Balanced(s, u) && t.nodes[u] == Recorded(s.nodes[u], usage)
    requires CallsAt(t, u) == CallsAt(s, u)
    requires forall kind: Kind :: AmountAt(t, kind, u) == AmountAt(s, kind, u) + Amount(kind, usage)
    ensures Balanced(t, u)
  {
    hide CallsAt, AmountAt;
    if usage.Some? { SaturationCommutes(s.nodes[u], AmountAt(s, InTotal, u), usage.value); }
  }

  lemma RecordKeeps(limits: Limits, s: System, i: nat)
    requires Inv(limits, s) && i < |s.ops| && s.ops[i].Recording? && 0 < s.ops[i].left <= |s.ops[i].path|
    requires ValidOp(s.nodes, s.ops[i]) && s.ops[i].path[s.ops[i].left - 1] < |s.nodes|
    ensures var u := s.ops[i].path[s.ops[i].left - 1];
      Inv(limits, s.(nodes := s.nodes[u := Recorded(s.nodes[u], s.ops[i].usage)],
                     ops := s.ops[i := Recording(s.ops[i].path, s.ops[i].left - 1, s.ops[i].usage)]))
  {
    var (path, left, usage) := (s.ops[i].path, s.ops[i].left, s.ops[i].usage);
    var u, op := path[left - 1], Recording(path, left - 1, usage);
    var t := s.(nodes := s.nodes[u := Recorded(s.nodes[u], usage)], ops := s.ops[i := op]);
    PathIs(s.nodes, path);
    assert u !in path[left..];
    hide CallsAt, AmountAt, IsPath;
    forall v | 0 <= v < |s.nodes| ensures v != u ==> SameCounts(s, t, v) { RecordMoves(s, t, i, path, left, usage, v); }
    RecordMoves(s, t, i, path, left, usage, u);
    RecordBalances(s, t, u, usage);
    hide Balanced;
    CounterStep(limits, s, t, i, op, u, Recorded(s.nodes[u], usage));
  }

  lemma StepKeepsInv(limits: Limits, s: System, a: Action)
    requires Inv(limits, s) && Enabled(limits, s, a)
    ensures Inv(limits, Step(limits, s, a))
  {
    hide Balanced, SameCounts;
    var t := Step(limits, s, a);
    match a {
      case Branch(parent) => BranchKeeps(limits, s, parent);
      case StartReserve(v) =>
        forall v | 0 <= v < |s.nodes| ensures SameCounts(s, t, v) { OpAdded(s, t.ops[|s.ops|], v); }
        QuietStep(limits, s, t);
      case StartRecord(v, usage) =>
        forall v | 0 <= v < |s.nodes| ensures SameCounts(s, t, v) { OpAdded(s, t.ops[|s.ops|], v); }
        QuietStep(limits, s, t);
      case Check(i, seen, stopped) => CheckKeeps(limits, s, i, t);
      case Grant(i) =>
        if s.nodes[0].calls < limits.maxModelCalls { GrantKeeps(limits, s, i); } else { RefusalKeeps(limits, s, i); }
      case Count(i) =>
        assert ValidOp(s.nodes, s.ops[i]);
        PathIs(s.nodes, s.ops[i].path);
        CountKeeps(limits, s, i);
      case Record(i) =>
        assert ValidOp(s.nodes, s.ops[i]);
        PathIs(s.nodes, s.ops[i].path);
        RecordKeeps(limits, s, i);
      case Return(i) => ReturnKeeps(limits, s, i);
    }
  }

  lemma ReturnKeeps(limits: Limits, s: System, i: nat)
    requires Inv(limits, s) && Enabled(limits, s, Return(i))
    ensures Inv(limits, Step(limits, s, Return(i)))
  {
    hide Balanced, SameCounts, IsPath;
    var t := Step(limits, s, Return(i));
    assert ValidOp(s.nodes, s.ops[i]);
    forall v | 0 <= v < |s.nodes| ensures SameCounts(s, t, v) {
      if s.ops[i].Counting? { GrantReturned(s, i, v); } else { ReportReturned(s, i, v); }
    }
    QuietStep(limits, s, t);
  }

  lemma RefusalKeeps(limits: Limits, s: System, i: nat)
    requires Inv(limits, s) && i < |s.ops| && s.ops[i].Reserving?
    ensures Inv(limits, s.(ops := Without(s.ops, i)))
  {
    hide Balanced, SameCounts;
    forall v | 0 <= v < |s.nodes| ensures SameCounts(s, s.(ops := Without(s.ops, i)), v) { OpRefused(s, i, v); }
    QuietStep(limits, s, s.(ops := Without(s.ops, i)));
  }

  lemma CheckKeeps(limits: Limits, s: System, i: nat, t: System)
    requires Inv(limits, s) && i < |s.ops| && s.ops[i].Reserving? && s.ops[i].left > 0
    requires t == s.(ops := Without(s.ops, i))
             || t == s.(ops := s.ops[i := Reserving(s.ops[i].path, s.ops[i].left - 1, s.ops[i].since)])
    ensures Inv(limits, t)
  {
    hide Balanced;
    if t == s.(ops := Without(s.ops, i)) {
      RefusalKeeps(limits, s, i);
    } else {
      assert ValidOp(s.nodes, s.ops[i]);
      forall v | 0 <= v < |s.nodes| ensures SameCounts(s, t, v) { OpReplaced(s, t, i, t.ops[i], v); }
      QuietStep(limits, s, t);
    }
  }

  // ----- Runs -----

  function Start(): (s: System)
    ensures IsStart(s)
  {
    System([EmptyNode(None)], [], [], [])
  }

  /** The state any interleaving reaches; an action that is not possible where it stands changes nothing. In every
      interleaving each branch shows exactly what has reached it, and the quota holds at the root. */
  ghost function Run(limits: Limits, actions: seq<Action>): (s: System)
    ensures Inv(limits, s)
    decreases |actions|
  {
    if actions == [] then
      StartHolds(limits, Start());
      Start()
    else
      var s := Run(limits, actions[..|actions| - 1]);
      var a := actions[|actions| - 1];
      if Enabled(limits, s, a) then
        StepKeepsInv(limits, s, a);
        Step(limits, s, a)
      else s
  }

  /** Every branch's input and output statistics are the input and output of all reports that have reached it, each
      saturated, and its reported total is their saturating sum, at every moment; and the root never grants more calls
      than its quota. */
  lemma AccountingAgrees(limits: Limits, actions: seq<Action>, v: nat)
    requires v < |Run(limits, actions).nodes|
    ensures var (s, n) := (Run(limits, actions), Run(limits, actions).nodes[v]);
      && n.tokens == SatAdd(n.input, n.output)
      && n.input == Min(AmountAt(s, Inputs, v), WORD_MAX) && n.output == Min(AmountAt(s, Outputs, v), WORD_MAX)
    ensures Run(limits, actions).nodes[0].calls <= limits.maxModelCalls
  {
    assert Balanced(Run(limits, actions), v);
  }

  // ----- When every call has returned -----

  function ChildSum(nodes: seq<Node>, v: nat, n: nat, f: nat -> nat): nat
    requires n <= |nodes|
  {
    if n == 0 then 0 else ChildSum(nodes, v, n - 1, f) + if nodes[n - 1].parent == Some(v) then f(n - 1) else 0
  }

  lemma {:induction false} ChildSumAdds(nodes: seq<Node>, v: nat, n: nat, f: nat -> nat, g: nat -> nat, h: nat -> nat)
    requires n <= |nodes| && forall c :: 0 <= c < n ==> h(c) == f(c) + g(c)
    ensures ChildSum(nodes, v, n, h) == ChildSum(nodes, v, n, f) + ChildSum(nodes, v, n, g)
  {
    if n > 0 { ChildSumAdds(nodes, v, n - 1, f, g, h); }
  }

  lemma {:induction false} ChildSumSame(nodes: seq<Node>, v: nat, n: nat, f: nat -> nat, g: nat -> nat)
    requires n <= |nodes| && forall c :: 0 <= c < n ==> f(c) == g(c)
    ensures ChildSum(nodes, v, n, f) == ChildSum(nodes, v, n, g)
  {
    if n > 0 { ChildSumSame(nodes, v, n - 1, f, g); }
  }

  function OnPath(path: seq<nat>, w: nat): nat -> nat { (c: nat) => if c in path then w else 0 }

  lemma {:induction false} ChildSumSingle(nodes: seq<Node>, v: nat, n: nat, u: nat, w: nat)
    requires n <= |nodes| && u < |nodes|
    ensures ChildSum(nodes, v, n, OnPath([u], w)) == if u < n && nodes[u].parent == Some(v) then w else 0
  {
    if n > 0 { ChildSumSingle(nodes, v, n - 1, u, w); }
  }

  /** A path through a branch ends there or goes on through exactly one of its children. */
  lemma {:induction false} PathSplits(nodes: seq<Node>, u: nat, v: nat, w: nat)
    requires Tree(nodes) && u < |nodes| && v < |nodes|
    ensures OnPath(Path(nodes, u), w)(v)
            == (if u == v then w else 0) + ChildSum(nodes, v, |nodes|, OnPath(Path(nodes, u), w))
  {
    var n := |nodes|;
    ChildSumSingle(nodes, v, n, u, w);
    if u == 0 {
      assert Path(nodes, u) == [u];
    } else {
      var p := nodes[u].parent.value;
      PathSplits(nodes, p, v, w);
      assert Path(nodes, u) == Path(nodes, p) + [u] && u !in Path(nodes, p);
      ChildSumAdds(nodes, v, n, OnPath(Path(nodes, p), w), OnPath([u], w), OnPath(Path(nodes, u), w));
    }
  }

  predicate On(path: seq<nat>, v: nat) { path != [] && path[|path| - 1] == v }

  /** Calls made on branch `v` itself. */
  function DirectCalls(v: nat): seq<nat> -> nat { (path: seq<nat>) => One(On(path, v)) }

  /** Reports made on branch `v` itself. */
  function Direct(kind: Kind, v: nat): Report -> nat {
    (r: Report) => if On(r.path, v) then Amount(kind, r.usage) else 0
  }

  function GrantsOn(grants: seq<seq<nat>>): nat -> nat { (c: nat) => SumOver(grants, GrantOn(c)) }

  function ReportsOn(reports: seq<Report>, kind: Kind): nat -> nat { (c: nat) => SumOver(reports, AmountOn(kind, c)) }

  lemma {:induction false} ChildSumZero(nodes: seq<Node>, v: nat, n: nat, f: nat -> nat)
    requires n <= |nodes| && forall c :: 0 <= c < n ==> f(c) == 0
    ensures ChildSum(nodes, v, n, f) == 0
  {
    if n > 0 { ChildSumZero(nodes, v, n - 1, f); }
  }

  lemma {:induction false} GrantsSplit(nodes: seq<Node>, grants: seq<seq<nat>>, v: nat)
    requires Tree(nodes) && v < |nodes| && forall i :: 0 <= i < |grants| ==> IsPath(nodes, grants[i])
    ensures SumOver(grants, GrantOn(v))
            == SumOver(grants, DirectCalls(v)) + ChildSum(nodes, v, |nodes|, GrantsOn(grants))
    decreases |grants|
  {
    var n := |nodes|;
    if grants == [] {
      ChildSumZero(nodes, v, n, GrantsOn(grants));
    } else {
      var rest, path := grants[..|grants| - 1], grants[|grants| - 1];
      GrantsSplit(nodes, rest, v);
      var u :| 0 <= u < n && path == Path(nodes, u);
      PathSplits(nodes, u, v, 1);
      ChildSumAdds(nodes, v, n, GrantsOn(rest), OnPath(path, 1), GrantsOn(grants));
    }
  }

  lemma OneReportSplits(nodes: seq<Node>, r: Report, kind: Kind, v: nat)
    requires Tree(nodes) && v < |nodes| && IsPath(nodes, r.path)
    ensures AmountOn(kind, v)(r)
         == Direct(kind, v)(r) + ChildSum(nodes, v, |nodes|, OnPath(r.path, Amount(kind, r.usage)))
  {
    var u :| 0 <= u < |nodes| && r.path == Path(nodes, u);
    PathSplits(nodes, u, v, Amount(kind, r.usage));
  }

  lemma {:induction false} ReportsSplit(nodes: seq<Node>, reports: seq<Report>, kind: Kind, v: nat)
    requires Tree(nodes) && v < |nodes| && forall i :: 0 <= i < |reports| ==> IsPath(nodes, reports[i].path)
    ensures SumOver(reports, AmountOn(kind, v))
            == SumOver(reports, Direct(kind, v)) + ChildSum(nodes, v, |nodes|, ReportsOn(reports, kind))
    decreases |reports|
  {
    var n := |nodes|;
    if reports == [] {
      ChildSumZero(nodes, v, n, ReportsOn(reports, kind));
    } else {
      var rest, r := reports[..|reports| - 1], reports[|reports| - 1];
      ReportsSplit(nodes, rest, kind, v);
      OneReportSplits(nodes, r, kind, v);
      hide Path, Amount;
      ChildSumAdds(nodes, v, n, ReportsOn(rest, kind), OnPath(r.path, Amount(kind, r.usage)), ReportsOn(reports, kind));
    }
  }

  function CallsOf(nodes: seq<Node>): nat -> nat { (c: nat) => if c < |nodes| then nodes[c].calls else 0 }

  /** Quiescent: each branch's calls are its direct reservations plus its children's calls. */
  lemma CallsAddUp(limits: Limits, actions: seq<Action>, s: System, v: nat)
    requires s == Run(limits, actions) && s.ops == [] && v < |s.nodes|
    ensures s.nodes[v].calls == SumOver(s.grants, DirectCalls(v))
                                        + ChildSum(s.nodes, v, |s.nodes|, CallsOf(s.nodes))
  {
    GrantsSplit(s.nodes, s.grants, v);
    assert Balanced(s, v);
    forall c | 0 <= c < |s.nodes| ensures GrantsOn(s.grants)(c) == CallsOf(s.nodes)(c) { assert Balanced(s, c); }
    ChildSumSame(s.nodes, v, |s.nodes|, GrantsOn(s.grants), CallsOf(s.nodes));
  }

  /** Quiescent: each of a branch's totals is everything of its kind reported on the branch or below, saturated once,
      and every such sum is the branch's own reports plus its children's sums. */
  lemma TokensAddUp(limits: Limits, actions: seq<Action>, s: System, v: nat)
    requires s == Run(limits, actions) && s.ops == [] && v < |s.nodes|
    ensures s.nodes[v].tokens == Min(ReportsOn(s.reports, InTotal)(v), WORD_MAX)
    ensures s.nodes[v].input == Min(ReportsOn(s.reports, Inputs)(v), WORD_MAX)
    ensures s.nodes[v].output == Min(ReportsOn(s.reports, Outputs)(v), WORD_MAX)
    ensures forall kind: Kind :: ReportsOn(s.reports, kind)(v) == SumOver(s.reports, Direct(kind, v))
                                + ChildSum(s.nodes, v, |s.nodes|, ReportsOn(s.reports, kind))
  {
    forall kind: Kind ensures ReportsOn(s.reports, kind)(v) == SumOver(s.reports, Direct(kind, v))
                             + ChildSum(s.nodes, v, |s.nodes|, ReportsOn(s.reports, kind))
    {
      ReportsSplit(s.nodes, s.reports, kind, v);
    }
    assert Balanced(s, v);
  }

  // ----- Reports and grants are what callers asked for -----

  /** Reports in flight made on branch `v` itself, and reservations on it not yet returned or refused. */
  function DirectBy(kind: Kind, v: nat): Op -> nat {
    (op: Op) => if op.Recording? && On(op.path, v) then Amount(kind, op.usage) else 0
  }

  function HeldBy(v: nat): Op -> nat { (op: Op) => One(!op.Recording? && On(op.path, v)) }

  /** What callers have reported on branch `v`, and how often they have asked it for a call. */
  ghost function Asked(limits: Limits, actions: seq<Action>, kind: Kind, v: nat): nat {
    if actions == [] then 0 else
      var front, a := actions[..|actions| - 1], actions[|actions| - 1];
      Asked(limits, front, kind, v)
      + if Enabled(limits, Run(limits, front), a) && a.StartRecord? && a.v == v then Amount(kind, a.usage) else 0
  }

  ghost function Wanted(limits: Limits, actions: seq<Action>, v: nat): nat {
    if actions == [] then 0 else
      var front, a := actions[..|actions| - 1], actions[|actions| - 1];
      Wanted(limits, front, v) + One(Enabled(limits, Run(limits, front), a) && a == StartReserve(v))
  }

  function ReportedOn(s: System, kind: Kind, v: nat): nat {
    SumOver(s.reports, Direct(kind, v)) + SumOver(s.ops, DirectBy(kind, v))
  }

  function TakenOn(s: System, v: nat): nat { SumOver(s.grants, DirectCalls(v)) + SumOver(s.ops, HeldBy(v)) }

  lemma ReturnReports(s: System, i: nat, kind: Kind, v: nat)
    requires i < |s.ops|
    ensures s.ops[i].Counting? ==>
              ReportedOn(s.(ops := Without(s.ops, i), grants := s.grants + [s.ops[i].path]), kind, v)
              == ReportedOn(s, kind, v)
    ensures s.ops[i].Recording? ==>
              ReportedOn(s.(ops := Without(s.ops, i),
                            reports := s.reports + [Report(s.ops[i].path, s.ops[i].usage)]), kind, v)
              == ReportedOn(s, kind, v)
  {
    hide SumOver, Amount;
    SumSplit(s.ops, i, DirectBy(kind, v));
    if s.ops[i].Recording? { SumAppend(s.reports, Report(s.ops[i].path, s.ops[i].usage), Direct(kind, v)); }
  }

  lemma StepReports(limits: Limits, s: System, a: Action, kind: Kind, v: nat)
    requires Inv(limits, s) && Enabled(limits, s, a)
    ensures ReportedOn(Step(limits, s, a), kind, v)
         == ReportedOn(s, kind, v) + if a.StartRecord? && a.v == v then Amount(kind, a.usage) else 0
  {
    hide Balanced, ValidOp, IsPath, SumOver, Passes, Amount;
    var (t, f) := (Step(limits, s, a), DirectBy(kind, v));
    match a {
      case Branch(_) =>
      case StartReserve(_) => SumAppend(s.ops, t.ops[|s.ops|], f);
      case StartRecord(_, _) => SumAppend(s.ops, t.ops[|s.ops|], f);
      case Check(i, _, _) => SumSplit(s.ops, i, f); if |t.ops| == |s.ops| { SumUpdate(s.ops, i, t.ops[i], f); }
      case Grant(i) => SumSplit(s.ops, i, f); if |t.ops| == |s.ops| { SumUpdate(s.ops, i, t.ops[i], f); }
      case Count(i) => SumUpdate(s.ops, i, t.ops[i], f);
      case Record(i) => SumUpdate(s.ops, i, t.ops[i], f);
      case Return(i) => ReturnReports(s, i, kind, v);
    }
  }

  lemma StepTakes(limits: Limits, s: System, a: Action, v: nat)
    requires Inv(limits, s) && Enabled(limits, s, a)
    ensures TakenOn(Step(limits, s, a), v) <= TakenOn(s, v) + One(a == StartReserve(v))
  {
    hide Balanced, ValidOp, IsPath, SumOver, Passes, Amount;
    var (t, f) := (Step(limits, s, a), HeldBy(v));
    match a {
      case Branch(_) =>
      case StartReserve(_) => SumAppend(s.ops, t.ops[|s.ops|], f);
      case StartRecord(_, _) => SumAppend(s.ops, t.ops[|s.ops|], f);
      case Check(i, _, _) => SumSplit(s.ops, i, f); if |t.ops| == |s.ops| { SumUpdate(s.ops, i, t.ops[i], f); }
      case Grant(i) => SumSplit(s.ops, i, f); if |t.ops| == |s.ops| { SumUpdate(s.ops, i, t.ops[i], f); }
      case Count(i) => SumUpdate(s.ops, i, t.ops[i], f);
      case Record(i) => SumUpdate(s.ops, i, t.ops[i], f);
      case Return(i) =>
        SumSplit(s.ops, i, f);
        if s.ops[i].Counting? { SumAppend(s.grants, s.ops[i].path, DirectCalls(v)); }
    }
  }

  /** In every interleaving the reports made on a branch, returned or in flight, are exactly what callers reported on
      it, and no more calls are granted on it than they asked for. */
  lemma {:induction false} NothingIsInvented(limits: Limits, actions: seq<Action>, kind: Kind, v: nat)
    ensures ReportedOn(Run(limits, actions), kind, v) == Asked(limits, actions, kind, v)
    ensures TakenOn(Run(limits, actions), v) <= Wanted(limits, actions, v)
    decreases |actions|
  {
    hide Inv, Enabled, Step, ReportedOn, TakenOn, Amount;
    if actions == [] {
      assert ReportedOn(Start(), kind, v) == 0 && TakenOn(Start(), v) == 0 by { NothingTaken(kind, v); }
    } else {
      var front, a := actions[..|actions| - 1], actions[|actions| - 1];
      NothingIsInvented(limits, front, kind, v);
      if Enabled(limits, Run(limits, front), a) {
        StepReports(limits, Run(limits, front), a, kind, v);
        StepTakes(limits, Run(limits, front), a, v);
      }
    }
  }

  lemma NothingTaken(kind: Kind, v: nat)
    ensures ReportedOn(Start(), kind, v) == 0 && TakenOn(Start(), v) == 0
  {
  }

  /** A reservation whose checks have passed is settled by the root's quota alone: it is counted, or it is over. */
  lemma QuotaSettles(limits: Limits, s: System, i: nat)
    requires Inv(limits, s) && Enabled(limits, s, Grant(i))
    ensures var t := Step(limits, s, Grant(i));
      if s.nodes[0].calls < limits.maxModelCalls
      then t.nodes[0].calls == s.nodes[0].calls + 1 && |t.ops| == |s.ops| && t.ops[i].Counting?
      else t.nodes == s.nodes && t.ops == s.ops[..i] + s.ops[i + 1..] && t.grants == s.grants
  {
    hide Balanced, ValidOp;
  }

  // ----- The reported-token breaker -----

  /** A reservation that began once the root had reported its limit. */
  predicate Late(limits: Limits, op: Op) {
    op.Reserving? && limits.maxReportedTokens.Some? && op.since != [] && op.since[0] >= limits.maxReportedTokens.value
  }

  /** Late reservations have passed no check at all. */
  predicate LateOnesWait(limits: Limits, s: System) {
    forall i :: 0 <= i < |s.ops| && Late(limits, s.ops[i]) ==> s.ops[i].left == |s.ops[i].path| > 0
  }

  predicate Tripped(limits: Limits, s: System)
    requires s.nodes != []
  {
    limits.maxReportedTokens.Some? && s.nodes[0].tokens >= limits.maxReportedTokens.value
  }

  /** Reservations that may still be granted. */
  function Early(limits: Limits): Op -> nat { (op: Op) => One(op.Reserving? && !Late(limits, op)) }

  function Pending(): Op -> nat { (op: Op) => One(op.Reserving?) }

  /** A late reservation never passes its first check: the root's counter has only grown since it began. */
  lemma LateNeverPasses(limits: Limits, s: System, i: nat, seen: nat -> nat)
    requires Inv(limits, s) && Enabled(limits, s, Check(i, seen, false)) && Late(limits, s.ops[i])
    ensures !Passes(limits, s.ops[i], seen)
  {
    hide Balanced;
    assert ValidOp(s.nodes, s.ops[i]);
    PathIs(s.nodes, s.ops[i].path);
    assert s.ops[i].path[0] == 0 && seen(0) >= s.ops[i].since[0];
  }

  lemma StartsLateWhenTripped(limits: Limits, s: System, v: nat)
    requires Inv(limits, s) && v < |s.nodes|
    ensures var op := Step(limits, s, StartReserve(v)).ops[|s.ops|];
      && op.Reserving? && op.left == |op.path| > 0 && (Tripped(limits, s) ==> Late(limits, op))
  {
    hide Balanced, ValidOp, IsPath;
    assert Tokens(s.nodes)[0] == s.nodes[0].tokens;
  }

  /** Every step keeps late reservations waiting. */
  lemma StepKeepsWaiting(limits: Limits, s: System, a: Action)
    requires Inv(limits, s) && Enabled(limits, s, a) && LateOnesWait(limits, s)
    ensures LateOnesWait(limits, Step(limits, s, a))
  {
    hide Balanced, ValidOp, IsPath, Late, Passes;
    var t := Step(limits, s, a);
    match a {
      case StartReserve(v) => StartsLateWhenTripped(limits, s, v);
      case Check(i, seen, stopped) =>
        if Late(limits, s.ops[i]) && !stopped { LateNeverPasses(limits, s, i, seen); }
        SameLateness(limits, s.ops[i].path, s.ops[i].left, s.ops[i].left - 1, s.ops[i].since);
      case _ =>
    }
    NotLate(limits, t);
    forall k | 0 <= k < |t.ops| && t.ops[k].Reserving? && Late(limits, t.ops[k])
      ensures t.ops[k].left == |t.ops[k].path| > 0
    {
    }
  }

  lemma SameLateness(limits: Limits, path: seq<nat>, left: nat, less: nat, since: seq<nat>)
    ensures Late(limits, Reserving(path, left, since)) == Late(limits, Reserving(path, less, since))
  {
  }

  lemma NotLate(limits: Limits, t: System)
    ensures forall k :: 0 <= k < |t.ops| && !t.ops[k].Reserving? ==> !Late(limits, t.ops[k])
  {
  }

  lemma OpIsValid(limits: Limits, s: System, i: nat)
    requires Inv(limits, s) && i < |s.ops|
    ensures forall k :: 0 <= k < |s.ops[i].path| ==> s.ops[i].path[k] < |s.nodes|
    ensures s.ops[i].Recording? ==> s.ops[i].left <= |s.ops[i].path|
    ensures s.ops[i].Counting? && s.ops[i].done < |s.ops[i].path| ==> s.ops[i].path[s.ops[i].done] > 0
  {
    hide Balanced;
    assert ValidOp(s.nodes, s.ops[i]);
    PathIs(s.nodes, s.ops[i].path);
  }

  lemma RootTokensGrow(limits: Limits, s: System, a: Action)
    requires Inv(limits, s) && Enabled(limits, s, a)
    ensures Step(limits, s, a).nodes != [] && Step(limits, s, a).nodes[0].tokens >= s.nodes[0].tokens
  {
    hide ValidOp, IsPath;
    assert Balanced(s, 0);
    if a.Record? || a.Count? { OpIsValid(limits, s, a.op); }
  }

  /** What a step adds to the root's calls. */
  predicate GrantsOne(limits: Limits, s: System, a: Action)
    requires s.nodes != []
  {
    a.Grant? && s.nodes[0].calls < limits.maxModelCalls
  }

  lemma RootCallsMove(limits: Limits, s: System, a: Action)
    requires Inv(limits, s) && Enabled(limits, s, a)
    ensures Step(limits, s, a).nodes != []
    ensures Step(limits, s, a).nodes[0].calls == s.nodes[0].calls + One(GrantsOne(limits, s, a))
  {
    hide ValidOp, IsPath, Balanced;
    if a.Record? || a.Count? { OpIsValid(limits, s, a.op); }
  }

  /** After the breaker trips, a grant uses up a reservation that was early. */
  lemma EarlyMoves(limits: Limits, s: System, a: Action)
    requires Inv(limits, s) && Enabled(limits, s, a) && LateOnesWait(limits, s) && Tripped(limits, s)
    ensures SumOver(Step(limits, s, a).ops, Early(limits))
            + One(GrantsOne(limits, s, a)) <= SumOver(s.ops, Early(limits))
  {
    hide Balanced, ValidOp, IsPath, Late, Passes, SumOver, Tripped;
    var t := Step(limits, s, a);
    var f := Early(limits);
    match a {
      case Branch(_) =>
      case StartReserve(v) => StartsLateWhenTripped(limits, s, v); SumAppend(s.ops, t.ops[|s.ops|], f);
      case StartRecord(v, _) => SumAppend(s.ops, t.ops[|s.ops|], f);
      case Check(i, seen, stopped) =>
        SameLateness(limits, s.ops[i].path, s.ops[i].left, s.ops[i].left - 1, s.ops[i].since);
        SumSplit(s.ops, i, f);
        if |t.ops| == |s.ops| { SumUpdate(s.ops, i, t.ops[i], f); }
      case Grant(i) =>
        SumSplit(s.ops, i, f);
        if |t.ops| == |s.ops| { SumUpdate(s.ops, i, t.ops[i], f); }
      case Count(i) => SumUpdate(s.ops, i, t.ops[i], f);
      case Record(i) => SumUpdate(s.ops, i, t.ops[i], f);
      case Return(i) => SumSplit(s.ops, i, f);
    }
  }

  lemma StepSpendsEarly(limits: Limits, s: System, a: Action)
    requires Inv(limits, s) && Enabled(limits, s, a) && LateOnesWait(limits, s) && Tripped(limits, s)
    ensures var t := Step(limits, s, a);
      && t.nodes != [] && Tripped(limits, t)
      && t.nodes[0].calls + SumOver(t.ops, Early(limits)) <= s.nodes[0].calls + SumOver(s.ops, Early(limits))
  {
    hide Balanced, ValidOp, IsPath, LateOnesWait, SumOver, Step, Enabled, GrantsOne;
    RootTokensGrow(limits, s, a);
    RootCallsMove(limits, s, a);
    EarlyMoves(limits, s, a);
  }

  lemma {:induction false} LateOnesAlwaysWait(limits: Limits, actions: seq<Action>)
    ensures LateOnesWait(limits, Run(limits, actions))
    decreases |actions|
  {
    hide Inv, LateOnesWait, Step, Enabled;
    if actions == [] {
      assert LateOnesWait(limits, Start()) by { NothingInFlight(limits); }
    } else {
      var s := Run(limits, actions[..|actions| - 1]);
      LateOnesAlwaysWait(limits, actions[..|actions| - 1]);
      if Enabled(limits, s, actions[|actions| - 1]) { StepKeepsWaiting(limits, s, actions[|actions| - 1]); }
    }
  }

  lemma NothingInFlight(limits: Limits)
    ensures LateOnesWait(limits, Start())
  {
  }

  lemma {:induction false} EarlyOnlySpent(limits: Limits, actions: seq<Action>, n: nat)
    requires n <= |actions| && Tripped(limits, Run(limits, actions[..n]))
    ensures Tripped(limits, Run(limits, actions))
    ensures Run(limits, actions).nodes[0].calls + SumOver(Run(limits, actions).ops, Early(limits))
         <= Run(limits, actions[..n]).nodes[0].calls + SumOver(Run(limits, actions[..n]).ops, Early(limits))
    decreases |actions|
  {
    hide LateOnesWait, Step, Enabled, Tripped, SumOver, Balanced, ValidOp, IsPath;
    if n == |actions| {
      assert actions[..n] == actions;
    } else {
      var front := actions[..|actions| - 1];
      assert front[..n] == actions[..n];
      EarlyOnlySpent(limits, front, n);
      LateOnesAlwaysWait(limits, front);
      if Enabled(limits, Run(limits, front), actions[|actions| - 1]) {
        StepSpendsEarly(limits, Run(limits, front), actions[|actions| - 1]);
      }
    }
  }

  lemma {:induction false} EarlyArePending(limits: Limits, ops: seq<Op>)
    ensures SumOver(ops, Early(limits)) <= SumOver(ops, Pending())
    decreases |ops|
  {
    if ops != [] { EarlyArePending(limits, ops[..|ops| - 1]); }
  }

  /** A reservation that begins after the root has reported its token limit is late for good. */
  lemma BegunLaterIsLate(limits: Limits, actions: seq<Action>, n: nat, v: nat)
    requires n <= |actions| && Tripped(limits, Run(limits, actions[..n]))
    requires Enabled(limits, Run(limits, actions), StartReserve(v))
    ensures var ops := Run(limits, actions + [StartReserve(v)]).ops; ops != [] && Late(limits, ops[|ops| - 1])
  {
    hide Tripped, SumOver, Balanced, ValidOp, IsPath, Late;
    EarlyOnlySpent(limits, actions, n);
    StartsLateWhenTripped(limits, Run(limits, actions), v);
    assert (actions + [StartReserve(v)])[..|actions|] == actions;
  }

  lemma LateAreNotGranted(limits: Limits, s: System)
    requires Inv(limits, s) && LateOnesWait(limits, s)
    ensures forall i :: 0 <= i < |s.ops| && Enabled(limits, s, Grant(i)) ==> !Late(limits, s.ops[i])
  {
    hide Late, Inv;
  }

  /** Once the root has reported its token limit, nothing that starts later is ever granted: whatever may be granted
      began before, and the root's calls grow by no more than the early reservations in flight at that moment. */
  lemma BreakerStaysOpen(limits: Limits, actions: seq<Action>, n: nat)
    requires n <= |actions| && Tripped(limits, Run(limits, actions[..n]))
    ensures forall i :: 0 <= i < |Run(limits, actions).ops| && Enabled(limits, Run(limits, actions), Grant(i)) ==>
              !Late(limits, Run(limits, actions).ops[i])
    ensures Run(limits, actions).nodes[0].calls
         <= Run(limits, actions[..n]).nodes[0].calls + SumOver(Run(limits, actions[..n]).ops, Early(limits))
         <= Run(limits, actions[..n]).nodes[0].calls + SumOver(Run(limits, actions[..n]).ops, Pending())
  {
    hide Tripped, SumOver, Balanced, ValidOp, IsPath, Late, LateOnesWait, Enabled, Step, Early, Pending;
    EarlyOnlySpent(limits, actions, n);
    EarlyArePending(limits, Run(limits, actions[..n]).ops);
    LateOnesAlwaysWait(limits, actions);
    LateAreNotGranted(limits, Run(limits, actions));
  }
}
