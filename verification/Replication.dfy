/** The whole replication protocol as a step machine: the source, a channel that may lose, delay, repeat or
    reorder events, the collector task with every point at which it holds no lock, and any number of clients. */
module Replication {
  import opened Text
  import opened RunEvents
  import opened RunRegistry

  /** What the collector does after its current resynchronization or notification. */
  datatype Then = Loop | Done | CheckTerminal | Fail

  datatype Pc =
    | Receiving
    | Reading(next: Then)
    | Installing(snapshot: RunSnapshot, next: Then)
    | Notifying(next: Then)
    | Checking
    | Failing
    | Stopped

  function After(k: Then): Pc {
    match k case Loop => Receiving case Done => Stopped case CheckTerminal => Checking case Fail => Failing
  }

  datatype Phase = Opening(after: Option<nat>) | Ready | Blocked

  /** `view` is what the client has folded together so far. */
  datatype Client = Client(phase: Phase, cursor: Cursor, seen: nat, view: Option<RunSnapshot>)

  datatype System = System(log: seq<RunEvent>, data: RunData, pc: Pc, revision: nat, clients: map<nat, Client>)

  datatype Env = Env(runId: string, size: Sizer, config: Config)

  datatype Action =
    | Emit(event: RunEvent)
    | Deliver(index: nat)
    | Lag
    | Close
    | Collect
    | Subscribe(id: nat, after: Option<nat>)
    | Open(id: nat)
    | PollClient(id: nat)
    | Wake(id: nat)
    | Detach(id: nat)

  function Start(env: Env): System { System([], NewRun(env.runId), Receiving, 0, map[]) }

  predicate SourceFinished(log: seq<RunEvent>) { log != [] && log[|log| - 1].RunFinished? }

  function Take(s: System, a: Acceptance, next: Then): System {
    match a
    case Ignored => s.(pc := After(next))
    case Gap => s.(pc := Reading(next))
    case Stored(d) => s.(data := d, pc := Notifying(next))
  }

  /** The collector takes one event off the channel and accepts it under the entry's lock. */
  function DeliverStep(env: Env, s: System, i: nat): System
    requires i < |s.log|
  {
    Take(s, Accept(s.data, Stamp(env.runId, i + 1, s.log[i]), env.size, env.config), AfterEvent(s.log[i]))
  }

  function AfterEvent(e: RunEvent): Then { if e.RunFinished? then Done else Loop }

  /** The collector's steps between two channel receptions. */
  function CollectStep(env: Env, s: System): System {
    match s.pc
    case Receiving => s
    case Reading(k) => s.(pc := Installing(PublicSnapshot(Fold(env.runId, s.log)), k))
    case Installing(snapshot, k) =>
      (match Install(s.data, snapshot)
       case None => s.(pc := After(k))
       case Some(d) => s.(data := d, pc := Notifying(k)))
    case Notifying(k) => s.(revision := s.revision + 1, pc := After(k))
    case Checking => s.(pc := if Terminal(s.data) then Stopped else Receiving)
    case Failing => s.(data := Faulted(s.data), pc := Notifying(Done))
    case Stopped => s
  }

  /** A subscription ahead of the run is refused; a resuming client brings the view of its own cursor. */
  function OpenStep(env: Env, s: System, id: nat, after: Option<nat>): System
    requires id in s.clients
  {
    if after.Some? && after.value > s.data.snapshot.sequence then s.(clients := s.clients - {id})
    else if after.Some? && after.value <= |s.log| then
      s.(clients := s.clients[id := Client(Ready, Cursor(after.value, false, false), s.clients[id].seen,
                                           Some(ViewAt(env.runId, s.log, after.value)))])
    else s.(clients := s.clients[id := Client(Ready, Cursor(0, true, false), s.clients[id].seen, None)])
  }

  function PollStep(s: System, id: nat): System
    requires id in s.clients
  {
    var c := s.clients[id];
    var (r, cursor) := Poll(s.data, c.cursor);
    match r
    case Yield(f) => s.(clients := s.clients[id := c.(cursor := cursor, view := Absorb(c.view, f))])
    case Finished => s.(clients := s.clients[id := c.(cursor := cursor)])
    case Wait => s.(clients := s.clients[id := c.(phase := Blocked)])
  }

  /** One step; an action that is not enabled changes nothing. */
  function Do(env: Env, s: System, a: Action): System {
    match a
    case Emit(e) => if SourceFinished(s.log) then s else s.(log := s.log + [e])
    case Deliver(i) => if s.pc.Receiving? && i < |s.log| then DeliverStep(env, s, i) else s
    case Lag => if s.pc.Receiving? then s.(pc := Reading(CheckTerminal)) else s
    case Close => if s.pc.Receiving? then s.(pc := Reading(Fail)) else s
    case Collect => CollectStep(env, s)
    case Subscribe(id, after) =>
      if id in s.clients then s
      else s.(clients := s.clients[id := Client(Opening(after), Cursor(0, true, false), s.revision, None)])
    case Open(id) =>
      if id in s.clients && s.clients[id].phase.Opening? then OpenStep(env, s, id, s.clients[id].phase.after) else s
    case PollClient(id) => if id in s.clients && s.clients[id].phase.Ready? then PollStep(s, id) else s
    case Wake(id) =>
      if id in s.clients && s.clients[id].phase.Blocked? && s.clients[id].seen != s.revision
      then s.(clients := s.clients[id := s.clients[id].(phase := Ready, seen := s.revision)]) else s
    case Detach(id) => s.(clients := s.clients - {id})
  }

  /** The state after a run: every interleaving is a sequence of actions. */
  function Run(env: Env, actions: seq<Action>): System {
    if actions == [] then Start(env) else Do(env, Run(env, actions[..|actions| - 1]), actions[|actions| - 1])
  }

  // ----- Invariant -----

  predicate IsView(env: Env, log: seq<RunEvent>, snapshot: RunSnapshot) {
    snapshot.sequence <= |log| && snapshot == ViewAt(env.runId, log, snapshot.sequence)
  }

  /** What the collector's position promises about the entry. */
  predicate CollectorInv(env: Env, s: System) {
    && (s.data.fault.Some? ==> s.data.snapshot.outcome.None? && (s.pc == Notifying(Done) || s.pc == Stopped))
    && match s.pc
       case Receiving => true
       case Reading(k) => k == Done ==> SourceFinished(s.log)
       case Installing(snapshot, k) => IsView(env, s.log, snapshot) && (k == Done ==> snapshot.outcome.Some?)
       case Notifying(k) => k == Done ==> Terminal(s.data)
       case Checking => true
       case Failing => true
       case Stopped => Terminal(s.data)
  }

  predicate NotificationPending(s: System, c: Client) { c.seen < s.revision || s.pc.Notifying? }

  predicate ClientInv(env: Env, s: System, c: Client) {
    && c.seen <= s.revision
    && (!c.phase.Opening? ==>
          && c.cursor.position <= s.data.snapshot.sequence
          && Synchronized(c.cursor, c.view, env.runId, s.log)
          && (c.cursor.ended ==> !c.cursor.initial && Terminal(s.data)))
    && (c.phase.Blocked? ==> Poll(s.data, c.cursor).0 == Wait || NotificationPending(s, c))
  }

  predicate Inv(env: Env, s: System) {
    && SourceLog(s.log)
    && Replica(s.data, env.runId, s.log, env.size, env.config)
    && CollectorInv(env, s)
    && forall id :: id in s.clients ==> ClientInv(env, s, s.clients[id])
  }

  lemma EmitKeepsInv(env: Env, s: System, e: RunEvent)
    requires env.config.Valid() && Inv(env, s)
    ensures Inv(env, Do(env, s, Emit(e)))
  {
    if !SourceFinished(s.log) {
      var t := Do(env, s, Emit(e));
      ReplicaSurvivesEmit(s.data, env.runId, s.log, env.size, env.config, e);
      forall k | 0 <= k <= |s.log| ensures ViewAt(env.runId, t.log, k) == ViewAt(env.runId, s.log, k) {
        assert t.log[..k] == s.log[..k];
      }
      forall id | id in t.clients ensures ClientInv(env, t, t.clients[id]) {
        assert ClientInv(env, s, s.clients[id]);
      }
    }
  }

  /** Moving the entry forward keeps every client's promises, provided a notification follows. */
  lemma ClientsFollow(env: Env, s: System, t: System)
    requires Inv(env, s) && t.log == s.log && t.clients == s.clients
    requires s.data.snapshot.sequence <= t.data.snapshot.sequence
    requires Terminal(s.data) ==> Terminal(t.data)
    requires t.revision == s.revision && t.pc.Notifying?
    ensures forall id :: id in t.clients ==> ClientInv(env, t, t.clients[id])
  {
    forall id | id in t.clients ensures ClientInv(env, t, t.clients[id]) {
      assert ClientInv(env, s, s.clients[id]);
    }
  }

  predicate AcceptedFrom(env: Env, s: System, k: nat, a: Acceptance)
    requires 0 < k <= |s.log|
  {
    match a
    case Ignored => k <= s.data.snapshot.sequence
    case Gap => k > s.data.snapshot.sequence + 1
    case Stored(d) =>
      k == s.data.snapshot.sequence + 1 && AdvancedTo(s.data, d, env.runId, s.log, env.size, env.config, k)
  }

  lemma TakeKeepsCollector(env: Env, s: System, k: nat, a: Acceptance)
    requires Inv(env, s) && s.pc.Receiving? && 0 < k <= |s.log| && AcceptedFrom(env, s, k, a)
    ensures var t := Take(s, a, AfterEvent(s.log[k - 1]));
      && Replica(t.data, env.runId, s.log, env.size, env.config) && CollectorInv(env, t)
      && (t.pc.Notifying? || t.data == s.data)
      && s.data.snapshot.sequence <= t.data.snapshot.sequence
      && (Terminal(s.data) ==> Terminal(t.data))
  {
    OutcomeIsLast(s.data, env.runId, s.log, env.size, env.config);
    if a.Stored? { OutcomeIsLast(a.data, env.runId, s.log, env.size, env.config); }
  }

  lemma DeliverKeepsCollector(env: Env, s: System, i: nat)
    requires env.config.Valid() && Inv(env, s) && s.pc.Receiving? && i < |s.log|
    ensures var t := DeliverStep(env, s, i);
      && Replica(t.data, env.runId, s.log, env.size, env.config) && CollectorInv(env, t)
      && (t.pc.Notifying? || t.data == s.data)
      && s.data.snapshot.sequence <= t.data.snapshot.sequence
      && (Terminal(s.data) ==> Terminal(t.data))
  {
    hide Accept, Replica, CollectorInv, AdvancedTo, ClientInv, Terminal, Take;
    AcceptKeepsReplica(s.data, env.runId, s.log, env.size, env.config, i + 1);
    TakeKeepsCollector(env, s, i + 1, Accept(s.data, Stamp(env.runId, i + 1, s.log[i]), env.size, env.config));
  }

  lemma DeliverKeepsInv(env: Env, s: System, i: nat)
    requires env.config.Valid() && Inv(env, s)
    ensures Inv(env, Do(env, s, Deliver(i)))
  {
    hide ClientInv, Replica, CollectorInv, Accept, SourceLog;
    if s.pc.Receiving? && i < |s.log| {
      var t := DeliverStep(env, s, i);
      DeliverKeepsCollector(env, s, i);
      if t.pc.Notifying? {
        ClientsFollow(env, s, t);
      } else {
        ClientsUndisturbed(env, s, t);
      }
    }
  }

  lemma InstallingKeepsInv(env: Env, s: System)
    requires env.config.Valid() && Inv(env, s) && s.pc.Installing?
    ensures Inv(env, CollectStep(env, s))
  {
    hide ClientInv;
    var t := CollectStep(env, s);
    var snapshot := s.pc.snapshot;
    InstallKeepsReplica(s.data, env.runId, s.log, env.size, env.config, snapshot.sequence);
    OutcomeIsLast(s.data, env.runId, s.log, env.size, env.config);
    FoldOutcome(env.runId, s.log[..snapshot.sequence]);
    if Install(s.data, snapshot).Some? {
      OutcomeIsLast(t.data, env.runId, s.log, env.size, env.config);
      ClientsFollow(env, s, t);
    } else {
      ClientsUndisturbed(env, s, t);
    }
  }

  /** A collector step that leaves the entry alone disturbs no client. */
  lemma ClientsUndisturbed(env: Env, s: System, t: System)
    requires Inv(env, s) && t.log == s.log && t.clients == s.clients && t.data == s.data
    requires t.revision == s.revision + (if s.pc.Notifying? then 1 else 0)
    ensures forall id :: id in t.clients ==> ClientInv(env, t, t.clients[id])
  {
    forall id | id in t.clients ensures ClientInv(env, t, t.clients[id]) {
      assert ClientInv(env, s, s.clients[id]);
    }
  }

  lemma ReadingKeepsInv(env: Env, s: System)
    requires Inv(env, s) && s.pc.Reading?
    ensures Inv(env, CollectStep(env, s))
  {
    var t := CollectStep(env, s);
    assert s.log[..|s.log|] == s.log;
    FoldOutcome(env.runId, s.log);
    assert IsView(env, s.log, t.pc.snapshot);
    ClientsUndisturbed(env, s, t);
  }

  lemma FailingKeepsInv(env: Env, s: System)
    requires Inv(env, s) && s.pc.Failing?
    ensures Inv(env, CollectStep(env, s))
  {
    hide ClientInv;
    ClientsFollow(env, s, CollectStep(env, s));
  }

  lemma QuietStepKeepsInv(env: Env, s: System)
    requires Inv(env, s) && (s.pc.Notifying? || s.pc.Checking? || s.pc.Receiving? || s.pc.Stopped?)
    ensures Inv(env, CollectStep(env, s))
  {
    var t := CollectStep(env, s);
    ClientsUndisturbed(env, s, t);
    assert CollectorInv(env, t);
  }

  lemma CollectKeepsInv(env: Env, s: System)
    requires env.config.Valid() && Inv(env, s)
    ensures Inv(env, Do(env, s, Collect))
  {
    hide Inv, CollectStep;
    match s.pc {
      case Installing(_, _) => InstallingKeepsInv(env, s);
      case Reading(_) => ReadingKeepsInv(env, s);
      case Failing => FailingKeepsInv(env, s);
      case _ => QuietStepKeepsInv(env, s);
    }
  }

  predicate ClientAction(a: Action) { a.Subscribe? || a.Open? || a.PollClient? || a.Wake? || a.Detach? }

  /** A client's own step touches nothing but that client. */
  lemma ClientStepKeepsInv(env: Env, s: System, a: Action)
    requires env.config.Valid() && Inv(env, s) && ClientAction(a)
    ensures Inv(env, Do(env, s, a))
  {
    var t := Do(env, s, a);
    OnlyOwnClient(env, s, a);
    forall id | id in t.clients ensures ClientInv(env, t, t.clients[id]) {
      if id == a.id && t.clients != s.clients {
        OwnStepKeepsClient(env, s, a);
      } else {
        assert ClientInv(env, s, s.clients[id]);
        SameEntrySameClient(env, s, t, s.clients[id]);
      }
    }
  }

  lemma OnlyOwnClient(env: Env, s: System, a: Action)
    requires ClientAction(a)
    ensures Do(env, s, a) == s.(clients := Do(env, s, a).clients)
    ensures forall id :: id in Do(env, s, a).clients && id != a.id ==>
              id in s.clients && Do(env, s, a).clients[id] == s.clients[id]
  {
  }

  lemma SameEntrySameClient(env: Env, s: System, t: System, c: Client)
    requires ClientInv(env, s, c) && t == s.(clients := t.clients)
    ensures ClientInv(env, t, c)
  {
  }

  lemma OwnStepKeepsClient(env: Env, s: System, a: Action)
    requires env.config.Valid() && Inv(env, s) && ClientAction(a)
    requires Do(env, s, a).clients != s.clients && a.id in Do(env, s, a).clients
    ensures ClientInv(env, Do(env, s, a), Do(env, s, a).clients[a.id])
  {
    var t := Do(env, s, a);
    if a.PollClient? {
      PollKeepsClient(env, s, a.id);
    } else if !a.Subscribe? {
      assert ClientInv(env, s, s.clients[a.id]);
      if a.Wake? {
        assert t.clients[a.id] == s.clients[a.id].(phase := Ready, seen := s.revision);
      }
    }
  }

  lemma PollKeepsClient(env: Env, s: System, id: nat)
    requires env.config.Valid() && Inv(env, s)
    requires id in s.clients && s.clients[id].phase.Ready?
    ensures ClientInv(env, PollStep(s, id), PollStep(s, id).clients[id])
  {
    var c := s.clients[id];
    assert ClientInv(env, s, c);
    PollDeliversInOrder(s.data, c.cursor, c.view, env.runId, s.log, env.size, env.config);
  }

  lemma {:induction false} RunKeepsInv(env: Env, actions: seq<Action>)
    requires env.config.Valid()
    ensures Inv(env, Run(env, actions))
  {
    if actions != [] {
      var before := actions[..|actions| - 1];
      RunKeepsInv(env, before);
      var s := Run(env, before);
      match actions[|actions| - 1] {
        case Emit(e) => EmitKeepsInv(env, s, e);
        case Deliver(i) => DeliverKeepsInv(env, s, i);
        case Lag =>
          LagKeepsInv(env, s, Lag);
        case Close =>
          LagKeepsInv(env, s, Close);
        case Collect => CollectKeepsInv(env, s);
        case Subscribe(_, _) => ClientStepKeepsInv(env, s, actions[|actions| - 1]);
        case Open(_) => ClientStepKeepsInv(env, s, actions[|actions| - 1]);
        case PollClient(_) => ClientStepKeepsInv(env, s, actions[|actions| - 1]);
        case Wake(_) => ClientStepKeepsInv(env, s, actions[|actions| - 1]);
        case Detach(_) => ClientStepKeepsInv(env, s, actions[|actions| - 1]);
      }
    }
  }

  lemma LagKeepsInv(env: Env, s: System, a: Action)
    requires Inv(env, s) && (a.Lag? || a.Close?)
    ensures Inv(env, Do(env, s, a))
  {
    var t := Do(env, s, a);
    forall id | id in t.clients ensures ClientInv(env, t, t.clients[id]) {
      assert ClientInv(env, s, s.clients[id]);
    }
  }

  // ----- Main results, over every interleaving -----

  /** A client's folded view is always the public source snapshot at its cursor, and the next frame it is
      given is either a whole snapshot, the adjacent event, or the fault. */
  lemma ClientViewsAreExact(env: Env, actions: seq<Action>, id: nat)
    requires env.config.Valid()
    ensures var s := Run(env, actions);
      id in s.clients && !s.clients[id].phase.Opening? && !s.clients[id].cursor.initial ==>
        var c := s.clients[id];
        && c.cursor.position <= |s.log|
        && c.view == Some(PublicSnapshot(Fold(env.runId, s.log[..c.cursor.position])))
        && match Poll(s.data, c.cursor).0
           case Yield(EventFrame(e)) =>
             e.sequence == c.cursor.position + 1 <= |s.log|
               && e == PublicEvent(Stamp(env.runId, e.sequence, s.log[e.sequence - 1]))
           case Yield(SnapshotFrame(_, v)) =>
             c.cursor.position < v.sequence <= |s.log| && v == PublicSnapshot(Fold(env.runId, s.log[..v.sequence]))
           case Yield(FaultFrame(e)) => e == EXECUTOR_FAULT && c.cursor.position == s.data.snapshot.sequence
           case Finished => Terminal(s.data)
           case Wait => c.cursor.position == s.data.snapshot.sequence
  {
    RunKeepsInv(env, actions);
    var s := Run(env, actions);
    FaultIsExecutorFault(env, actions);
    if id in s.clients && !s.clients[id].phase.Opening? && !s.clients[id].cursor.initial {
      var c := s.clients[id];
      assert ClientInv(env, s, c);
      PollDeliversInOrder(s.data, c.cursor, c.view, env.runId, s.log, env.size, env.config);
      WaitMeansCaughtUp(s.data, c.cursor, env.runId, s.log);
      SnapshotsOnlyAdvance(s.data, c.cursor, env.runId, s.log);
    }
  }

  lemma SnapshotsOnlyAdvance(d: RunData, c: Cursor, runId: string, log: seq<RunEvent>)
    requires Contiguous(d, runId, log) && c.position <= d.snapshot.sequence && !c.initial
    ensures match Poll(d, c).0
            case Yield(SnapshotFrame(_, v)) => c.position < v.sequence && v == d.snapshot
            case Yield(FaultFrame(e)) => c.position == d.snapshot.sequence && d.fault == Some(e)
            case _ => true
  {
    if !c.ended && SnapshotNeeded(d, c).None? { NextIsAdjacent(d, c, runId, log); }
    if d.journal != [] { assert d.journal[0].envelope.sequence <= d.snapshot.sequence; }
  }

  lemma {:induction false} FaultIsExecutorFault(env: Env, actions: seq<Action>)
    ensures Run(env, actions).data.fault.Some? ==> Run(env, actions).data.fault.value == EXECUTOR_FAULT
  {
    if actions != [] { FaultIsExecutorFault(env, actions[..|actions| - 1]); }
  }

  /** A suspended client that the entry could serve always has a notification on its way. */
  lemma NoLostWakeup(env: Env, actions: seq<Action>, id: nat)
    requires env.config.Valid()
    ensures var s := Run(env, actions);
      id in s.clients && s.clients[id].phase.Blocked? && Poll(s.data, s.clients[id].cursor).0 != Wait ==>
        s.clients[id].seen != s.revision || s.pc.Notifying?
  {
    RunKeepsInv(env, actions);
  }

  /** The collector stops only at a terminal entry, `completed` marks exactly the terminal entries, and there
      every subscribed client that keeps asking is drained: at most one fault, then the end, holding the
      run's final public view. */
  lemma StoppedRunsEndEveryClient(env: Env, actions: seq<Action>, id: nat)
    requires env.config.Valid()
    ensures var s := Run(env, actions);
      && (s.data.completed <==> Terminal(s.data))
      && (s.pc.Stopped? ==> Terminal(s.data))
      && Contiguous(s.data, env.runId, s.log)
      && (Terminal(s.data) && id in s.clients && s.clients[id].phase.Ready? && !s.clients[id].cursor.ended ==>
            s.clients[id].cursor.position <= s.data.snapshot.sequence &&
            var (frames, last) := Drain(s.data, s.clients[id].cursor, env.runId, s.log);
            && last == Cursor(s.data.snapshot.sequence, false, true)
            && AbsorbAll(s.clients[id].view, frames) == Some(s.data.snapshot)
            && |frames| <= s.data.snapshot.sequence - s.clients[id].cursor.position + 2
            && (s.data.fault.Some? <==> frames != [] && frames[|frames| - 1].FaultFrame?)
            && forall i :: 0 <= i < |frames| - 1 ==> !frames[i].FaultFrame?)
  {
    RunKeepsInv(env, actions);
    var s := Run(env, actions);
    if Terminal(s.data) && id in s.clients && s.clients[id].phase.Ready? && !s.clients[id].cursor.ended {
      var c := s.clients[id];
      DrainExactly(s.data, c.cursor, env.runId, s.log);
      var n := s.data.snapshot.sequence;
      if SnapshotNeeded(s.data, c.cursor).Some? {
        var f := SnapshotFrame(SnapshotNeeded(s.data, c.cursor).value, s.data.snapshot);
        AbsorbConcat(c.view, [f], FaultPart(s.data));
      } else {
        EventsAreAbsorbed(env.runId, s.log, c.cursor.position, n);
        AbsorbConcat(c.view, EventsFrom(env.runId, s.log, c.cursor.position, n), FaultPart(s.data));
      }
    }
  }

  predicate SameAnswer(d: RunData, t: RunData) { t.snapshot == d.snapshot && t.fault == d.fault }

  lemma DeliverKeepsAnswer(env: Env, s: System, i: nat)
    requires env.config.Valid() && Inv(env, s) && Terminal(s.data) && s.pc.Receiving? && i < |s.log|
    ensures SameAnswer(s.data, DeliverStep(env, s, i).data)
  {
    AcceptKeepsReplica(s.data, env.runId, s.log, env.size, env.config, i + 1);
    OutcomeIsLast(s.data, env.runId, s.log, env.size, env.config);
  }

  lemma InstallKeepsAnswer(env: Env, s: System)
    requires env.config.Valid() && Inv(env, s) && Terminal(s.data) && s.pc.Installing?
    ensures SameAnswer(s.data, CollectStep(env, s).data)
  {
    OutcomeIsLast(s.data, env.runId, s.log, env.size, env.config);
    assert s.pc.snapshot.sequence >= s.data.snapshot.sequence ==> s.pc.snapshot == s.data.snapshot;
  }

  /** A terminal entry never changes its answer again, whatever else is delivered or resynchronized. */
  lemma TerminalStateIsFinal(env: Env, actions: seq<Action>, a: Action)
    requires env.config.Valid() && Terminal(Run(env, actions).data)
    ensures SameAnswer(Run(env, actions).data, Run(env, actions + [a]).data)
  {
    RunKeepsInv(env, actions);
    assert (actions + [a])[..|actions + [a]| - 1] == actions;
    hide Inv, Accept, Install, Fold, Poll;
    var s := Run(env, actions);
    assert Run(env, actions + [a]) == Do(env, s, a);
    if a.Deliver? && s.pc.Receiving? && a.index < |s.log| {
      DeliverKeepsAnswer(env, s, a.index);
    } else if a.Collect? && s.pc.Installing? {
      InstallKeepsAnswer(env, s);
    }
  }

  function AbsorbAll(view: Option<RunSnapshot>, frames: seq<Frame>): Option<RunSnapshot>
    decreases |frames|
  {
    if frames == [] then view else AbsorbAll(Absorb(view, frames[0]), frames[1..])
  }

  lemma {:induction false} AbsorbConcat(view: Option<RunSnapshot>, a: seq<Frame>, b: seq<Frame>)
    ensures AbsorbAll(view, a + b) == AbsorbAll(AbsorbAll(view, a), b)
    decreases |a|
  {
    if a == [] {
      assert a + b == b;
    } else {
      assert (a + b)[1..] == a[1..] + b;
      AbsorbConcat(Absorb(view, a[0]), a[1..], b);
    }
  }

  lemma {:induction false} EventsAreAbsorbed(runId: string, log: seq<RunEvent>, lo: nat, hi: nat)
    requires lo <= hi <= |log|
    ensures AbsorbAll(Some(ViewAt(runId, log, lo)), EventsFrom(runId, log, lo, hi)) == Some(ViewAt(runId, log, hi))
    ensures |EventsFrom(runId, log, lo, hi)| == hi - lo
    ensures forall i :: 0 <= i < hi - lo ==> EventsFrom(runId, log, lo, hi)[i].EventFrame?
    decreases hi - lo
  {
    if lo < hi {
      ViewStep(runId, log, lo + 1);
      EventsAreAbsorbed(runId, log, lo + 1, hi);
      assert EventsFrom(runId, log, lo, hi)[1..] == EventsFrom(runId, log, lo + 1, hi);
    }
  }

  /** The journal invariant of every reachable entry. */
  lemma JournalIsContiguousAndBounded(env: Env, actions: seq<Action>)
    requires env.config.Valid()
    ensures var s := Run(env, actions);
      && Contiguous(s.data, env.runId, s.log)
      && |s.data.journal| <= env.config.journalEvents && s.data.journalBytes <= env.config.journalBytes
      && s.data.snapshot == PublicSnapshot(Fold(env.runId, s.log[..s.data.snapshot.sequence]))
  {
    RunKeepsInv(env, actions);
  }

  // ----- Progress -----

  function Collects(env: Env, s: System, n: nat): System {
    if n == 0 then s else Do(env, Collects(env, s, n - 1), Collect)
  }

  /** How many steps of its own the collector is from its next reception or its end. */
  function StepsLeft(pc: Pc): nat {
    match pc
    case Receiving => 0
    case Stopped => 0
    case Checking => 1
    case Notifying(k) => if k.CheckTerminal? then 2 else if k.Fail? then 3 else 1
    case Installing(_, k) => 1 + if k.CheckTerminal? then 2 else if k.Fail? then 3 else 1
    case Reading(k) => 2 + if k.CheckTerminal? then 2 else if k.Fail? then 3 else 1
    case Failing => 2
  }

  lemma CollectGetsCloser(env: Env, s: System)
    requires StepsLeft(s.pc) > 0
    ensures StepsLeft(Do(env, s, Collect).pc) < StepsLeft(s.pc)
  {
  }

  lemma {:induction false} CollectorComesToRest(env: Env, s: System)
    ensures Collects(env, s, 5).pc in {Receiving, Stopped}
  {
    RestIsKept(env, s, 5);
  }

  lemma {:induction false} RestIsKept(env: Env, s: System, n: nat)
    ensures StepsLeft(Collects(env, s, n).pc) <= SatSub(StepsLeft(s.pc), n)
    decreases n
  {
    hide Do;
    if n > 0 {
      RestIsKept(env, s, n - 1);
      var t := Collects(env, s, n - 1);
      if StepsLeft(t.pc) > 0 { CollectGetsCloser(env, t); } else { RestStays(env, t); }
    }
  }

  lemma RestStays(env: Env, s: System)
    requires StepsLeft(s.pc) == 0
    ensures Do(env, s, Collect).pc == s.pc
  {
  }

  /** The collector is on its way to stop. */
  predicate Heading(s: System) {
    match s.pc
    case Receiving => false
    case Stopped => true
    case Failing => true
    case Checking => Terminal(s.data)
    case Reading(k) => k.Done? || k.Fail? || (k.CheckTerminal? && SourceFinished(s.log))
    case Installing(snapshot, k) =>
      k.Done? || k.Fail?
      || (k.CheckTerminal? && snapshot.outcome.Some? && snapshot.sequence >= s.data.snapshot.sequence)
    case Notifying(k) => k.Done? || k.Fail? || (k.CheckTerminal? && Terminal(s.data))
  }

  lemma SourceShowsTheEnd(env: Env, s: System)
    requires Inv(env, s) && SourceFinished(s.log)
    ensures var source := PublicSnapshot(Fold(env.runId, s.log));
      source.outcome.Some? && source.sequence >= s.data.snapshot.sequence
  {
    hide ClientInv, CollectorInv, Bounded;
    FoldOutcome(env.runId, s.log);
  }

  lemma InstallingHeads(env: Env, s: System)
    requires s.pc.Installing? && Heading(s)
    ensures Heading(CollectStep(env, s))
  {
  }

  lemma StepKeepsHeading(env: Env, s: System)
    requires Inv(env, s) && Heading(s)
    ensures Heading(Do(env, s, Collect))
  {
    if s.pc.Reading? && SourceFinished(s.log) { SourceShowsTheEnd(env, s); }
    if s.pc.Installing? { InstallingHeads(env, s); }
    hide Inv, Fold, PublicSnapshot, Install;
  }

  lemma {:induction false} CollectsKeepHeading(env: Env, s: System, n: nat)
    requires env.config.Valid() && Inv(env, s) && Heading(s)
    ensures Inv(env, Collects(env, s, n)) && Heading(Collects(env, s, n))
    decreases n
  {
    hide Inv, Heading, Do;
    if n > 0 {
      CollectsKeepHeading(env, s, n - 1);
      StepKeepsHeading(env, Collects(env, s, n - 1));
      CollectKeepsInv(env, Collects(env, s, n - 1));
    }
  }

  lemma StartsHeading(env: Env, s: System, a: Action)
    requires s.pc.Receiving?
    requires || (a.Deliver? && a.index < |s.log| && s.log[a.index].RunFinished?)
             || a.Close?
             || (a.Lag? && SourceFinished(s.log))
    ensures Heading(Do(env, s, a))
  {
    hide Accept;
  }

  lemma HeadingAtRest(env: Env, s: System)
    requires Inv(env, s) && Heading(s) && s.pc in {Receiving, Stopped}
    ensures s.pc.Stopped? && Terminal(s.data)
  {
    hide ClientInv, Replica;
  }

  /** The collector comes to its end: when it takes the final event off the channel, when the channel closes, or when it
      has lagged and the source had finished, five steps of its own stop it at a terminal entry. */
  lemma CollectorStops(env: Env, actions: seq<Action>, a: Action)
    requires env.config.Valid() && Run(env, actions).pc.Receiving?
    requires var s := Run(env, actions);
      || (a.Deliver? && a.index < |s.log| && s.log[a.index].RunFinished?)
      || a.Close?
      || (a.Lag? && SourceFinished(s.log))
    ensures var t := Collects(env, Do(env, Run(env, actions), a), 5); t.pc.Stopped? && Terminal(t.data)
  {
    hide Inv, Heading, Do, Collects;
    var s := Run(env, actions);
    assert Run(env, actions + [a]) == Do(env, s, a) by { assert (actions + [a])[..|actions|] == actions; }
    RunKeepsInv(env, actions + [a]);
    StartsHeading(env, s, a);
    CollectsKeepHeading(env, Do(env, s, a), 5);
    CollectorComesToRest(env, Do(env, s, a));
    HeadingAtRest(env, Collects(env, Do(env, s, a), 5));
  }

  /** A subscription is refused exactly when its cursor is ahead of the run; any other gets its own position, or its
      first snapshot. */
  lemma OpenIs(env: Env, actions: seq<Action>, id: nat)
    requires env.config.Valid()
    requires id in Run(env, actions).clients && Run(env, actions).clients[id].phase.Opening?
    ensures var s := Run(env, actions);
      var (t, after) := (Do(env, s, Open(id)), s.clients[id].phase.after);
      && (id !in t.clients <==> after.Some? && after.value > s.data.snapshot.sequence)
      && (id in t.clients ==>
            && t.clients[id].phase.Ready?
            && t.clients[id].cursor == (if after.None? then Cursor(0, true, false)
                                        else Cursor(after.value, false, false)))
  {
    RunKeepsInv(env, actions);
    hide Run, Replica;
  }
}
