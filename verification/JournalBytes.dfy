/** When the journal's byte counter is the exact sum of the journal. It is added to with saturation and subtracted
    from in full, so a saturated addition is never made up for. */
module JournalBytes {
  import opened Text
  import opened RunEvents
  import opened RunRegistry
  import opened Replication

  /** The longest vector there is: `isize::MAX` bytes on the 64-bit targets. */
  const VEC_MAX: nat := 0x7FFF_FFFF_FFFF_FFFF

  /** What the serializer can report: the length of a vector, or `usize::MAX` for an event it cannot serialize. */
  ghost predicate Receivable(size: Sizer) {
    forall e: EventEnvelope :: size(e) <= VEC_MAX || size(e) == WORD_MAX
  }

  predicate Exact(d: RunData) { d.journalBytes == SumBytes(d.journal) }

  /** No addition to the counter can saturate. */
  predicate Roomy(config: Config) {
    config.journalBytes <= VEC_MAX + 1 || (config.journalEvents == 1 && config.journalBytes < WORD_MAX)
  }

  // ----- One event at a time -----

  function WindowOf(d: RunData): Window { Window(d.journal, d.journalBytes) }

  function Pushed(w: Window, e: EventEnvelope, size: Sizer, config: Config): Window {
    var bytes := Min(size(e), WORD_MAX);
    if bytes <= config.journalBytes
    then Evict(Window(w.journal + [JournalRecord(e, bytes)], SatAdd(w.bytes, bytes)), config)
    else Window([], 0)
  }

  lemma PushKeepsExact(d: RunData, e: EventEnvelope, size: Sizer, config: Config)
    requires config.Valid() && Bounded(d, size, config) && Exact(d) && Receivable(size) && Roomy(config)
    ensures Exact(Journaled(d, e, size, config))
  {
    var bytes := Min(size(e), WORD_MAX);
    if bytes <= config.journalBytes {
      var r := JournalRecord(e, bytes);
      SumBytesAppend(d.journal, r);
      assert bytes <= VEC_MAX;
      SumFits(d, size, config);
      assert (d.journal + [r])[|d.journal|] == r;
      EvictKeepsLast(Window(d.journal + [r], SatAdd(d.journalBytes, bytes)), config);
    }
  }

  /** What is in the journal leaves room for one more vector. */
  lemma SumFits(d: RunData, size: Sizer, config: Config)
    requires config.Valid() && Bounded(d, size, config) && Exact(d) && Receivable(size) && Roomy(config)
    ensures d.journalBytes + VEC_MAX <= WORD_MAX
  {
    if config.journalBytes > VEC_MAX + 1 && d.journal != [] {
      assert d.journal[1..] == [] && SumBytes(d.journal) == d.journal[0].bytes + SumBytes(d.journal[1..]);
    }
  }

  lemma AcceptKeepsExact(d: RunData, raw: EventEnvelope, size: Sizer, config: Config)
    requires config.Valid() && Bounded(d, size, config) && Exact(d) && Receivable(size) && Roomy(config)
    ensures Accept(d, raw, size, config).Stored? ==> Exact(Accept(d, raw, size, config).data)
  {
    hide Journaled, Applicable, Applied;
    var moved := d.(snapshot := Applied(d.snapshot, PublicEvent(raw)));
    PushKeepsExact(moved, PublicEvent(raw), size, config);
  }

  lemma {:induction false} RoomyRunsAreExact(env: Env, actions: seq<Action>)
    requires env.config.Valid() && Receivable(env.size) && Roomy(env.config)
    ensures Exact(Run(env, actions).data)
    decreases |actions|
  {
    if actions == [] {
      assert SumBytes(NewRun(env.runId).journal) == 0;
    } else {
      var front, a := actions[..|actions| - 1], actions[|actions| - 1];
      RoomyRunsAreExact(env, front);
      RunKeepsInv(env, front);
      OneStepIsExact(env, Run(env, front), a);
    }
  }

  lemma OneStepIsExact(env: Env, s: System, a: Action)
    requires env.config.Valid() && Receivable(env.size) && Roomy(env.config)
    requires Replica(s.data, env.runId, s.log, env.size, env.config) && Exact(s.data)
    ensures Exact(Do(env, s, a).data)
  {
    hide Accept, Fold, Poll, PublicSnapshot;
    if a.Deliver? && a.index < |s.log| {
      AcceptKeepsExact(s.data, Stamp(env.runId, a.index + 1, s.log[a.index]), env.size, env.config);
    }
    assert SumBytes([]) == 0;
  }

  // ----- Losing bytes -----

  lemma AcceptPushes(d: RunData, runId: string, log: seq<RunEvent>, size: Sizer, config: Config, a: Acceptance)
    requires d.snapshot.sequence < |log| && d.snapshot == ViewAt(runId, log, d.snapshot.sequence)
    requires a == Accept(d, Stamp(runId, d.snapshot.sequence + 1, log[d.snapshot.sequence]), size, config)
    ensures a.Stored? && a.data.snapshot.sequence == d.snapshot.sequence + 1
    ensures WindowOf(a.data) == Pushed(WindowOf(d), PublicAt(runId, log, d.snapshot.sequence + 1), size, config)
  {
    hide Accept, Evict;
    AcceptAdjacent(d, runId, log, size, config);
  }

  /** The collector takes the next event off the channel and notifies. */
  lemma DeliverNext(env: Env, actions: seq<Action>, i: nat)
    requires env.config.Valid() && Run(env, actions).pc == Receiving && i < |Run(env, actions).log|
    requires Run(env, actions).data.snapshot.sequence == i && !Run(env, actions).log[i].RunFinished?
    ensures var (s, t) := (Run(env, actions), Run(env, actions + [Deliver(i), Collect]));
      && t.pc == Receiving && t.log == s.log && t.data.snapshot.sequence == i + 1
      && WindowOf(t.data) == Pushed(WindowOf(s.data), PublicAt(env.runId, s.log, i + 1), env.size, env.config)
  {
    RunKeepsInv(env, actions);
    TwoMore(env, actions, Deliver(i), Collect);
    hide Run, Do, ViewAt, PublicAt, Pushed;
    DeliverAndNotify(env, Run(env, actions), i);
  }

  lemma DeliverAndNotify(env: Env, s: System, i: nat)
    requires s.pc == Receiving && i < |s.log| && s.data.snapshot.sequence == i && !s.log[i].RunFinished?
    requires s.data.snapshot == ViewAt(env.runId, s.log, i)
    ensures var t := Do(env, Do(env, s, Deliver(i)), Collect);
      && t.pc == Receiving && t.log == s.log && t.data.snapshot.sequence == i + 1
      && WindowOf(t.data) == Pushed(WindowOf(s.data), PublicAt(env.runId, s.log, i + 1), env.size, env.config)
  {
    hide Accept, PublicAt, Stamp, ViewAt, Pushed;
    AcceptPushes(s.data, env.runId, s.log, env.size, env.config,
                 Accept(s.data, Stamp(env.runId, i + 1, s.log[i]), env.size, env.config));
  }

  lemma TwoMore(env: Env, actions: seq<Action>, a: Action, b: Action)
    ensures Run(env, actions + [a, b]) == Do(env, Do(env, Run(env, actions), a), b)
  {
    hide Do;
    assert (actions + [a, b])[..|actions| + 1] == actions + [a] && (actions + [a])[..|actions|] == actions;
  }

  const THREE: seq<RunEvent> := [RunStarted, InputApplied, InputApplied]

  function Emitted(): seq<Action> { [Emit(RunStarted), Emit(InputApplied), Emit(InputApplied)] }

  /** Three events, each delivered and notified in turn. */
  function Overflowing(): seq<Action> {
    Emitted() + [Deliver(0), Collect] + [Deliver(1), Collect] + [Deliver(2), Collect]
  }

  lemma EmittedThree(env: Env)
    ensures Run(env, Emitted()) == System(THREE, NewRun(env.runId), Receiving, 0, map[])
  {
    var a := Emitted();
    assert a[..2][..1] == a[..1] && a[..1][..0] == [];
    assert Run(env, []) == Start(env);
    var s1 := Run(env, a[..1]);
    assert s1 == Do(env, Start(env), Emit(RunStarted));
    assert [] + [RunStarted] == [RunStarted] && [RunStarted] + [InputApplied] == [RunStarted, InputApplied];
    assert Run(env, a[..2]) == Do(env, s1, Emit(InputApplied));
    assert [RunStarted, InputApplied] + [InputApplied] == THREE;
  }

  function AfterThree(env: Env): Window {
    var w := Pushed(Window([], 0), PublicAt(env.runId, THREE, 1), env.size, env.config);
    var v := Pushed(w, PublicAt(env.runId, THREE, 2), env.size, env.config);
    Pushed(v, PublicAt(env.runId, THREE, 3), env.size, env.config)
  }

  lemma OverflowingWindow(env: Env)
    requires env.config.Valid()
    ensures WindowOf(Run(env, Overflowing()).data) == AfterThree(env)
  {
    hide Run, Pushed, PublicAt;
    EmittedThree(env);
    var a := Emitted();
    DeliverNext(env, a, 0);
    DeliverNext(env, a + [Deliver(0), Collect], 1);
    DeliverNext(env, a + [Deliver(0), Collect] + [Deliver(1), Collect], 2);
  }

  /** Eviction never makes a missing byte good. */
  lemma {:induction false} EvictKeepsDeficit(w: Window, config: Config)
    requires config.Valid() && w.journal != [] && w.bytes + 1 == SumBytes(w.journal)
    requires 0 < w.journal[|w.journal| - 1].bytes <= config.journalBytes
    ensures Evict(w, config).bytes + 1 == SumBytes(Evict(w, config).journal)
    decreases |w.journal|
  {
    var rest := w.journal[1..];
    assert SumBytes(w.journal) == w.journal[0].bytes + SumBytes(rest);
    if rest == [] {
      assert w.journal[|w.journal| - 1] == w.journal[0] && SumBytes(rest) == 0;
    } else if Overfull(w, config) {
      LastCounts(rest);
      assert rest[|rest| - 1] == w.journal[|w.journal| - 1];
      EvictKeepsDeficit(Window(rest, SatSub(w.bytes, w.journal[0].bytes)), config);
    }
  }

  lemma {:induction false} LastCounts(journal: seq<JournalRecord>)
    requires journal != []
    ensures SumBytes(journal) >= journal[|journal| - 1].bytes
  {
    if |journal| > 1 { LastCounts(journal[1..]); }
  }

  /** Sizes of the three events that lose a byte: all lengths of vectors, except where a single event fills the word. */
  function Sizes(config: Config): Sizer {
    (e: EventEnvelope) =>
      if config.journalEvents == 1 then (if e.sequence == 1 then WORD_MAX else VEC_MAX)
      else if e.sequence == 1 then VEC_MAX / 2 + 2
      else if e.sequence == 2 then VEC_MAX / 2 + 1
      else VEC_MAX
  }

  lemma PushFits(w: Window, e: EventEnvelope, size: Sizer, config: Config, bytes: nat)
    requires size(e) == bytes <= WORD_MAX && |w.journal| < config.journalEvents
             && w.bytes + bytes <= config.journalBytes
    requires config.journalBytes <= WORD_MAX
    ensures Pushed(w, e, size, config) == Window(w.journal + [JournalRecord(e, bytes)], w.bytes + bytes)
  {
  }

  /** Two events of about 2^62 bytes are followed by one as long as a vector can be: the sum is 2^64. */
  lemma ManyEventsLoseAByte(env: Env)
    requires env.config.Valid() && env.config.journalEvents >= 2 && env.config.journalBytes > VEC_MAX + 1
    requires env.size == Sizes(env.config)
    ensures AfterThree(env).bytes != SumBytes(AfterThree(env).journal)
  {
    var (e, f, g) := (PublicAt(env.runId, THREE, 1), PublicAt(env.runId, THREE, 2), PublicAt(env.runId, THREE, 3));
    hide PublicAt;
    Sequences(env.runId);
    var (a, b, c) := (VEC_MAX / 2 + 2, VEC_MAX / 2 + 1, VEC_MAX);
    PushFits(Window([], 0), e, env.size, env.config, a);
    assert [] + [JournalRecord(e, a)] == [JournalRecord(e, a)];
    PushFits(Window([JournalRecord(e, a)], a), f, env.size, env.config, b);
    var two := [JournalRecord(e, a)] + [JournalRecord(f, b)];
    var three := two + [JournalRecord(g, c)];
    SumBytesAppend([], JournalRecord(e, a));
    SumBytesAppend([JournalRecord(e, a)], JournalRecord(f, b));
    SumBytesAppend(two, JournalRecord(g, c));
    assert SumBytes(three) == WORD_MAX + 1;
    EvictKeepsDeficit(Window(three, WORD_MAX), env.config);
  }

  lemma Sequences(runId: string)
    ensures forall k :: 1 <= k <= 3 ==> PublicAt(runId, THREE, k).sequence == k
  {
  }

  /** With room for one event only, an event that cannot be serialized fills the counter and takes the next one's
      bytes with it. */
  lemma UnserializableEventLosesBytes(env: Env)
    requires env.config == Config(1, WORD_MAX) && env.size == Sizes(env.config)
    ensures AfterThree(env).bytes != SumBytes(AfterThree(env).journal)
  {
    var (e, f, g) := (PublicAt(env.runId, THREE, 1), PublicAt(env.runId, THREE, 2), PublicAt(env.runId, THREE, 3));
    hide PublicAt;
    Sequences(env.runId);
    PushFits(Window([], 0), e, env.size, env.config, WORD_MAX);
    assert [] + [JournalRecord(e, WORD_MAX)] == [JournalRecord(e, WORD_MAX)];
    PushReplaces(JournalRecord(e, WORD_MAX), WORD_MAX, f, env.size, VEC_MAX);
    PushReplaces(JournalRecord(f, VEC_MAX), 0, g, env.size, VEC_MAX);
    SumBytesAppend([], JournalRecord(g, VEC_MAX));
    assert [] + [JournalRecord(g, VEC_MAX)] == [JournalRecord(g, VEC_MAX)];
  }

  lemma PushReplaces(held: JournalRecord, counted: nat, e: EventEnvelope, size: Sizer, bytes: nat)
    requires size(e) == bytes <= WORD_MAX && counted <= WORD_MAX
    ensures Pushed(Window([held], counted), e, size, Config(1, WORD_MAX))
         == Window([JournalRecord(e, bytes)], SatSub(SatAdd(counted, bytes), held.bytes))
  {
    var w := Window([held] + [JournalRecord(e, bytes)], SatAdd(counted, bytes));
    assert w.journal[1..] == [JournalRecord(e, bytes)];
    var v := Window(w.journal[1..], SatSub(w.bytes, held.bytes));
    assert Evict(w, Config(1, WORD_MAX)) == Evict(v, Config(1, WORD_MAX)) == v;
  }

  /** The counter is the exact sum in every run exactly when no addition can saturate: the budget is at most 2^63
      bytes, or the journal holds one event and the budget is below `usize::MAX`. */
  lemma CounterIsExactIff(runId: string, config: Config)
    requires config.Valid()
    ensures (forall size: Sizer, actions :: Receivable(size) ==> Exact(Run(Env(runId, size, config), actions).data))
        <==> Roomy(config)
  {
    if Roomy(config) {
      forall size: Sizer, actions | Receivable(size) ensures Exact(Run(Env(runId, size, config), actions).data) {
        RoomyRunsAreExact(Env(runId, size, config), actions);
      }
    } else {
      var env := Env(runId, Sizes(config), config);
      if config.journalEvents == 1 { UnserializableEventLosesBytes(env); } else { ManyEventsLoseAByte(env); }
      OverflowingWindow(env);
      assert Receivable(env.size) && !Exact(Run(Env(runId, env.size, config), Overflowing()).data);
    }
  }
}
