/** One run as the application retains it: the collector's snapshot and bounded journal, and the cursor
    protocol by which clients follow it. Everything here is what one holder of the entry's lock does. */
module RunRegistry {
  import opened Text
  import opened RunEvents

  datatype ApplicationErrorCode = InvalidRequest | NotFound | Conflict | Capacity | ClosedRun | Internal
  datatype ApplicationError = ApplicationError(code: ApplicationErrorCode, message: string)

  const EXECUTOR_FAULT := ApplicationError(Internal, "executor ended without a terminal snapshot")

  datatype Config = Config(journalEvents: nat, journalBytes: nat) {
    predicate Valid() { journalEvents > 0 && 0 < journalBytes <= WORD_MAX }
  }

  /** Serialized length of an event; `WORD_MAX` when it cannot be serialized. */
  type Sizer = EventEnvelope -> nat

  datatype JournalRecord = JournalRecord(envelope: EventEnvelope, bytes: nat)

  datatype RunData = RunData(snapshot: RunSnapshot, journal: seq<JournalRecord>, journalBytes: nat,
                             resetFloor: nat, fault: Option<ApplicationError>, completed: bool)

  function NewRun(runId: string): RunData { RunData(NewSnapshot(runId), [], 0, 0, None, false) }

  predicate Terminal(d: RunData) { d.snapshot.outcome.Some? || d.fault.Some? }

  function Settle(d: RunData): RunData { d.(completed := d.completed || Terminal(d)) }

  // ----- Journal window -----

  datatype Window = Window(journal: seq<JournalRecord>, bytes: nat)

  predicate Overfull(w: Window, config: Config) {
    |w.journal| > config.journalEvents || w.bytes > config.journalBytes
  }

  function Evict(w: Window, config: Config): Window
    decreases |w.journal|
  {
    if w.journal == [] || !Overfull(w, config) then w
    else Evict(Window(w.journal[1..], SatSub(w.bytes, w.journal[0].bytes)), config)
  }

  lemma NothingToEvict(config: Config)
    ensures Evict(Window([], 0), config) == Window([], 0)
  {
  }

  function Journaled(d: RunData, e: EventEnvelope, size: Sizer, config: Config): RunData {
    var bytes := Min(size(e), WORD_MAX);
    if bytes <= config.journalBytes then
      var w := Evict(Window(d.journal + [JournalRecord(e, bytes)], SatAdd(d.journalBytes, bytes)), config);
      d.(journal := w.journal, journalBytes := w.bytes)
    else d.(journal := [], journalBytes := 0, resetFloor := d.snapshot.sequence)
  }

  // ----- The collector's three critical sections -----

  datatype Acceptance = Ignored | Gap | Stored(data: RunData)

  function Accept(d: RunData, raw: EventEnvelope, size: Sizer, config: Config): Acceptance {
    if raw.sequence <= d.snapshot.sequence then Ignored else
      var e := PublicEvent(raw);
      if !Applicable(d.snapshot, e) then Gap
      else Stored(Settle(Journaled(d.(snapshot := Applied(d.snapshot, e)), e, size, config)))
  }

  /** Install an already projected source snapshot, unless the entry has moved past it. */
  function Install(d: RunData, snapshot: RunSnapshot): Option<RunData> {
    if snapshot.sequence < d.snapshot.sequence then None
    else Some(Settle(d.(resetFloor := snapshot.sequence, snapshot := snapshot, journal := [], journalBytes := 0)))
  }

  function Faulted(d: RunData): RunData {
    if d.snapshot.outcome.None? then d.(fault := Some(EXECUTOR_FAULT), completed := true) else d
  }

  /** The retained entry as the mutable object; one call is one lock acquisition and its notification. */
  class Entry {
    var snapshot: RunSnapshot
    var journal: seq<JournalRecord>
    var journalBytes: nat
    var resetFloor: nat
    var fault: Option<ApplicationError>
    var completed: bool
    var revision: nat

    function Data(): RunData
      reads this
    {
      RunData(snapshot, journal, journalBytes, resetFloor, fault, completed)
    }

    constructor (runId: string)
      ensures Data() == NewRun(runId) && revision == 0
    {
      snapshot, journal, journalBytes, resetFloor := NewSnapshot(runId), [], 0, 0;
      fault, completed, revision := None, false, 0;
    }

    /** `source` is what the session's snapshot call would answer now; only a gap asks for it. */
    method AcceptEvent(raw: EventEnvelope, source: RunSnapshot, size: Sizer, config: Config)
      modifies this
      ensures match Accept(old(Data()), raw, size, config)
              case Ignored => Data() == old(Data()) && revision == old(revision)
              case Stored(d) => Data() == d && revision == old(revision) + 1
              case Gap =>
                match Install(old(Data()), PublicSnapshot(source))
                case None => Data() == old(Data()) && revision == old(revision)
                case Some(d) => Data() == d && revision == old(revision) + 1
    {
      hide Evict, PublicSnapshot, Upsert;
      if raw.sequence <= snapshot.sequence { return; }
      var e := PublicEvent(raw);
      if !Applicable(snapshot, e) {
        Resync(source);
        return;
      }
      snapshot := Applied(snapshot, e);
      var bytes := Min(size(e), WORD_MAX);
      if bytes <= config.journalBytes {
        journalBytes := SatAdd(journalBytes, bytes);
        journal := journal + [JournalRecord(e, bytes)];
      } else {
        journal, journalBytes, resetFloor := [], 0, snapshot.sequence;
      }
      NothingToEvict(config);
      Trim(config);
      if (snapshot.outcome.Some? || fault.Some?) && !completed { completed := true; }
      revision := revision + 1;
    }

    /** The eviction loop. */
    method Trim(config: Config)
      modifies this`journal, this`journalBytes
      ensures Window(journal, journalBytes) == Evict(old(Window(journal, journalBytes)), config)
    {
      while |journal| > config.journalEvents || journalBytes > config.journalBytes
        invariant Evict(Window(journal, journalBytes), config) == Evict(old(Window(journal, journalBytes)), config)
        decreases |journal|
      {
        if |journal| > 0 {
          journalBytes := SatSub(journalBytes, journal[0].bytes);
          journal := journal[1..];
        } else {
          break;
        }
      }
    }

    method Resync(source: RunSnapshot)
      modifies this
      ensures match Install(old(Data()), PublicSnapshot(source))
              case None => Data() == old(Data()) && revision == old(revision)
              case Some(d) => Data() == d && revision == old(revision) + 1
    {
      var projected := PublicSnapshot(source);
      if projected.sequence < snapshot.sequence { return; }
      resetFloor := projected.sequence;
      snapshot := projected;
      journal, journalBytes := [], 0;
      if (snapshot.outcome.Some? || fault.Some?) && !completed { completed := true; }
      revision := revision + 1;
    }

    method Fail()
      modifies this
      ensures Data() == Faulted(old(Data())) && revision == old(revision) + 1
    {
      if snapshot.outcome.None? {
        fault := Some(EXECUTOR_FAULT);
        completed := true;
      }
      revision := revision + 1;
    }
  }

  // ----- Subscriptions -----

  datatype SnapshotReason = Initial | CursorExpired | SourceResync

  datatype Frame =
    | EventFrame(envelope: EventEnvelope)
    | SnapshotFrame(reason: SnapshotReason, snapshot: RunSnapshot)
    | FaultFrame(error: ApplicationError)

  datatype Cursor = Cursor(position: nat, initial: bool, ended: bool)

  datatype Polled = Yield(frame: Frame) | Finished | Wait

  function Oldest(d: RunData): nat {
    if d.journal == [] then d.snapshot.sequence + 1 else d.journal[0].envelope.sequence
  }

  function SnapshotNeeded(d: RunData, c: Cursor): Option<SnapshotReason> {
    if c.initial then Some(Initial)
    else if c.position < d.resetFloor then Some(SourceResync)
    else if c.position + 1 < Oldest(d) then Some(CursorExpired)
    else None
  }

  /** First journal record beyond the cursor; `|journal|` when there is none. */
  function FirstAfter(journal: seq<JournalRecord>, position: nat): (k: nat)
    ensures k <= |journal|
    ensures k < |journal| ==> journal[k].envelope.sequence > position
    ensures forall j :: 0 <= j < k ==> journal[j].envelope.sequence <= position
  {
    if journal == [] || journal[0].envelope.sequence > position then 0 else 1 + FirstAfter(journal[1..], position)
  }

  /** One pass of the subscription loop under the entry's lock. */
  function Poll(d: RunData, c: Cursor): (Polled, Cursor) {
    if c.ended then (Finished, c) else
      var reason := SnapshotNeeded(d, c);
      var k := FirstAfter(d.journal, c.position);
      if reason.Some? then
        (Yield(SnapshotFrame(reason.value, d.snapshot)), Cursor(d.snapshot.sequence, false, false))
      else if k < |d.journal| then
        (Yield(EventFrame(d.journal[k].envelope)), Cursor(d.journal[k].envelope.sequence, false, false))
      else if d.fault.Some? then (Yield(FaultFrame(d.fault.value)), c.(initial := false, ended := true))
      else if d.snapshot.outcome.Some? then (Finished, c.(ended := true))
      else (Wait, c)
  }

  class Subscription {
    const entry: Entry
    var position: nat
    var initial: bool
    var ended: bool
    var seen: nat

    function State(): Cursor
      reads this
    {
      Cursor(position, initial, ended)
    }

    /** Revisions are subscribed to before the state is looked at; `Replication.OpenStep` refuses a cursor ahead of
        the run between the two. */
    constructor (e: Entry, after: Option<nat>)
      ensures entry == e && seen == e.revision
      ensures State() == Cursor(if after.Some? then after.value else 0, after.None?, false)
    {
      entry, seen := e, e.revision;
      position, initial, ended := if after.Some? then after.value else 0, after.None?, false;
    }

    /** One pass of `next`; `Wait` is where the source suspends until the revision moves. */
    method PollOnce() returns (r: Polled)
      modifies this`position, this`initial, this`ended
      ensures (r, State()) == Poll(entry.Data(), old(State()))
    {
      if ended { return Finished; }
      var oldest := if entry.journal == [] then entry.snapshot.sequence + 1 else entry.journal[0].envelope.sequence;
      var reason: Option<SnapshotReason> :=
        if initial then Some(Initial)
        else if position < entry.resetFloor then Some(SourceResync)
        else if position + 1 < oldest then Some(CursorExpired)
        else None;
      var frame: Option<Frame> := None;
      if reason.Some? {
        frame := Some(SnapshotFrame(reason.value, entry.snapshot));
      } else {
        var k := 0;
        while k < |entry.journal| && entry.journal[k].envelope.sequence <= position
          invariant k <= |entry.journal|
          invariant forall j :: 0 <= j < k ==> entry.journal[j].envelope.sequence <= position
        {
          k := k + 1;
        }
        if k < |entry.journal| {
          frame := Some(EventFrame(entry.journal[k].envelope));
        } else if entry.fault.Some? {
          ended := true;
          frame := Some(FaultFrame(entry.fault.value));
        } else if entry.snapshot.outcome.Some? {
          ended := true;
        }
      }
      if frame.Some? {
        initial := false;
        match frame.value {
          case EventFrame(e) => position := e.sequence;
          case SnapshotFrame(_, s) => position := s.sequence;
          case FaultFrame(_) =>
        }
        return Yield(frame.value);
      }
      r := if ended then Finished else Wait;
    }
  }

  // ----- What the entry always is -----

  function SumBytes(journal: seq<JournalRecord>): nat {
    if journal == [] then 0 else journal[0].bytes + SumBytes(journal[1..])
  }

  lemma {:induction false} SumBytesAppend(journal: seq<JournalRecord>, r: JournalRecord)
    ensures SumBytes(journal + [r]) == SumBytes(journal) + r.bytes
  {
    if journal == [] {
      assert journal + [r] == [r];
    } else {
      SumBytesAppend(journal[1..], r);
      assert (journal + [r])[1..] == journal[1..] + [r];
    }
  }

  /** The public view of the source after its first `k` events. */
  function ViewAt(runId: string, log: seq<RunEvent>, k: nat): RunSnapshot
    requires k <= |log|
  {
    PublicSnapshot(Fold(runId, log[..k]))
  }

  function PublicAt(runId: string, log: seq<RunEvent>, k: nat): EventEnvelope
    requires 0 < k <= |log|
  {
    PublicEvent(Stamp(runId, k, log[k - 1]))
  }

  lemma ViewStep(runId: string, log: seq<RunEvent>, k: nat)
    requires 0 < k <= |log|
    ensures Applicable(ViewAt(runId, log, k - 1), PublicAt(runId, log, k))
    ensures Applied(ViewAt(runId, log, k - 1), PublicAt(runId, log, k)) == ViewAt(runId, log, k)
  {
    assert log[..k][..k - 1] == log[..k - 1];
    PublicCommutesWithApply(Fold(runId, log[..k - 1]), Stamp(runId, k, log[k - 1]));
  }

  /** The journal is a contiguous run of public events ending at the snapshot and above the reset floor. */
  predicate Contiguous(d: RunData, runId: string, log: seq<RunEvent>) {
    var n := d.snapshot.sequence;
    && n <= |log|
    && |d.journal| <= n
    && d.resetFloor <= n - |d.journal|
    && (forall i :: 0 <= i < |d.journal| ==> d.journal[i].envelope == PublicAt(runId, log, n - |d.journal| + i + 1))
    && (d.journal == [] ==> d.resetFloor == n)
  }

  /** Both bounds hold, and the byte counter never exceeds the true sum. */
  predicate Bounded(d: RunData, size: Sizer, config: Config) {
    && |d.journal| <= config.journalEvents
    && d.journalBytes <= config.journalBytes
    && d.journalBytes <= SumBytes(d.journal)
    && forall i :: 0 <= i < |d.journal| ==> d.journal[i].bytes == Min(size(d.journal[i].envelope), WORD_MAX)
  }

  predicate Replica(d: RunData, runId: string, log: seq<RunEvent>, size: Sizer, config: Config) {
    && Contiguous(d, runId, log)
    && d.snapshot == ViewAt(runId, log, d.snapshot.sequence)
    && Bounded(d, size, config)
    && (d.completed <==> Terminal(d))
  }

  /** Eviction keeps a suffix, keeps the last record, and meets both bounds. */
  lemma {:induction false} EvictKeepsLast(w: Window, config: Config)
    requires config.Valid() && w.journal != []
    requires w.bytes <= WORD_MAX
    requires w.journal[|w.journal| - 1].bytes <= config.journalBytes
    requires w.bytes <= SumBytes(w.journal)
    ensures var r := Evict(w, config);
      && r.journal != [] && |r.journal| <= |w.journal|
      && r.journal == w.journal[|w.journal| - |r.journal|..]
      && !Overfull(r, config)
      && r.bytes <= SumBytes(r.journal)
      && (w.bytes == SumBytes(w.journal) ==> r.bytes == SumBytes(r.journal))
    decreases |w.journal|
  {
    if Overfull(w, config) {
      var next := Window(w.journal[1..], SatSub(w.bytes, w.journal[0].bytes));
      assert SumBytes(w.journal) == w.journal[0].bytes + SumBytes(w.journal[1..]);
      assert |w.journal| > 1;
      EvictKeepsLast(next, config);
    }
  }

  /** Nothing is evicted that would have fitted: with exact counting the result is the longest fitting suffix. */
  lemma {:induction false} EvictIsLongest(w: Window, config: Config, keep: nat)
    requires w.bytes == SumBytes(w.journal)
    requires keep <= |w.journal| && keep <= config.journalEvents
    requires SumBytes(w.journal[|w.journal| - keep..]) <= config.journalBytes
    ensures |Evict(w, config).journal| >= keep
    decreases |w.journal|
  {
    if w.journal != [] && Overfull(w, config) {
      assert keep < |w.journal| by { assert w.journal[0..] == w.journal; }
      var next := Window(w.journal[1..], SatSub(w.bytes, w.journal[0].bytes));
      assert next.journal[|next.journal| - keep..] == w.journal[|w.journal| - keep..];
      EvictIsLongest(next, config, keep);
    }
  }

  predicate AdvancedTo(before: RunData, d: RunData, runId: string, log: seq<RunEvent>, size: Sizer, config: Config,
                       k: nat)
    requires 0 < k <= |log|
  {
    && Replica(d, runId, log, size, config)
    && d.snapshot.sequence == k
    && d.fault == before.fault
    && (size(PublicAt(runId, log, k)) <= config.journalBytes ==>
          d.journal != [] && d.journal[|d.journal| - 1].envelope == PublicAt(runId, log, k))
  }

  /** Everything one accepted event does to a replica: it stays one, advanced by exactly that event, which is
      never evicted by its own insertion when it fits the byte bound. */
  lemma AcceptKeepsReplica(d: RunData, runId: string, log: seq<RunEvent>, size: Sizer, config: Config, k: nat)
    requires config.Valid() && Replica(d, runId, log, size, config)
    requires 0 < k <= |log|
    ensures match Accept(d, Stamp(runId, k, log[k - 1]), size, config)
            case Ignored => k <= d.snapshot.sequence
            case Gap => k > d.snapshot.sequence + 1
            case Stored(after) => k == d.snapshot.sequence + 1 && AdvancedTo(d, after, runId, log, size, config, k)
  {
    if k == d.snapshot.sequence + 1 {
      AcceptAdjacent(d, runId, log, size, config);
      StoredAdvances(d, runId, log, size, config);
    } else if k > d.snapshot.sequence {
      assert !Applicable(d.snapshot, PublicAt(runId, log, k));
    }
  }

  lemma StoredAdvances(d: RunData, runId: string, log: seq<RunEvent>, size: Sizer, config: Config)
    requires config.Valid() && Replica(d, runId, log, size, config) && d.snapshot.sequence < |log|
    ensures var k := d.snapshot.sequence + 1;
      AdvancedTo(d, Settle(Journaled(d.(snapshot := ViewAt(runId, log, k)), PublicAt(runId, log, k), size, config)),
                 runId, log, size, config, k)
  {
    var k := d.snapshot.sequence + 1;
    var moved := d.(snapshot := ViewAt(runId, log, k));
    ViewStep(runId, log, k);
    JournalKeepsReplica(d, moved, runId, log, size, config, k);
    SettleKeepsReplica(Journaled(moved, PublicAt(runId, log, k), size, config), runId, log, size, config);
  }

  lemma AcceptAdjacent(d: RunData, runId: string, log: seq<RunEvent>, size: Sizer, config: Config)
    requires d.snapshot.sequence < |log| && d.snapshot == ViewAt(runId, log, d.snapshot.sequence)
    ensures var k := d.snapshot.sequence + 1;
      Accept(d, Stamp(runId, k, log[k - 1]), size, config)
        == Stored(Settle(Journaled(d.(snapshot := ViewAt(runId, log, k)), PublicAt(runId, log, k), size, config)))
  {
    ViewStep(runId, log, d.snapshot.sequence + 1);
  }

  lemma SettleKeepsReplica(d: RunData, runId: string, log: seq<RunEvent>, size: Sizer, config: Config)
    requires Contiguous(d, runId, log) && Bounded(d, size, config)
    requires d.snapshot == ViewAt(runId, log, d.snapshot.sequence) && (d.completed ==> Terminal(d))
    ensures Replica(Settle(d), runId, log, size, config)
  {
  }

  lemma JournalKeepsReplica(d: RunData, moved: RunData, runId: string, log: seq<RunEvent>, size: Sizer, config: Config,
                            k: nat)
    requires config.Valid() && Replica(d, runId, log, size, config)
    requires k == d.snapshot.sequence + 1 <= |log|
    requires moved == d.(snapshot := ViewAt(runId, log, k))
    ensures var after := Journaled(moved, PublicAt(runId, log, k), size, config);
      && Contiguous(after, runId, log) && Bounded(after, size, config)
      && after.snapshot == moved.snapshot && after.fault == d.fault && after.completed == d.completed
      && (size(PublicAt(runId, log, k)) <= config.journalBytes ==>
            after.journal != [] && after.journal[|after.journal| - 1].envelope == PublicAt(runId, log, k))
  {
    var e := PublicAt(runId, log, k);
    var bytes := Min(size(e), WORD_MAX);
    if bytes <= config.journalBytes {
      var r := JournalRecord(e, bytes);
      var w := Window(d.journal + [r], SatAdd(d.journalBytes, bytes));
      SumBytesAppend(d.journal, r);
      EvictKeepsLast(w, config);
      var kept := Evict(w, config);
      SuffixIsBounded(moved, w, kept, size, config);
      SuffixIsContiguous(d, moved.(journal := kept.journal, journalBytes := kept.bytes), w.journal, runId, log);
    }
  }

  lemma SuffixIsBounded(d: RunData, w: Window, kept: Window, size: Sizer, config: Config)
    requires |kept.journal| <= |w.journal| && kept.journal == w.journal[|w.journal| - |kept.journal|..]
    requires !Overfull(kept, config) && kept.bytes <= SumBytes(kept.journal)
    requires forall i :: 0 <= i < |w.journal| ==> w.journal[i].bytes == Min(size(w.journal[i].envelope), WORD_MAX)
    ensures Bounded(d.(journal := kept.journal, journalBytes := kept.bytes), size, config)
  {
  }

  lemma SuffixIsContiguous(d: RunData, after: RunData, pushed: seq<JournalRecord>, runId: string, log: seq<RunEvent>)
    requires Contiguous(d, runId, log) && after.resetFloor == d.resetFloor
    requires after.snapshot.sequence == d.snapshot.sequence + 1 <= |log|
    requires |pushed| == |d.journal| + 1 && pushed[..|d.journal|] == d.journal
    requires pushed[|d.journal|].envelope == PublicAt(runId, log, after.snapshot.sequence)
    requires after.journal != [] && |after.journal| <= |pushed|
    requires after.journal == pushed[|pushed| - |after.journal|..]
    ensures Contiguous(after, runId, log)
  {
    var n, m := after.snapshot.sequence, |after.journal|;
    forall i | 0 <= i < m ensures after.journal[i].envelope == PublicAt(runId, log, n - m + i + 1) {
      var j := |pushed| - m + i;
      assert after.journal[i] == pushed[j];
      if j < |d.journal| { assert pushed[j] == d.journal[j]; }
    }
  }

  lemma InstallKeepsReplica(d: RunData, runId: string, log: seq<RunEvent>, size: Sizer, config: Config, k: nat)
    requires config.Valid() && SourceLog(log) && Replica(d, runId, log, size, config) && k <= |log|
    ensures var r := Install(d, ViewAt(runId, log, k));
      && (r.None? <==> k < d.snapshot.sequence)
      && (r.Some? ==>
          && Replica(r.value, runId, log, size, config) && r.value.snapshot.sequence == k && r.value.fault == d.fault
          && r.value.resetFloor == k && r.value.journal == [])
  {
    OutcomeIsLast(d, runId, log, size, config);
  }

  /** The entry shows an outcome only once it has reached the end of the source's log. */
  lemma OutcomeIsLast(d: RunData, runId: string, log: seq<RunEvent>, size: Sizer, config: Config)
    requires SourceLog(log) && Replica(d, runId, log, size, config)
    ensures d.snapshot.outcome.Some? ==>
              d.snapshot.sequence == |log| && log != [] && log[|log| - 1].RunFinished?
    ensures d.snapshot.sequence == |log| && log != [] && log[|log| - 1].RunFinished? ==> d.snapshot.outcome.Some?
  {
    var n := d.snapshot.sequence;
    FoldOutcome(runId, log[..n]);
    assert n == |log| ==> log[..n] == log;
  }

  lemma ReplicaSurvivesEmit(d: RunData, runId: string, log: seq<RunEvent>, size: Sizer, config: Config, e: RunEvent)
    requires Replica(d, runId, log, size, config)
    ensures Replica(d, runId, log + [e], size, config)
  {
    var more := log + [e];
    assert more[..d.snapshot.sequence] == log[..d.snapshot.sequence];
    hide Bounded, Fold, PublicSnapshot, Stamp, PublicEvent;
    assert forall k :: 0 < k <= |log| ==> PublicAt(runId, more, k) == PublicAt(runId, log, k);
  }

  // ----- What a poll delivers -----

  /** How a client folds the frames it receives; `None` once an event could not be applied. */
  function Absorb(view: Option<RunSnapshot>, f: Frame): Option<RunSnapshot> {
    match f
    case EventFrame(e) => if view.Some? && Applicable(view.value, e) then Some(Applied(view.value, e)) else None
    case SnapshotFrame(_, s) => Some(s)
    case FaultFrame(_) => view
  }

  /** A cursor and the client's own view agree with the source. */
  predicate Synchronized(c: Cursor, view: Option<RunSnapshot>, runId: string, log: seq<RunEvent>) {
    && c.position <= |log|
    && (c.initial ==> c.position == 0 && view.None?)
    && (!c.initial ==> view == Some(ViewAt(runId, log, c.position)))
  }

  /** Every frame moves cursor and view together, an event frame by exactly one sequence number. */
  lemma PollDeliversInOrder(d: RunData, c: Cursor, view: Option<RunSnapshot>, runId: string, log: seq<RunEvent>,
                            size: Sizer, config: Config)
    requires Replica(d, runId, log, size, config)
    requires c.position <= d.snapshot.sequence && Synchronized(c, view, runId, log)
    ensures var (r, c') := Poll(d, c);
      && c'.position <= d.snapshot.sequence
      && (!r.Yield? ==> Synchronized(c', view, runId, log))
      && (r.Yield? ==> c.initial ==> r.frame.SnapshotFrame?)
      && (r.Yield? && !(c.initial && r.frame.FaultFrame?) ==> Synchronized(c', Absorb(view, r.frame), runId, log))
      && (r.Yield? && r.frame.EventFrame? ==> r.frame.envelope == PublicAt(runId, log, c.position + 1))
      && (r.Yield? && r.frame.SnapshotFrame? ==> r.frame.snapshot == ViewAt(runId, log, c'.position))
  {
    var k := FirstAfter(d.journal, c.position);
    if !c.ended && SnapshotNeeded(d, c).None? && k < |d.journal| {
      NextIsAdjacent(d, c, runId, log);
      ViewStep(runId, log, c.position + 1);
    }
  }

  lemma NextIsAdjacent(d: RunData, c: Cursor, runId: string, log: seq<RunEvent>)
    requires Contiguous(d, runId, log) && c.position <= d.snapshot.sequence
    requires SnapshotNeeded(d, c).None?
    ensures var k := FirstAfter(d.journal, c.position);
      && (k < |d.journal| <==> c.position < d.snapshot.sequence)
      && (k < |d.journal| ==> d.journal[k].envelope == PublicAt(runId, log, c.position + 1))
  {
    var k := FirstAfter(d.journal, c.position);
    JournalSequences(d, runId, log);
    var base := d.snapshot.sequence - |d.journal|;
    if c.position < d.snapshot.sequence {
      assert base <= c.position;
      assert d.journal[c.position - base].envelope.sequence == c.position + 1;
      assert k == c.position - base;
    }
  }

  lemma JournalSequences(d: RunData, runId: string, log: seq<RunEvent>)
    requires Contiguous(d, runId, log)
    ensures forall i :: 0 <= i < |d.journal| ==>
            d.journal[i].envelope.sequence == d.snapshot.sequence - |d.journal| + i + 1
  {
  }

  /** The journal still holds the event with this number. */
  predicate Holds(d: RunData, sequence: nat) {
    exists i :: 0 <= i < |d.journal| && d.journal[i].envelope.sequence == sequence
  }

  /** What a client that has not ended gets: its first snapshot; a snapshot when it is behind a reset; the very next
      event as long as the journal holds it; a snapshot when it is behind and the journal does not; and when it is
      caught up the fault, the end, or nothing yet. */
  lemma PollIs(d: RunData, c: Cursor, runId: string, log: seq<RunEvent>)
    requires Contiguous(d, runId, log) && c.position <= d.snapshot.sequence && !c.ended
    ensures var (p, next, n) := (Poll(d, c).0, Poll(d, c).1, d.snapshot.sequence);
      var caughtUp := Cursor(n, false, false);
      if c.initial then p == Yield(SnapshotFrame(Initial, d.snapshot)) && next == caughtUp
      else if c.position < d.resetFloor then p == Yield(SnapshotFrame(SourceResync, d.snapshot)) && next == caughtUp
      else if c.position < n && Holds(d, c.position + 1) then
        p == Yield(EventFrame(PublicAt(runId, log, c.position + 1))) && next == Cursor(c.position + 1, false, false)
      else if c.position < n then p == Yield(SnapshotFrame(CursorExpired, d.snapshot)) && next == caughtUp
      else if d.fault.Some? then p == Yield(FaultFrame(d.fault.value)) && next == c.(ended := true)
      else if d.snapshot.outcome.Some? then p == Finished && next == c.(ended := true)
      else p == Wait && next == c
  {
    hide PublicAt;
    JournalSequences(d, runId, log);
    var base := d.snapshot.sequence - |d.journal|;
    if c.position < d.snapshot.sequence {
      if c.position >= base { assert d.journal[c.position - base].envelope.sequence == c.position + 1; }
      assert Holds(d, c.position + 1) <==> c.position >= base;
    }
    if !c.initial && SnapshotNeeded(d, c).None? { NextIsAdjacent(d, c, runId, log); }
  }

  /** A snapshot is due for exactly these reasons. */
  lemma ReasonIs(d: RunData, c: Cursor, runId: string, log: seq<RunEvent>)
    requires Contiguous(d, runId, log) && c.position <= d.snapshot.sequence
    ensures SnapshotNeeded(d, c) == Some(Initial) <==> c.initial
    ensures SnapshotNeeded(d, c) == Some(SourceResync) <==> !c.initial && c.position < d.resetFloor
    ensures SnapshotNeeded(d, c) == Some(CursorExpired) <==>
              && !c.initial && d.resetFloor <= c.position
              && c.position < d.snapshot.sequence && !Holds(d, c.position + 1)
  {
    JournalSequences(d, runId, log);
    var base := d.snapshot.sequence - |d.journal|;
    if base <= c.position < d.snapshot.sequence {
      assert d.journal[c.position - base].envelope.sequence == c.position + 1;
    }
  }

  /** Nothing is left to say only when the client is up to date with a run that is still going. */
  lemma WaitMeansCaughtUp(d: RunData, c: Cursor, runId: string, log: seq<RunEvent>)
    requires Contiguous(d, runId, log) && c.position <= d.snapshot.sequence
    ensures Poll(d, c).0 == Wait <==>
              !c.ended && !c.initial && c.position == d.snapshot.sequence && !Terminal(d)
  {
    if !c.ended && SnapshotNeeded(d, c).None? { NextIsAdjacent(d, c, runId, log); }
    if !c.initial && c.position == d.snapshot.sequence && d.journal != [] {
      assert d.journal[0].envelope.sequence <= c.position + 1;
    }
  }

  // ----- Draining an entry that has stopped changing -----

  function Drain(d: RunData, c: Cursor, runId: string, log: seq<RunEvent>): (r: (seq<Frame>, Cursor))
    requires Contiguous(d, runId, log) && c.position <= d.snapshot.sequence
    decreases !c.ended, d.snapshot.sequence - c.position, c.initial
  {
    var (p, c') := Poll(d, c);
    if !p.Yield? then ([], c') else
      DrainProgress(d, c, runId, log);
      Prepend(p.frame, Drain(d, c', runId, log))
  }

  function Prepend(f: Frame, rest: (seq<Frame>, Cursor)): (seq<Frame>, Cursor) { ([f] + rest.0, rest.1) }

  lemma DrainProgress(d: RunData, c: Cursor, runId: string, log: seq<RunEvent>)
    requires Contiguous(d, runId, log) && c.position <= d.snapshot.sequence
    requires Poll(d, c).0.Yield?
    ensures var c' := Poll(d, c).1;
      && c.position <= c'.position <= d.snapshot.sequence && !c'.initial
      && (c'.ended || c.position < c'.position || c.initial)
  {
    if SnapshotNeeded(d, c).None? { NextIsAdjacent(d, c, runId, log); }
  }

  function EventsFrom(runId: string, log: seq<RunEvent>, lo: nat, hi: nat): seq<Frame>
    requires lo <= hi <= |log|
    decreases hi - lo
  {
    if lo == hi then [] else [EventFrame(PublicAt(runId, log, lo + 1))] + EventsFrom(runId, log, lo + 1, hi)
  }

  function FaultPart(d: RunData): seq<Frame> {
    if d.fault.Some? then [FaultFrame(d.fault.value)] else []
  }

  /** Past its first frame a cursor replays events one by one and never needs another snapshot. */
  lemma PollEvent(d: RunData, c: Cursor, runId: string, log: seq<RunEvent>)
    requires Contiguous(d, runId, log) && c.position < d.snapshot.sequence && !c.ended
    requires SnapshotNeeded(d, c).None?
    ensures Poll(d, c)
            == (Yield(EventFrame(PublicAt(runId, log, c.position + 1))), Cursor(c.position + 1, false, false))
    ensures SnapshotNeeded(d, Cursor(c.position + 1, false, false)).None?
  {
    NextIsAdjacent(d, c, runId, log);
  }

  lemma DrainAtEnd(d: RunData, runId: string, log: seq<RunEvent>)
    requires Contiguous(d, runId, log)
    ensures var n := d.snapshot.sequence;
      SnapshotNeeded(d, Cursor(n, false, false)).None?
      && Drain(d, Cursor(n, false, false), runId, log) == (FaultPart(d), Cursor(n, false, Terminal(d)))
  {
    var n := d.snapshot.sequence;
    var c := Cursor(n, false, false);
    if d.journal != [] { assert d.journal[0].envelope.sequence <= n; }
    NextIsAdjacent(d, c, runId, log);
    if d.fault.Some? {
      var e := Cursor(n, false, true);
      assert Poll(d, c) == (Yield(FaultFrame(d.fault.value)), e);
      assert Drain(d, e, runId, log) == ([], e);
      assert Drain(d, c, runId, log) == Prepend(FaultFrame(d.fault.value), ([], e));
      assert [FaultFrame(d.fault.value)] + [] == FaultPart(d);
    } else {
      assert !Poll(d, c).0.Yield? && Poll(d, c).1 == Cursor(n, false, Terminal(d));
    }
  }

  lemma DrainOnce(d: RunData, c: Cursor, runId: string, log: seq<RunEvent>, f: Frame, next: Cursor,
                  rest: (seq<Frame>, Cursor))
    requires Contiguous(d, runId, log) && c.position <= d.snapshot.sequence && next.position <= d.snapshot.sequence
    requires Poll(d, c) == (Yield(f), next) && Drain(d, next, runId, log) == rest
    ensures Drain(d, c, runId, log) == Prepend(f, rest)
  {
  }

  lemma {:induction false} DrainEvents(d: RunData, c: Cursor, runId: string, log: seq<RunEvent>)
    requires Contiguous(d, runId, log) && c.position <= d.snapshot.sequence && !c.ended
    requires SnapshotNeeded(d, c).None?
    ensures var n := d.snapshot.sequence;
      Drain(d, c, runId, log) == (EventsFrom(runId, log, c.position, n) + FaultPart(d), Cursor(n, false, Terminal(d)))
    decreases d.snapshot.sequence - c.position
  {
    var n := d.snapshot.sequence;
    if c.position == n {
      DrainAtEnd(d, runId, log);
      assert [] + FaultPart(d) == FaultPart(d);
    } else {
      var next := Cursor(c.position + 1, false, false);
      PollEvent(d, c, runId, log);
      DrainEvents(d, next, runId, log);
      var f := EventFrame(PublicAt(runId, log, c.position + 1));
      var later := EventsFrom(runId, log, c.position + 1, n);
      DrainOnce(d, c, runId, log, f, next, (later + FaultPart(d), Cursor(n, false, Terminal(d))));
      assert [f] + (later + FaultPart(d)) == ([f] + later) + FaultPart(d);
    }
  }

  /** A client drains either every remaining event or one snapshot, then at most one fault; it ends exactly
      when the entry is terminal, holding the entry's final position. */
  lemma DrainExactly(d: RunData, c: Cursor, runId: string, log: seq<RunEvent>)
    requires Contiguous(d, runId, log) && c.position <= d.snapshot.sequence && !c.ended
    ensures var n := d.snapshot.sequence;
      Drain(d, c, runId, log) ==
        ((if SnapshotNeeded(d, c).Some? then [SnapshotFrame(SnapshotNeeded(d, c).value, d.snapshot)]
          else EventsFrom(runId, log, c.position, n)) + FaultPart(d),
         Cursor(n, false, Terminal(d)))
  {
    if SnapshotNeeded(d, c).None? {
      DrainEvents(d, c, runId, log);
    } else {
      DrainAtEnd(d, runId, log);
    }
  }
}
