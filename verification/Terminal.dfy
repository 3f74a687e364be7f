/** A terminal's output ring, read in pages by a polling client, and its sequenced input. */
module Terminal {
  import opened Text

  const MAX_OUTPUT: nat := 1024 * 1024
  const PAGE: nat := 65536
  const MAX_INPUT: nat := 16384

  datatype Error = Conflict | InvalidRequest | Internal

  // ----- Output -----

  datatype Page = Page(data: seq<byte>, next: nat, dropped: bool, exited: bool, code: Option<nat>)

  /** The process as the reader thread has seen it so far. */
  datatype Process = Process(stream: seq<byte>, exited: bool, code: Option<nat>)

  /** First position still buffered. */
  function Floor(p: Process): nat { SatSub(|p.stream|, MAX_OUTPUT) }

  function PageOf(p: Process, after: nat): Result<Page, Error> {
    if after > |p.stream| then Err(Conflict) else
      var start := Max(after, Floor(p));
      var next := Min(start + PAGE, |p.stream|);
      Ok(Page(p.stream[start..next], next, after < Floor(p), p.exited && next == |p.stream|, p.code))
  }

  class Output {
    var bytes: seq<byte>
    var start: nat
    var end: nat
    var exited: bool
    var code: Option<nat>
    ghost var stream: seq<byte>

    /** The buffer is exactly bytes `start..end` of the whole stream, and never more than the last mebibyte. */
    ghost predicate Valid()
      reads this
    {
      && end == |stream| && start == SatSub(|stream|, MAX_OUTPUT)
      && bytes == stream[start..end] && |bytes| <= MAX_OUTPUT && (code.Some? ==> exited)
    }

    ghost function Now(): Process
      reads this
    {
      Process(stream, exited, code)
    }

    constructor ()
      ensures Valid() && Now() == Process([], false, None)
    {
      bytes, start, end, exited, code := [], 0, 0, false, None;
      stream := [];
    }

    /** One round of the reader thread. */
    method Extend(chunk: seq<byte>)
      requires Valid() && !exited
      modifies this
      ensures Valid() && Now() == old(Now()).(stream := old(stream) + chunk)
    {
      TailGrows(stream, start, chunk);
      stream := stream + chunk;
      bytes := bytes + chunk;
      end := end + |chunk|;
      if |bytes| > MAX_OUTPUT {
        SliceOfSlice(stream, start, end, |bytes| - MAX_OUTPUT, |bytes|);
        var discard := |bytes| - MAX_OUTPUT;
        bytes := bytes[discard..];
        start := start + discard;
      }
    }

    method Exit(status: Option<nat>)
      requires Valid() && !exited
      modifies this
      ensures Valid() && Now() == Process(old(stream), true, status)
    {
      exited, code := true, status;
    }

    /** `output`. */
    method Read(after: nat) returns (r: Result<Page, Error>)
      requires Valid()
      ensures r == PageOf(Now(), after)
    {
      if after > end { return Err(Conflict); }
      var from := Max(after, start);
      var data := bytes[from - start..Min(from - start + PAGE, |bytes|)];
      SliceOfSlice(stream, start, end, from - start, from - start + |data|);
      r := Ok(Page(data, from + |data|, after < start, exited && from + PAGE >= end, code));
    }
  }

  lemma TailGrows<T>(s: seq<T>, from: nat, more: seq<T>)
    requires from <= |s|
    ensures s[from..|s|] + more == (s + more)[from..|s + more|]
  {
  }

  lemma SliceOfSlice<T>(s: seq<T>, from: nat, to: nat, lo: nat, hi: nat)
    requires from <= to <= |s| && lo <= hi <= to - from
    ensures s[from..to][lo..hi] == s[from + lo..from + hi]
    ensures hi == to - from ==> s[from..to][lo..] == s[from + lo..to]
  {
    var a, b := s[from..to][lo..hi], s[from + lo..from + hi];
    assert |a| == |b| && forall i :: 0 <= i < |a| ==> a[i] == b[i];
    assert hi == to - from ==> s[from..to][lo..] == a;
  }

  // ----- A client that follows `next` -----

  /** A process only grows, and no longer once it has exited. */
  predicate Grows(p: Process, q: Process) {
    p.stream <= q.stream && (p.exited ==> q == p)
  }

  predicate Polls(seen: seq<Process>) { forall i :: 0 < i < |seen| ==> Grows(seen[i - 1], seen[i]) }

  /** Where the client stands before its `n`-th poll, starting at the beginning and following `next`. */
  function Cursor(seen: seq<Process>, n: nat): nat
    requires n <= |seen|
  {
    if n == 0 then 0 else
      var page := PageOf(seen[n - 1], Cursor(seen, n - 1));
      if page.Ok? then page.value.next else Cursor(seen, n - 1)
  }

  function PageAt(seen: seq<Process>, n: nat): Result<Page, Error>
    requires n < |seen|
  {
    PageOf(seen[n], Cursor(seen, n))
  }

  lemma {:induction false} GrowsAll(seen: seq<Process>, i: nat, j: nat)
    requires Polls(seen) && i <= j < |seen|
    ensures Grows(seen[i], seen[j])
    decreases j
  {
    if i < j {
      GrowsAll(seen, i, j - 1);
      var a, b, c := seen[i].stream, seen[j - 1].stream, seen[j].stream;
      assert Grows(seen[j - 1], seen[j]);
      assert c[..|a|] == b[..|a|];
    }
  }

  lemma {:induction false} CursorIsValid(seen: seq<Process>, n: nat)
    requires Polls(seen) && n < |seen|
    ensures Cursor(seen, n) <= |seen[n].stream| && PageAt(seen, n).Ok?
  {
    if n > 0 {
      CursorIsValid(seen, n - 1);
      assert Grows(seen[n - 1], seen[n]);
    }
  }

  /** What the client has after `n` polls, with every stretch that was dropped filled in from the full stream. */
  function Stitched(full: seq<byte>, seen: seq<Process>, n: nat): seq<byte>
    requires n <= |seen| && forall i :: 0 <= i < n ==> Cursor(seen, i) <= |full| && PageAt(seen, i).Ok?
  {
    if n == 0 then [] else
      var page := PageAt(seen, n - 1).value;
      Stitched(full, seen, n - 1) + Gap(full, Cursor(seen, n - 1), page) + page.data
  }

  /** The bytes between the cursor and the start of a page. */
  function Gap(full: seq<byte>, cursor: nat, page: Page): seq<byte>
    requires cursor <= |full|
  {
    if page.next - |page.data| <= cursor || page.next - |page.data| > |full| then []
    else full[cursor..page.next - |page.data|]
  }

  lemma {:induction false} CursorsFit(seen: seq<Process>, n: nat)
    requires Polls(seen) && n < |seen|
    ensures forall i :: 0 <= i <= n ==> Cursor(seen, i) <= |seen[n].stream| && PageAt(seen, i).Ok?
  {
    forall i | 0 <= i <= n ensures Cursor(seen, i) <= |seen[n].stream| && PageAt(seen, i).Ok? {
      CursorIsValid(seen, i);
      GrowsAll(seen, i, n);
    }
  }

  lemma PageIsSlice(p: Process, full: seq<byte>, after: nat)
    requires after <= |p.stream| && p.stream <= full
    ensures var page := PageOf(p, after).value;
      && after <= page.next <= |full| && |page.data| <= page.next
      && page.data == full[page.next - |page.data|..page.next]
      && Gap(full, after, page) + page.data == full[after..page.next]
      && (page.dropped <==> Gap(full, after, page) != [])
      && |page.data| <= PAGE && page.code == p.code
  {
    var page := PageOf(p, after).value;
    var start := Max(after, Floor(p));
    assert page.data == full[start..page.next];
    assert Gap(full, after, page) == full[after..start];
  }

  lemma PageAtIsSlice(full: seq<byte>, seen: seq<Process>, n: nat, last: nat)
    requires Polls(seen) && n <= last < |seen| && full == seen[last].stream
    ensures Cursor(seen, n) <= |full| && PageAt(seen, n).Ok?
    ensures var (from, page) := (Cursor(seen, n), PageAt(seen, n).value);
      from <= page.next <= |full| && Gap(full, from, page) + page.data == full[from..page.next]
  {
    GrowsAll(seen, n, last);
    CursorIsValid(seen, n);
    hide Cursor, PageOf, Gap;
    PageIsSlice(seen[n], full, Cursor(seen, n));
  }

  lemma StitchedStep(full: seq<byte>, seen: seq<Process>, n: nat)
    requires 0 < n <= |seen| && forall i :: 0 <= i < n ==> Cursor(seen, i) <= |full| && PageAt(seen, i).Ok?
    ensures var page := PageAt(seen, n - 1).value;
      Stitched(full, seen, n) == Stitched(full, seen, n - 1) + Gap(full, Cursor(seen, n - 1), page) + page.data
  {
    hide Cursor, PageOf, Gap;
  }

  lemma NextCursor(seen: seq<Process>, n: nat)
    requires n < |seen| && PageAt(seen, n).Ok?
    ensures Cursor(seen, n + 1) == PageAt(seen, n).value.next
  {
  }

  lemma StitchOne(full: seq<byte>, from: nat, next: nat, gap: seq<byte>, data: seq<byte>)
    requires from <= next <= |full| && gap + data == full[from..next]
    ensures full[..from] + gap + data == full[..next]
  {
    Assoc(full[..from], gap, data);
  }

  lemma NothingStitched(full: seq<byte>, seen: seq<Process>)
    ensures Stitched(full, seen, 0) == [] && Cursor(seen, 0) == 0
  {
    hide PageOf, Gap;
  }

  lemma {:induction false} StitchedIsPrefix(full: seq<byte>, seen: seq<Process>, n: nat, last: nat,
                                            whole: seq<byte>, at: nat)
    requires Polls(seen) && n <= last + 1 <= |seen| && full == seen[last].stream
    requires forall i :: 0 <= i <= last ==> Cursor(seen, i) <= |full| && PageAt(seen, i).Ok?
    requires whole == Stitched(full, seen, n) && at == Cursor(seen, n)
    ensures at <= |full| && whole == full[..at]
    decreases n
  {
    hide PageOf, Gap, Cursor, Floor, Grows, PageAt, Stitched;
    NothingStitched(full, seen);
    if n > 0 {
      var from := Cursor(seen, n - 1);
      StitchedIsPrefix(full, seen, n - 1, last, Stitched(full, seen, n - 1), from);
      PageAtIsSlice(full, seen, n - 1, last);
      StitchedStep(full, seen, n);
      NextCursor(seen, n - 1);
      var page := PageAt(seen, n - 1).value;
      StitchOne(full, from, page.next, Gap(full, from, page), page.data);
    }
  }

  /** A client that follows `next` has the stream so far minus exactly the stretches its pages flagged as dropped;
      a page marked exited brings it to the end of everything the process wrote. */
  lemma ReaderSeesTheStream(seen: seq<Process>, last: nat)
    requires Polls(seen) && last < |seen|
    ensures forall i :: 0 <= i <= last ==> Cursor(seen, i) <= |seen[last].stream| && PageAt(seen, i).Ok?
    ensures Cursor(seen, last + 1) <= |seen[last].stream|
    ensures Stitched(seen[last].stream, seen, last + 1) == seen[last].stream[..Cursor(seen, last + 1)]
    ensures forall i :: 0 <= i <= last ==>
              (PageAt(seen, i).value.dropped <==> Gap(seen[last].stream, Cursor(seen, i), PageAt(seen, i).value) != [])
    ensures PageAt(seen, last).value.exited <==> seen[last].exited && Cursor(seen, last + 1) == |seen[last].stream|
    ensures PageAt(seen, last).value.code == seen[last].code
  {
    CursorsFit(seen, last);
    var full := seen[last].stream;
    StitchedIsPrefix(full, seen, last + 1, last, Stitched(full, seen, last + 1), Cursor(seen, last + 1));
    forall i | 0 <= i <= last
      ensures PageAt(seen, i).value.dropped <==> Gap(seen[last].stream, Cursor(seen, i), PageAt(seen, i).value) != []
    {
      GrowsAll(seen, i, last);
      CursorIsValid(seen, i);
      PageIsSlice(seen[i], seen[last].stream, Cursor(seen, i));
    }
  }

  /** After the exit every poll brings a full page or the end, so sixteen more polls always reach it. */
  lemma {:induction false} ExitIsReached(seen: seq<Process>, from: nat, k: nat)
    requires Polls(seen) && from + k < |seen| && seen[from].exited
    ensures PageAt(seen, from + k).Ok?
    ensures !PageAt(seen, from + k).value.exited ==> |seen[from].stream| > Floor(seen[from]) + (k + 1) * PAGE
    ensures k >= 15 ==> PageAt(seen, from + k).value.exited
    decreases k
  {
    CursorIsValid(seen, from + k);
    GrowsAll(seen, from, from + k);
    if k > 0 {
      ExitIsReached(seen, from, k - 1);
      GrowsAll(seen, from, from + k - 1);
      CursorIsValid(seen, from + k - 1);
      ReachesFloor(seen, from, k);
    } else {
      assert !PageAt(seen, from).value.exited ==> PageAt(seen, from).value.next >= Floor(seen[from]) + PAGE;
    }
  }

  /** A request for output is refused exactly when it is ahead of everything written so far. */
  lemma ReadRefusedIff(p: Process, after: nat)
    ensures PageOf(p, after) == Err(Conflict) <==> after > |p.stream|
    ensures PageOf(p, after).Ok? <==> after <= |p.stream|
  {
  }

  /** A page goes a full page beyond where it starts, or to the end. */
  lemma NextIsFar(p: Process, after: nat)
    requires after <= |p.stream|
    ensures PageOf(p, after).value.next == Min(Max(after, Floor(p)) + PAGE, |p.stream|)
  {
  }

  lemma {:induction false} ReachesFloor(seen: seq<Process>, from: nat, k: nat)
    requires Polls(seen) && from + k < |seen| && seen[from].exited
    ensures Cursor(seen, from + k) <= |seen[from].stream|
    ensures k > 0 ==> Cursor(seen, from + k) >= Min(Floor(seen[from]) + k * PAGE, |seen[from].stream|)
    decreases k
  {
    CursorIsValid(seen, from + k);
    GrowsAll(seen, from, from + k);
    if k > 0 {
      ReachesFloor(seen, from, k - 1);
      CursorIsValid(seen, from + k - 1);
      GrowsAll(seen, from, from + k - 1);
      NextCursor(seen, from + k - 1);
      NextIsFar(seen[from], Cursor(seen, from + k - 1));
      hide PageOf, Cursor, Floor;
    }
  }

  // ----- Input -----

  datatype Request = Request(sequence: nat, data: string, exited: bool, writes: bool)

  /** `written` is everything ever handed to the writer, in order. */
  datatype InputState = InputState(written: seq<string>, faulted: bool)

  /** What a request does, judged by the writes made so far. */
  function Sent(s: InputState, r: Request): (InputState, Option<Error>) {
    if Len(r.data) > MAX_INPUT || r.sequence == 0 then (s, Some(InvalidRequest))
    else if r.exited || s.faulted then (s, Some(Conflict))
    else if r.sequence == |s.written| && s.written[r.sequence - 1] == r.data then (s, None)
    else if r.sequence != |s.written| + 1 then (s, Some(Conflict))
    else if r.writes then (InputState(s.written + [r.data], false), None)
    else (InputState(s.written + [r.data], true), Some(Internal))
  }

  class Input {
    var last: nat
    var data: string
    var faulted: bool
    ghost var written: seq<string>

    ghost predicate Valid()
      reads this
    {
      last == |written| && (last > 0 ==> data == written[last - 1])
    }

    ghost function Now(): InputState
      reads this
    {
      InputState(written, faulted)
    }

    constructor ()
      ensures Valid() && Now() == InputState([], false)
    {
      last, data, faulted := 0, "", false;
      written := [];
    }

    /** `input`: the sequence number is taken before the write, so an ambiguous write is never replayed. */
    method Send(r: Request) returns (error: Option<Error>)
      requires Valid()
      modifies this
      ensures Valid() && (Now(), error) == Sent(old(Now()), r)
    {
      if Len(r.data) > MAX_INPUT || r.sequence == 0 { return Some(InvalidRequest); }
      if r.exited { return Some(Conflict); }
      if faulted { return Some(Conflict); }
      if last == r.sequence && data == r.data { return None; }
      if r.sequence != last + 1 { return Some(Conflict); }
      last, data := r.sequence, r.data;
      written := written + [r.data];
      if !r.writes {
        faulted := true;
        return Some(Internal);
      }
      error := None;
    }
  }

  function Run(requests: seq<Request>): InputState {
    if requests == [] then InputState([], false) else Sent(Run(requests[..|requests| - 1]), requests[|requests| - 1]).0
  }

  /** The writer only ever gets more, and nothing after a fault. */
  lemma {:induction false} WritesOnlyGrow(requests: seq<Request>, n: nat)
    requires n <= |requests|
    ensures Run(requests[..n]).written <= Run(requests).written
    ensures Run(requests[..n]).faulted ==> Run(requests) == Run(requests[..n])
    decreases |requests|
  {
    if n == |requests| {
      assert requests[..n] == requests;
    } else {
      var front := requests[..|requests| - 1];
      assert front[..n] == requests[..n];
      WritesOnlyGrow(front, n);
      var a, b, c := Run(front[..n]).written, Run(front).written, Run(requests).written;
      assert b <= c;
      assert c[..|a|] == b[..|a|];
    }
  }

  /** Data acknowledged for a sequence number is what the writer got in that place, once and for good; data that
      was refused, other than by a failing write, never reached it. */
  lemma AcknowledgedOnce(requests: seq<Request>, n: nat)
    requires n < |requests|
    ensures var (s, error) := Sent(Run(requests[..n]), requests[n]);
      && (error.None? ==>
          0 < requests[n].sequence <= |Run(requests).written|
            && Run(requests).written[requests[n].sequence - 1] == requests[n].data)
      && (error.Some? && error != Some(Internal) ==> s == Run(requests[..n]))
      && (error == Some(Internal) ==> Run(requests) == s && s.faulted)
  {
    assert requests[..n + 1][..n] == requests[..n];
    WritesOnlyGrow(requests, n + 1);
    var s := Run(requests[..n + 1]);
    assert s.written <= Run(requests).written;
  }

  /** A request is acknowledged exactly when it is well-formed, the terminal is still there and no write has failed, and
      it either repeats the last write or is the next one and its write succeeds. */
  lemma AcknowledgedIff(s: InputState, r: Request)
    ensures Sent(s, r).1.None? <==>
              && Len(r.data) <= MAX_INPUT && r.sequence > 0 && !r.exited && !s.faulted
              && ((r.sequence == |s.written| && r.data == s.written[|s.written| - 1])
                  || (r.sequence == |s.written| + 1 && r.writes))
    ensures Sent(s, r).1 == Some(InvalidRequest) <==> Len(r.data) > MAX_INPUT || r.sequence == 0
    ensures Sent(s, r).1 == Some(Internal) ==> r.sequence == |s.written| + 1 && !r.writes
  {
  }

  /** Everything the writer got came from the request of that number, made when it was the next one: nothing is written
      twice and nothing out of turn. */
  lemma {:induction false} WrittenInTurn(requests: seq<Request>, k: nat) returns (n: nat)
    requires k < |Run(requests).written|
    ensures n < |requests| && requests[n].sequence == k + 1 && requests[n].data == Run(requests).written[k]
    ensures |Run(requests[..n]).written| == k
    decreases |requests|
  {
    var front := requests[..|requests| - 1];
    if k < |Run(front).written| {
      n := WrittenInTurn(front, k);
      assert front[..n] == requests[..n];
      WritesOnlyGrow(requests, |front|);
    } else {
      n := |front|;
      assert requests[..n] == front;
    }
  }
}
