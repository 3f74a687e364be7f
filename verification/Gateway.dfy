/** The evaluation gateway: which model calls are admitted while earlier ones are still running. */
module Gateway {
  import opened Text

  datatype Call = Call(finished: bool, tokens: Option<nat>)

  datatype Limits = Limits(maxModelCalls: nat, maxTokens: nat)

  datatype Reason = CallsExhausted | UsageUnknown | TokensExhausted | TokensExceeded

  datatype State = State(calls: seq<Call>, blocked: Option<Reason>)

  function Tokens(c: Call): nat { if c.tokens.None? then 0 else c.tokens.value }

  function Total(calls: seq<Call>): nat {
    if calls == [] then 0 else Total(calls[..|calls| - 1]) + Tokens(calls[|calls| - 1])
  }

  /** A finished call whose usage was not reported. */
  predicate Unknown(calls: seq<Call>) { exists i :: 0 <= i < |calls| && calls[i].finished && calls[i].tokens.None? }

  /** Why the next call is refused, if it is. */
  function Refusal(limits: Limits, s: State): Option<Reason> {
    if s.blocked.Some? then s.blocked
    else if |s.calls| >= limits.maxModelCalls then Some(CallsExhausted)
    else if Unknown(s.calls) then Some(UsageUnknown)
    else if Total(s.calls) >= limits.maxTokens then Some(TokensExhausted)
    else None
  }

  datatype Event = Admit(stopped: bool) | Settle(call: nat, tokens: Option<nat>)

  /** Each admitted call settles once, in any order. */
  predicate Enabled(s: State, e: Event) { e.Settle? ==> e.call < |s.calls| && !s.calls[e.call].finished }

  function Step(limits: Limits, s: State, e: Event): State
    requires Enabled(s, e)
  {
    match e
    case Admit(stopped) =>
      if stopped then s
      else if Refusal(limits, s).Some? then s.(blocked := Refusal(limits, s))
      else s.(calls := s.calls + [Call(false, None)])
    case Settle(i, tokens) =>
      var calls := s.calls[i := Call(true, tokens)];
      State(calls, if Total(calls) > limits.maxTokens then Some(TokensExceeded) else s.blocked)
  }

  predicate Admits(limits: Limits, s: State, e: Event) { e == Admit(false) && Refusal(limits, s).None? }

  class EvaluationGateway {
    const limits: Limits
    var calls: seq<Call>
    var blocked: Option<Reason>

    function Now(): State
      reads this
    {
      State(calls, blocked)
    }

    constructor (limits: Limits)
      ensures this.limits == limits && Now() == State([], None)
    {
      this.limits := limits;
      calls, blocked := [], None;
    }

    /** The loops over the records that `admit` makes. */
    method Survey() returns (unknown: bool, used: nat)
      ensures unknown == Unknown(calls) && used == Total(calls)
    {
      unknown, used := false, 0;
      for i := 0 to |calls|
        invariant unknown == Unknown(calls[..i]) && used == Total(calls[..i])
      {
        assert calls[..i + 1][..i] == calls[..i];
        assert Unknown(calls[..i + 1]) <==> Unknown(calls[..i]) || (calls[i].finished && calls[i].tokens.None?) by {
          assert forall k :: 0 <= k < i ==> calls[..i + 1][k] == calls[..i][k];
          assert calls[..i + 1][i] == calls[i];
        }
        unknown := unknown || (calls[i].finished && calls[i].tokens.None?);
        used := used + Tokens(calls[i]);
      }
      assert calls[..|calls|] == calls;
    }

    /** `admit`, under the lock. */
    method Admit(stopped: bool) returns (record: Option<nat>)
      modifies this
      ensures Now() == Step(limits, old(Now()), Event.Admit(stopped))
      ensures record == if Admits(limits, old(Now()), Event.Admit(stopped)) then Some(|old(calls)|) else None
    {
      if stopped { return None; }
      if blocked.Some? { return None; }
      if |calls| >= limits.maxModelCalls {
        blocked := Some(CallsExhausted);
        return None;
      }
      var unknown, used := Survey();
      if unknown {
        blocked := Some(UsageUnknown);
        return None;
      }
      if used >= limits.maxTokens {
        blocked := Some(TokensExhausted);
        return None;
      }
      record := Some(|calls|);
      calls := calls + [Call(false, None)];
    }

    /** The settling block of `handle`. */
    method Settle(record: nat, tokens: Option<nat>)
      requires record < |calls| && !calls[record].finished
      modifies this
      ensures Now() == Step(limits, old(Now()), Event.Settle(record, tokens))
    {
      calls := calls[record := Call(true, tokens)];
      var _, used := Survey();
      if used > limits.maxTokens { blocked := Some(TokensExceeded); }
    }
  }

  // ----- Runs -----

  /** The state after any interleaving; an event that is not possible changes nothing. */
  function Run(limits: Limits, events: seq<Event>): State {
    if events == [] then State([], None) else
      Next(limits, Run(limits, events[..|events| - 1]), events[|events| - 1])
  }

  function Next(limits: Limits, s: State, e: Event): State { if Enabled(s, e) then Step(limits, s, e) else s }

  /** A call that has settled stays as it is. */
  predicate Extends(a: seq<Call>, b: seq<Call>) {
    |a| <= |b| && forall i :: 0 <= i < |a| && a[i].finished ==> b[i] == a[i]
  }

  predicate Closed(s: State) { s.blocked.Some? || Unknown(s.calls) }

  lemma {:induction false} RunBounds(limits: Limits, events: seq<Event>)
    ensures |Run(limits, events).calls| <= limits.maxModelCalls
    ensures forall i :: 0 <= i < |Run(limits, events).calls| && !Run(limits, events).calls[i].finished ==>
            Run(limits, events).calls[i].tokens.None?
    decreases |events|
  {
    if events != [] { RunBounds(limits, events[..|events| - 1]); }
  }

  predicate Follows(s: State, t: State) {
    Extends(s.calls, t.calls) && (Closed(s) ==> Closed(t) && |t.calls| == |s.calls|)
  }

  lemma OneLater(limits: Limits, s: State, e: Event)
    ensures Follows(s, Next(limits, s, e))
    ensures !Admits(limits, s, e) ==> |Next(limits, s, e).calls| == |s.calls|
  {
    var t := Next(limits, s, e);
    if Unknown(s.calls) {
      var i :| 0 <= i < |s.calls| && s.calls[i].finished && s.calls[i].tokens.None?;
      assert t.calls[i] == s.calls[i];
    }
  }

  lemma FollowsTransitively(a: State, b: State, c: State)
    requires Follows(a, b) && Follows(b, c)
    ensures Follows(a, c)
  {
    hide Closed;
  }

  lemma Reflexive(s: State)
    ensures Follows(s, s)
  {
  }

  /** From a closed gateway nothing is ever admitted again, and settled calls never change. */
  lemma {:induction false} LaterStates(limits: Limits, events: seq<Event>, n: nat)
    requires n <= |events|
    ensures Follows(Run(limits, events[..n]), Run(limits, events))
    decreases |events|
  {
    hide Follows, Next;
    if n == |events| {
      assert events[..n] == events;
      Reflexive(Run(limits, events));
    } else {
      var front := events[..|events| - 1];
      assert front[..n] == events[..n];
      LaterStates(limits, front, n);
      OneLater(limits, Run(limits, front), events[|events| - 1]);
      FollowsTransitively(Run(limits, events[..n]), Run(limits, front), Run(limits, events));
    }
  }

  /** Once blocked, or once a finished call has unknown usage, no later event admits a call. */
  lemma ClosedStaysClosed(limits: Limits, events: seq<Event>, n: nat, m: nat)
    requires n <= m < |events| && Closed(Run(limits, events[..n]))
    ensures !Admits(limits, Run(limits, events[..m]), events[m])
  {
    LaterStates(limits, events[..m], n);
    assert events[..m][..n] == events[..n];
  }

  /** The tokens, in the end, of the calls that were still running at some moment. */
  function RunningTokens(was: seq<Call>, end: seq<Call>): nat
    requires |was| <= |end|
  {
    if was == [] then 0 else
      var n := |was| - 1;
      RunningTokens(was[..n], end[..n]) + if was[n].finished then 0 else Tokens(end[n])
  }

  lemma {:induction false} TotalSplits(was: seq<Call>, end: seq<Call>)
    requires |was| == |end| && Extends(was, end)
    requires forall i :: 0 <= i < |was| && !was[i].finished ==> was[i].tokens.None?
    ensures Total(end) == Total(was) + RunningTokens(was, end)
    decreases |was|
  {
    if was != [] {
      var n := |was| - 1;
      assert end[..|end| - 1] == end[..n];
      forall i | 0 <= i < n && was[..n][i].finished ensures end[..n][i] == was[..n][i] { assert end[i] == was[i]; }
      TotalSplits(was[..n], end[..n]);
    }
  }

  lemma {:induction false} TotalBefore(calls: seq<Call>)
    ensures Total(calls + [Call(false, None)]) == Total(calls)
  {
    assert (calls + [Call(false, None)])[..|calls|] == calls;
  }

  /** The last event that admits a call. */
  ghost predicate LastAdmission(limits: Limits, events: seq<Event>, n: nat) {
    && n < |events| && Admits(limits, Run(limits, events[..n]), events[n])
    && forall m :: n < m < |events| ==> !Admits(limits, Run(limits, events[..m]), events[m])
  }

  lemma {:induction false} NoMoreCalls(limits: Limits, events: seq<Event>, n: nat, k: nat)
    requires LastAdmission(limits, events, n) && n < k <= |events|
    ensures |Run(limits, events[..k]).calls| == |Run(limits, events[..n + 1]).calls|
    decreases k
  {
    hide Next, Admits;
    if k > n + 1 {
      NoMoreCalls(limits, events, n, k - 1);
      assert events[..k][..k - 1] == events[..k - 1];
      OneLater(limits, Run(limits, events[..k - 1]), events[k - 1]);
    }
  }

  /** The reported total stays under the limit plus the tokens of the calls still running right after the last
      admission: concurrency overshoots by at most what was in flight. */
  lemma OvershootIsInFlight(limits: Limits, events: seq<Event>, n: nat)
    requires LastAdmission(limits, events, n)
    ensures |Run(limits, events[..n + 1]).calls| == |Run(limits, events).calls|
    ensures Total(Run(limits, events).calls)
         < limits.maxTokens + RunningTokens(Run(limits, events[..n + 1]).calls, Run(limits, events).calls)
  {
    var before, after := Run(limits, events[..n]), Run(limits, events[..n + 1]);
    assert events[..n + 1][..n] == events[..n] && events[..|events|] == events;
    NoMoreCalls(limits, events, n, |events|);
    LaterStates(limits, events, n + 1);
    RunBounds(limits, events[..n + 1]);
    TotalBefore(before.calls);
    TotalSplits(after.calls, Run(limits, events).calls);
  }

  // ----- When a call is admitted -----

  /** The gateway was latched by this event: it refused a call, or settled one beyond the token limit. */
  predicate Latches(limits: Limits, s: State, e: Event) {
    Enabled(s, e) && match e
      case Admit(stopped) => !stopped && !Admits(limits, s, e)
      case Settle(i, tokens) => Total(s.calls[i := Call(true, tokens)]) > limits.maxTokens
  }

  predicate EverLatched(limits: Limits, events: seq<Event>) {
    if events == [] then false else
      var front := events[..|events| - 1];
      EverLatched(limits, front) || Latches(limits, Run(limits, front), events[|events| - 1])
  }

  lemma {:induction false} BlockedIffLatched(limits: Limits, events: seq<Event>)
    ensures Run(limits, events).blocked.Some? <==> EverLatched(limits, events)
    decreases |events|
  {
    hide Total, Unknown;
    if events != [] { BlockedIffLatched(limits, events[..|events| - 1]); }
  }

  /** A call is admitted if and only if no event so far has latched the gateway, calls are left, every finished call
      reported its usage, and the known total is below the token limit. */
  lemma AdmittedIff(limits: Limits, events: seq<Event>)
    ensures var s := Run(limits, events);
      Admits(limits, s, Admit(false)) <==>
        && !EverLatched(limits, events)
        && |s.calls| < limits.maxModelCalls
        && (forall i :: 0 <= i < |s.calls| && s.calls[i].finished ==> s.calls[i].tokens.Some?)
        && Total(s.calls) < limits.maxTokens
  {
    BlockedIffLatched(limits, events);
  }
}
