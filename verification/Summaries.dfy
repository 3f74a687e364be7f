/** Asking the model for a task handoff: whole groups are packed greedily into as few bounded requests as fit. */
module Summaries {
  import opened Text
  import opened Messages
  import opened Grouping
  import opened Sizing
  import opened SavedState

  // ----- Handoffs -----

  datatype TaskSummary = TaskSummary(goal: string, constraints: seq<string>, corrections: seq<string>,
                                     decisions: seq<string>, completed: seq<string>, pending: seq<string>,
                                     references: seq<string>)

  predicate ValidItems(items: seq<string>) {
    |items| <= 128 && forall i :: 0 <= i < |items| ==> !IsBlank(items[i])
  }

  predicate ValidSummary(s: TaskSummary) {
    && !IsBlank(s.goal) && ValidItems(s.constraints) && ValidItems(s.corrections) && ValidItems(s.decisions)
    && ValidItems(s.completed) && ValidItems(s.pending) && ValidItems(s.references)
  }

  /** The serializer's two directions for a handoff. */
  datatype HandoffJson = HandoffJson(encode: TaskSummary -> string, decode: string -> Option<TaskSummary>)

  ghost predicate Lawful(json: HandoffJson) {
    forall s: TaskSummary :: json.decode(json.encode(s)) == Some(s)
  }

  /** `TaskSummary::parse`. */
  function ParseHandoff(json: HandoffJson, text: string): Option<TaskSummary> {
    if Len(text) > SavedState.MAX_SUMMARY_BYTES then None
    else if json.decode(text).Some? && ValidSummary(json.decode(text).value) then json.decode(text)
    else None
  }

  lemma {:induction false} EscapingNeverShrinks(s: string)
    ensures Len(s) <= Escaped(s)
  {
    if s != "" { EscapingNeverShrinks(s[1..]); }
  }

  /** A reply stored in canonical form parses back to itself, so publishing it cannot fail on its content. */
  lemma CanonicalHandoffParses(json: HandoffJson, content: string)
    requires Lawful(json) && ParseHandoff(json, content).Some?
    requires Escaped(json.encode(ParseHandoff(json, content).value)) <= SavedState.MAX_SUMMARY_BYTES
    ensures ParseHandoff(json, json.encode(ParseHandoff(json, content).value)) == ParseHandoff(json, content)
  {
    EscapingNeverShrinks(json.encode(ParseHandoff(json, content).value));
  }

  // ----- Requests -----

  datatype SummaryRequest = SummaryRequest(seed: string, source: string, budget: nat, maxOutput: nat)

  datatype Reply = Reply(content: string, stopped: bool, hasToolCalls: bool)

  /** What lies outside: the rendering of a group, the serialized size of a request, and the model's answer to
      the `n`-th request. */
  datatype Auxiliary = Auxiliary(render: Group -> string, size: SummaryRequest -> nat,
                                 answer: (nat, SummaryRequest) -> Option<Reply>, json: HandoffJson)

  datatype Limits = Limits(maxContextBytes: nat, maxOutputTokens: nat, window: Option<nat>)

  const U32_MAX: nat := 0xFFFF_FFFF

  /** The settled history of a request: every group on its own paragraph. */
  function Packed(aux: Auxiliary, groups: seq<Group>): string {
    if groups == [] then "" else Packed(aux, groups[..|groups| - 1]) + "\n\n" + aux.render(groups[|groups| - 1])
  }

  function RequestFor(limits: Limits, seed: string, source: string, budget: nat): SummaryRequest {
    SummaryRequest(seed, source, budget, Min(limits.maxOutputTokens, Min((budget + 1) / 2, U32_MAX)))
  }

  predicate Fits(aux: Auxiliary, limits: Limits, request: SummaryRequest) {
    && aux.size(request) <= limits.maxContextBytes
    && (limits.window.Some? ==> SatAdd(EstimatedTokens(aux.size(request)), request.maxOutput) <= limits.window.value)
  }

  /** Whether groups `lo..hi` fit one request that carries the handoff so far. */
  predicate FitsFrom(aux: Auxiliary, limits: Limits, groups: seq<Group>, seed: string, budget: nat, lo: nat, hi: nat)
    requires lo <= hi <= |groups|
  {
    Fits(aux, limits, RequestFor(limits, seed, Packed(aux, groups[lo..hi]), budget))
  }

  datatype SummaryError =
    TooManyCalls | GroupTooLarge | RequestTooLarge | ModelFailed | IncompleteReply | InvalidHandoff | OverBudget

  /** The canonical handoff an answer yields: only a complete, valid one within the budget counts. */
  function Verdict(aux: Auxiliary, reply: Option<Reply>, budget: nat): (r: Result<string, SummaryError>)
    ensures r.Ok? ==> Escaped(r.value) <= budget
    ensures r.Ok? ==> reply.Some? && ParseHandoff(aux.json, reply.value.content).Some?
                      && r.value == aux.json.encode(ParseHandoff(aux.json, reply.value.content).value)
  {
    if reply.None? then Err(ModelFailed)
    else if !reply.value.stopped || reply.value.hasToolCalls || IsBlank(reply.value.content) then Err(IncompleteReply)
    else
      var handoff := ParseHandoff(aux.json, reply.value.content);
      if handoff.None? then Err(InvalidHandoff)
      else if Escaped(aux.json.encode(handoff.value)) > budget then Err(OverBudget)
      else Ok(aux.json.encode(handoff.value))
  }

  /** One round: the request carries the handoff so far and groups `lo..hi`, as many as fit, and fits itself. */
  ghost predicate Round(aux: Auxiliary, limits: Limits, groups: seq<Group>, seed: string, budget: nat, lo: nat, hi: nat,
                        request: SummaryRequest)
    requires lo <= hi <= |groups|
  {
    && request == RequestFor(limits, seed, Packed(aux, groups[lo..hi]), budget) && Fits(aux, limits, request)
    && (groups != [] ==> lo < hi)
    && (forall k :: lo < k <= hi ==> FitsFrom(aux, limits, groups, seed, budget, lo, k))
    && (hi < |groups| ==> !FitsFrom(aux, limits, groups, seed, budget, lo, hi + 1))
  }

  // ----- What a run of requests looks like -----

  /** `requests` were sent, the first `|handoffs|` of them were answered acceptably; request `i` carried exactly
      groups `cuts[i]..cuts[i + 1]`. */
  datatype Trace = Trace(requests: seq<SummaryRequest>, handoffs: seq<string>, cuts: seq<nat>) {
    function Seed(first: string, i: nat): string
      requires i <= |handoffs|
    {
      if i == 0 then first else handoffs[i - 1]
    }

    predicate Shaped(n: nat) {
      && |handoffs| <= |requests| <= |handoffs| + 1 && |cuts| == |requests| + 1 && cuts[0] == 0
      && (forall i :: 0 <= i < |cuts| ==> cuts[i] <= n)
      && (forall i :: 0 <= i < |requests| ==> cuts[i] <= cuts[i + 1])
    }

    /** Request `i` is a round over the groups between its two cuts. */
    ghost predicate Sent(aux: Auxiliary, limits: Limits, groups: seq<Group>, first: string, budget: nat, i: nat)
      requires Shaped(|groups|) && i < |requests|
    {
      Round(aux, limits, groups, Seed(first, i), budget, cuts[i], cuts[i + 1], requests[i])
        && (i > 0 ==> cuts[i] < |groups|)
    }

    /** One acceptable answer and the canonical handoff kept from it. */
    ghost predicate Answered(aux: Auxiliary, budget: nat, i: nat)
      requires i < |handoffs| <= |requests|
    {
      Verdict(aux, aux.answer(i, requests[i]), budget) == Ok(handoffs[i])
    }

    ghost predicate Valid(aux: Auxiliary, limits: Limits, groups: seq<Group>, first: string, budget: nat) {
      && Shaped(|groups|)
      && (forall i :: 0 <= i < |requests| ==> Sent(aux, limits, groups, first, budget, i))
      && (forall i :: 0 <= i < |handoffs| ==> Answered(aux, budget, i))
    }

    /** Request `i` carries group `g`. */
    predicate Carries(i: nat, g: nat)
      requires |cuts| == |requests| + 1 && i < |requests|
    {
      cuts[i] <= g < cuts[i + 1]
    }

    function Reached(): nat
      requires cuts != []
    {
      cuts[|cuts| - 1]
    }
  }

  /** Why a run of requests ended, judged by its trace alone. */
  ghost predicate Ended(aux: Auxiliary, limits: Limits, groups: seq<Group>, first: string, budget: nat, maxCalls: nat,
                        t: Trace, r: Result<string, SummaryError>)
    requires t.Valid(aux, limits, groups, first, budget)
  {
    var settled := |t.handoffs| == |t.requests|;
    var last := |t.requests| - 1;
    match r
    case Ok(text) => settled && t.handoffs != [] && t.Reached() == |groups| && text == t.handoffs[last]
    case Err(TooManyCalls) => settled && |t.requests| == maxCalls && (t.Reached() < |groups| || maxCalls == 0)
    case Err(GroupTooLarge) =>
      settled && |t.requests| < maxCalls && t.Reached() < |groups|
      && !FitsFrom(aux, limits, groups, t.Seed(first, |t.handoffs|), budget, t.Reached(), t.Reached() + 1)
    case Err(RequestTooLarge) =>
      groups == [] && t.requests == [] && maxCalls > 0 && !Fits(aux, limits, RequestFor(limits, first, "", budget))
    case Err(error) => !settled && Verdict(aux, aux.answer(last, t.requests[last]), budget) == Err(error)
  }

  /** Extend one source as long as the request that carries it still fits. */
  method PackGroups(aux: Auxiliary, limits: Limits, groups: seq<Group>, seed: string, budget: nat, start: nat)
    returns (next: nat, source: string)
    requires start <= |groups|
    ensures start <= next <= |groups| && source == Packed(aux, groups[start..next])
    ensures next < |groups| ==> !FitsFrom(aux, limits, groups, seed, budget, start, next + 1)
    ensures next > start ==>
            Round(aux, limits, groups, seed, budget, start, next, RequestFor(limits, seed, source, budget))
  {
    next, source := start, "";
    while next < |groups|
      invariant start <= next <= |groups| && source == Packed(aux, groups[start..next])
      invariant forall k :: start < k <= next ==> FitsFrom(aux, limits, groups, seed, budget, start, k)
      invariant next > start ==> FitsFrom(aux, limits, groups, seed, budget, start, next)
    {
      var candidate := source + "\n\n" + aux.render(groups[next]);
      assert groups[start..next + 1][..next - start] == groups[start..next];
      if !Fits(aux, limits, RequestFor(limits, seed, candidate, budget)) { return; }
      source, next := candidate, next + 1;
    }
  }

  /** `summarize`. Each round consumes a group or returns. */
  method Summarize(aux: Auxiliary, limits: Limits, first: string, groups: seq<Group>, maxCalls: nat, budget: nat)
    returns (r: Result<string, SummaryError>, t: Trace)
    ensures t.Valid(aux, limits, groups, first, budget) && |t.requests| <= maxCalls
    ensures Ended(aux, limits, groups, first, budget, maxCalls, t, r)
  {
    hide FitsFrom, Fits;
    var summary, next := first, 0;
    t := Trace([], [], [0]);
    while true
      invariant t.Valid(aux, limits, groups, first, budget)
      invariant |t.requests| == |t.handoffs| <= maxCalls && t.Reached() == next
      invariant summary == t.Seed(first, |t.handoffs|)
      invariant t.requests != [] ==> next < |groups|
      decreases maxCalls - |t.requests|
    {
      if |t.requests| >= maxCalls { return Err(TooManyCalls), t; }
      var start := next;
      var source;
      next, source := PackGroups(aux, limits, groups, summary, budget, start);
      if next == start && next < |groups| { return Err(GroupTooLarge), t; }
      var request := RequestFor(limits, summary, source, budget);
      if !Fits(aux, limits, request) {
        return Err(RequestTooLarge), t;
      }
      var calls := |t.requests|;
      ghost var before := t;
      t := Trace(t.requests + [request], t.handoffs, t.cuts + [next]);
      SentOneMore(aux, limits, groups, first, budget, before, t, request, next);
      var verdict := Verdict(aux, aux.answer(calls, request), budget);
      if verdict.Err? { return Err(verdict.error), t; }
      var text := verdict.value;
      summary := text;
      ghost var sent := t;
      t := t.(handoffs := t.handoffs + [text]);
      AnsweredOneMore(aux, limits, groups, first, budget, sent, t);
      if next == |groups| { return Ok(summary), t; }
    }
  }

  lemma SentOneMore(aux: Auxiliary, limits: Limits, groups: seq<Group>, first: string, budget: nat, t: Trace,
                    more: Trace, request: SummaryRequest, next: nat)
    requires t.Valid(aux, limits, groups, first, budget) && |t.requests| == |t.handoffs|
             && t.Reached() <= next <= |groups|
    requires more == Trace(t.requests + [request], t.handoffs, t.cuts + [next])
    requires Round(aux, limits, groups, t.Seed(first, |t.handoffs|), budget, t.Reached(), next, request)
    requires t.requests != [] ==> t.Reached() < |groups|
    ensures more.Valid(aux, limits, groups, first, budget)
  {
    hide Round;
    forall i | 0 <= i < |more.requests| ensures more.Sent(aux, limits, groups, first, budget, i) {
      if i < |t.requests| { assert t.Sent(aux, limits, groups, first, budget, i); }
    }
    forall i | 0 <= i < |more.handoffs| ensures more.Answered(aux, budget, i) { assert t.Answered(aux, budget, i); }
  }

  lemma AnsweredOneMore(aux: Auxiliary, limits: Limits, groups: seq<Group>, first: string, budget: nat, t: Trace,
                        more: Trace)
    requires t.Valid(aux, limits, groups, first, budget) && |t.requests| == |t.handoffs| + 1
    requires |more.handoffs| == |t.requests| && more == t.(handoffs := more.handoffs) && t.handoffs <= more.handoffs
    requires more.Answered(aux, budget, |t.handoffs|)
    ensures more.Valid(aux, limits, groups, first, budget)
  {
    hide Round;
    forall i | 0 <= i < |more.requests| ensures more.Sent(aux, limits, groups, first, budget, i) {
      assert t.Sent(aux, limits, groups, first, budget, i);
      assert more.Seed(first, i) == t.Seed(first, i);
    }
    forall i | 0 <= i < |more.handoffs| ensures more.Answered(aux, budget, i) {
      if i < |t.handoffs| { assert t.Answered(aux, budget, i); }
    }
  }

  // ----- What a successful run has done -----

  function Sources(requests: seq<SummaryRequest>): string {
    if requests == [] then "" else Sources(requests[..|requests| - 1]) + requests[|requests| - 1].source
  }

  lemma {:induction false} PackedConcat(aux: Auxiliary, a: seq<Group>, b: seq<Group>)
    ensures Packed(aux, a + b) == Packed(aux, a) + Packed(aux, b)
    decreases |b|
  {
    if b == [] {
      assert a + b == a;
    } else {
      var n := |b| - 1;
      assert (a + b)[..|a + b| - 1] == a + b[..n] && (a + b)[|a + b| - 1] == b[n];
      PackedConcat(aux, a, b[..n]);
      Assoc(Packed(aux, a), Packed(aux, b[..n]), "\n\n");
      Assoc(Packed(aux, a), Packed(aux, b[..n]) + "\n\n", aux.render(b[n]));
    }
  }

  lemma {:induction false} SourcesCover(aux: Auxiliary, limits: Limits, groups: seq<Group>, first: string, budget: nat,
                                        t: Trace, n: nat)
    requires t.Valid(aux, limits, groups, first, budget) && n <= |t.requests|
    ensures Sources(t.requests[..n]) == Packed(aux, groups[..t.cuts[n]])
    decreases n
  {
    if n > 0 {
      SourcesCover(aux, limits, groups, first, budget, t, n - 1);
      assert t.Sent(aux, limits, groups, first, budget, n - 1);
      assert t.requests[..n][..n - 1] == t.requests[..n - 1];
      PackedConcat(aux, groups[..t.cuts[n - 1]], groups[t.cuts[n - 1]..t.cuts[n]]);
      assert groups[..t.cuts[n - 1]] + groups[t.cuts[n - 1]..t.cuts[n]] == groups[..t.cuts[n]];
    }
  }

  lemma {:induction false} CutsAscend(aux: Auxiliary, limits: Limits, groups: seq<Group>, first: string, budget: nat,
                                      t: Trace, i: nat, j: nat)
    requires t.Valid(aux, limits, groups, first, budget) && groups != [] && i < j < |t.cuts|
    ensures t.cuts[i] < t.cuts[j]
    decreases j
  {
    assert t.Sent(aux, limits, groups, first, budget, j - 1);
    if i < j - 1 { CutsAscend(aux, limits, groups, first, budget, t, i, j - 1); }
  }

  lemma {:induction false} GroupHasRequest(aux: Auxiliary, limits: Limits, groups: seq<Group>, first: string,
                                           budget: nat, t: Trace, g: nat, n: nat)
    returns (i: nat)
    requires t.Valid(aux, limits, groups, first, budget) && n < |t.cuts| && g < t.cuts[n]
    ensures i < n && t.Carries(i, g)
    decreases n
  {
    if t.cuts[n - 1] <= g {
      i := n - 1;
    } else {
      i := GroupHasRequest(aux, limits, groups, first, budget, t, g, n - 1);
    }
  }

  /** On success the requests together carry the whole history, in order; with nothing new, one request rewrites
      the previous handoff. */
  lemma RequestsCarryTheHistory(aux: Auxiliary, limits: Limits, groups: seq<Group>, first: string, budget: nat,
                                maxCalls: nat, t: Trace, text: string)
    requires t.Valid(aux, limits, groups, first, budget)
    requires Ended(aux, limits, groups, first, budget, maxCalls, t, Ok(text))
    ensures Sources(t.requests) == Packed(aux, groups)
    ensures groups == [] ==> |t.requests| == 1
  {
    var n := |t.requests|;
    SourcesCover(aux, limits, groups, first, budget, t, n);
    assert t.requests[..n] == t.requests && groups[..t.cuts[n]] == groups;
    assert t.Sent(aux, limits, groups, first, budget, n - 1);
  }

  /** On success each group is carried by exactly one request. */
  lemma EveryGroupIsSummarizedOnce(aux: Auxiliary, limits: Limits, groups: seq<Group>, first: string, budget: nat,
                                   maxCalls: nat, t: Trace, text: string, g: nat)
    returns (i: nat)
    requires t.Valid(aux, limits, groups, first, budget) && g < |groups|
    requires Ended(aux, limits, groups, first, budget, maxCalls, t, Ok(text))
    ensures i < |t.requests| && forall j :: 0 <= j < |t.requests| ==> (t.Carries(j, g) <==> j == i)
  {
    hide Ended, Round;
    assert t.Reached() == |groups| by { EndedReachesAll(aux, limits, groups, first, budget, maxCalls, t, text); }
    i := GroupHasRequest(aux, limits, groups, first, budget, t, g, |t.requests|);
    forall j | 0 <= j < |t.requests| && t.Carries(j, g) ensures j == i {
      if j + 1 < i { CutsAscend(aux, limits, groups, first, budget, t, j + 1, i); }
      if i + 1 < j { CutsAscend(aux, limits, groups, first, budget, t, i + 1, j); }
    }
  }

  lemma EndedReachesAll(aux: Auxiliary, limits: Limits, groups: seq<Group>, first: string, budget: nat,
                        maxCalls: nat, t: Trace, text: string)
    requires t.Valid(aux, limits, groups, first, budget)
    requires Ended(aux, limits, groups, first, budget, maxCalls, t, Ok(text))
    ensures t.Reached() == |groups|
  {
  }

  /** The handoff of a successful run is canonical, valid and within its budget. */
  lemma HandoffIsPublishable(aux: Auxiliary, limits: Limits, groups: seq<Group>, first: string, budget: nat,
                             maxCalls: nat, t: Trace, text: string)
    requires t.Valid(aux, limits, groups, first, budget) && Lawful(aux.json) && budget <= SavedState.MAX_SUMMARY_BYTES
    requires Ended(aux, limits, groups, first, budget, maxCalls, t, Ok(text))
    ensures Escaped(text) <= budget && ParseHandoff(aux.json, text).Some?
  {
    var n := |t.requests|;
    assert t.Answered(aux, budget, n - 1);
    CanonicalHandoffParses(aux.json, aux.answer(n - 1, t.requests[n - 1]).value.content);
  }

  // ----- A run of requests can only go one way -----

  lemma RoundIsUnique(aux: Auxiliary, limits: Limits, groups: seq<Group>, seed: string, budget: nat, lo: nat,
                      hi: nat, other: nat, a: SummaryRequest, b: SummaryRequest)
    requires lo <= hi <= |groups| && lo <= other <= |groups|
    requires Round(aux, limits, groups, seed, budget, lo, hi, a)
             && Round(aux, limits, groups, seed, budget, lo, other, b)
    ensures hi == other && a == b
  {
    hide FitsFrom, Fits;
    PackedFits(aux, limits, groups, seed, budget, lo, other, Min(hi + 1, other), b);
    PackedFits(aux, limits, groups, seed, budget, lo, hi, Min(other + 1, hi), a);
  }

  lemma PackedFits(aux: Auxiliary, limits: Limits, groups: seq<Group>, seed: string, budget: nat, lo: nat, hi: nat,
                   k: nat, request: SummaryRequest)
    requires lo <= hi <= |groups| && Round(aux, limits, groups, seed, budget, lo, hi, request) && lo <= k <= hi
    ensures lo < k ==> FitsFrom(aux, limits, groups, seed, budget, lo, k)
  {
  }

  /** As far as both have gone, two runs from the same start have sent the same and kept the same. */
  predicate Agree(t: Trace, u: Trace, n: nat) {
    && n <= |t.requests| && n <= |u.requests| && n < |t.cuts| && n < |u.cuts|
    && t.requests[..n] == u.requests[..n] && t.cuts[..n + 1] == u.cuts[..n + 1]
    && forall i :: 0 <= i < n && i < |t.handoffs| && i < |u.handoffs| ==> t.handoffs[i] == u.handoffs[i]
  }

  lemma {:induction false} TracesAgree(aux: Auxiliary, limits: Limits, groups: seq<Group>, first: string, budget: nat,
                                       t: Trace, u: Trace, n: nat)
    requires t.Valid(aux, limits, groups, first, budget) && u.Valid(aux, limits, groups, first, budget)
    requires n <= |t.requests| && n <= |u.requests|
    ensures Agree(t, u, n)
    decreases n
  {
    hide Round, Verdict;
    if n > 0 {
      var i := n - 1;
      TracesAgree(aux, limits, groups, first, budget, t, u, i);
      assert t.cuts[i] == t.cuts[..i + 1][i] == u.cuts[i];
      assert t.Seed(first, i) == u.Seed(first, i);
      assert t.Sent(aux, limits, groups, first, budget, i) && u.Sent(aux, limits, groups, first, budget, i);
      RoundIsUnique(aux, limits, groups, t.Seed(first, i), budget, t.cuts[i], t.cuts[n], u.cuts[n], t.requests[i],
                    u.requests[i]);
      assert t.requests[..n] == t.requests[..i] + [t.requests[i]]
             && u.requests[..n] == u.requests[..i] + [u.requests[i]];
      assert t.cuts[..n + 1] == t.cuts[..n] + [t.cuts[n]] && u.cuts[..n + 1] == u.cuts[..n] + [u.cuts[n]];
      if i < |t.handoffs| && i < |u.handoffs| {
        assert t.Answered(aux, budget, i) && u.Answered(aux, budget, i);
      }
    }
  }

  /** A run that has ended is not the beginning of a longer one. */
  lemma EndedIsNotLonger(aux: Auxiliary, limits: Limits, groups: seq<Group>, first: string, budget: nat, maxCalls: nat,
                         t: Trace, r: Result<string, SummaryError>, u: Trace)
    requires t.Valid(aux, limits, groups, first, budget) && Ended(aux, limits, groups, first, budget, maxCalls, t, r)
    requires u.Valid(aux, limits, groups, first, budget) && |u.requests| <= maxCalls
    ensures |u.requests| <= |t.requests|
  {
    hide Verdict, FitsFrom, Fits, Packed;
    var n := |t.requests|;
    if |u.requests| > n {
      TracesAgree(aux, limits, groups, first, budget, t, u, n);
      NextRound(aux, limits, groups, first, budget, t, u, n);
    }
  }

  lemma NextRound(aux: Auxiliary, limits: Limits, groups: seq<Group>, first: string, budget: nat, t: Trace, u: Trace,
                  n: nat)
    requires t.Valid(aux, limits, groups, first, budget) && u.Valid(aux, limits, groups, first, budget)
    requires n == |t.requests| < |u.requests| && Agree(t, u, n)
    ensures t.Reached() == u.cuts[n] && (n > 0 ==> t.Reached() < |groups|)
    ensures |t.handoffs| == n ==> t.Reached() < |groups| ==>
              FitsFrom(aux, limits, groups, t.Seed(first, n), budget, t.Reached(), t.Reached() + 1)
    ensures groups == [] && n == 0 ==> Fits(aux, limits, RequestFor(limits, first, "", budget))
    ensures n > 0 ==> Verdict(aux, aux.answer(n - 1, t.requests[n - 1]), budget).Ok?
  {
    hide Verdict, Fits;
    assert t.cuts[n] == t.cuts[..n + 1][n] == u.cuts[n];
    assert u.Sent(aux, limits, groups, first, budget, n);
    if n > 0 {
      assert u.Answered(aux, budget, n - 1);
      assert t.requests[n - 1] == t.requests[..n][n - 1] == u.requests[n - 1];
    }
    if groups == [] && n == 0 { assert groups[u.cuts[0]..u.cuts[1]] == []; }
  }

  /** The requests, the answers kept, the cuts and the result are determined by where the run starts. */
  lemma SummaryIsDetermined(aux: Auxiliary, limits: Limits, groups: seq<Group>, first: string, budget: nat,
                            maxCalls: nat, t: Trace, r: Result<string, SummaryError>, u: Trace,
                            q: Result<string, SummaryError>)
    requires t.Valid(aux, limits, groups, first, budget) && |t.requests| <= maxCalls
    requires u.Valid(aux, limits, groups, first, budget) && |u.requests| <= maxCalls
    requires Ended(aux, limits, groups, first, budget, maxCalls, t, r)
    requires Ended(aux, limits, groups, first, budget, maxCalls, u, q)
    ensures t == u && r == q
  {
    EndedIsNotLonger(aux, limits, groups, first, budget, maxCalls, t, r, u);
    EndedIsNotLonger(aux, limits, groups, first, budget, maxCalls, u, q, t);
    var n := |t.requests|;
    TracesAgree(aux, limits, groups, first, budget, t, u, n);
    hide Verdict, FitsFrom, Fits, Packed, Round;
    assert t.requests[..n] == t.requests && u.requests[..n] == u.requests;
    assert t.cuts[..n + 1] == t.cuts && u.cuts[..n + 1] == u.cuts;
    if |t.handoffs| == n && n > 0 { assert t.Answered(aux, budget, n - 1); }
    if |u.handoffs| == n && n > 0 { assert u.Answered(aux, budget, n - 1); }
    SameHandoffs(t, u, n);
  }

  lemma SameHandoffs(t: Trace, u: Trace, n: nat)
    requires n == |t.requests| == |u.requests| && Agree(t, u, n)
    requires |t.handoffs| <= n && |u.handoffs| <= n
    ensures |t.handoffs| == |u.handoffs| ==> t.handoffs == u.handoffs
  {
  }
}
