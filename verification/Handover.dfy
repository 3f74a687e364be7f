/** What becomes of the groups that leave the history: each is carried whole by exactly one request to the model, and
    the handoff passes from answer to request until the last one is kept. */
module Handover {
  import opened Text
  import opened Messages
  import opened Grouping
  import opened Projection
  import opened Sizing
  import opened SavedState
  import opened Summaries

  /** Something is selected that was not before. */
  predicate AddsTo(selected: seq<nat>, previous: seq<nat>) {
    exists k :: 0 <= k < |selected| && selected[k] !in previous
  }

  function NewIndices(previous: seq<nat>, selected: seq<nat>): seq<nat> {
    if selected == [] then [] else
      var (earlier, last) := (NewIndices(previous, selected[..|selected| - 1]), selected[|selected| - 1]);
      if last in previous then earlier else earlier + [last]
  }

  function NewGroups(groups: seq<Group>, previous: seq<nat>, selected: seq<nat>): (added: seq<Group>)
    requires Ascending(selected, |groups|)
    ensures added == [] <==> !AddsTo(selected, previous)
  {
    if selected == [] then [] else
      var n := |selected| - 1;
      var earlier := NewGroups(groups, previous, selected[..n]);
      assert selected == selected[..n] + [selected[n]];
      if selected[n] in previous then earlier else earlier + [groups[selected[n]]]
  }

  // ----- What a handover is -----

  /** The requests, the indices of the groups each carries, and the handoffs kept from their answers. */
  datatype Course = Course(requests: seq<SummaryRequest>, carried: seq<seq<nat>>, handoffs: seq<string>)

  predicate Within(indices: seq<nat>, n: nat) { forall k :: 0 <= k < |indices| ==> indices[k] < n }

  /** The groups at some indices, whole and in order, each on its own paragraph. */
  function Rendered(aux: Auxiliary, groups: seq<Group>, indices: seq<nat>): string
    requires Within(indices, |groups|)
  {
    if indices == [] then "" else
      Rendered(aux, groups, indices[..|indices| - 1]) + "\n\n" + aux.render(groups[indices[|indices| - 1]])
  }

  function Joined(parts: seq<seq<nat>>): seq<nat> {
    if parts == [] then [] else Joined(parts[..|parts| - 1]) + parts[|parts| - 1]
  }

  /** A handoff is kept only from a complete answer that makes no calls and holds a valid handoff, in canonical form. */
  ghost predicate KeptFrom(aux: Auxiliary, reply: Option<Reply>, handoff: string) {
    && reply.Some? && reply.value.stopped && !reply.value.hasToolCalls
    && Len(reply.value.content) <= SavedState.MAX_SUMMARY_BYTES
    && var summary := aux.json.decode(reply.value.content);
    summary.Some? && ValidSummary(summary.value) && handoff == aux.json.encode(summary.value)
  }

  /** Exactly the groups selected and not covered before are carried, each once and in order; the first request carries
      the earlier handoff, every later one the one before, and `text` is the last. */
  ghost predicate HandsOver(aux: Auxiliary, groups: seq<Group>, previous: seq<nat>, selected: seq<nat>, first: string,
                            text: string, c: Course) {
    && |c.requests| == |c.carried| == |c.handoffs| > 0 && text == c.handoffs[|c.handoffs| - 1]
    && Ascending(Joined(c.carried), |groups|)
    && (forall i :: i in Joined(c.carried) <==> i in selected && i !in previous)
    && forall n :: 0 <= n < |c.requests| ==> Carries(aux, groups, first, c, n)
  }

  ghost predicate Carries(aux: Auxiliary, groups: seq<Group>, first: string, c: Course, n: nat)
    requires n < |c.requests| == |c.carried| == |c.handoffs|
  {
    && Within(c.carried[n], |groups|)
    && c.requests[n].source == Rendered(aux, groups, c.carried[n])
    && c.requests[n].seed == (if n == 0 then first else c.handoffs[n - 1])
    && KeptFrom(aux, aux.answer(n, c.requests[n]), c.handoffs[n])
  }

  ghost predicate Handed(aux: Auxiliary, groups: seq<Group>, previous: seq<nat>, selected: seq<nat>, first: string,
                         text: string) {
    exists c :: HandsOver(aux, groups, previous, selected, first, text, c)
  }

  // ----- Every successful trace is one -----

  lemma {:induction false} NewIndicesAre(previous: seq<nat>, selected: seq<nat>, n: nat)
    requires Ascending(selected, n)
    ensures Ascending(NewIndices(previous, selected), n)
    ensures forall i :: i in NewIndices(previous, selected) <==> i in selected && i !in previous
    decreases |selected|
  {
    if selected != [] {
      var (front, last) := (selected[..|selected| - 1], selected[|selected| - 1]);
      NewIndicesAre(previous, front, n);
      assert selected == front + [last];
      var earlier := NewIndices(previous, front);
      forall k | 0 <= k < |earlier| ensures earlier[k] < last { assert earlier[k] in front; }
    }
  }

  lemma {:induction false} NewGroupsAre(groups: seq<Group>, previous: seq<nat>, selected: seq<nat>)
    requires Ascending(selected, |groups|)
    ensures var (added, indices) := (NewGroups(groups, previous, selected), NewIndices(previous, selected));
      |added| == |indices| && Within(indices, |groups|)
      && forall k :: 0 <= k < |added| ==> added[k] == groups[indices[k]]
    decreases |selected|
  {
    if selected != [] { NewGroupsAre(groups, previous, selected[..|selected| - 1]); }
  }

  lemma {:induction false} RenderedIs(aux: Auxiliary, groups: seq<Group>, indices: seq<nat>, part: seq<Group>)
    requires Within(indices, |groups|)
    requires |part| == |indices| && forall k :: 0 <= k < |part| ==> part[k] == groups[indices[k]]
    ensures Packed(aux, part) == Rendered(aux, groups, indices)
    decreases |indices|
  {
    if indices != [] { RenderedIs(aux, groups, indices[..|indices| - 1], part[..|part| - 1]); }
  }

  /** The stretch of the indices that request `i` carried. */
  function Part(indices: seq<nat>, cuts: seq<nat>, i: nat): seq<nat> {
    if i + 1 < |cuts| && cuts[i] <= cuts[i + 1] <= |indices| then indices[cuts[i]..cuts[i + 1]] else []
  }

  function Parts(indices: seq<nat>, cuts: seq<nat>, n: nat): seq<seq<nat>> {
    seq(n, i requires 0 <= i < n => Part(indices, cuts, i))
  }

  lemma {:induction false} PartsJoin(indices: seq<nat>, t: Trace, n: nat)
    requires t.Shaped(|indices|) && n <= |t.requests|
    ensures Joined(Parts(indices, t.cuts, n)) == indices[..t.cuts[n]]
    decreases n
  {
    if n > 0 {
      PartsJoin(indices, t, n - 1);
      var parts := Parts(indices, t.cuts, n);
      assert parts[..n - 1] == Parts(indices, t.cuts, n - 1);
      assert t.cuts[n - 1] <= t.cuts[n - 1 + 1];
      assert indices[..t.cuts[n - 1]] + indices[t.cuts[n - 1]..t.cuts[n]] == indices[..t.cuts[n]];
    }
  }

  lemma VerdictKeeps(aux: Auxiliary, reply: Option<Reply>, budget: nat, handoff: string)
    requires Verdict(aux, reply, budget) == Ok(handoff)
    ensures KeptFrom(aux, reply, handoff)
  {
  }

  /** The requests of a successful run of the summarizer hand the new groups over. */
  lemma TraceHandsOver(aux: Auxiliary, limits: Limits, groups: seq<Group>, previous: seq<nat>, selected: seq<nat>,
                       first: string, budget: nat, maxCalls: nat, t: Trace, text: string)
    requires Ascending(selected, |groups|)
    requires t.Valid(aux, limits, NewGroups(groups, previous, selected), first, budget)
    requires Ended(aux, limits, NewGroups(groups, previous, selected), first, budget, maxCalls, t, Ok(text))
    ensures Handed(aux, groups, previous, selected, first, text)
  {
    hide Verdict, KeptFrom, NewIndices, NewGroups, FitsFrom, Fits, Parts, Ended, Round, Ascending, Carries, Joined;
    var (added, indices) := (NewGroups(groups, previous, selected), NewIndices(previous, selected));
    NewIndicesAre(previous, selected, |groups|);
    NewGroupsAre(groups, previous, selected);
    EndsWell(aux, limits, added, first, budget, maxCalls, t, text);
    var c := CourseOf(t, indices);
    PartsJoin(indices, t, |t.requests|);
    assert indices[..|indices|] == indices;
    forall n | 0 <= n < |c.requests| ensures Carries(aux, groups, first, c, n) {
      RequestCarries(aux, limits, groups, added, indices, first, budget, t, n);
    }
    assert HandsOver(aux, groups, previous, selected, first, text, c);
  }

  lemma EndsWell(aux: Auxiliary, limits: Limits, added: seq<Group>, first: string, budget: nat, maxCalls: nat,
                 t: Trace, text: string)
    requires t.Valid(aux, limits, added, first, budget)
    requires Ended(aux, limits, added, first, budget, maxCalls, t, Ok(text))
    ensures |t.handoffs| == |t.requests| > 0 && text == t.handoffs[|t.requests| - 1]
    ensures t.cuts[|t.requests|] == |added|
  {
  }

  function CourseOf(t: Trace, indices: seq<nat>): (c: Course)
    ensures c.requests == t.requests && c.handoffs == t.handoffs && |c.carried| == |t.requests|
  {
    Course(t.requests, Parts(indices, t.cuts, |t.requests|), t.handoffs)
  }

  lemma RequestCarries(aux: Auxiliary, limits: Limits, groups: seq<Group>, added: seq<Group>, indices: seq<nat>,
                       first: string, budget: nat, t: Trace, n: nat)
    requires t.Valid(aux, limits, added, first, budget) && n < |t.requests| == |t.handoffs|
    requires Within(indices, |groups|) && |added| == |indices|
    requires forall k :: 0 <= k < |added| ==> added[k] == groups[indices[k]]
    ensures Carries(aux, groups, first, CourseOf(t, indices), n)
  {
    hide Verdict, KeptFrom, FitsFrom, Fits;
    assert t.Sent(aux, limits, added, first, budget, n) && t.Answered(aux, budget, n);
    assert t.cuts[n] <= t.cuts[n + 1] <= |indices|;
    VerdictKeeps(aux, aux.answer(n, t.requests[n]), budget, t.handoffs[n]);
    RenderedIs(aux, groups, Part(indices, t.cuts, n), added[t.cuts[n]..t.cuts[n + 1]]);
  }

  /** Every request sent fits the context in bytes and, with its answer, the declared window in tokens; and it asks for
      an answer within the limits given. */
  lemma RequestsFit(aux: Auxiliary, limits: Limits, groups: seq<Group>, first: string, budget: nat, t: Trace, n: nat)
    requires t.Valid(aux, limits, groups, first, budget) && n < |t.requests|
    ensures var r := t.requests[n];
      && aux.size(r) <= limits.maxContextBytes
      && (limits.window.Some? ==> SatAdd(EstimatedTokens(aux.size(r)), r.maxOutput) <= limits.window.value)
      && r.budget == budget && r.maxOutput <= limits.maxOutputTokens && 2 * r.maxOutput <= budget + 1
  {
    assert t.Sent(aux, limits, groups, first, budget, n);
  }
}
