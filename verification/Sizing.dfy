/** Sizes of serialized requests and the byte and token budgets a compaction must meet. */
module Sizing {
  import opened Text
  import opened Messages
  import opened Grouping
  import opened Projection

  // ----- JSON string escaping (section 7 of RFC 8259, as the serializer writes it) -----

  function EscapedChar(c: char): nat {
    if c == '\"' || c == '\\' then 2
    else if c as int == 8 || c as int == 12 || c == '\n' || c == '\r' || c == '\t' then 2
    else if c as int < 0x20 then 6
    else CharLen(c)
  }

  /** Bytes a string takes between its quotes. */
  function Escaped(s: string): nat {
    if s == "" then 0 else EscapedChar(s[0]) + Escaped(s[1..])
  }

  lemma {:induction false} EscapedConcat(a: string, b: string)
    ensures Escaped(a + b) == Escaped(a) + Escaped(b)
  {
    if a == "" {
      assert a + b == b;
    } else {
      assert (a + b)[0] == a[0] && (a + b)[1..] == a[1..] + b;
      EscapedConcat(a[1..], b);
    }
  }

  // ----- Requests -----

  /** `message` is a message's serialized length; `envelope` is everything of a request but its messages,
      `sourceCount` and `sourceBytes` the pinned context sources, `overhead` the runtime's own reservation. */
  datatype Wire = Wire(message: Message -> nat, textBase: nat, envelope: nat, sourceCount: nat, sourceBytes: nat,
                       overhead: nat)

  /** A plain user message is a constant frame around its escaped text. */
  ghost predicate PlainTextIsEscaped(w: Wire) {
    forall t: string :: w.message(User(Plain(t))) == w.textBase + Escaped(t)
  }

  function SumSizes(w: Wire, messages: seq<Message>): nat {
    if messages == [] then 0 else w.message(messages[0]) + SumSizes(w, messages[1..])
  }

  function Commas(n: nat): nat { if n == 0 then 0 else n - 1 }

  function SerializedBytes(w: Wire, messages: seq<Message>): nat {
    2 + SumSizes(w, messages) + Commas(|messages|)
  }

  /** `request_bytes`: the larger of the exact request and the reserved estimate. */
  function RequestBytes(w: Wire, messages: seq<Message>): nat {
    Max(w.envelope + 2 + w.sourceBytes + SumSizes(w, messages) + Commas(w.sourceCount + |messages|),
        SatAdd(w.overhead, SerializedBytes(w, messages)))
  }

  function EstimatedTokens(bytes: nat): nat { SatAdd(bytes, 2) / 3 }

  lemma {:induction false} SumSizesConcat(w: Wire, a: seq<Message>, b: seq<Message>)
    ensures SumSizes(w, a + b) == SumSizes(w, a) + SumSizes(w, b)
  {
    if a == [] {
      assert a + b == b;
    } else {
      assert (a + b)[0] == a[0] && (a + b)[1..] == a[1..] + b;
      SumSizesConcat(w, a[1..], b);
    }
  }

  /** Projections that differ only in their summary message differ only by its size. */
  lemma {:induction false} OnlySummaryDiffers(w: Wire, groups: seq<Group>, marks: seq<bool>, m: Message, n: Message,
                                              placed: bool)
    requires |groups| == |marks|
    ensures |ProjectMarked(groups, marks, m, placed)| == |ProjectMarked(groups, marks, n, placed)|
    ensures var placing := !placed && true in marks;
            SumSizes(w, ProjectMarked(groups, marks, m, placed)) + (if placing then w.message(n) else 0)
            == SumSizes(w, ProjectMarked(groups, marks, n, placed)) + (if placing then w.message(m) else 0)
    decreases |groups|
  {
    if groups != [] {
      var tail := marks[1..];
      assert marks == [marks[0]] + tail;
      OnlySummaryDiffers(w, groups[1..], tail, m, n, placed || marks[0]);
      var (p, q) := (ProjectMarked(groups[1..], tail, m, placed || marks[0]),
                     ProjectMarked(groups[1..], tail, n, placed || marks[0]));
      var (h, k) := if marks[0] then (if placed then ([], []) else ([m], [n])) else (groups[0], groups[0]);
      SumSizesConcat(w, h, p);
      SumSizesConcat(w, k, q);
      assert [m][1..] == [] && [n][1..] == [];
      assert SumSizes(w, [m]) == w.message(m) && SumSizes(w, [n]) == w.message(n);
    }
  }

  lemma SummaryMessageSize(w: Wire, summarized: seq<Group>, summary: string)
    requires PlainTextIsEscaped(w)
    ensures w.message(SummaryMessage(summary, summarized))
            == w.message(SummaryMessage("", summarized)) + Escaped(summary)
  {
    var refs := ReferenceText(SortedSet(AllLines(summarized)));
    SummaryTextSize(SUMMARY_MARKER + "\n", summary, refs);
  }

  lemma SummaryTextSize(head: string, summary: string, refs: string)
    ensures Escaped(head + summary + refs) == Escaped(head + "" + refs) + Escaped(summary)
  {
    EscapedConcat(head + summary, refs);
    EscapedConcat(head, summary);
    EscapedConcat(head + "", refs);
    assert head + "" == head;
  }

  /** A summary of any length costs at most its escaped length over the empty one, through both estimates. */
  lemma SummaryCostsItsEscapedLength(w: Wire, groups: seq<Group>, marks: seq<bool>, summary: string)
    requires PlainTextIsEscaped(w) && |groups| == |marks| && true in marks
    ensures RequestBytes(w, Projected(groups, marks, ""))
         <= RequestBytes(w, Projected(groups, marks, summary))
         <= RequestBytes(w, Projected(groups, marks, "")) + Escaped(summary)
    ensures RequestBytes(w, Projected(groups, marks, summary)) < WORD_MAX ==>
              RequestBytes(w, Projected(groups, marks, summary))
                == RequestBytes(w, Projected(groups, marks, "")) + Escaped(summary)
  {
    hide SummaryMessage;
    var summarized := Marked(groups, marks);
    SummaryMessageSize(w, summarized, summary);
    OnlySummaryDiffers(w, groups, marks, SummaryMessage(summary, summarized), SummaryMessage("", summarized), false);
  }

  // ----- Budgets -----

  datatype Percentages = Percentages(trigger: nat, target: nat) {
    predicate Valid() { 0 < target < trigger < 100 }
  }

  function PercentOf(amount: nat, percent: nat): nat { SatMul(amount, percent) / 100 }

  /** The window left for input once the output budget is reserved; `None` inside `Some` is no declared window. */
  function TokenInputBudget(window: Option<nat>, maxOutputTokens: nat): Option<Option<nat>> {
    if window.None? then Some(None)
    else if window.value > maxOutputTokens then Some(Some(window.value - maxOutputTokens))
    else None
  }

  datatype Pressure = Pressure(trigger: nat, tokenTrigger: Option<nat>, target: nat)

  function PressureOf(maxContextBytes: nat, tokenBudget: Option<nat>, p: Percentages): Pressure {
    var byteTarget := PercentOf(maxContextBytes, p.target);
    Pressure(PercentOf(maxContextBytes, p.trigger),
             if tokenBudget.None? then None else Some(PercentOf(tokenBudget.value, p.trigger)),
             if tokenBudget.None? then byteTarget
             else Min(byteTarget, SatMul(PercentOf(tokenBudget.value, p.target), 3)))
  }

  /** Whether a request is large enough to compact. */
  predicate UnderPressure(q: Pressure, bytes: nat, tokens: nat) {
    bytes >= q.trigger || (q.tokenTrigger.Some? && tokens >= q.tokenTrigger.value)
  }

  function EffectiveTarget(q: Pressure, minimum: nat, before: nat, force: bool): nat {
    var below := SatSub(q.trigger, 1);
    var maximum := if q.tokenTrigger.None? then below else Min(SatMul(SatSub(q.tokenTrigger.value, 1), 3), below);
    Min(Min(Max(q.target, SatAdd(minimum, 256)), maximum), if force then SatSub(before, 1) else WORD_MAX)
  }

  function SummaryBudget(q: Pressure, minimum: nat, before: nat, force: bool, maxSummaryBytes: nat): nat {
    Min(SatSub(EffectiveTarget(q, minimum, before, force), minimum), maxSummaryBytes)
  }

  /** The three checks made on the finished projection. */
  predicate MeetsBudget(q: Pressure, minimum: nat, before: nat, force: bool, after: nat, afterTokens: nat) {
    && after < before
    && after <= EffectiveTarget(q, minimum, before, force)
    && (q.tokenTrigger.Some? ==> afterTokens < q.tokenTrigger.value)
  }

  /** With the byte-based token estimate, a summary within its budget can fail none of the later checks,
      forced or not. */
  lemma BudgetSuffices(q: Pressure, minimum: nat, before: nat, force: bool, maxSummaryBytes: nat, summaryBytes: nat,
                       after: nat)
    requires force || UnderPressure(q, before, EstimatedTokens(before))
    requires summaryBytes <= SummaryBudget(q, minimum, before, force, maxSummaryBytes)
    requires 0 < SummaryBudget(q, minimum, before, force, maxSummaryBytes)
    requires after <= minimum + summaryBytes
    ensures MeetsBudget(q, minimum, before, force, after, EstimatedTokens(after))
  {
    var effective := EffectiveTarget(q, minimum, before, force);
    assert after <= effective && effective <= SatSub(q.trigger, 1) && effective > 0;
    if q.tokenTrigger.Some? {
      var tt := q.tokenTrigger.value;
      assert effective <= SatMul(SatSub(tt, 1), 3);
      assert tt > 0;
      assert after <= 3 * (tt - 1);
      assert (after + 2) / 3 < tt;
      assert EstimatedTokens(after) <= (after + 2) / 3;
    }
  }

  /** A request is as large as its exact form or its reserved estimate, whichever is larger. */
  lemma RequestCoversBoth(w: Wire, messages: seq<Message>)
    ensures var (exact, reserved) := (w.envelope + 2 + w.sourceBytes + SumSizes(w, messages)
                                      + Commas(w.sourceCount + |messages|), w.overhead + SerializedBytes(w, messages));
      && RequestBytes(w, messages) >= exact
      && RequestBytes(w, messages) >= Min(reserved, WORD_MAX)
      && (RequestBytes(w, messages) == exact || RequestBytes(w, messages) == Min(reserved, WORD_MAX))
  {
  }

  /** The byte-based estimate is a third of the bytes, rounded up. */
  lemma EstimateIsAThird(bytes: nat)
    requires bytes + 2 <= WORD_MAX
    ensures 3 * EstimatedTokens(bytes) >= bytes && 3 * EstimatedTokens(bytes) < bytes + 3
  {
  }

  /** A size that a finished projection may have: not beyond the target, or 256 bytes of summary where the target leaves
      no room; below both triggers; and, when forced, below what it was. */
  predicate Allowed(q: Pressure, minimum: nat, before: nat, force: bool, size: nat) {
    && size <= Max(q.target, SatAdd(minimum, 256))
    && size <= SatSub(q.trigger, 1)
    && (q.tokenTrigger.Some? ==> size <= SatMul(SatSub(q.tokenTrigger.value, 1), 3))
    && (force ==> size <= SatSub(before, 1))
  }

  /** The effective target is the largest such size. */
  lemma EffectiveTargetIsLargest(q: Pressure, minimum: nat, before: nat, force: bool)
    requires q.trigger <= WORD_MAX
    ensures Allowed(q, minimum, before, force, EffectiveTarget(q, minimum, before, force))
    ensures forall size: nat :: Allowed(q, minimum, before, force, size) ==>
              size <= EffectiveTarget(q, minimum, before, force)
  {
  }
}
