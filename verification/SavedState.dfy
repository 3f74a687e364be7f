/** The serializable compaction state: which whole groups were summarized, by position and fingerprint. */
module SavedState {
  import opened Text
  import opened Messages
  import opened Grouping
  import opened Projection

  const MAX_SUMMARY_BYTES: nat := 64 * 1024
  const MAX_RANGES: nat := 16384

  datatype CompactedRange = CompactedRange(start: nat, end: nat, sha256: string)

  datatype CompactionState = CompactionState(version: nat, sourceMessages: nat, ranges: seq<CompactedRange>,
                                             summary: string)

  /** `handoff` is whether a text parses as a task summary; `sha256` fingerprints a message sequence. */
  datatype Codec = Codec(handoff: string -> bool, sha256: seq<Message> -> string)

  ghost predicate CollisionFree(codec: Codec) {
    forall a: seq<Message>, b: seq<Message> :: codec.sha256(a) == codec.sha256(b) ==> a == b
  }

  // ----- Ranges of a selection -----

  function Spans(codec: Codec, groups: seq<Group>, marks: seq<bool>, offset: nat): seq<CompactedRange>
    requires |groups| == |marks|
    decreases |groups|
  {
    if groups == [] then [] else
      var end := offset + |groups[0]|;
      (if marks[0] then [CompactedRange(offset, end, codec.sha256(groups[0]))] else [])
        + Spans(codec, groups[1..], marks[1..], end)
  }

  lemma {:induction false} SpansConcat(codec: Codec, g: seq<Group>, m: seq<bool>, h: seq<Group>, n: seq<bool>,
                                       offset: nat)
    requires |g| == |m| && |h| == |n|
    ensures Spans(codec, g + h, m + n, offset) == Spans(codec, g, m, offset) + Spans(codec, h, n, offset + |Flatten(g)|)
    decreases |g|
  {
    if g == [] {
      assert g + h == h && m + n == n;
    } else {
      assert (g + h)[0] == g[0] && (g + h)[1..] == g[1..] + h && (m + n)[1..] == m[1..] + n && (m + n)[0] == m[0];
      var end := offset + |g[0]|;
      SpansConcat(codec, g[1..], m[1..], h, n, end);
      Assoc(if m[0] then [CompactedRange(offset, end, codec.sha256(g[0]))] else [],
            Spans(codec, g[1..], m[1..], end), Spans(codec, h, n, offset + |Flatten(g)|));
    }
  }

  lemma {:induction false} NoSpans(codec: Codec, groups: seq<Group>, marks: seq<bool>, offset: nat)
    requires |groups| == |marks| && true !in marks
    ensures Spans(codec, groups, marks, offset) == []
    decreases |groups|
  {
    if groups != [] { NoSpans(codec, groups[1..], marks[1..], offset + |groups[0]|); }
  }

  predicate InOrder(s: seq<CompactedRange>, lo: nat, hi: nat) {
    && (forall k :: 0 <= k < |s| ==> lo <= s[k].start < s[k].end <= hi)
    && (forall j, k :: 0 <= j < k < |s| ==> s[j].end <= s[k].start)
  }

  predicate NoneEmpty(groups: seq<Group>) { forall i :: 0 <= i < |groups| ==> groups[i] != [] }

  lemma GroupsAreNonempty(groups: seq<Group>)
    requires AllGroups(groups)
    ensures NoneEmpty(groups)
  {
    forall i | 0 <= i < |groups| ensures groups[i] != [] { assert IsGroup(groups[i]); }
  }

  lemma InOrderStep(r: CompactedRange, keep: bool, tail: seq<CompactedRange>, all: seq<CompactedRange>, hi: nat)
    requires r.start < r.end <= hi && InOrder(tail, r.end, hi)
    requires all == if keep then [r] + tail else tail
    ensures InOrder(all, r.start, hi)
  {
  }

  lemma NoneEmptyTail(groups: seq<Group>)
    requires NoneEmpty(groups) && groups != []
    ensures NoneEmpty(groups[1..]) && |groups[0]| > 0 && |Flatten(groups)| == |groups[0]| + |Flatten(groups[1..])|
  {
  }

  /** The ranges of any selection are ascending, nonempty and disjoint. */
  lemma {:induction false} SpansInOrder(codec: Codec, groups: seq<Group>, marks: seq<bool>, offset: nat,
                                        s: seq<CompactedRange>)
    requires |groups| == |marks| && NoneEmpty(groups) && s == Spans(codec, groups, marks, offset)
    ensures InOrder(s, offset, offset + |Flatten(groups)|)
    decreases |groups|
  {
    if groups != [] {
      NoneEmptyTail(groups);
      var end := offset + |groups[0]|;
      var tail := Spans(codec, groups[1..], marks[1..], end);
      SpansInOrder(codec, groups[1..], marks[1..], end, tail);
      SpanCons(codec, groups, marks, offset);
      InOrderStep(CompactedRange(offset, end, codec.sha256(groups[0])), marks[0], tail, s, offset + |Flatten(groups)|);
    }
  }

  /** A range carries a group's fingerprint and covers exactly its messages. */
  predicate Covers(codec: Codec, r: CompactedRange, g: Group, messages: seq<Message>, offset: nat) {
    && offset <= r.start <= r.end <= offset + |messages|
    && r.sha256 == codec.sha256(g)
    && messages[r.start - offset..r.end - offset] == g
  }

  lemma CoversShifted(codec: Codec, r: CompactedRange, g: Group, first: Group, rest: seq<Message>, offset: nat)
    requires Covers(codec, r, g, rest, offset + |first|)
    ensures Covers(codec, r, g, first + rest, offset)
  {
    SliceOfTail(first, rest, r.start - offset - |first|, r.end - offset - |first|);
  }

  lemma {:induction false} SpanIsWholeGroup(codec: Codec, groups: seq<Group>, marks: seq<bool>, offset: nat, k: nat)
    requires |groups| == |marks| && k < |Spans(codec, groups, marks, offset)|
    ensures |Marked(groups, marks)| == |Spans(codec, groups, marks, offset)|
    ensures Covers(codec, Spans(codec, groups, marks, offset)[k], Marked(groups, marks)[k], Flatten(groups), offset)
    decreases |groups|
  {
    SameCount(codec, groups, marks, offset);
    SpanCons(codec, groups, marks, offset);
    var g, rest := groups[0], Flatten(groups[1..]);
    var s, m := Spans(codec, groups, marks, offset), Marked(groups, marks);
    if marks[0] && k == 0 {
      SliceOfHead(g, rest);
      assert Covers(codec, s[0], m[0], g + rest, offset);
    } else {
      var j := if marks[0] then k - 1 else k;
      SpanIsWholeGroup(codec, groups[1..], marks[1..], offset + |g|, j);
      CoversShifted(codec, s[k], m[k], g, rest, offset);
    }
  }

  lemma SliceOfHead<T>(a: seq<T>, b: seq<T>)
    ensures (a + b)[0..|a|] == a
  {
  }

  lemma SliceOfTail<T>(a: seq<T>, b: seq<T>, lo: nat, hi: nat)
    requires lo <= hi <= |b|
    ensures (a + b)[|a| + lo..|a| + hi] == b[lo..hi]
  {
  }

  lemma {:induction false} SameCount(codec: Codec, groups: seq<Group>, marks: seq<bool>, offset: nat)
    requires |groups| == |marks|
    ensures |Marked(groups, marks)| == |Spans(codec, groups, marks, offset)|
    decreases |groups|
  {
    if groups != [] {
      SameCount(codec, groups[1..], marks[1..], offset + |groups[0]|);
      SpanCons(codec, groups, marks, offset);
    }
  }

  lemma SpanCons(codec: Codec, groups: seq<Group>, marks: seq<bool>, offset: nat)
    requires |groups| == |marks| && groups != []
    ensures var s := Spans(codec, groups[1..], marks[1..], offset + |groups[0]|);
            var m := Marked(groups[1..], marks[1..]);
      && Spans(codec, groups, marks, offset)
           == (if marks[0] then [CompactedRange(offset, offset + |groups[0]|, codec.sha256(groups[0]))] + s else s)
      && Marked(groups, marks) == (if marks[0] then [groups[0]] + m else m)
  {
  }

  // ----- Capture -----

  /** The marks of the groups that remain once System groups are taken out. */
  function SystemFreeMarks(groups: seq<Group>, marks: seq<bool>): (m: seq<bool>)
    requires |groups| == |marks|
    ensures |m| == |SystemFreeGroups(groups)|
    decreases |groups|
  {
    if groups == [] then []
    else (if SystemGroup(groups[0]) then [] else [marks[0]]) + SystemFreeMarks(groups[1..], marks[1..])
  }

  function Captured(codec: Codec, groups: seq<Group>, marks: seq<bool>, summary: string): Option<CompactionState>
    requires |groups| == |marks|
  {
    var kept, m := SystemFreeGroups(groups), SystemFreeMarks(groups, marks);
    var ranges := Spans(codec, kept, m, 0);
    if !codec.handoff(summary) || |ranges| > MAX_RANGES then None
    else Some(CompactionState(2, |Flatten(kept)|, ranges, summary))
  }

  /** `CompactionState::capture`: offsets count only messages outside System groups. */
  method Capture(codec: Codec, groups: seq<Group>, selected: seq<nat>, summary: string)
    returns (r: Option<CompactionState>)
    ensures r == Captured(codec, groups, Marks(|groups|, selected), summary)
  {
    if !codec.handoff(summary) { return None; }
    ghost var marks := Marks(|groups|, selected);
    var offset: nat, ranges: seq<CompactedRange> := 0, [];
    for index := 0 to |groups|
      invariant offset == |Flatten(SystemFreeGroups(groups[..index]))|
      invariant ranges == Spans(codec, SystemFreeGroups(groups[..index]),
                                SystemFreeMarks(groups[..index], marks[..index]), 0)
    {
      OneMoreSpan(codec, groups, marks, index);
      if groups[index] != [] && groups[index][0].System? { continue; }
      var end := offset + |groups[index]|;
      if index in selected {
        ranges := ranges + [CompactedRange(offset, end, codec.sha256(groups[index]))];
      }
      offset := end;
    }
    assert groups[..|groups|] == groups && marks[..|groups|] == marks;
    if |ranges| > MAX_RANGES { return None; }
    r := Some(CompactionState(2, offset, ranges, summary));
  }

  lemma {:induction false} SystemFreeGroupsConcat(g: seq<Group>, m: seq<bool>, h: seq<Group>, n: seq<bool>)
    requires |g| == |m| && |h| == |n|
    ensures SystemFreeGroups(g + h) == SystemFreeGroups(g) + SystemFreeGroups(h)
    ensures SystemFreeMarks(g + h, m + n) == SystemFreeMarks(g, m) + SystemFreeMarks(h, n)
    decreases |g|
  {
    if g == [] {
      assert g + h == h && m + n == n;
    } else {
      assert (g + h)[0] == g[0] && (g + h)[1..] == g[1..] + h && (m + n)[1..] == m[1..] + n && (m + n)[0] == m[0];
      SystemFreeGroupsConcat(g[1..], m[1..], h, n);
      Assoc(if SystemGroup(g[0]) then [] else [g[0]], SystemFreeGroups(g[1..]), SystemFreeGroups(h));
      Assoc(if SystemGroup(g[0]) then [] else [m[0]], SystemFreeMarks(g[1..], m[1..]), SystemFreeMarks(h, n));
    }
  }

  lemma OneMoreSpan(codec: Codec, groups: seq<Group>, marks: seq<bool>, index: nat)
    requires |groups| == |marks| && index < |groups|
    ensures var (before, after) := (SystemFreeGroups(groups[..index]), SystemFreeGroups(groups[..index + 1]));
      && after == before + (if SystemGroup(groups[index]) then [] else [groups[index]])
      && |Flatten(after)| == |Flatten(before)| + (if SystemGroup(groups[index]) then 0 else |groups[index]|)
      && Spans(codec, after, SystemFreeMarks(groups[..index + 1], marks[..index + 1]), 0)
           == Spans(codec, before, SystemFreeMarks(groups[..index], marks[..index]), 0)
              + (if !SystemGroup(groups[index]) && marks[index]
                 then [CompactedRange(|Flatten(before)|, |Flatten(before)| + |groups[index]|,
                                      codec.sha256(groups[index]))] else [])
  {
    var g, m := [groups[index]], [marks[index]];
    assert groups[..index + 1] == groups[..index] + g && marks[..index + 1] == marks[..index] + m;
    SystemFreeGroupsConcat(groups[..index], marks[..index], g, m);
    var before := SystemFreeGroups(groups[..index]);
    FlattenConcat(before, SystemFreeGroups(g));
    SpansConcat(codec, before, SystemFreeMarks(groups[..index], marks[..index]), SystemFreeGroups(g),
                SystemFreeMarks(g, m), 0);
    assert Flatten(g) == groups[index];
  }

  // ----- Replay -----

  predicate ReplayHeader(codec: Codec, s: CompactionState, messages: seq<Message>) {
    && s.version == 2 && codec.handoff(s.summary) && Len(s.summary) <= MAX_SUMMARY_BYTES
    && s.ranges != [] && |s.ranges| <= MAX_RANGES && s.sourceMessages <= |messages|
    && forall i :: 0 <= i < |messages| ==> !messages[i].System?
  }

  /** A selection explains the saved ranges. */
  predicate Explains(codec: Codec, groups: seq<Group>, marks: seq<bool>, ranges: seq<CompactedRange>, offset: nat,
                     source: nat) {
    && MarksOnlySafe(groups, marks)
    && Spans(codec, groups, marks, offset) == ranges
    && forall k :: 0 <= k < |ranges| ==> ranges[k].end <= source
  }

  datatype Decision = Refuse | Skip | Take

  /** Compare one group with the next saved range, if one is left. */
  function Decide(codec: Codec, group: Group, next: Option<CompactedRange>, offset: nat, source: nat): Decision {
    if next.None? then Skip else
      var span := next.value;
      if span.start < offset || span.start >= span.end || span.end > source then Refuse
      else if span.start == offset then
        if span.end != offset + |group| || !SafeToSummarize(group) || codec.sha256(group) != span.sha256 then Refuse
        else Take
      else if span.start < offset + |group| then Refuse
      else Skip
  }

  function First(ranges: seq<CompactedRange>): Option<CompactedRange> { if ranges == [] then None else Some(ranges[0]) }

  /** Walk the groups, matching each against the next saved range. */
  function Match(codec: Codec, groups: seq<Group>, ranges: seq<CompactedRange>, offset: nat,
                 source: nat): (r: Option<seq<bool>>)
    ensures r.Some? ==> |r.value| == |groups|
    decreases |groups|
  {
    if groups == [] then (if ranges == [] then Some([]) else None) else
      var end := offset + |groups[0]|;
      match Decide(codec, groups[0], First(ranges), offset, source)
      case Refuse => None
      case Skip => Mark(false, Match(codec, groups[1..], ranges, end, source))
      case Take => Mark(true, Match(codec, groups[1..], ranges[1..], end, source))
  }

  function Mark(m: bool, r: Option<seq<bool>>): Option<seq<bool>> {
    if r.None? then None else Some([m] + r.value)
  }

  lemma ExplainsMarked(codec: Codec, groups: seq<Group>, marks: seq<bool>, ranges: seq<CompactedRange>, offset: nat,
                       source: nat)
    requires groups != [] && |marks| == |groups| && marks[0]
    ensures Explains(codec, groups, marks, ranges, offset, source) <==>
              && ranges != []
              && ranges[0] == CompactedRange(offset, offset + |groups[0]|, codec.sha256(groups[0]))
              && SafeToSummarize(groups[0]) && ranges[0].end <= source
              && Explains(codec, groups[1..], marks[1..], ranges[1..], offset + |groups[0]|, source)
  {
    SpanCons(codec, groups, marks, offset);
    SafeTail(groups, marks);
    assert ranges != [] ==> ranges == [ranges[0]] + ranges[1..];
  }

  lemma ExplainsUnmarked(codec: Codec, groups: seq<Group>, marks: seq<bool>, ranges: seq<CompactedRange>, offset: nat,
                         source: nat)
    requires groups != [] && |marks| == |groups| && !marks[0]
    ensures Explains(codec, groups, marks, ranges, offset, source) <==>
              Explains(codec, groups[1..], marks[1..], ranges, offset + |groups[0]|, source)
  {
    SpanCons(codec, groups, marks, offset);
    SafeTail(groups, marks);
  }

  lemma SafeTail(groups: seq<Group>, marks: seq<bool>)
    requires groups != [] && |marks| == |groups|
    ensures MarksOnlySafe(groups, marks)
            <==> (marks[0] ==> SafeToSummarize(groups[0])) && MarksOnlySafe(groups[1..], marks[1..])
  {
    if MarksOnlySafe(groups[1..], marks[1..]) && (marks[0] ==> SafeToSummarize(groups[0])) {
      forall i | 0 <= i < |groups| ensures marks[i] ==> SafeToSummarize(groups[i]) {
        if i > 0 { assert marks[1..][i - 1] ==> SafeToSummarize(groups[1..][i - 1]); }
      }
    }
  }

  /** The walk finds the one selection that explains the ranges, if there is one. */
  lemma {:induction false} MatchIff(codec: Codec, groups: seq<Group>, ranges: seq<CompactedRange>, offset: nat,
                                    source: nat, marks: seq<bool>)
    requires NoneEmpty(groups) && |marks| == |groups|
    ensures Match(codec, groups, ranges, offset, source) == Some(marks)
            <==> Explains(codec, groups, marks, ranges, offset, source)
    decreases |groups|
  {
    if groups == [] {
      assert marks == [];
    } else {
      var end := offset + |groups[0]|;
      assert marks == [marks[0]] + marks[1..];
      if marks[0] {
        ExplainsMarked(codec, groups, marks, ranges, offset, source);
        if ranges != [] { MatchIff(codec, groups[1..], ranges[1..], end, source, marks[1..]); }
      } else {
        ExplainsUnmarked(codec, groups, marks, ranges, offset, source);
        MatchIff(codec, groups[1..], ranges, end, source, marks[1..]);
        if Explains(codec, groups[1..], marks[1..], ranges, end, source) {
          LaterRanges(codec, groups[1..], marks[1..], ranges, end, source);
        }
        MatchUnmarked(codec, groups, ranges, offset, source, marks);
      }
    }
  }

  lemma LaterRanges(codec: Codec, groups: seq<Group>, marks: seq<bool>, ranges: seq<CompactedRange>, offset: nat,
                    source: nat)
    requires NoneEmpty(groups) && Explains(codec, groups, marks, ranges, offset, source)
    ensures ranges != [] ==> offset <= ranges[0].start < ranges[0].end <= source
  {
    SpansInOrder(codec, groups, marks, offset, ranges);
  }

  lemma MatchUnmarked(codec: Codec, groups: seq<Group>, ranges: seq<CompactedRange>, offset: nat, source: nat,
                      marks: seq<bool>)
    requires groups != [] && |groups| == |marks| && !marks[0] && groups[0] != []
    requires Match(codec, groups[1..], ranges, offset + |groups[0]|, source) == Some(marks[1..]) ==>
               ranges != [] ==> offset + |groups[0]| <= ranges[0].start < ranges[0].end <= source
    ensures Match(codec, groups, ranges, offset, source) == Some(marks) <==>
              Match(codec, groups[1..], ranges, offset + |groups[0]|, source) == Some(marks[1..])
  {
    assert marks == [marks[0]] + marks[1..];
  }

  function Replayed(codec: Codec, s: CompactionState, messages: seq<Message>): Option<seq<Message>> {
    if !ReplayHeader(codec, s, messages) || GroupsOf(messages).None? then None else
      var groups := GroupsOf(messages).value;
      var marks := Match(codec, groups, s.ranges, 0, s.sourceMessages);
      if marks.None? then None else Some(Projected(groups, marks.value, s.summary))
  }

  function Ahead(marks: seq<bool>, r: Option<seq<bool>>): Option<seq<bool>> {
    if r.None? then None else Some(marks + r.value)
  }

  /** One pass with an index list, an offset and the position of the next range. */
  method MatchRanges(codec: Codec, groups: seq<Group>, ranges: seq<CompactedRange>, source: nat)
    returns (r: Option<seq<nat>>)
    ensures r.None? ==> Match(codec, groups, ranges, 0, source) == None
    ensures r.Some? ==>
              && Ascending(r.value, |groups|)
              && Match(codec, groups, ranges, 0, source) == Some(Marks(|groups|, r.value))
  {
    hide Decide, Match, Ahead, Marks;
    var selected: seq<nat>, offset: nat, range: nat := [], 0, 0;
    ghost var whole := Match(codec, groups, ranges, 0, source);
    assert ranges[0..] == ranges && groups[0..] == groups;
    NothingAhead(whole);
    for index := 0 to |groups|
      invariant Ascending(selected, index) && range == |selected| <= |ranges|
      invariant Walked(codec, groups, ranges[range..], index, selected, offset, source, whole)
    {
      var decision := DecideNext(codec, groups[index], ranges, range, offset, source);
      WalkOn(codec, groups, ranges[range..], index, selected, offset, source, whole, decision);
      if decision.Refuse? { return None; }
      if decision.Take? {
        assert ranges[range..][1..] == ranges[range + 1..];
        selected := selected + [index];
        range := range + 1;
      }
      offset := offset + |groups[index]|;
    }
    WalkEnds(codec, groups, ranges[range..], selected, offset, source, whole);
    if range != |ranges| { return None; }
    r := Some(selected);
  }

  /** `whole` is what the walk has marked so far, followed by what it makes of the rest. */
  ghost predicate Walked(codec: Codec, groups: seq<Group>, left: seq<CompactedRange>, index: nat, selected: seq<nat>,
                         offset: nat, source: nat, whole: Option<seq<bool>>)
    requires index <= |groups|
  {
    whole == Ahead(Marks(index, selected), Match(codec, groups[index..], left, offset, source))
  }

  lemma WalkOn(codec: Codec, groups: seq<Group>, left: seq<CompactedRange>, index: nat, selected: seq<nat>,
               offset: nat, source: nat, whole: Option<seq<bool>>, decision: Decision)
    requires index < |groups| && Ascending(selected, index)
    requires Walked(codec, groups, left, index, selected, offset, source, whole)
    requires decision == Decide(codec, groups[index], First(left), offset, source) && (decision.Take? ==> left != [])
    ensures decision.Refuse? ==> whole == None
    ensures decision.Skip? ==>
              && Ascending(selected, index + 1)
              && Walked(codec, groups, left, index + 1, selected, offset + |groups[index]|, source, whole)
    ensures decision.Take? ==>
              && Ascending(selected + [index], index + 1)
              && Walked(codec, groups, left[1..], index + 1, selected + [index], offset + |groups[index]|, source,
                        whole)
  {
    hide Decide, Match, Marks;
    MatchNext(codec, groups, index, left, offset, source);
    var later := if decision.Take? then left[1..] else left;
    AheadOne(index, selected, decision.Take?,
             Match(codec, groups[index + 1..], later, offset + |groups[index]|, source));
  }

  lemma WalkEnds(codec: Codec, groups: seq<Group>, left: seq<CompactedRange>, selected: seq<nat>, offset: nat,
                 source: nat, whole: Option<seq<bool>>)
    requires Walked(codec, groups, left, |groups|, selected, offset, source, whole)
    ensures whole == if left == [] then Some(Marks(|groups|, selected)) else None
  {
    assert groups[|groups|..] == [];
    assert Marks(|groups|, selected) + [] == Marks(|groups|, selected);
  }

  /** `CompactionState::project`. */
  method ReplayState(codec: Codec, s: CompactionState, messages: seq<Message>) returns (r: Option<seq<Message>>)
    ensures r == Replayed(codec, s, messages)
  {
    if s.version != 2 || !codec.handoff(s.summary) || Len(s.summary) > MAX_SUMMARY_BYTES || s.ranges == []
      || |s.ranges| > MAX_RANGES || s.sourceMessages > |messages|
      || exists i :: 0 <= i < |messages| && messages[i].System?
    { return None; }
    var groups := GroupMessages(messages);
    if groups.None? { return None; }
    var selected := MatchRanges(codec, groups.value, s.ranges, s.sourceMessages);
    if selected.None? { return None; }
    var projected := ProjectGroups(groups.value, selected.value, s.summary);
    r := Some(projected);
  }

  method DecideNext(codec: Codec, group: Group, ranges: seq<CompactedRange>, range: nat, offset: nat, source: nat)
    returns (d: Decision)
    requires range <= |ranges|
    ensures d == Decide(codec, group, First(ranges[range..]), offset, source)
    ensures d.Take? ==> range < |ranges|
  {
    if range == |ranges| { return Skip; }
    var span := ranges[range];
    var end := offset + |group|;
    if span.start < offset || span.start >= span.end || span.end > source { return Refuse; }
    if span.start == offset {
      if span.end != end || !SafeToSummarize(group) || codec.sha256(group) != span.sha256 { return Refuse; }
      return Take;
    }
    d := if span.start < end then Refuse else Skip;
  }

  lemma MatchNext(codec: Codec, groups: seq<Group>, index: nat, ranges: seq<CompactedRange>, offset: nat, source: nat)
    requires index < |groups|
    ensures var end := offset + |groups[index]|;
      Match(codec, groups[index..], ranges, offset, source) ==
        match Decide(codec, groups[index], First(ranges), offset, source)
        case Refuse => None
        case Skip => Mark(false, Match(codec, groups[index + 1..], ranges, end, source))
        case Take => Mark(true, Match(codec, groups[index + 1..], ranges[1..], end, source))
  {
    assert groups[index..][1..] == groups[index + 1..];
  }

  lemma NothingAhead(r: Option<seq<bool>>)
    ensures Ahead(Marks(0, []), r) == r
  {
    assert Marks(0, []) == [];
    if r.Some? { assert [] + r.value == r.value; }
  }

  lemma AheadOne(index: nat, selected: seq<nat>, m: bool, r: Option<seq<bool>>)
    requires Ascending(selected, index)
    ensures var next := if m then selected + [index] else selected;
      Ascending(next, index + 1) && Ahead(Marks(index, selected), Mark(m, r)) == Ahead(Marks(index + 1, next), r)
  {
    var next := if m then selected + [index] else selected;
    assert index !in selected;
    assert Marks(index + 1, next) == Marks(index, selected) + [m];
    if r.Some? { Assoc(Marks(index, selected), [m], r.value); }
  }

  // ----- Main results -----

  /** Replay succeeds exactly when some selection of whole safe groups explains every saved range. */
  lemma ReplayIff(codec: Codec, s: CompactionState, messages: seq<Message>, out: seq<Message>)
    ensures Replayed(codec, s, messages) == Some(out) <==>
              && ReplayHeader(codec, s, messages)
              && exists groups, marks :: AllGroups(groups) && Flatten(groups) == messages
                   && Explains(codec, groups, marks, s.ranges, 0, s.sourceMessages)
                   && out == Projected(groups, marks, s.summary)
  {
    if Replayed(codec, s, messages) == Some(out) {
      var groups := GroupsOf(messages).value;
      var marks := Match(codec, groups, s.ranges, 0, s.sourceMessages).value;
      GroupsAreNonempty(groups);
      MatchIff(codec, groups, s.ranges, 0, s.sourceMessages, marks);
    }
    if ReplayHeader(codec, s, messages) {
      forall groups, marks | AllGroups(groups) && Flatten(groups) == messages
        && Explains(codec, groups, marks, s.ranges, 0, s.sourceMessages) && out == Projected(groups, marks, s.summary)
        ensures Replayed(codec, s, messages) == Some(out)
      {
        GroupingIsUnique(groups);
        GroupsAreNonempty(groups);
        MatchIff(codec, groups, s.ranges, 0, s.sourceMessages, marks);
      }
    }
  }

  /** What any successful replay has checked: ranges in strict order, each exactly one whole safe group of the
      given history with the saved fingerprint. */
  lemma ReplayChecksEveryRange(codec: Codec, s: CompactionState, messages: seq<Message>)
    requires Replayed(codec, s, messages).Some?
    ensures InOrder(s.ranges, 0, |messages|)
    ensures forall k :: 0 <= k < |s.ranges| ==>
              var r := s.ranges[k];
              && r.start < r.end <= s.sourceMessages <= |messages|
              && IsGroup(messages[r.start..r.end]) && SafeToSummarize(messages[r.start..r.end])
              && codec.sha256(messages[r.start..r.end]) == r.sha256
  {
    var groups := GroupsOf(messages).value;
    var marks := Match(codec, groups, s.ranges, 0, s.sourceMessages).value;
    GroupsAreNonempty(groups);
    MatchIff(codec, groups, s.ranges, 0, s.sourceMessages, marks);
    SpansInOrder(codec, groups, marks, 0, s.ranges);
    forall k | 0 <= k < |s.ranges|
      ensures var r := s.ranges[k];
        && r.start < r.end <= s.sourceMessages <= |messages|
        && IsGroup(messages[r.start..r.end]) && SafeToSummarize(messages[r.start..r.end])
        && codec.sha256(messages[r.start..r.end]) == r.sha256
    {
      SpanIsWholeGroup(codec, groups, marks, 0, k);
      MarkedAreSafeGroups(groups, marks, k);
    }
  }

  lemma {:induction false} MarkedAreSafeGroups(groups: seq<Group>, marks: seq<bool>, k: nat)
    requires MarksOnlySafe(groups, marks) && AllGroups(groups) && k < |Marked(groups, marks)|
    ensures IsGroup(Marked(groups, marks)[k]) && SafeToSummarize(Marked(groups, marks)[k])
    decreases |groups|
  {
    SafeTail(groups, marks);
    if !(marks[0] && k == 0) {
      AllGroupsTail(groups);
      MarkedAreSafeGroups(groups[1..], marks[1..], if marks[0] then k - 1 else k);
    }
  }

  lemma AllGroupsTail(groups: seq<Group>)
    requires AllGroups(groups) && groups != []
    ensures AllGroups(groups[1..]) && IsGroup(groups[0])
  {
  }

  /** A saved state can only be replayed over the very messages it was captured from. */
  lemma ReplayDetectsChange(codec: Codec, groups: seq<Group>, marks: seq<bool>, summary: string, messages: seq<Message>,
                            k: nat)
    requires CollisionFree(codec) && AllGroups(groups) && |marks| == |groups|
    requires Captured(codec, groups, marks, summary).Some?
    requires Replayed(codec, Captured(codec, groups, marks, summary).value, messages).Some?
    requires k < |Captured(codec, groups, marks, summary).value.ranges|
    ensures var r := Captured(codec, groups, marks, summary).value.ranges[k];
      r.start <= r.end <= |messages| && r.end <= |SystemFree(Flatten(groups))|
      && messages[r.start..r.end] == SystemFree(Flatten(groups))[r.start..r.end]
  {
    var s := Captured(codec, groups, marks, summary).value;
    ReplayChecksEveryRange(codec, s, messages);
    SystemFreeCommutes(groups);
    hide Replayed, SafeToSummarize, IsGroup, AllGroups, SystemFreeGroups, SystemFreeMarks, Spans, Marked, InOrder,
         SystemFree, Flatten, MarksOnlySafe;
    SpanIsWholeGroup(codec, SystemFreeGroups(groups), SystemFreeMarks(groups, marks), 0, k);
  }

  lemma {:induction false} SystemFreeMarksKeep(groups: seq<Group>, marks: seq<bool>)
    requires |groups| == |marks| && AllGroups(groups) && MarksOnlySafe(groups, marks)
    ensures MarksOnlySafe(SystemFreeGroups(groups), SystemFreeMarks(groups, marks))
    ensures Marked(SystemFreeGroups(groups), SystemFreeMarks(groups, marks)) == Marked(groups, marks)
    ensures true in marks <==> true in SystemFreeMarks(groups, marks)
    decreases |groups|
  {
    if groups != [] {
      SafeTail(groups, marks);
      AllGroupsTail(groups);
      SystemFreeMarksKeep(groups[1..], marks[1..]);
      assert groups == [groups[0]] + groups[1..] && marks == [marks[0]] + marks[1..];
      SystemIsUnsafe(groups[0]);
      ConsMarked(groups[0], marks[0], groups[1..], marks[1..]);
      ConsSystemFree(groups[0], marks[0], groups[1..], marks[1..]);
      ConsMarked(groups[0], marks[0], SystemFreeGroups(groups[1..]), SystemFreeMarks(groups[1..], marks[1..]));
    }
  }

  lemma SystemIsUnsafe(g: Group)
    ensures SystemGroup(g) ==> !SafeToSummarize(g)
  {
    if SystemGroup(g) { assert !SafeMessage(g[0]); }
  }

  lemma ConsSystemFree(x: Group, b: bool, g: seq<Group>, m: seq<bool>)
    requires |g| == |m|
    ensures SystemFreeGroups([x] + g) == (if SystemGroup(x) then SystemFreeGroups(g) else [x] + SystemFreeGroups(g))
    ensures SystemFreeMarks([x] + g, [b] + m)
            == (if SystemGroup(x) then SystemFreeMarks(g, m) else [b] + SystemFreeMarks(g, m))
  {
    assert ([x] + g)[1..] == g && ([b] + m)[1..] == m;
  }

  lemma ConsMarked(x: Group, b: bool, g: seq<Group>, m: seq<bool>)
    requires |g| == |m|
    ensures Marked([x] + g, [b] + m) == (if b then [x] + Marked(g, m) else Marked(g, m))
    ensures MarksOnlySafe([x] + g, [b] + m) <==> (b ==> SafeToSummarize(x)) && MarksOnlySafe(g, m)
  {
    assert ([x] + g)[1..] == g && ([b] + m)[1..] == m;
    SafeTail([x] + g, [b] + m);
  }

  /** Filtering System messages out of a projection is projecting the filtered groups. */
  lemma {:induction false} SystemFreeProjection(groups: seq<Group>, marks: seq<bool>, message: Message, placed: bool)
    requires |groups| == |marks| && AllGroups(groups) && MarksOnlySafe(groups, marks) && message.User?
    ensures SystemFree(ProjectMarked(groups, marks, message, placed))
         == ProjectMarked(SystemFreeGroups(groups), SystemFreeMarks(groups, marks), message, placed)
    decreases |groups|
  {
    if groups != [] {
      SafeTail(groups, marks);
      AllGroupsTail(groups);
      SystemFreeProjection(groups[1..], marks[1..], message, placed || marks[0]);
      SystemFreeGroup(groups[0]);
      var rest := ProjectMarked(groups[1..], marks[1..], message, placed || marks[0]);
      var (g, m) := (SystemFreeGroups(groups[1..]), SystemFreeMarks(groups[1..], marks[1..]));
      var head := if marks[0] then (if placed then [] else [message]) else groups[0];
      assert ProjectMarked(groups, marks, message, placed) == head + rest;
      SystemFreeConcat(head, rest);
      if SystemGroup(groups[0]) {
        assert !SafeMessage(groups[0][0]) && !marks[0];
        assert SystemFreeGroups(groups) == g && SystemFreeMarks(groups, marks) == m;
      } else {
        assert SystemFreeGroups(groups) == [groups[0]] + g && SystemFreeMarks(groups, marks) == [marks[0]] + m;
        assert ([groups[0]] + g)[1..] == g && ([marks[0]] + m)[1..] == m;
        assert SystemFree(head) == head;
      }
    }
  }

  /** Capture then replay: on the System-free history followed by any settled System-free tail, the saved state
      reproduces the live projection, with the tail untouched behind it. */
  lemma CaptureThenReplay(codec: Codec, history: seq<Message>, marks: seq<bool>, summary: string, tail: seq<Message>)
    requires GroupsOf(history).Some? && GroupsOf(tail).Some? && SystemFree(tail) == tail
    requires MarksOnlySafe(GroupsOf(history).value, marks) && true in marks && Len(summary) <= MAX_SUMMARY_BYTES
    requires Captured(codec, GroupsOf(history).value, marks, summary).Some?
    ensures Replayed(codec, Captured(codec, GroupsOf(history).value, marks, summary).value, SystemFree(history) + tail)
         == Some(SystemFree(Projected(GroupsOf(history).value, marks, summary)) + tail)
  {
    var groups, extra := GroupsOf(history).value, GroupsOf(tail).value;
    var s := Captured(codec, groups, marks, summary).value;
    var kept, m := SystemFreeGroups(groups), SystemFreeMarks(groups, marks);
    var none := seq(|extra|, i => false);
    CaptureIsExplained(codec, groups, marks, summary, extra, none, s);
    CaptureHasHeader(codec, history, marks, summary, tail, s);
    ExtendedProjection(groups, marks, summary, extra, none);
    ReplayedBy(codec, s, SystemFree(history) + tail, kept + extra, m + none);
  }

  lemma ReplayedBy(codec: Codec, s: CompactionState, messages: seq<Message>, groups: seq<Group>, marks: seq<bool>)
    requires ReplayHeader(codec, s, messages) && GroupsOf(messages) == Some(groups) && |marks| == |groups|
    requires Match(codec, groups, s.ranges, 0, s.sourceMessages) == Some(marks)
    ensures Replayed(codec, s, messages) == Some(Projected(groups, marks, s.summary))
  {
  }

  lemma CaptureIsExplained(codec: Codec, groups: seq<Group>, marks: seq<bool>, summary: string, extra: seq<Group>,
                           none: seq<bool>, s: CompactionState)
    requires AllGroups(groups) && MarksOnlySafe(groups, marks) && AllGroups(extra)
    requires |none| == |extra| && true !in none && Captured(codec, groups, marks, summary) == Some(s)
    ensures Match(codec, SystemFreeGroups(groups) + extra, s.ranges, 0, s.sourceMessages)
         == Some(SystemFreeMarks(groups, marks) + none)
    ensures GroupsOf(SystemFree(Flatten(groups)) + Flatten(extra)) == Some(SystemFreeGroups(groups) + extra)
  {
    var kept, m := SystemFreeGroups(groups), SystemFreeMarks(groups, marks);
    SystemFreeCommutes(groups);
    GroupingIsUnique(kept);
    GroupingIsUnique(extra);
    GroupsOfConcat(SystemFree(Flatten(groups)), Flatten(extra));
    SystemFreeMarksKeep(groups, marks);
    ExtendedExplains(codec, kept, m, extra, none);
    MatchIff(codec, kept + extra, s.ranges, 0, s.sourceMessages, m + none);
  }

  lemma CaptureHasHeader(codec: Codec, history: seq<Message>, marks: seq<bool>, summary: string, tail: seq<Message>,
                         s: CompactionState)
    requires GroupsOf(history).Some? && SystemFree(tail) == tail && Len(summary) <= MAX_SUMMARY_BYTES
    requires MarksOnlySafe(GroupsOf(history).value, marks) && true in marks
    requires Captured(codec, GroupsOf(history).value, marks, summary) == Some(s)
    ensures ReplayHeader(codec, s, SystemFree(history) + tail)
  {
    var groups := GroupsOf(history).value;
    SystemFreeCommutes(groups);
    SystemFreeHasNone(history);
    SystemFreeHasNone(tail);
    SystemFreeMarksKeep(groups, marks);
    SomethingMarked(codec, SystemFreeGroups(groups), SystemFreeMarks(groups, marks));
  }

  lemma ExtendedProjection(groups: seq<Group>, marks: seq<bool>, summary: string, extra: seq<Group>, none: seq<bool>)
    requires AllGroups(groups) && MarksOnlySafe(groups, marks) && true in marks && |none| == |extra| && true !in none
    ensures Projected(SystemFreeGroups(groups) + extra, SystemFreeMarks(groups, marks) + none, summary)
         == SystemFree(Projected(groups, marks, summary)) + Flatten(extra)
  {
    hide SummaryMessage;
    var kept, m := SystemFreeGroups(groups), SystemFreeMarks(groups, marks);
    SystemFreeMarksKeep(groups, marks);
    MarkedConcat(kept, m, extra, none);
    var message := SummaryMessage(summary, Marked(groups, marks));
    NothingMarked(extra, none, message, true);
    assert Marked(kept, m) + [] == Marked(kept, m);
    ProjectConcat(kept, m, extra, none, message, false);
    SystemFreeProjection(groups, marks, message, false);
  }

  lemma ExtendedExplains(codec: Codec, kept: seq<Group>, m: seq<bool>, extra: seq<Group>, none: seq<bool>)
    requires AllGroups(kept) && AllGroups(extra) && MarksOnlySafe(kept, m) && |none| == |extra| && true !in none
    ensures NoneEmpty(kept + extra)
    ensures Explains(codec, kept + extra, m + none, Spans(codec, kept, m, 0), 0, |Flatten(kept)|)
  {
    var s := Spans(codec, kept, m, 0);
    GroupsAreNonempty(kept);
    GroupsAreNonempty(extra);
    SpansConcat(codec, kept, m, extra, none, 0);
    NoSpans(codec, extra, none, |Flatten(kept)|);
    assert s + [] == s;
    SpansInOrder(codec, kept, m, 0, s);
    forall i | 0 <= i < |kept + extra| ensures (m + none)[i] ==> SafeToSummarize((kept + extra)[i]) {
      if i >= |kept| { assert !none[i - |kept|]; }
    }
  }

  lemma {:induction false} SystemFreeHasNone(messages: seq<Message>)
    ensures forall i :: 0 <= i < |SystemFree(messages)| ==> !SystemFree(messages)[i].System?
  {
    if messages != [] { SystemFreeHasNone(messages[1..]); }
  }

  lemma {:induction false} SomethingMarked(codec: Codec, groups: seq<Group>, marks: seq<bool>)
    requires |groups| == |marks| && true in marks
    ensures Spans(codec, groups, marks, 0) != []
  {
    SameCount(codec, groups, marks, 0);
    MarkedNonempty(groups, marks);
  }

  lemma {:induction false} MarkedNonempty(groups: seq<Group>, marks: seq<bool>)
    requires |groups| == |marks| && true in marks
    ensures Marked(groups, marks) != []
    decreases |groups|
  {
    if !marks[0] {
      assert marks == [marks[0]] + marks[1..];
      MarkedNonempty(groups[1..], marks[1..]);
    }
  }

  /** Only a current, well-formed state replays, and only over a history without System messages that is long enough. */
  lemma ReplayChecksHeader(codec: Codec, s: CompactionState, messages: seq<Message>)
    requires Replayed(codec, s, messages).Some?
    ensures s.version == 2 && codec.handoff(s.summary) && Len(s.summary) <= MAX_SUMMARY_BYTES
    ensures 0 < |s.ranges| <= MAX_RANGES && s.sourceMessages <= |messages|
    ensures forall m :: m in messages ==> !m.System?
  {
    hide Match;
  }
}
