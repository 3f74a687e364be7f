/** Which groups may be summarized, and the view in which one summary message takes the place of the selected ones. */
module Projection {
  import opened Text
  import opened Messages
  import opened Grouping

  // ----- Which groups may be summarized -----

  predicate IsSpill(a: ArtifactRef) { "spill:" <= a.uri }

  predicate SafeMessage(m: Message) {
    match m
    case System(_) => false
    case User(input) => !HasMedia(input)
    case Tool(r) => !HasMedia(r.content) && (r.artifact.Some? ==> IsSpill(r.artifact.value))
    case Assistant(_, calls, reasoning, data) =>
      reasoning.None? && data.None? && forall i :: 0 <= i < |calls| ==> calls[i].providerData.None?
  }

  predicate SafeToSummarize(g: Group) { forall i :: 0 <= i < |g| ==> SafeMessage(g[i]) }

  // ----- Selections: one mark per group -----

  predicate Ascending(selected: seq<nat>, n: nat) {
    && (forall k :: 0 <= k < |selected| ==> selected[k] < n)
    && (forall j, k :: 0 <= j < k < |selected| ==> selected[j] < selected[k])
  }

  function Marks(n: nat, selected: seq<nat>): (marks: seq<bool>)
    ensures |marks| == n && forall i :: 0 <= i < n ==> marks[i] == (i in selected)
  {
    seq(n, i => i in selected)
  }

  function Marked(groups: seq<Group>, marks: seq<bool>): seq<Group>
    requires |groups| == |marks|
  {
    if groups == [] then []
    else (if marks[0] then [groups[0]] else []) + Marked(groups[1..], marks[1..])
  }

  predicate MarksOnlySafe(groups: seq<Group>, marks: seq<bool>) {
    |groups| == |marks| && forall i :: 0 <= i < |groups| ==> marks[i] ==> SafeToSummarize(groups[i])
  }

  lemma {:induction false} MarkedConcat(g: seq<Group>, m: seq<bool>, h: seq<Group>, n: seq<bool>)
    requires |g| == |m| && |h| == |n|
    ensures Marked(g + h, m + n) == Marked(g, m) + Marked(h, n)
    decreases |g|
  {
    if g == [] {
      assert g + h == h && m + n == n;
    } else {
      assert (g + h)[0] == g[0] && (g + h)[1..] == g[1..] + h && (m + n)[1..] == m[1..] + n;
      MarkedConcat(g[1..], m[1..], h, n);
      Assoc(if m[0] then [g[0]] else [], Marked(g[1..], m[1..]), Marked(h, n));
    }
  }

  function SelectedGroups(groups: seq<Group>, selected: seq<nat>): seq<Group>
    requires Ascending(selected, |groups|)
  {
    seq(|selected|, k requires 0 <= k < |selected| => groups[selected[k]])
  }

  /** Marks and an ascending index list name the same groups in the same order. */
  lemma {:induction false} MarkedIsSelected(groups: seq<Group>, selected: seq<nat>)
    requires Ascending(selected, |groups|)
    ensures Marked(groups, Marks(|groups|, selected)) == SelectedGroups(groups, selected)
    decreases |groups|
  {
    if groups == [] {
      NothingBelowZero(selected);
    } else {
      var front, g := groups[..|groups| - 1], groups[|groups| - 1];
      var last, earlier := DropLast(|groups|, selected);
      assert groups == front + [g];
      MarkedIsSelected(front, earlier);
      MarkedConcat(front, Marks(|front|, earlier), [g], [last]);
      assert Marked([g], [last]) == if last then [g] else [];
      assert SelectedGroups(groups, selected) == SelectedGroups(front, earlier) + if last then [g] else [];
    }
  }

  function Head(s: seq<nat>): (h: nat)
    ensures s != [] ==> h in s
  {
    if s == [] then 0 else s[0]
  }

  lemma NothingBelowZero(selected: seq<nat>)
    requires Ascending(selected, 0)
    ensures selected == []
  {
    assert Head(selected) >= 0;
  }

  lemma DropLast(n: nat, selected: seq<nat>) returns (last: bool, earlier: seq<nat>)
    requires n > 0 && Ascending(selected, n)
    ensures Ascending(earlier, n - 1) && selected == earlier + if last then [n - 1] else []
    ensures Marks(n, selected) == Marks(n - 1, earlier) + [last]
  {
    last := selected != [] && selected[|selected| - 1] == n - 1;
    earlier := if last then selected[..|selected| - 1] else selected;
    assert selected == earlier + if last then [n - 1] else [];
    assert n - 1 !in earlier;
    forall i | 0 <= i < n ensures Marks(n, selected)[i] == (Marks(n - 1, earlier) + [last])[i] {
      assert i in selected <==> i in earlier || (last && i == n - 1);
    }
  }

  // ----- Archive references -----

  predicate Less(a: string, b: string) {
    if b == "" then false else if a == "" then true else a[0] < b[0] || (a[0] == b[0] && Less(a[1..], b[1..]))
  }

  lemma {:induction false} LessIsTotal(a: string, b: string)
    ensures Less(a, b) || a == b || Less(b, a)
    ensures !(Less(a, b) && Less(b, a)) && !Less(a, a)
  {
    if a != "" {
      LessIsTotal(a[1..], a[1..]);
      if b != "" {
        LessIsTotal(a[1..], b[1..]);
        assert a == [a[0]] + a[1..] && b == [b[0]] + b[1..];
      }
    }
  }

  lemma {:induction false} LessIsTransitive(a: string, b: string, c: string)
    requires Less(a, b) && Less(b, c)
    ensures Less(a, c)
  {
    if a != "" { if a[0] == b[0] == c[0] { LessIsTransitive(a[1..], b[1..], c[1..]); } }
  }

  predicate StrictlySorted(s: seq<string>) { forall i, j :: 0 <= i < j < |s| ==> Less(s[i], s[j]) }

  /** Insertion into an ordered set of lines. */
  function Insert(s: seq<string>, x: string): seq<string> {
    if s == [] then [x]
    else if s[0] == x then s
    else if Less(x, s[0]) then [x] + s
    else [s[0]] + Insert(s[1..], x)
  }

  lemma SortedCons(x: string, s: seq<string>)
    requires StrictlySorted(s) && forall y :: y in ToSet(s) ==> Less(x, y)
    ensures StrictlySorted([x] + s) && ToSet([x] + s) == {x} + ToSet(s)
  {
    forall j | 0 <= j < |s| ensures Less(x, s[j]) { assert s[j] in ToSet(s); }
  }

  lemma SortedUncons(s: seq<string>)
    requires StrictlySorted(s) && s != []
    ensures StrictlySorted(s[1..]) && ToSet(s) == {s[0]} + ToSet(s[1..])
    ensures forall y :: y in ToSet(s[1..]) ==> Less(s[0], y)
  {
    assert s == [s[0]] + s[1..];
    forall y | y in ToSet(s[1..]) ensures Less(s[0], y) {
      var i :| 0 <= i < |s[1..]| && s[1..][i] == y;
      assert s[i + 1] == y;
    }
  }

  lemma {:induction false} InsertSorted(s: seq<string>, x: string)
    requires StrictlySorted(s)
    ensures StrictlySorted(Insert(s, x)) && ToSet(Insert(s, x)) == ToSet(s) + {x}
  {
    if s != [] && s[0] != x {
      SortedUncons(s);
      LessIsTotal(x, s[0]);
      if Less(x, s[0]) {
        forall y | y in ToSet(s) ensures Less(x, y) { if y != s[0] { LessIsTransitive(x, s[0], y); } }
        SortedCons(x, s);
      } else {
        InsertSorted(s[1..], x);
        SortedCons(s[0], Insert(s[1..], x));
      }
    }
  }

  function SortedSet(lines: seq<string>): seq<string> {
    if lines == [] then [] else Insert(SortedSet(lines[1..]), lines[0])
  }

  lemma {:induction false} SortedSetIs(lines: seq<string>)
    ensures StrictlySorted(SortedSet(lines)) && ToSet(SortedSet(lines)) == ToSet(lines)
  {
    if lines == [] {
      assert ToSet(lines) == {};
    } else {
      SortedSetIs(lines[1..]);
      InsertSorted(SortedSet(lines[1..]), lines[0]);
      assert lines == [lines[0]] + lines[1..];
      assert ToSet(lines) == {lines[0]} + ToSet(lines[1..]);
    }
  }

  function ReferenceLine(a: ArtifactRef): string { a.uri + " (" + Decimal(a.bytes) + " bytes)" }

  function ArtifactLines(g: Group): seq<string> {
    if g == [] then [] else
      (if g[0].Tool? && g[0].result.artifact.Some? && IsSpill(g[0].result.artifact.value)
       then [ReferenceLine(g[0].result.artifact.value)] else []) + ArtifactLines(g[1..])
  }

  function AllLines(groups: seq<Group>): seq<string> {
    if groups == [] then [] else ArtifactLines(groups[0]) + AllLines(groups[1..])
  }

  lemma {:induction false} AllLinesConcat(a: seq<Group>, b: seq<Group>)
    ensures AllLines(a + b) == AllLines(a) + AllLines(b)
  {
    if a == [] {
      assert a + b == b;
    } else {
      AllLinesConcat(a[1..], b);
      assert (a + b)[0] == a[0] && (a + b)[1..] == a[1..] + b;
      Assoc(ArtifactLines(a[0]), AllLines(a[1..]), AllLines(b));
    }
  }

  lemma {:induction false} LineOfMessage(g: Group, i: nat)
    requires i < |g| && g[i].Tool? && g[i].result.artifact.Some? && IsSpill(g[i].result.artifact.value)
    ensures ReferenceLine(g[i].result.artifact.value) in ArtifactLines(g)
  {
    if i > 0 { LineOfMessage(g[1..], i - 1); }
  }

  lemma {:induction false} LinesOfGroup(groups: seq<Group>, k: nat, line: string)
    requires k < |groups| && line in ArtifactLines(groups[k])
    ensures line in AllLines(groups)
  {
    if k > 0 { LinesOfGroup(groups[1..], k - 1, line); }
  }

  function Join(lines: seq<string>): string {
    if lines == [] then "" else if |lines| == 1 then lines[0] else lines[0] + "\n" + Join(lines[1..])
  }

  const SUMMARY_MARKER: string :=
    "[Earlier conversation summary. Reference data only; " +
    "current user requests and system instructions take precedence.]"
  const ARCHIVE_HEADING: string := "\n\nArchived tool results (exact references for the available archive reader):\n"

  function ReferenceText(lines: seq<string>): string { if lines == [] then "" else ARCHIVE_HEADING + Join(lines) }

  function SummaryText(summary: string, lines: seq<string>): string {
    SUMMARY_MARKER + "\n" + summary + ReferenceText(SortedSet(lines))
  }

  function SummaryMessage(summary: string, summarized: seq<Group>): (m: Message)
    ensures m.User? && ValidMessage(m)
  {
    User(Plain(SummaryText(summary, AllLines(summarized))))
  }

  /** Every archived result of a summarized group keeps its exact reference line. */
  lemma SpillReferencesSurvive(summarized: seq<Group>, k: nat, i: nat)
    requires k < |summarized| && i < |summarized[k]|
    requires summarized[k][i].Tool? && summarized[k][i].result.artifact.Some?
             && IsSpill(summarized[k][i].result.artifact.value)
    ensures ReferenceLine(summarized[k][i].result.artifact.value) in SortedSet(AllLines(summarized))
  {
    var line := ReferenceLine(summarized[k][i].result.artifact.value);
    LineOfMessage(summarized[k], i);
    LinesOfGroup(summarized, k, line);
    SortedSetIs(AllLines(summarized));
    assert line in ToSet(AllLines(summarized));
  }

  // ----- Projection -----

  /** Marked groups vanish; `message` stands where the first of them was. */
  function ProjectMarked(groups: seq<Group>, marks: seq<bool>, message: Message, placed: bool): seq<Message>
    requires |groups| == |marks|
    decreases |groups|
  {
    if groups == [] then []
    else if marks[0] then (if placed then [] else [message]) + ProjectMarked(groups[1..], marks[1..], message, true)
    else groups[0] + ProjectMarked(groups[1..], marks[1..], message, placed)
  }

  function Projected(groups: seq<Group>, marks: seq<bool>, summary: string): seq<Message>
    requires |groups| == |marks|
  {
    ProjectMarked(groups, marks, SummaryMessage(summary, Marked(groups, marks)), false)
  }

  lemma {:induction false} ProjectConcat(g: seq<Group>, m: seq<bool>, h: seq<Group>, n: seq<bool>, message: Message,
                                         placed: bool)
    requires |g| == |m| && |h| == |n|
    ensures ProjectMarked(g + h, m + n, message, placed)
         == ProjectMarked(g, m, message, placed) + ProjectMarked(h, n, message, placed || true in m)
    decreases |g|
  {
    if g == [] {
      assert g + h == h && m + n == n;
    } else {
      assert (g + h)[0] == g[0] && (g + h)[1..] == g[1..] + h && (m + n)[1..] == m[1..] + n && (m + n)[0] == m[0];
      assert m == [m[0]] + m[1..];
      ProjectConcat(g[1..], m[1..], h, n, message, placed || m[0]);
      Assoc(if m[0] then (if placed then [] else [message]) else g[0],
            ProjectMarked(g[1..], m[1..], message, placed || m[0]),
            ProjectMarked(h, n, message, placed || true in m));
    }
  }

  lemma {:induction false} NothingMarked(groups: seq<Group>, marks: seq<bool>, message: Message, placed: bool)
    requires |groups| == |marks| && true !in marks
    ensures ProjectMarked(groups, marks, message, placed) == Flatten(groups)
    ensures Marked(groups, marks) == []
    decreases |groups|
  {
    if groups != [] { NothingMarked(groups[1..], marks[1..], message, placed); }
  }

  method CollectLines(groups: seq<Group>, selected: seq<nat>) returns (lines: seq<string>)
    requires Ascending(selected, |groups|)
    ensures lines == AllLines(Marked(groups, Marks(|groups|, selected)))
  {
    ghost var all := SelectedGroups(groups, selected);
    lines := [];
    for k := 0 to |selected|
      invariant lines == AllLines(all[..k])
    {
      assert all[..k + 1] == all[..k] + [groups[selected[k]]];
      AllLinesConcat(all[..k], [groups[selected[k]]]);
      assert AllLines([groups[selected[k]]]) == ArtifactLines(groups[selected[k]]) + [];
      lines := lines + ArtifactLines(groups[selected[k]]);
    }
    MarkedIsSelected(groups, selected);
    assert all[..|selected|] == all;
  }

  /** `project`: one pass over the groups with an index list. */
  method ProjectGroups(groups: seq<Group>, selected: seq<nat>, summary: string) returns (projected: seq<Message>)
    requires Ascending(selected, |groups|)
    ensures projected == Projected(groups, Marks(|groups|, selected), summary)
  {
    hide SummaryText;
    var lines := CollectLines(groups, selected);
    var message := User(Plain(SummaryText(summary, lines)));
    ghost var marks := Marks(|groups|, selected);
    projected := [];
    for index := 0 to |groups|
      invariant projected == ProjectMarked(groups[..index], marks[..index], message, false)
    {
      OneMoreProjected(groups, marks, index, message);
      FirstMark(|groups|, selected, index);
      if selected != [] && selected[0] == index {
        projected := projected + [message];
      }
      if index !in selected {
        projected := projected + groups[index];
      }
    }
    assert groups[..|groups|] == groups && marks[..|groups|] == marks;
  }

  lemma OneMoreProjected(groups: seq<Group>, marks: seq<bool>, index: nat, message: Message)
    requires |groups| == |marks| && index < |groups|
    ensures ProjectMarked(groups[..index + 1], marks[..index + 1], message, false)
         == ProjectMarked(groups[..index], marks[..index], message, false)
            + if marks[index] then (if true in marks[..index] then [] else [message]) else groups[index]
  {
    var g, m := groups[index], marks[index];
    assert groups[..index + 1] == groups[..index] + [g] && marks[..index + 1] == marks[..index] + [m];
    ProjectConcat(groups[..index], marks[..index], [g], [m], message, false);
  }

  lemma FirstMark(n: nat, selected: seq<nat>, index: nat)
    requires Ascending(selected, n) && index < n
    ensures (selected != [] && selected[0] == index)
            <==> (Marks(n, selected)[index] && true !in Marks(n, selected)[..index])
  {
    var marks := Marks(n, selected);
    if marks[index] && selected[0] != index {
      assert selected[0] < index && marks[..index][selected[0]];
    }
  }

  // ----- What a projection keeps -----

  /** Once the summary stands, only the unselected groups follow, verbatim and in order. */
  lemma {:induction false} AfterSummary(groups: seq<Group>, marks: seq<bool>, message: Message)
    requires |groups| == |marks|
    ensures ProjectMarked(groups, marks, message, true) == Flatten(Marked(groups, Complement(marks)))
    decreases |groups|
  {
    if groups != [] {
      AfterSummary(groups[1..], marks[1..], message);
      assert Complement(marks)[1..] == Complement(marks[1..]);
      if marks[0] {
        assert ProjectMarked(groups, marks, message, true)
          == [] + ProjectMarked(groups[1..], marks[1..], message, true);
        var later := Marked(groups[1..], Complement(marks[1..]));
        assert Marked(groups, Complement(marks)) == [] + later && [] + later == later;
      } else {
        KeepOne(groups[0], Marked(groups[1..], Complement(marks[1..])));
      }
    }
  }

  /** The summary stands exactly where the first selected group stood; every unselected group survives
      verbatim, in order, on its own side of it. */
  lemma SummaryTakesFirstPlace(groups: seq<Group>, marks: seq<bool>, summary: string, first: nat)
    requires |groups| == |marks| && first < |groups| && marks[first] && true !in marks[..first]
    ensures Projected(groups, marks, summary)
         == Flatten(groups[..first]) + [SummaryMessage(summary, Marked(groups, marks))]
            + Flatten(Marked(groups[first + 1..], Complement(marks[first + 1..])))
  {
    hide SummaryMessage;
    var message := SummaryMessage(summary, Marked(groups, marks));
    var (g, m) := (groups[first..], marks[first..]);
    assert groups == groups[..first] + g && marks == marks[..first] + m;
    ProjectConcat(groups[..first], marks[..first], g, m, message, false);
    NothingMarked(groups[..first], marks[..first], message, false);
    assert g[1..] == groups[first + 1..] && m[1..] == marks[first + 1..];
    AfterSummary(g[1..], m[1..], message);
    Assoc(Flatten(groups[..first]), [message], ProjectMarked(g[1..], m[1..], message, true));
  }

  lemma KeepOne(g: Group, rest: seq<Group>)
    ensures Flatten([g] + rest) == g + Flatten(rest)
  {
    assert ([g] + rest)[1..] == rest;
  }

  function Complement(marks: seq<bool>): (c: seq<bool>)
    ensures |c| == |marks| && forall i :: 0 <= i < |c| ==> c[i] == !marks[i]
  {
    seq(|marks|, i requires 0 <= i < |marks| => !marks[i])
  }

  /** The projection's own groups: the survivors and, for a nonempty selection, the summary. */
  function ProjectedGroups(groups: seq<Group>, marks: seq<bool>, message: Message, placed: bool): seq<Group>
    requires |groups| == |marks|
    decreases |groups|
  {
    if groups == [] then []
    else (if marks[0] then (if placed then [] else [[message]]) else [groups[0]])
         + ProjectedGroups(groups[1..], marks[1..], message, placed || marks[0])
  }

  lemma {:induction false} ProjectionRegroups(groups: seq<Group>, marks: seq<bool>, message: Message, placed: bool)
    requires |groups| == |marks| && AllGroups(groups) && message.User?
    ensures AllGroups(ProjectedGroups(groups, marks, message, placed))
    ensures Flatten(ProjectedGroups(groups, marks, message, placed)) == ProjectMarked(groups, marks, message, placed)
    decreases |groups|
  {
    if groups != [] {
      ProjectionRegroups(groups[1..], marks[1..], message, placed || marks[0]);
      var rest := ProjectedGroups(groups[1..], marks[1..], message, placed || marks[0]);
      if !marks[0] {
        KeepOne(groups[0], rest);
      } else if !placed {
        KeepOne([message], rest);
      } else {
        assert [] + rest == rest;
      }
    }
  }

  /** Dropping whole groups only ever drops call ids. */
  lemma {:induction false} ProjectionKeepsIdOrder(groups: seq<Group>, marks: seq<bool>, message: Message, placed: bool)
    requires |groups| == |marks| && !message.Assistant?
    requires Distinct(AllCallIds(Flatten(groups)))
    ensures Distinct(AllCallIds(ProjectMarked(groups, marks, message, placed)))
    ensures ToSet(AllCallIds(ProjectMarked(groups, marks, message, placed))) <= ToSet(AllCallIds(Flatten(groups)))
    decreases |groups|
  {
    if groups != [] {
      var rest := ProjectMarked(groups[1..], marks[1..], message, placed || marks[0]);
      var tail := Flatten(groups[1..]);
      AllCallIdsConcat(groups[0], tail);
      DistinctParts(AllCallIds(groups[0]), AllCallIds(tail));
      ProjectionKeepsIdOrder(groups[1..], marks[1..], message, placed || marks[0]);
      if !marks[0] {
        AllCallIdsConcat(groups[0], rest);
        DistinctParts(AllCallIds(groups[0]), AllCallIds(rest));
      } else {
        assert AllCallIds([message]) == [];
        AllCallIdsConcat([message], rest);
        assert [] + AllCallIds(rest) == AllCallIds(rest) && [] + rest == rest;
      }
    }
  }

  predicate AllValid(messages: seq<Message>) { forall i :: 0 <= i < |messages| ==> ValidMessage(messages[i]) }

  lemma AllValidParts(a: seq<Message>, b: seq<Message>)
    ensures AllValid(a + b) <==> AllValid(a) && AllValid(b)
  {
    assert forall i :: 0 <= i < |a| ==> (a + b)[i] == a[i];
    assert forall i :: 0 <= i < |b| ==> (a + b)[|a| + i] == b[i];
  }

  lemma {:induction false} ProjectionKeepsValidity(groups: seq<Group>, marks: seq<bool>, message: Message, placed: bool)
    requires |groups| == |marks| && ValidMessage(message) && AllValid(Flatten(groups))
    ensures AllValid(ProjectMarked(groups, marks, message, placed))
    decreases |groups|
  {
    if groups != [] {
      var rest := ProjectMarked(groups[1..], marks[1..], message, placed || marks[0]);
      AllValidParts(groups[0], Flatten(groups[1..]));
      ProjectionKeepsValidity(groups[1..], marks[1..], message, placed || marks[0]);
      AllValidParts(if marks[0] then (if placed then [] else [message]) else groups[0], rest);
    }
  }

  lemma ProjectionIsNonempty(groups: seq<Group>, marks: seq<bool>, message: Message)
    requires |groups| == |marks| && groups != [] && AllGroups(groups)
    ensures ProjectMarked(groups, marks, message, false) != []
  {
    assert groups[0] != [];
  }

  /** Any projection of an accepted history is accepted again. */
  lemma ProjectionStaysPaired(groups: seq<Group>, marks: seq<bool>, summary: string)
    requires |groups| == |marks| && AllGroups(groups) && WellPaired(Flatten(groups))
    ensures WellPaired(Projected(groups, marks, summary))
  {
    hide SummaryMessage;
    var message := SummaryMessage(summary, Marked(groups, marks));
    ProjectMarkedStaysPaired(groups, marks, message);
  }

  lemma ProjectMarkedStaysPaired(groups: seq<Group>, marks: seq<bool>, message: Message)
    requires |groups| == |marks| && AllGroups(groups) && WellPaired(Flatten(groups))
    requires message.User? && ValidMessage(message)
    ensures WellPaired(ProjectMarked(groups, marks, message, false))
  {
    var p := ProjectMarked(groups, marks, message, false);
    var regrouped := ProjectedGroups(groups, marks, message, false);
    ProjectionRegroups(groups, marks, message, false);
    assert AllGroups(regrouped) && Flatten(regrouped) == p;
    ProjectionKeepsIdOrder(groups, marks, message, false);
    assert AllValid(Flatten(groups));
    ProjectionKeepsValidity(groups, marks, message, false);
    ProjectionIsNonempty(groups, marks, message);
    assert "" in AllCallIds(p) ==> "" in ToSet(AllCallIds(p));
  }

  // ----- The text of a summary -----

  lemma {:induction false} LineIsJoined(lines: seq<string>, k: nat) returns (before: string, after: string)
    requires k < |lines|
    ensures Join(lines) == before + lines[k] + after
    decreases |lines|
  {
    if |lines| == 1 {
      before, after := "", "";
      assert "" + lines[0] + "" == lines[0];
    } else if k == 0 {
      before, after := "", "\n" + Join(lines[1..]);
      assert "" + lines[0] + after == Join(lines);
    } else {
      var front, rest := LineIsJoined(lines[1..], k - 1);
      before, after := lines[0] + "\n" + front, rest;
      assert Join(lines) == lines[0] + "\n" + (front + lines[k] + rest);
    }
  }

  /** The message that stands for summarized groups says so, carries the handoff whole, and names every archived result
      of theirs by its reference. */
  lemma SummaryNamesItsArchive(summary: string, summarized: seq<Group>, k: nat, i: nat)
    returns (before: string, after: string)
    requires k < |summarized| && i < |summarized[k]|
    requires summarized[k][i].Tool? && summarized[k][i].result.artifact.Some?
             && IsSpill(summarized[k][i].result.artifact.value)
    ensures SummaryMessage(summary, summarized)
         == User(Plain(SUMMARY_MARKER + "\n" + summary + before + summarized[k][i].result.artifact.value.uri + after))
  {
    hide SortedSet, AllLines, ReferenceText;
    var lines := SortedSet(AllLines(summarized));
    var artifact := summarized[k][i].result.artifact.value;
    SpillReferencesSurvive(summarized, k, i);
    var n :| 0 <= n < |lines| && lines[n] == ReferenceLine(artifact);
    var front, rest := LineIsJoined(lines, n);
    before, after := ARCHIVE_HEADING + front, " (" + Decimal(artifact.bytes) + " bytes)" + rest;
    assert ReferenceText(lines) == ARCHIVE_HEADING + (front + ReferenceLine(artifact) + rest) by {
      ReferenceTextIs(lines);
    }
    Regroup(SUMMARY_MARKER + "\n" + summary, front, artifact.uri, rest, Decimal(artifact.bytes));
  }

  lemma ReferenceTextIs(lines: seq<string>)
    requires lines != []
    ensures ReferenceText(lines) == ARCHIVE_HEADING + Join(lines)
  {
  }

  lemma Regroup(head: string, front: string, uri: string, rest: string, bytes: string)
    ensures head + (ARCHIVE_HEADING + (front + (uri + " (" + bytes + " bytes)") + rest))
         == head + (ARCHIVE_HEADING + front) + uri + (" (" + bytes + " bytes)" + rest)
  {
  }
}
