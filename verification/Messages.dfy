/** Model-visible messages and the pairing rules every history must meet. */
module Messages {
  import opened Text
  import Base64

  // ----- Content -----

  datatype ArtifactRef = ArtifactRef(uri: string, bytes: nat)

  datatype ImageSource = Inline(data: string) | Url(url: string)

  datatype ContentBlock =
    | TextBlock(text: string)
    | Image(mediaType: string, source: ImageSource)
    | Resource(reference: ArtifactRef, mediaType: string, name: Option<string>)

  datatype Content = Plain(text: string) | Blocks(blocks: seq<ContentBlock>)

  predicate HasMedia(c: Content) {
    c.Blocks? && exists i :: 0 <= i < |c.blocks| && !c.blocks[i].TextBlock?
  }

  predicate ValidArtifact(a: ArtifactRef) { a.uri != "" && Len(a.uri) <= 4096 && !AnyControl(a.uri) }

  predicate ValidSource(s: ImageSource) {
    match s
    case Inline(data) => Base64.ValidBase64(Encode(data))
    case Url(url) =>
      Len(url) <= 4096 && "https://" <= url && (forall i :: 0 <= i < |url| ==> !IsWhitespace(url[i])) && '#' !in url
  }

  predicate ValidBlock(b: ContentBlock) {
    match b
    case TextBlock(_) => true
    case Image(mediaType, source) =>
      mediaType in {"image/png", "image/jpeg", "image/webp", "image/gif"} && ValidSource(source)
    case Resource(reference, mediaType, name) =>
      ValidArtifact(reference) && mediaType != "" && Len(mediaType) <= 128 && (name.Some? ==> Len(name.value) <= 256)
  }

  predicate ValidContent(c: Content) {
    c.Blocks? ==> 1 <= |c.blocks| <= 128 && forall i :: 0 <= i < |c.blocks| ==> ValidBlock(c.blocks[i])
  }

  // ----- Messages -----

  const MAX_PROVIDER_DATA_BYTES: nat := 64 * 1024

  /** JSON values are carried as their serialized text. */
  datatype ProviderData = ProviderData(scope: string, value: string)

  predicate ValidProviderData(d: ProviderData) {
    && d.scope != "" && Len(d.scope) <= 128
    && (forall i :: 0 <= i < |d.scope| ==> IsAsciiAlphanumeric(d.scope[i]) || d.scope[i] in ['.', '_', '-'])
    && Len(d.value) <= MAX_PROVIDER_DATA_BYTES
  }

  datatype ToolCall = ToolCall(id: string, name: string, arguments: string, providerData: Option<ProviderData>)

  datatype ToolStatus = Success | Error | Denied | Skipped | Unknown

  datatype ToolResult = ToolResult(callId: string, status: ToolStatus, content: Content, structured: Option<string>,
                                   truncated: bool, originalBytes: nat, artifact: Option<ArtifactRef>)

  datatype Message =
    | System(content: string)
    | User(input: Content)
    | Assistant(reply: string, toolCalls: seq<ToolCall>, reasoning: Option<string>, providerData: Option<ProviderData>)
    | Tool(result: ToolResult)

  predicate ValidMessage(m: Message) {
    match m
    case System(_) => true
    case User(input) => ValidContent(input)
    case Tool(result) =>
      && ValidContent(result.content)
      && (result.artifact.Some? ==> ValidArtifact(result.artifact.value))
    case Assistant(_, calls, _, data) =>
      && (data.Some? ==> ValidProviderData(data.value))
      && forall i :: 0 <= i < |calls| ==> calls[i].providerData.Some? ==> ValidProviderData(calls[i].providerData.value)
  }

  function CallIds(calls: seq<ToolCall>): (ids: seq<string>)
    ensures |ids| == |calls|
    ensures forall i :: 0 <= i < |calls| ==> ids[i] == calls[i].id
  {
    seq(|calls|, i requires 0 <= i < |calls| => calls[i].id)
  }

  predicate Distinct<T(==)>(s: seq<T>) { forall i, j :: 0 <= i < j < |s| ==> s[i] != s[j] }

  // ----- Tool batches -----

  /** An assistant turn with its calls, followed by exactly one result for each call, in any order. */
  predicate IsBatch(batch: seq<Message>) {
    && batch != [] && batch[0].Assistant? && batch[0].toolCalls != []
    && Distinct(CallIds(batch[0].toolCalls))
    && |batch| == 1 + |batch[0].toolCalls|
    && (forall i :: 1 <= i < |batch| ==> batch[i].Tool? && batch[i].result.callId in CallIds(batch[0].toolCalls))
    && (forall i, j :: 1 <= i < j < |batch| ==> batch[i].result.callId != batch[j].result.callId)
  }

  predicate StandsAlone(m: Message) { m.System? || m.User? || (m.Assistant? && m.toolCalls == []) }

  /** A settled unit of history. */
  predicate IsGroup(g: seq<Message>) { IsBatch(g) || (|g| == 1 && StandsAlone(g[0])) }

  function Flatten<T>(groups: seq<seq<T>>): seq<T> {
    if groups == [] then [] else groups[0] + Flatten(groups[1..])
  }

  lemma {:induction false} FlattenConcat<T>(a: seq<seq<T>>, b: seq<seq<T>>)
    ensures Flatten(a + b) == Flatten(a) + Flatten(b)
  {
    if a == [] {
      assert a + b == b;
    } else {
      FlattenConcat(a[1..], b);
      assert (a + b)[0] == a[0] && (a + b)[1..] == a[1..] + b;
      Assoc(a[0], Flatten(a[1..]), Flatten(b));
    }
  }

  predicate AllGroups(groups: seq<seq<Message>>) { forall i :: 0 <= i < |groups| ==> IsGroup(groups[i]) }

  /** Every tool-call id of a history, in order. */
  function AllCallIds(messages: seq<Message>): seq<string> {
    if messages == [] then []
    else (if messages[0].Assistant? then CallIds(messages[0].toolCalls) else []) + AllCallIds(messages[1..])
  }

  lemma {:induction false} AllCallIdsConcat(a: seq<Message>, b: seq<Message>)
    ensures AllCallIds(a + b) == AllCallIds(a) + AllCallIds(b)
  {
    if a == [] {
      assert a + b == b;
    } else {
      AllCallIdsConcat(a[1..], b);
      assert (a + b)[1..] == a[1..] + b;
    }
  }

  /** The histories the source promises to accept: settled groups of valid messages whose call ids are
      nonempty and never repeat. */
  ghost predicate WellPaired(messages: seq<Message>) {
    && messages != []
    && (forall i :: 0 <= i < |messages| ==> ValidMessage(messages[i]))
    && (exists groups :: AllGroups(groups) && Flatten(groups) == messages)
    && Distinct(AllCallIds(messages)) && "" !in AllCallIds(messages)
  }

  // ----- The validator -----

  datatype Pairing = Pairing(pending: set<string>, seen: set<string>)

  /** Enter the calls of one assistant turn, one at a time. */
  function EnterCalls(p: Pairing, ids: seq<string>): Option<Pairing>
    decreases |ids|
  {
    if ids == [] then Some(p)
    else if ids[0] == "" || ids[0] in p.seen then None
    else EnterCalls(Pairing(p.pending + {ids[0]}, p.seen + {ids[0]}), ids[1..])
  }

  function PairingStep(p: Pairing, m: Message): Option<Pairing> {
    if !ValidMessage(m) then None else
      match m
      case Tool(result) => if result.callId in p.pending then Some(p.(pending := p.pending - {result.callId})) else None
      case Assistant(_, calls, _, _) => if p.pending != {} then None else EnterCalls(p, CallIds(calls))
      case _ => if p.pending != {} then None else Some(p)
  }

  function Scan(p: Pairing, messages: seq<Message>): Option<Pairing>
    decreases |messages|
  {
    if messages == [] then Some(p) else
      var next := PairingStep(p, messages[0]);
      if next.None? then None else Scan(next.value, messages[1..])
  }

  predicate Accepts(messages: seq<Message>) {
    messages != [] && var end := Scan(Pairing({}, {}), messages); end.Some? && end.value.pending == {}
  }

  lemma {:induction false} ScanConcat(p: Pairing, a: seq<Message>, b: seq<Message>)
    ensures Scan(p, a + b) == if Scan(p, a).None? then None else Scan(Scan(p, a).value, b)
    decreases |a|
  {
    if a == [] {
      assert a + b == b;
    } else {
      assert (a + b)[1..] == a[1..] + b;
      var next := PairingStep(p, a[0]);
      if next.Some? { ScanConcat(next.value, a[1..], b); }
    }
  }

  /** `validate_messages`: one pass over two mutable sets. */
  method ValidateMessages(messages: seq<Message>) returns (ok: bool)
    ensures ok <==> Accepts(messages)
    ensures ok <==> WellPaired(messages)
  {
    AcceptsIffWellPaired(messages);
    if messages == [] { return false; }
    var pending: set<string>, seen: set<string> := {}, {};
    var k := 0;
    while k < |messages|
      invariant k <= |messages|
      invariant Scan(Pairing({}, {}), messages) == Scan(Pairing(pending, seen), messages[k..])
    {
      var m := messages[k];
      assert messages[k..][0] == m && messages[k..][1..] == messages[k + 1..];
      if !ValidMessage(m) { return false; }
      match m {
        case Tool(result) =>
          if result.callId !in pending { return false; }
          pending := pending - {result.callId};
        case Assistant(_, calls, _, _) =>
          if pending != {} { return false; }
          ghost var start := Pairing(pending, seen);
          var ids := CallIds(calls);
          var i := 0;
          while i < |ids|
            invariant i <= |ids|
            invariant EnterCalls(start, ids) == EnterCalls(Pairing(pending, seen), ids[i..])
          {
            assert ids[i..][0] == ids[i] && ids[i..][1..] == ids[i + 1..];
            if ids[i] == "" || ids[i] in seen { return false; }
            seen := seen + {ids[i]};
            pending := pending + {ids[i]};
            i := i + 1;
          }
        case _ =>
          if pending != {} { return false; }
      }
      k := k + 1;
    }
    ok := pending == {};
  }

  // ----- The validator accepts exactly the well-paired histories -----

  function ToSet<T(==)>(s: seq<T>): set<T> { set x | x in s }

  lemma {:induction false} EnterCallsIff(p: Pairing, ids: seq<string>)
    ensures EnterCalls(p, ids).Some? <==> Distinct(ids) && "" !in ids && ToSet(ids) !! p.seen
    ensures EnterCalls(p, ids).Some? ==>
              EnterCalls(p, ids).value == Pairing(p.pending + ToSet(ids), p.seen + ToSet(ids))
    decreases |ids|
  {
    if ids != [] {
      var rest := ids[1..];
      assert ids == [ids[0]] + rest;
      assert ToSet(ids) == {ids[0]} + ToSet(rest);
      EnterCallsIff(Pairing(p.pending + {ids[0]}, p.seen + {ids[0]}), rest);
      if Distinct(ids) { assert ids[0] !in rest; }
      if ids[0] !in rest && Distinct(rest) {
        forall i, j | 0 <= i < j < |ids| ensures ids[i] != ids[j] {
          if i == 0 { assert ids[j] == rest[j - 1]; } else { assert ids[i] == rest[i - 1] && ids[j] == rest[j - 1]; }
        }
      }
    } else {
      assert ToSet(ids) == {};
    }
  }

  /** Results for a batch: distinct ids out of `pending`. */
  predicate SettlesFrom(results: seq<Message>, pending: set<string>) {
    && (forall i :: 0 <= i < |results| ==> results[i].Tool? && results[i].result.callId in pending)
    && (forall i, j :: 0 <= i < j < |results| ==> results[i].result.callId != results[j].result.callId)
  }

  function ResultIds(results: seq<Message>): (ids: set<string>)
    requires forall i :: 0 <= i < |results| ==> results[i].Tool?
  {
    set i | 0 <= i < |results| :: results[i].result.callId
  }

  lemma {:induction false} ScanResults(p: Pairing, results: seq<Message>)
    requires forall i :: 0 <= i < |results| ==> results[i].Tool?
    ensures Scan(p, results).Some? <==>
              SettlesFrom(results, p.pending) && forall i :: 0 <= i < |results| ==> ValidMessage(results[i])
    ensures Scan(p, results).Some? ==>
              Scan(p, results).value == Pairing(p.pending - ResultIds(results), p.seen)
    decreases |results|
  {
    if results == [] {
      assert ResultIds(results) == {};
    } else {
      var id := results[0].result.callId;
      var rest := results[1..];
      assert forall i :: 0 < i < |results| ==> results[i] == rest[i - 1];
      assert ResultIds(results) == {id} + ResultIds(rest) by {
        forall x | x in ResultIds(results) ensures x in {id} + ResultIds(rest) {
          var i :| 0 <= i < |results| && x == results[i].result.callId;
          if i > 0 { assert rest[i - 1].result.callId == x; }
        }
        forall x | x in ResultIds(rest) ensures x in ResultIds(results) {
          var i :| 0 <= i < |rest| && x == rest[i].result.callId;
          assert results[i + 1].result.callId == x;
        }
      }
      var next := p.(pending := p.pending - {id});
      if PairingStep(p, results[0]).Some? {
        ScanResults(next, rest);
        if Scan(next, rest).Some? { SettlesCons(results, p.pending); }
        assert p.pending - ResultIds(results) == next.pending - ResultIds(rest);
      }
      if SettlesFrom(results, p.pending) {
        forall i | 0 <= i < |rest| ensures rest[i].Tool? && rest[i].result.callId in next.pending {
          assert rest[i] == results[i + 1];
        }
        assert SettlesFrom(rest, next.pending);
      }
    }
  }

  lemma SettlesCons(results: seq<Message>, pending: set<string>)
    requires results != [] && results[0].Tool? && results[0].result.callId in pending
    requires SettlesFrom(results[1..], pending - {results[0].result.callId})
    ensures SettlesFrom(results, pending)
  {
    var rest := results[1..];
    assert forall i :: 0 < i < |results| ==> results[i] == rest[i - 1];
  }

  lemma {:induction false} DistinctSize<T>(s: seq<T>)
    requires Distinct(s)
    ensures |ToSet(s)| == |s|
  {
    if s == [] {
      assert ToSet(s) == {};
    } else {
      DistinctSize(s[1..]);
      assert s == [s[0]] + s[1..];
      assert ToSet(s) == {s[0]} + ToSet(s[1..]);
    }
  }

  lemma SubsetOfSameSize<T>(a: set<T>, b: set<T>)
    requires a <= b && |a| == |b|
    ensures a == b
  {
    assert |b - a| == |b| - |a|;
  }

  lemma {:induction false} ResultIdsSize(results: seq<Message>, pending: set<string>)
    requires SettlesFrom(results, pending)
    ensures ResultIds(results) <= pending && |ResultIds(results)| == |results|
  {
    var ids := seq(|results|, i requires 0 <= i < |results| && results[i].Tool? => results[i].result.callId);
    assert Distinct(ids);
    DistinctSize(ids);
    assert ToSet(ids) == ResultIds(results) by {
      forall x | x in ResultIds(results) ensures x in ToSet(ids) {
        var i :| 0 <= i < |results| && x == results[i].result.callId;
        assert ids[i] == x;
      }
    }
  }

  lemma AllCallIdsOfResults(results: seq<Message>)
    requires forall i :: 0 <= i < |results| ==> results[i].Tool?
    ensures AllCallIds(results) == []
  {
  }

  lemma BatchCallIds(g: seq<Message>)
    requires IsBatch(g)
    ensures AllCallIds(g) == CallIds(g[0].toolCalls)
  {
    AllCallIdsOfResults(g[1..]);
    assert CallIds(g[0].toolCalls) + [] == CallIds(g[0].toolCalls);
  }

  lemma ScanBatch(seen: set<string>, g: seq<Message>)
    requires IsBatch(g) && forall i :: 0 <= i < |g| ==> ValidMessage(g[i])
    requires "" !in CallIds(g[0].toolCalls) && ToSet(CallIds(g[0].toolCalls)) !! seen
    ensures Scan(Pairing({}, seen), g) == Some(Pairing({}, seen + ToSet(CallIds(g[0].toolCalls))))
  {
    var ids := CallIds(g[0].toolCalls);
    EnterCallsIff(Pairing({}, seen), ids);
    var entered := Pairing({} + ToSet(ids), seen + ToSet(ids));
    BatchResults(entered, g);
  }

  lemma BatchResults(entered: Pairing, g: seq<Message>)
    requires IsBatch(g) && forall i :: 0 <= i < |g| ==> ValidMessage(g[i])
    requires entered.pending == ToSet(CallIds(g[0].toolCalls))
    ensures Scan(entered, g[1..]) == Some(Pairing({}, entered.seen))
  {
    var ids := CallIds(g[0].toolCalls);
    var results := g[1..];
    assert forall i :: 0 <= i < |results| ==> results[i] == g[i + 1];
    ScanResults(entered, results);
    ResultIdsSize(results, entered.pending);
    DistinctSize(ids);
    SubsetOfSameSize(ResultIds(results), entered.pending);
    assert entered.pending - ResultIds(results) == {};
  }

  /** Scanning one settled group enters its ids and leaves nothing pending. */
  lemma ScanGroup(seen: set<string>, g: seq<Message>)
    requires IsGroup(g) && forall i :: 0 <= i < |g| ==> ValidMessage(g[i])
    requires "" !in AllCallIds(g) && ToSet(AllCallIds(g)) !! seen
    ensures Scan(Pairing({}, seen), g) == Some(Pairing({}, seen + ToSet(AllCallIds(g))))
  {
    if IsBatch(g) {
      BatchCallIds(g);
      ScanBatch(seen, g);
    } else {
      var p := Pairing({}, seen);
      assert g == [g[0]] && g[1..] == [];
      if g[0].Assistant? { assert CallIds(g[0].toolCalls) == []; }
      assert AllCallIds(g) == [] && seen + ToSet(AllCallIds(g)) == seen;
      assert PairingStep(p, g[0]) == Some(p);
    }
  }

  lemma DistinctParts<T>(a: seq<T>, b: seq<T>)
    ensures Distinct(a + b) <==> Distinct(a) && Distinct(b) && ToSet(a) !! ToSet(b)
    ensures ToSet(a + b) == ToSet(a) + ToSet(b)
  {
    var s := a + b;
    assert forall i :: 0 <= i < |b| ==> s[|a| + i] == b[i];
    if Distinct(s) {
      forall x | x in ToSet(a) ensures x !in ToSet(b) {
        var i :| 0 <= i < |a| && a[i] == x;
        assert s[i] == x;
      }
      forall i, j | 0 <= i < j < |b| ensures b[i] != b[j] { assert s[|a| + i] != s[|a| + j]; }
      forall i, j | 0 <= i < j < |a| ensures a[i] != a[j] { assert s[i] != s[j]; }
    }
    if Distinct(a) && Distinct(b) && ToSet(a) !! ToSet(b) {
      forall i, j | 0 <= i < j < |s| ensures s[i] != s[j] {
        if i < |a| <= j { assert s[i] in ToSet(a) && s[j] in ToSet(b); }
      }
    }
  }

  lemma {:induction false} ScanGroups(seen: set<string>, groups: seq<seq<Message>>)
    requires AllGroups(groups)
    requires var m := Flatten(groups);
      (forall i :: 0 <= i < |m| ==> ValidMessage(m[i])) && Distinct(AllCallIds(m)) && "" !in AllCallIds(m)
      && ToSet(AllCallIds(m)) !! seen
    ensures Scan(Pairing({}, seen), Flatten(groups)) == Some(Pairing({}, seen + ToSet(AllCallIds(Flatten(groups)))))
    decreases |groups|
  {
    if groups == [] {
      assert AllCallIds(Flatten(groups)) == [];
      assert seen + ToSet<string>([]) == seen;
    } else {
      var g, rest := groups[0], Flatten(groups[1..]);
      assert g + rest == Flatten(groups);
      FreshParts(seen, g, rest);
      hide Scan, Distinct, ToSet, AllCallIds, IsGroup;
      ScanGroup(seen, g);
      ScanGroups(seen + ToSet(AllCallIds(g)), groups[1..]);
      ScanConcat(Pairing({}, seen), g, rest);
    }
  }

  /** What holds of a history's call ids holds of its first group and of the rest. */
  lemma FreshParts(seen: set<string>, g: seq<Message>, rest: seq<Message>)
    requires forall i :: 0 <= i < |g + rest| ==> ValidMessage((g + rest)[i])
    requires var ids := AllCallIds(g + rest); Distinct(ids) && "" !in ids && ToSet(ids) !! seen
    ensures (forall i :: 0 <= i < |g| ==> ValidMessage(g[i])) && (forall i :: 0 <= i < |rest| ==> ValidMessage(rest[i]))
    ensures "" !in AllCallIds(g) && "" !in AllCallIds(rest) && Distinct(AllCallIds(rest))
    ensures ToSet(AllCallIds(g)) !! seen && ToSet(AllCallIds(rest)) !! seen + ToSet(AllCallIds(g))
    ensures seen + ToSet(AllCallIds(g)) + ToSet(AllCallIds(rest)) == seen + ToSet(AllCallIds(g + rest))
  {
    hide ValidMessage;
    var m := g + rest;
    AllCallIdsConcat(g, rest);
    DistinctParts(AllCallIds(g), AllCallIds(rest));
    assert forall i :: 0 <= i < |g| ==> m[i] == g[i];
    assert forall i :: 0 <= i < |rest| ==> m[|g| + i] == rest[i];
  }

  /** An open batch must be settled by the very next messages. */
  lemma {:induction false} OpenBatchSettles(p: Pairing, rest: seq<Message>)
    requires Scan(p, rest).Some? && Scan(p, rest).value.pending == {}
    ensures |p.pending| <= |rest|
    ensures forall i :: 0 <= i < |p.pending| ==> rest[i].Tool?
    ensures Scan(p, rest[..|p.pending|]).Some?
    decreases |p.pending|
  {
    var n := |p.pending|;
    if p.pending == {} {
      assert rest[..n] == [];
    } else {
      assert rest != [] && rest[0].Tool?;
      var next := PairingStep(p, rest[0]).value;
      assert |next.pending| == n - 1;
      OpenBatchSettles(next, rest[1..]);
      assert rest[..n][1..] == rest[1..][..n - 1];
      assert forall i :: 0 < i < n ==> rest[i] == rest[1..][i - 1];
    }
  }

  /** What any successful scan has entered. */
  lemma {:induction false} ScanEnters(p: Pairing, messages: seq<Message>)
    requires Scan(p, messages).Some?
    ensures forall i :: 0 <= i < |messages| ==> ValidMessage(messages[i])
    ensures Distinct(AllCallIds(messages)) && "" !in AllCallIds(messages) && ToSet(AllCallIds(messages)) !! p.seen
    decreases |messages|
  {
    if messages != [] {
      var m, rest := messages[0], messages[1..];
      var next := PairingStep(p, m).value;
      ScanEnters(next, rest);
      assert forall i :: 0 < i < |messages| ==> messages[i] == rest[i - 1];
      if m.Assistant? {
        var ids := CallIds(m.toolCalls);
        EnterCallsIff(p, ids);
        DistinctParts(ids, AllCallIds(rest));
      } else {
        assert [] + AllCallIds(rest) == AllCallIds(rest);
      }
    }
  }

  /** An accepted assistant turn with calls is followed by its whole batch. */
  lemma BatchComesWhole(seen: set<string>, messages: seq<Message>) returns (after: set<string>)
    requires messages != [] && messages[0].Assistant? && messages[0].toolCalls != []
    requires Scan(Pairing({}, seen), messages).Some? && Scan(Pairing({}, seen), messages).value.pending == {}
    ensures var n := 1 + |messages[0].toolCalls|;
      n <= |messages| && IsBatch(messages[..n])
      && Scan(Pairing({}, after), messages[n..]) == Scan(Pairing({}, seen), messages)
  {
    var ids := CallIds(messages[0].toolCalls);
    EnterCallsIff(Pairing({}, seen), ids);
    DistinctSize(ids);
    var entered := Pairing({} + ToSet(ids), seen + ToSet(ids));
    assert PairingStep(Pairing({}, seen), messages[0]) == Some(entered);
    after := entered.seen;
    OpenBatchSettles(entered, messages[1..]);
    SettledBatch(entered, messages);
  }

  lemma SettledBatch(entered: Pairing, messages: seq<Message>)
    requires messages != [] && messages[0].Assistant? && messages[0].toolCalls != []
    requires Distinct(CallIds(messages[0].toolCalls)) && entered.pending == ToSet(CallIds(messages[0].toolCalls))
    requires |entered.pending| == |messages[0].toolCalls| <= |messages[1..]|
    requires forall i :: 0 <= i < |entered.pending| ==> messages[1..][i].Tool?
    requires Scan(entered, messages[1..][..|entered.pending|]).Some?
    ensures var n := 1 + |messages[0].toolCalls|;
      IsBatch(messages[..n]) && Scan(entered, messages[1..]) == Scan(Pairing({}, entered.seen), messages[n..])
  {
    hide Scan, IsBatch, SettlesFrom;
    var n := 1 + |messages[0].toolCalls|;
    var results := messages[1..][..n - 1];
    assert messages[1..] == results + messages[n..];
    assert messages[..n] == [messages[0]] + results;
    ScanWholeBatch(entered, results, messages[n..]);
    BatchFrom(messages[0], results, messages[..n]);
  }

  lemma ScanWholeBatch(entered: Pairing, results: seq<Message>, rest: seq<Message>)
    requires |entered.pending| == |results| && forall i :: 0 <= i < |results| ==> results[i].Tool?
    requires Scan(entered, results).Some?
    ensures SettlesFrom(results, entered.pending)
    ensures Scan(entered, results + rest) == Scan(Pairing({}, entered.seen), rest)
  {
    ScanResults(entered, results);
    ScanConcat(entered, results, rest);
    ResultIdsSize(results, entered.pending);
    SubsetOfSameSize(ResultIds(results), entered.pending);
    assert entered.pending - ResultIds(results) == {};
  }

  lemma BatchFrom(m: Message, results: seq<Message>, batch: seq<Message>)
    requires m.Assistant? && m.toolCalls != [] && Distinct(CallIds(m.toolCalls))
    requires SettlesFrom(results, ToSet(CallIds(m.toolCalls))) && |results| == |m.toolCalls|
    requires batch == [m] + results
    ensures IsBatch(batch)
  {
    assert forall i :: 1 <= i < |batch| ==> batch[i] == results[i - 1];
  }

  lemma {:induction false} ScanSplitsIntoGroups(seen: set<string>, messages: seq<Message>)
    returns (groups: seq<seq<Message>>)
    requires Scan(Pairing({}, seen), messages).Some? && Scan(Pairing({}, seen), messages).value.pending == {}
    ensures AllGroups(groups) && Flatten(groups) == messages
    decreases |messages|
  {
    if messages == [] { return []; }
    var m := messages[0];
    var n, after := 1, seen;
    if m.Assistant? && m.toolCalls != [] {
      after := BatchComesWhole(seen, messages);
      n := 1 + |m.toolCalls|;
    } else {
      if m.Assistant? { assert CallIds(m.toolCalls) == []; }
      assert messages[..1] == [m] && PairingStep(Pairing({}, seen), m) == Some(Pairing({}, seen));
    }
    var rest := ScanSplitsIntoGroups(after, messages[n..]);
    groups := [messages[..n]] + rest;
    assert groups[1..] == rest;
    assert messages == messages[..n] + messages[n..];
  }

  lemma AcceptsIffWellPaired(messages: seq<Message>)
    ensures Accepts(messages) <==> WellPaired(messages)
  {
    if Accepts(messages) {
      ScanEnters(Pairing({}, {}), messages);
      var groups := ScanSplitsIntoGroups({}, messages);
    }
    if WellPaired(messages) {
      var groups :| AllGroups(groups) && Flatten(groups) == messages;
      ScanGroups({}, groups);
    }
  }

  function ContentOf(m: Message): Option<Content> {
    match m
    case User(input) => Some(input)
    case Tool(r) => Some(r.content)
    case _ => None
  }

  /** In an accepted history every inline image is a padded encoding of bytes that are there, and every linked one is
      reached over HTTPS, of a known type. */
  lemma AcceptedImagesDecode(messages: seq<Message>, i: nat, k: nat)
    requires Accepts(messages) && i < |messages| && ContentOf(messages[i]).Some?
    requires ContentOf(messages[i]).value.Blocks? && k < |ContentOf(messages[i]).value.blocks|
    requires ContentOf(messages[i]).value.blocks[k].Image?
    ensures var image := ContentOf(messages[i]).value.blocks[k];
      && image.mediaType in {"image/png", "image/jpeg", "image/webp", "image/gif"}
      && match image.source
         case Inline(data) => exists bytes :: bytes != [] && Base64.Encode64(bytes) == Encode(data)
         case Url(url) => "https://" <= url && Len(url) <= 4096
  {
    hide Base64.Encode64, Base64.ValidBase64, Scan;
    AcceptsIffWellPaired(messages);
    assert ValidMessage(messages[i]);
    var image := ContentOf(messages[i]).value.blocks[k];
    assert ValidBlock(image);
    if image.source.Inline? { Base64.ValidBase64Iff(Encode(image.source.data)); }
  }
}
