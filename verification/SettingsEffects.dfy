/** What accepted changes of the model settings leave behind, provider by provider. */
module SettingsEffects {
  import opened Text
  import opened ModelSettings

  // ----- Trimming -----

  lemma {:induction false} StartIs(s: string) returns (a: string)
    ensures s == a + TrimStart(s) && IsBlank(a) && (TrimStart(s) != "" ==> !IsWhitespace(TrimStart(s)[0]))
  {
    a := "";
    if s != "" && IsWhitespace(s[0]) {
      var rest := StartIs(s[1..]);
      a := [s[0]] + rest;
      assert s == [s[0]] + s[1..];
    }
  }

  lemma {:induction false} EndIs(s: string) returns (b: string)
    ensures s == TrimEnd(s) + b && IsBlank(b)
    ensures TrimEnd(s) != "" ==> !IsWhitespace(TrimEnd(s)[|TrimEnd(s)| - 1]) && TrimEnd(s)[0] == s[0]
    decreases |s|
  {
    b := "";
    if s != "" && IsWhitespace(s[|s| - 1]) {
      var rest := EndIs(s[..|s| - 1]);
      b := rest + [s[|s| - 1]];
      assert s == s[..|s| - 1] + [s[|s| - 1]];
    }
  }

  /** Trimming takes blanks off both ends and nothing else. */
  lemma TrimIs(s: string) returns (a: string, b: string)
    ensures s == a + Trim(s) + b && IsBlank(a) && IsBlank(b)
    ensures Trim(s) == "" || IsTrimmed(Trim(s))
    ensures Trim(s) == "" <==> IsBlank(s)
  {
    a := StartIs(s);
    b := EndIs(TrimStart(s));
    if Trim(s) != "" { assert s[|a|] == Trim(s)[0]; }
  }

  // ----- Upsert -----

  predicate DistinctIds(providers: seq<Provider>) {
    forall i, j :: 0 <= i < j < |providers| ==> providers[i].id != providers[j].id
  }

  /** Why an upsert is refused before validation: the key is missing for a new endpoint, native options are given for
      Chat Completions, a key is both given and cleared, or the key is malformed. */
  predicate Refuses(host: Host, previous: Option<Provider>, base: string, input: UpsertProvider) {
    || (previous.Some? && previous.value.apiKey.Some?
        && (previous.value.apiBase != base || previous.value.protocol != input.protocol)
        && Typed(input.apiKey).None? && !input.clearKey)
    || (input.protocol.ChatCompletions? && input.generation.Some? && input.generation.value != host.noBody)
    || (input.clearKey && Typed(input.apiKey).Some?)
    || !ValidKey(NewKey(previous, input))
  }

  /** The key that was typed, if there is more to it than blanks. */
  function Typed(key: Option<string>): Option<string> {
    if key.None? || IsBlank(key.value) then None else Some(Trim(key.value))
  }

  function NewKey(previous: Option<Provider>, input: UpsertProvider): Option<string> {
    if input.clearKey then None
    else if Typed(input.apiKey).Some? then Typed(input.apiKey)
    else if previous.Some? then previous.value.apiKey
    else None
  }

  function NewBody(host: Host, previous: Option<Provider>, input: UpsertProvider): string {
    if !input.protocol.ChatCompletions? && input.generation.Some? then input.generation.value
    else if previous.Some? && previous.value.protocol == input.protocol then previous.value.extraBody
    else host.noBody
  }

  lemma SuppliedIsTyped(key: Option<string>)
    ensures Supplied(key) == Typed(key)
  {
    if key.Some? { var a, b := TrimIs(key.value); }
  }

  lemma UpsertRefusedIff(host: Host, d: Document, base: string, input: UpsertProvider)
    ensures Upserted(host, d, base, input).None? <==> Refuses(host, ProviderOf(d.providers, input.id), base, input)
  {
    hide ValidKey, Trim, IsBlank;
    ProviderOfIs(d.providers, input.id);
    SuppliedIsTyped(input.apiKey);
  }

  /** An accepted upsert gives the named provider what was typed: the trimmed name, the given models, the new key and
      body; a stored key stays only with its endpoint and protocol. Every other provider stays as and where it was, a
      new one goes last, and the default changes only when there was none. */
  lemma UpsertDoes(host: Host, d: Document, base: string, input: UpsertProvider, next: Document)
    requires Upserted(host, d, base, input) == Some(next)
    ensures var (was, i) := (ProviderOf(d.providers, input.id), ProviderAt(d.providers, input.id));
      var now := Provider(input.protocol, input.id, Trim(input.name), base, NewKey(was, input), input.models,
                          NewBody(host, was, input));
      && ProviderOf(next.providers, input.id) == Some(now)
      && (was.None? ==> next.providers == d.providers + [now])
      && (was.Some? ==> |next.providers| == |d.providers| && next.providers[i] == now
                        && forall k :: 0 <= k < |d.providers| && k != i ==> next.providers[k] == d.providers[k])
      && (was.Some? && (was.value.apiBase != base || was.value.protocol != input.protocol) ==>
            now.apiKey == Typed(input.apiKey))
      && next.selected == (if d.selected.Some? then d.selected else FirstShown(input.id, input.models))
      && next.revision == d.revision && next.version == d.version
    ensures forall id :: id != input.id ==> ProviderOf(next.providers, id) == ProviderOf(d.providers, id)
  {
    hide ValidKey, Trim, IsBlank;
    var i := ProviderAt(d.providers, input.id);
    ProviderOfIs(d.providers, input.id);
    ProviderOfIs(next.providers, input.id);
    SuppliedIsTyped(input.apiKey);
    ProviderIs(next.providers, input.id, i);
    ShownIsEnabled(next.providers[i]);
    forall id | id != input.id ensures ProviderOf(next.providers, id) == ProviderOf(d.providers, id) {
      OthersStay(d.providers, next.providers, i, id);
    }
  }

  lemma OthersStay(was: seq<Provider>, now: seq<Provider>, i: nat, id: string)
    requires i <= |was| && |now| == Max(|was|, i + 1) && now[i].id != id && (i < |was| ==> was[i].id != id)
    requires forall k :: 0 <= k < |was| && k != i ==> now[k] == was[k]
    ensures ProviderOf(now, id) == ProviderOf(was, id)
  {
    ProviderOfIs(was, id);
    ProviderOfIs(now, id);
    var j := ProviderAt(was, id);
    ProviderIs(now, id, if j < |was| then j else |now|);
  }

  lemma ShownIsEnabled(p: Provider)
    ensures DefaultOf(p) == FirstShown(p.id, p.models)
  {
    FirstShownAt(p.id, p.models);
  }

  lemma {:induction false} FirstShownAt(id: string, models: seq<ModelEntry>)
    ensures var k := FirstEnabled(models);
      FirstShown(id, models) == if k < |models| then Some(Selection(id, models[k].id)) else None
  {
    if models != [] && !models[0].enabled { FirstShownAt(id, models[1..]); }
  }

  /** The first model that is shown. */
  function FirstShown(id: string, models: seq<ModelEntry>): Option<Selection> {
    if models == [] then None
    else if models[0].enabled then Some(Selection(id, models[0].id))
    else FirstShown(id, models[1..])
  }

  // ----- The other operations -----

  /** The first model that is shown, over all providers in order. */
  function FirstOffered(providers: seq<Provider>): Option<Selection> {
    if providers == [] then None
    else if FirstShown(providers[0].id, providers[0].models).Some?
      then FirstShown(providers[0].id, providers[0].models)
    else FirstOffered(providers[1..])
  }

  lemma {:induction false} AnyIsFirst(providers: seq<Provider>)
    ensures AnyDefault(providers) == FirstOffered(providers)
  {
    hide FirstShown, DefaultOf;
    if providers != [] {
      ShownIsEnabled(providers[0]);
      AnyIsFirst(providers[1..]);
    }
  }

  lemma {:induction false} OthersCut(providers: seq<Provider>, id: string)
    requires DistinctIds(providers) && ProviderAt(providers, id) < |providers|
    ensures var i := ProviderAt(providers, id); Others(providers, id) == providers[..i] + providers[i + 1..]
  {
    var rest := providers[1..];
    if providers[0].id == id {
      AllOthers(rest, id);
      assert providers[..0] + providers[1..] == rest && [] + rest == rest;
    } else {
      OthersCut(rest, id);
      CutTail(providers, ProviderAt(rest, id));
    }
  }

  lemma CutTail<T>(s: seq<T>, j: nat)
    requires j + 1 < |s|
    ensures [s[0]] + (s[1..][..j] + s[1..][j + 1..]) == s[..j + 1] + s[j + 2..]
  {
  }

  lemma {:induction false} AllOthers(providers: seq<Provider>, id: string)
    requires forall k :: 0 <= k < |providers| ==> providers[k].id != id
    ensures Others(providers, id) == providers
  {
    if providers != [] {
      AllOthers(providers[1..], id);
      assert [providers[0]] + providers[1..] == providers;
    }
  }

  /** A deletion is refused exactly for an unknown provider; otherwise it takes that one out, and a default that went
      with it is replaced by the first model still shown. */
  lemma DeleteDoes(d: Document, id: string)
    requires DistinctIds(d.providers)
    ensures Deleted(d, id).None? <==> ProviderOf(d.providers, id).None?
    ensures Deleted(d, id).Some? ==>
              var (i, next) := (ProviderAt(d.providers, id), Deleted(d, id).value);
              && next.providers == d.providers[..i] + d.providers[i + 1..]
              && next.selected == (if d.selected.Some? && d.selected.value.provider == id
                                   then FirstOffered(next.providers) else d.selected)
              && next.revision == d.revision && next.version == d.version
  {
    hide FirstOffered, AnyDefault, Others, DistinctIds, ProviderOf;
    ProviderOfIs(d.providers, id);
    if ProviderAt(d.providers, id) < |d.providers| {
      OthersCut(d.providers, id);
      AnyIsFirst(Others(d.providers, id));
    }
  }

  predicate HasModel(providers: seq<Provider>, s: Selection) {
    exists i, k :: 0 <= i < |providers| && 0 <= k < |providers[i].models|
                   && providers[i].id == s.provider && providers[i].models[k].id == s.model
  }

  /** Only which models are shown differs. */
  predicate OnlyShownDiffers(d: Document, next: Document) {
    && |next.providers| == |d.providers| && next.revision == d.revision && next.version == d.version
    && forall i :: 0 <= i < |d.providers| ==> SameButEnabled(d.providers[i], next.providers[i])
  }

  /** A default is refused exactly when there is no such model; otherwise only shown flags and the default change. */
  lemma DefaultDoes(d: Document, s: Selection)
    requires DistinctIds(d.providers)
    ensures WithDefault(d, s).Some? <==> HasModel(d.providers, s)
    ensures WithDefault(d, s).Some? ==>
              OnlyShownDiffers(d, WithDefault(d, s).value) && WithDefault(d, s).value.selected == Some(s)
  {
    var i := ProviderAt(d.providers, s.provider);
    if i < |d.providers| {
      var k := ModelAt(d.providers[i].models, s.model);
      if k < |d.providers[i].models| { assert d.providers[i].models[k].id == s.model; }
    }
  }

  /** A visibility change is refused exactly when provider or model is unknown; otherwise only shown flags change. */
  lemma VisibilityDoes(d: Document, id: string, model: Option<string>, enabled: bool)
    requires DistinctIds(d.providers)
    ensures WithVisibility(d, id, model, enabled).Some? <==>
              ProviderOf(d.providers, id).Some? && (model.Some? ==> HasModel(d.providers, Selection(id, model.value)))
    ensures WithVisibility(d, id, model, enabled).Some? ==>
              var next := WithVisibility(d, id, model, enabled).value;
              OnlyShownDiffers(d, next) && next.selected == d.selected
  {
    ProviderOfIs(d.providers, id);
    var i := ProviderAt(d.providers, id);
    if i < |d.providers| && model.Some? {
      var k := ModelAt(d.providers[i].models, model.value);
      if k < |d.providers[i].models| { assert d.providers[i].models[k].id == model.value; }
    }
  }

  /** An offered model is run with the endpoint, key and options of its own provider, and its own limits. */
  lemma ConfigIsItsOwn(host: Host, d: Document, i: nat, k: nat)
    requires ValidDocument(host, d) && i < |d.providers| && k < |d.providers[i].models|
    ensures var (p, m) := (d.providers[i], d.providers[i].models[k]);
      ConfigOf(d, Selection(p.id, m.id))
        == AdapterConfig(p.protocol, p.apiBase, m.id, m.capabilities, p.apiKey, p.extraBody, m.window, p.id)
  {
    assert ValidProvider(host, d.providers[i]);
    var p := d.providers[i];
    ProviderIs(d.providers, p.id, i);
    ModelIs(p.models, p.models[k].id, k);
  }

  // ----- The transaction -----

  /** A change goes through exactly when it was written against the current revision, is possible, has a revision left,
      leaves a valid document and is stored; it then is the changed document one revision later. */
  lemma TransactionIff(host: Host, before: Document, revision: nat, change: Document -> Option<Document>, saves: bool,
                       after: Document)
    ensures Transaction(host, before, revision, change, saves) == Ok(after) <==>
              && before.revision == revision && change(before).Some? && change(before).value.revision < WORD_MAX
              && ValidDocument(host, change(before).value) && saves
              && after == change(before).value.(revision := change(before).value.revision + 1)
  {
    hide ValidDocument;
  }

  /** An initial provider is stored as given but for its endpoint and options, as the first revision, and its first
      shown model becomes the default. */
  lemma SeedDoes(host: Host, input: UpsertProvider, extraBody: string)
    ensures Seeded(host, input, extraBody).Some? <==>
              && host.normalize(input.apiBase, input.protocol).Some?
              && !(input.protocol.ChatCompletions? && input.generation.Some? && input.generation.value != host.noBody)
    ensures Seeded(host, input, extraBody).Some? ==>
              var d := Seeded(host, input, extraBody).value;
              && d.version == 2 && d.revision == 1 && |d.providers| == 1
              && d.selected == FirstShown(input.id, input.models)
              && var p := d.providers[0];
              && p.id == input.id && p.name == input.name && p.protocol == input.protocol && p.apiKey == input.apiKey
              && p.models == input.models && Some(p.apiBase) == host.normalize(input.apiBase, input.protocol)
              && (input.generation.None? ==> p.extraBody == extraBody)
              && (input.generation.Some? ==> p.extraBody == host.merge(extraBody, input.generation.value))
  {
    if Seeded(host, input, extraBody).Some? { ShownIsEnabled(Seeded(host, input, extraBody).value.providers[0]); }
  }

  /** What can be relied on in every accepted document: identifiers are plain and distinct, nothing is blank or too
      long, keys are visible ASCII, endpoints are accepted for their protocol, and the default is there and shown. */
  lemma AcceptedIsSound(host: Host, d: Document, i: nat, k: nat)
    requires ValidDocument(host, d) && i < |d.providers| && k < |d.providers[i].models|
    ensures |d.providers| <= 32 && |d.providers[i].models| <= 256
    ensures var (p, m) := (d.providers[i], d.providers[i].models[k]);
      && 1 <= |p.id| && Len(p.id) <= 80
      && (forall c :: c in p.id ==> IsAsciiAlphanumeric(c) || c == '-' || c == '_')
      && (exists n :: 0 <= n < |p.name| && !IsWhitespace(p.name[n])) && Len(p.name) <= 160
      && (p.apiKey.Some? ==> p.apiKey.value != "" && Len(p.apiKey.value) <= 8192
                             && forall c :: c in p.apiKey.value ==> '!' <= c <= '~')
      && host.normalize(p.apiBase, p.protocol).Some?
      && (exists n :: 0 <= n < |m.id| && !IsWhitespace(m.id[n])) && Len(m.id) <= 512
      && (forall n :: 0 <= n < |m.id| ==> !IsControl(m.id[n]))
      && host.capable(m.capabilities) && (m.window.Some? ==> 1 <= m.window.value <= 1_000_000_000)
    ensures forall j :: 0 <= j < |d.providers| && j != i ==> d.providers[j].id != d.providers[i].id
    ensures forall j :: 0 <= j < |d.providers[i].models| && j != k ==>
            d.providers[i].models[j].id != d.providers[i].models[k].id
    ensures d.selected.Some? ==>
              exists j, n ::
                && 0 <= j < |d.providers| && 0 <= n < |d.providers[j].models|
                && Selection(d.providers[j].id, d.providers[j].models[n].id) == d.selected.value
                && d.providers[j].models[n].enabled
  {
    assert ValidProvider(host, d.providers[i]) && ValidModel(host, d.providers[i].models[k]);
    if d.selected.Some? {
      var s := d.selected.value;
      var j, n :| 0 <= j < |d.providers| && 0 <= n < |d.providers[j].models| && d.providers[j].id == s.provider
                  && d.providers[j].models[n].id == s.model && d.providers[j].models[n].enabled;
      assert Selection(d.providers[j].id, d.providers[j].models[n].id) == s;
    }
  }
}
