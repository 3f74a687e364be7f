/** The model settings document: every change is one validated, persisted transaction, and running tasks keep the
    model they were bound to. */
module ModelSettings {
  import opened Text

  datatype Protocol = ChatCompletions | Responses | Messages

  /** Capabilities and provider options are carried as their serialized text. */
  datatype ModelEntry = ModelEntry(id: string, enabled: bool, capabilities: string, window: Option<nat>)

  datatype Selection = Selection(provider: string, model: string)

  datatype Provider = Provider(protocol: Protocol, id: string, name: string, apiBase: string, apiKey: Option<string>,
                               models: seq<ModelEntry>, extraBody: string)

  datatype Document = Document(version: nat, revision: nat, providers: seq<Provider>, selected: Option<Selection>)

  /** What an adapter is built from. */
  datatype AdapterConfig = AdapterConfig(protocol: Protocol, apiBase: string, model: string, capabilities: string,
                                         apiKey: Option<string>, extraBody: string, window: Option<nat>,
                                         provider: string)

  /** The URL parser, the capability rules and the adapter factory, as far as they accept or refuse; the empty
      option object, and one object extended by another. */
  datatype Host = Host(normalize: (string, Protocol) -> Option<string>, capable: string -> bool,
                       adapts: AdapterConfig -> bool, noBody: string, merge: (string, string) -> string)

  datatype Error = Stale | Refused | Exhausted | Invalid | NotSaved

  // ----- Validity -----

  predicate ValidKey(key: Option<string>) {
    key.Some? ==>
      && key.value != "" && Len(key.value) <= 8192
      && (forall i :: 0 <= i < |key.value| ==> '!' <= key.value[i] <= '~')
  }

  function ModelAt(models: seq<ModelEntry>, id: string): (at: nat)
    ensures at <= |models|
    ensures at < |models| ==> models[at].id == id
    ensures forall i :: 0 <= i < at ==> models[i].id != id
  {
    if models == [] || models[0].id == id then 0 else 1 + ModelAt(models[1..], id)
  }

  function ProviderAt(providers: seq<Provider>, id: string): (at: nat)
    ensures at <= |providers|
    ensures at < |providers| ==> providers[at].id == id
    ensures forall i :: 0 <= i < at ==> providers[i].id != id
  {
    if providers == [] || providers[0].id == id then 0 else 1 + ProviderAt(providers[1..], id)
  }

  function Config(p: Provider, model: string): AdapterConfig {
    var i := ModelAt(p.models, model);
    var (capabilities, window) := if i < |p.models| then (p.models[i].capabilities, p.models[i].window) else ("", None);
    AdapterConfig(p.protocol, p.apiBase, model, capabilities, p.apiKey, p.extraBody, window, p.id)
  }

  predicate ValidModel(host: Host, m: ModelEntry) {
    && host.capable(m.capabilities) && (m.window.Some? ==> 0 < m.window.value <= 1_000_000_000)
    && !IsBlank(m.id) && Len(m.id) <= 512 && !AnyControl(m.id)
  }

  predicate ValidProvider(host: Host, p: Provider) {
    && p.id != "" && Len(p.id) <= 80
    && (forall i :: 0 <= i < |p.id| ==> IsAsciiAlphanumeric(p.id[i]) || p.id[i] in ['-', '_'])
    && !IsBlank(p.name) && Len(p.name) <= 160
    && host.normalize(p.apiBase, p.protocol).Some? && ValidKey(p.apiKey)
    && 1 <= |p.models| <= 256
    && (forall i :: 0 <= i < |p.models| ==> ValidModel(host, p.models[i]))
    && (forall i, j :: 0 <= i < j < |p.models| ==> p.models[i].id != p.models[j].id)
    && host.adapts(Config(p, p.models[0].id))
  }

  /** A model that exists and is enabled. */
  predicate Offers(providers: seq<Provider>, s: Selection) {
    exists i, k :: 0 <= i < |providers| && 0 <= k < |providers[i].models| && providers[i].id == s.provider
                   && providers[i].models[k].id == s.model && providers[i].models[k].enabled
  }

  /** `validate`. */
  predicate ValidDocument(host: Host, d: Document) {
    && d.version == 2 && |d.providers| <= 32
    && (forall i :: 0 <= i < |d.providers| ==> ValidProvider(host, d.providers[i]))
    && (forall i, j :: 0 <= i < j < |d.providers| ==> d.providers[i].id != d.providers[j].id)
    && (d.selected.Some? ==> Offers(d.providers, d.selected.value))
  }

  // ----- Changes -----

  function FirstEnabled(models: seq<ModelEntry>): (at: nat)
    ensures at <= |models| && (at < |models| ==> models[at].enabled)
    ensures forall i :: 0 <= i < at ==> !models[i].enabled
  {
    if models == [] || models[0].enabled then 0 else 1 + FirstEnabled(models[1..])
  }

  function DefaultOf(p: Provider): Option<Selection> {
    var k := FirstEnabled(p.models);
    if k < |p.models| then Some(Selection(p.id, p.models[k].id)) else None
  }

  /** The first enabled model of the first provider that has one. */
  function AnyDefault(providers: seq<Provider>): (s: Option<Selection>)
    ensures s.Some? ==> Offers(providers, s.value)
  {
    if providers == [] then None else
      var first := DefaultOf(providers[0]);
      if first.Some? then
        assert providers[0].models[FirstEnabled(providers[0].models)].enabled;
        first
      else
        var later := AnyDefault(providers[1..]);
        assert later.Some? ==> Offers(providers, later.value) by {
          if later.Some? {
            var i, k :| 0 <= i < |providers[1..]| && 0 <= k < |providers[1..][i].models|
              && providers[1..][i].id == later.value.provider
                        && providers[1..][i].models[k].id == later.value.model && providers[1..][i].models[k].enabled;
            assert providers[i + 1] == providers[1..][i];
          }
        }
        later
  }

  /** `Vec::retain`. */
  function Others(providers: seq<Provider>, id: string): (rest: seq<Provider>)
    ensures forall p :: p in rest <==> p in providers && p.id != id
    ensures |rest| <= |providers|
  {
    if providers == [] then [] else
      (if providers[0].id == id then [] else [providers[0]]) + Others(providers[1..], id)
  }

  function Deleted(d: Document, id: string): Option<Document> {
    if ProviderAt(d.providers, id) == |d.providers| then None else
      var rest := Others(d.providers, id);
      var deselect := d.selected.Some? && d.selected.value.provider == id;
      Some(d.(providers := rest, selected := if deselect then AnyDefault(rest) else d.selected))
  }

  function WithDefault(d: Document, s: Selection): Option<Document> {
    var i := ProviderAt(d.providers, s.provider);
    if i == |d.providers| then None else
      var k := ModelAt(d.providers[i].models, s.model);
      if k == |d.providers[i].models| then None
      else Some(d.(providers := d.providers[i := Enabling(d.providers[i], k)], selected := Some(s)))
  }

  function Enabling(p: Provider, k: nat): Provider
    requires k < |p.models|
  {
    p.(models := p.models[k := p.models[k].(enabled := true)])
  }

  function Shown(p: Provider, model: Option<string>, enabled: bool, kept: Option<Selection>): (models: seq<ModelEntry>)
    ensures |models| == |p.models|
  {
    seq(|p.models|, i requires 0 <= i < |p.models| =>
      if model.None? || model.value == p.models[i].id
      then p.models[i].(enabled := enabled || kept == Some(Selection(p.id, p.models[i].id))) else p.models[i])
  }

  function WithVisibility(d: Document, id: string, model: Option<string>, enabled: bool): Option<Document> {
    var i := ProviderAt(d.providers, id);
    if i == |d.providers| || (model.Some? && ModelAt(d.providers[i].models, model.value) == |d.providers[i].models|)
    then None
    else
      var provider := d.providers[i].(models := Shown(d.providers[i], model, enabled, d.selected));
      Some(d.(providers := d.providers[i := provider]))
  }

  datatype UpsertProvider = UpsertProvider(protocol: Protocol, generation: Option<string>, revision: nat, id: string,
                                           name: string, apiBase: string, apiKey: Option<string>, clearKey: bool,
                                           models: seq<ModelEntry>)

  function TrimStart(s: string): string { if s != "" && IsWhitespace(s[0]) then TrimStart(s[1..]) else s }

  function TrimEnd(s: string): string { if s != "" && IsWhitespace(s[|s| - 1]) then TrimEnd(s[..|s| - 1]) else s }

  function Trim(s: string): string { TrimEnd(TrimStart(s)) }

  function Supplied(key: Option<string>): Option<string> {
    if key.Some? && Trim(key.value) != "" then Some(Trim(key.value)) else None
  }

  function MergeKey(input: Option<string>, clear: bool, previous: Option<string>): Option<Option<string>> {
    var supplied := Supplied(input);
    var key := if clear then None else if supplied.Some? then supplied else previous;
    if (clear && supplied.Some?) || !ValidKey(key) then None else Some(key)
  }

  function Upserted(host: Host, d: Document, base: string, input: UpsertProvider): Option<Document> {
    var i := ProviderAt(d.providers, input.id);
    var previous := if i < |d.providers| then Some(d.providers[i]) else None;
    var moved := previous.Some? && (previous.value.apiBase != base || previous.value.protocol != input.protocol);
    if moved && previous.value.apiKey.Some? && (input.apiKey.None? || IsBlank(input.apiKey.value)) && !input.clearKey
      then None
    else if input.protocol.ChatCompletions? && input.generation.Some? && input.generation.value != host.noBody then None
    else
      var same := previous.Some? && previous.value.protocol == input.protocol;
      var kept := if same then previous.value.extraBody else host.noBody;
      var body := if input.protocol.ChatCompletions? || input.generation.None? then kept else input.generation.value;
      var key := MergeKey(input.apiKey, input.clearKey, if previous.Some? then previous.value.apiKey else None);
      if key.None? then None else
        var p := Provider(input.protocol, input.id, Trim(input.name), base, key.value, input.models, body);
        Some(d.(providers := if i < |d.providers| then d.providers[i := p] else d.providers + [p],
              selected := if d.selected.None? then DefaultOf(p) else d.selected))
  }

  // ----- Which changes validation can refuse -----

  /** Only enabled flags differ. */
  predicate SameButEnabled(p: Provider, q: Provider) {
    && q == p.(models := q.models) && |q.models| == |p.models|
    && forall k :: 0 <= k < |p.models| ==> q.models[k] == p.models[k].(enabled := q.models[k].enabled)
  }

  lemma {:induction false} SameModelAt(a: seq<ModelEntry>, b: seq<ModelEntry>, id: string)
    requires |a| == |b| && forall k :: 0 <= k < |a| ==> b[k] == a[k].(enabled := b[k].enabled)
    ensures ModelAt(a, id) == ModelAt(b, id)
  {
    if a != [] && a[0].id != id { SameModelAt(a[1..], b[1..], id); }
  }

  lemma StaysValid(host: Host, p: Provider, q: Provider)
    requires ValidProvider(host, p) && SameButEnabled(p, q)
    ensures ValidProvider(host, q)
  {
    SameModelAt(p.models, q.models, p.models[0].id);
    assert Config(q, q.models[0].id) == Config(p, p.models[0].id);
    assert forall k :: 0 <= k < |q.models| ==> ValidModel(host, p.models[k]) && ValidModel(host, q.models[k]);
  }

  /** Flags of one provider change and the chosen default, if any, is offered. */
  lemma FlagsKeepDocument(host: Host, d: Document, i: nat, q: Provider, s: Option<Selection>)
    requires ValidDocument(host, d) && i < |d.providers| && SameButEnabled(d.providers[i], q)
    requires s.Some? ==> Offers(d.providers[i := q], s.value)
    ensures ValidDocument(host, d.(providers := d.providers[i := q], selected := s))
  {
    hide ValidProvider, Offers;
    StaysValid(host, d.providers[i], q);
  }

  lemma {:induction false} OthersDistinct(providers: seq<Provider>, id: string)
    requires forall i, j :: 0 <= i < j < |providers| ==> providers[i].id != providers[j].id
    ensures forall i, j :: 0 <= i < j < |Others(providers, id)| ==>
            Others(providers, id)[i].id != Others(providers, id)[j].id
  {
    if providers != [] {
      var rest := Others(providers[1..], id);
      OthersDistinct(providers[1..], id);
      forall p | p in rest ensures p.id != providers[0].id {
        var k :| 0 <= k < |providers[1..]| && providers[1..][k] == p;
        assert providers[k + 1] == p;
      }
    }
  }

  /** Deleting a provider of a valid document is never refused by validation. */
  lemma DeleteStaysValid(host: Host, d: Document, id: string)
    requires ValidDocument(host, d) && Deleted(d, id).Some?
    ensures ValidDocument(host, Deleted(d, id).value)
  {
    hide ValidProvider;
    var rest := Others(d.providers, id);
    OthersDistinct(d.providers, id);
    forall i | 0 <= i < |rest| ensures ValidProvider(host, rest[i]) {
      assert rest[i] in d.providers;
    }
    if d.selected.Some? && d.selected.value.provider != id { OthersOffer(d.providers, id, d.selected.value); }
  }

  lemma OthersOffer(providers: seq<Provider>, id: string, s: Selection)
    requires Offers(providers, s) && s.provider != id
    ensures Offers(Others(providers, id), s)
  {
    var i, k :| 0 <= i < |providers| && 0 <= k < |providers[i].models| && providers[i].id == s.provider
                && providers[i].models[k].id == s.model && providers[i].models[k].enabled;
    var rest := Others(providers, id);
    assert providers[i] in rest;
    var j :| 0 <= j < |rest| && rest[j] == providers[i];
    assert rest[j].models[k].enabled;
  }

  /** Choosing an existing model as default enables it, and is never refused by validation. */
  lemma DefaultStaysValid(host: Host, d: Document, s: Selection)
    requires ValidDocument(host, d) && WithDefault(d, s).Some?
    ensures ValidDocument(host, WithDefault(d, s).value)
  {
    hide ValidProvider;
    var i := ProviderAt(d.providers, s.provider);
    var k := ModelAt(d.providers[i].models, s.model);
    var q := Enabling(d.providers[i], k);
    assert d.providers[i := q][i] == q && q.models[k].enabled && q.models[k].id == s.model;
    FlagsKeepDocument(host, d, i, q, Some(s));
  }

  /** Showing or hiding models never hides the default, and is never refused by validation. */
  lemma VisibilityStaysValid(host: Host, d: Document, id: string, model: Option<string>, enabled: bool)
    requires ValidDocument(host, d) && WithVisibility(d, id, model, enabled).Some?
    ensures ValidDocument(host, WithVisibility(d, id, model, enabled).value)
  {
    hide ValidProvider;
    var i := ProviderAt(d.providers, id);
    var q := d.providers[i].(models := Shown(d.providers[i], model, enabled, d.selected));
    var next := d.providers[i := q];
    if d.selected.Some? {
      var s := d.selected.value;
      var j, k :| 0 <= j < |d.providers| && 0 <= k < |d.providers[j].models| && d.providers[j].id == s.provider
                  && d.providers[j].models[k].id == s.model && d.providers[j].models[k].enabled;
      assert next[j].id == s.provider && next[j].models[k].id == s.model && next[j].models[k].enabled;
    }
    FlagsKeepDocument(host, d, i, q, d.selected);
  }

  // ----- What changes show -----

  /** Whether a model of a provider is there and enabled. */
  predicate Shows(d: Document, provider: string, model: string) {
    var i := ProviderAt(d.providers, provider);
    i < |d.providers| &&
    var k := ModelAt(d.providers[i].models, model);
    k < |d.providers[i].models| && d.providers[i].models[k].enabled
  }

  lemma ProviderIs(providers: seq<Provider>, id: string, i: nat)
    requires i <= |providers| && (i < |providers| ==> providers[i].id == id)
    requires forall k :: 0 <= k < i ==> providers[k].id != id
    ensures ProviderAt(providers, id) == i
  {
  }

  lemma ModelIs(models: seq<ModelEntry>, id: string, i: nat)
    requires i <= |models| && (i < |models| ==> models[i].id == id) && forall k :: 0 <= k < i ==> models[k].id != id
    ensures ModelAt(models, id) == i
  {
  }

  /** Choosing a default shows that one model and touches no other. */
  lemma DefaultShowsOne(d: Document, s: Selection, provider: string, model: string)
    requires WithDefault(d, s).Some?
    ensures Shows(WithDefault(d, s).value, provider, model)
            <==> Selection(provider, model) == s || Shows(d, provider, model)
  {
    hide ProviderAt, ModelAt;
    var next := WithDefault(d, s).value;
    var i := ProviderAt(d.providers, s.provider);
    var j := ProviderAt(d.providers, provider);
    ProviderIs(next.providers, provider, j);
    if j < |d.providers| { ModelIs(next.providers[j].models, model, ModelAt(d.providers[j].models, model)); }
    assert provider == s.provider ==> j == i;
  }

  /** A visibility change sets exactly the models it names, except that the default stays shown. */
  lemma VisibilitySetsNamed(d: Document, id: string, named: Option<string>, enabled: bool, provider: string,
                            model: string)
    requires WithVisibility(d, id, named, enabled).Some?
    requires ProviderAt(d.providers, provider) < |d.providers|
    requires ModelAt(d.providers[ProviderAt(d.providers, provider)].models, model)
           < |d.providers[ProviderAt(d.providers, provider)].models|
    ensures Shows(WithVisibility(d, id, named, enabled).value, provider, model) <==>
              if provider == id && (named.None? || named.value == model)
                then enabled || d.selected == Some(Selection(provider, model))
              else Shows(d, provider, model)
  {
    hide ProviderAt, ModelAt;
    var next := WithVisibility(d, id, named, enabled).value;
    var j := ProviderAt(d.providers, provider);
    ProviderIs(next.providers, provider, j);
    ModelIs(next.providers[j].models, model, ModelAt(d.providers[j].models, model));
    assert provider == id ==> j == ProviderAt(d.providers, id);
  }

  function ProviderOf(providers: seq<Provider>, id: string): Option<Provider> {
    if providers == [] then None
    else if providers[0].id == id then Some(providers[0])
    else ProviderOf(providers[1..], id)
  }

  lemma {:induction false} ProviderOfIs(providers: seq<Provider>, id: string)
    ensures ProviderOf(providers, id)
         == if ProviderAt(providers, id) == |providers| then None else Some(providers[ProviderAt(providers, id)])
  {
    if providers != [] && providers[0].id != id { ProviderOfIs(providers[1..], id); }
  }

  lemma {:induction false} OthersKeep(providers: seq<Provider>, id: string, provider: string)
    requires provider != id
    ensures ProviderOf(Others(providers, id), provider) == ProviderOf(providers, provider)
  {
    if providers != [] {
      OthersKeep(providers[1..], id, provider);
      var rest := Others(providers[1..], id);
      assert Others(providers, id) == (if providers[0].id == id then [] else [providers[0]]) + rest;
      assert ([providers[0]] + rest)[1..] == rest && [] + rest == rest;
    }
  }

  /** A deletion takes one provider's models away and touches no other. */
  lemma DeleteHidesOne(d: Document, id: string, provider: string, model: string)
    requires Deleted(d, id).Some?
    ensures Shows(Deleted(d, id).value, provider, model) <==> provider != id && Shows(d, provider, model)
  {
    var rest := Others(d.providers, id);
    if provider == id {
      assert forall k :: 0 <= k < |rest| ==> rest[k] in rest && rest[k].id != id;
    } else {
      OthersKeep(d.providers, id, provider);
      ProviderOfIs(rest, provider);
      ProviderOfIs(d.providers, provider);
    }
  }

  /** A stored key never follows its provider to another endpoint: it has to be typed again or cleared. */
  lemma KeyStaysWithItsEndpoint(host: Host, d: Document, base: string, input: UpsertProvider)
    requires ProviderAt(d.providers, input.id) < |d.providers| && Upserted(host, d, base, input).Some?
    ensures var (i, next) := (ProviderAt(d.providers, input.id), Upserted(host, d, base, input).value);
      && |next.providers| == |d.providers| && next.providers[i].apiBase == base
      && next.providers[i].protocol == input.protocol
      && (next.providers[i].apiKey.Some? && Supplied(input.apiKey).None? ==>
            next.providers[i].apiKey == d.providers[i].apiKey && base == d.providers[i].apiBase
              && input.protocol == d.providers[i].protocol)
  {
    if input.apiKey.Some? && !IsBlank(input.apiKey.value) { TrimKeepsText(input.apiKey.value); }
  }

  lemma TrimKeepsText(s: string)
    requires !IsBlank(s)
    ensures Trim(s) != ""
  {
    TrimStartKeeps(s);
    TrimEndKeeps(TrimStart(s));
  }

  lemma {:induction false} TrimStartKeeps(s: string)
    requires !IsBlank(s)
    ensures !IsBlank(TrimStart(s))
  {
    if IsWhitespace(s[0]) {
      var i :| 0 <= i < |s| && !IsWhitespace(s[i]);
      assert s[1..][i - 1] == s[i];
      TrimStartKeeps(s[1..]);
    }
  }

  lemma {:induction false} TrimEndKeeps(s: string)
    requires !IsBlank(s)
    ensures TrimEnd(s) != ""
  {
    if IsWhitespace(s[|s| - 1]) {
      var i :| 0 <= i < |s| && !IsWhitespace(s[i]);
      assert s[..|s| - 1][i] == s[i];
      TrimEndKeeps(s[..|s| - 1]);
    }
  }

  // ----- Routes -----

  datatype Bound = Bound(selection: Selection, config: AdapterConfig)

  function RouteId(provider: string, revision: nat, number: nat): string {
    "managed:" + provider + ":" + Decimal(revision) + ":" + Decimal(number)
  }

  lemma LastColon(a: string, m: string, b: string, n: string)
    requires ':' !in m && ':' !in n && a + [':'] + m == b + [':'] + n
    ensures m == n
  {
    var s, t := a + [':'] + m, b + [':'] + n;
    assert s[|a|] == ':' && t[|b|] == ':';
    assert forall i :: |a| < i < |s| ==> s[i] == m[i - |a| - 1];
    assert forall i :: |b| < i < |t| ==> t[i] == n[i - |b| - 1];
    assert |a| == |b|;
    assert s[|a| + 1..] == m && t[|b| + 1..] == n;
  }

  /** Two routes with different numbers never share an id, whatever the provider and revision. */
  lemma RouteIdsDiffer(p: string, r: nat, m: nat, q: string, t: nat, n: nat)
    requires RouteId(p, r, m) == RouteId(q, t, n)
    ensures m == n
  {
    LastColon("managed:" + p + ":" + Decimal(r), Decimal(m), "managed:" + q + ":" + Decimal(t), Decimal(n));
    DecimalValue(m);
    DecimalValue(n);
  }

  /** The id was handed out before the counter reached `sequence`. */
  ghost predicate Issued(id: string, sequence: nat) {
    exists p: string, r: nat, n: nat :: n < sequence && id == RouteId(p, r, n)
  }

  // ----- The manager -----

  class ModelManager {
    const host: Host
    var document: Document
    var stored: Option<Document>
    var bindings: map<string, Bound>
    var sequence: nat

    /** What is in memory is valid and, once anything was written, is what is stored. */
    ghost predicate Valid()
      reads this
    {
      && ValidDocument(host, document) && (document.revision > 0 ==> stored == Some(document))
      && forall id :: id in bindings ==> Issued(id, sequence)
    }

    constructor (host: Host, stored: Option<Document>)
      requires stored.Some? ==> ValidDocument(host, stored.value)
      ensures Valid() && this.host == host && this.stored == stored && bindings == map[] && sequence == 1
      ensures document == if stored.Some? then stored.value else NO_SETTINGS
    {
      this.host, this.stored := host, stored;
      document := if stored.Some? then stored.value else NO_SETTINGS;
      bindings, sequence := map[], 1;
    }

    /** `open`: settings that cannot be loaded, or do not validate, are refused. */
    static method Open(host: Host, loaded: Result<Option<Document>, Error>) returns (manager: ModelManager?)
      ensures manager != null <==> loaded.Ok? && (loaded.value.Some? ==> ValidDocument(host, loaded.value.value))
      ensures manager != null ==>
                fresh(manager) && manager.Valid() && manager.host == host && manager.stored == loaded.value
                && manager.document == (if loaded.value.Some? then loaded.value.value else NO_SETTINGS)
    {
      hide ValidDocument;
      if loaded.Err? { return null; }
      if loaded.value.Some? && !ValidDocument(host, loaded.value.value) { return null; }
      manager := new ModelManager(host, loaded.value);
    }

    /** `update`: nothing is published in memory before it is stored. */
    method Update(revision: nat, change: Document -> Option<Document>, saves: bool) returns (r: Result<Document, Error>)
      requires Valid()
      modifies this`document, this`stored
      ensures Valid()
      ensures r == Transaction(host, old(document), revision, change, saves)
      ensures r.Ok? ==> document == r.value
      ensures r.Err? ==> document == old(document) && stored == old(stored)
    {
      hide ValidDocument;
      if document.revision != revision { return Err(Stale); }
      var changed := change(document);
      if changed.None? { return Err(Refused); }
      var next := changed.value;
      if next.revision >= WORD_MAX { return Err(Exhausted); }
      RevisionDoesNotMatter(host, next);
      next := next.(revision := next.revision + 1);
      if !ValidDocument(host, next) { return Err(Invalid); }
      if !saves { return Err(NotSaved); }
      stored := Some(next);
      document := next;
      r := Ok(next);
    }

    method Upsert(input: UpsertProvider, saves: bool) returns (r: Result<Document, Error>)
      requires Valid()
      modifies this`document, this`stored
      ensures Valid()
      ensures var base := host.normalize(input.apiBase, input.protocol);
        r == if base.None? then Err(Refused)
             else Transaction(host, old(document), input.revision, d => Upserted(host, d, base.value, input), saves)
      ensures r.Ok? ==> document == r.value
      ensures r.Err? ==> document == old(document) && stored == old(stored)
    {
      var base := host.normalize(input.apiBase, input.protocol);
      if base.None? { return Err(Refused); }
      var h := host;
      r := Update(input.revision, d => Upserted(h, d, base.value, input), saves);
    }

    /** Goes through whenever it is current, names a provider, and can be stored. */
    method Delete(revision: nat, id: string, saves: bool) returns (r: Result<Document, Error>)
      requires Valid()
      modifies this`document, this`stored
      ensures Valid()
      ensures r == Unhindered(old(document), revision, Deleted(old(document), id), saves)
      ensures r.Ok? ==> document == r.value
      ensures r.Err? ==> document == old(document) && stored == old(stored)
    {
      hide ValidDocument;
      if Deleted(document, id).Some? { DeleteStaysValid(host, document, id); }
      r := Update(revision, d => Deleted(d, id), saves);
    }

    /** Goes through whenever it is current, names a model, and can be stored. */
    method SetDefault(revision: nat, s: Selection, saves: bool) returns (r: Result<Document, Error>)
      requires Valid()
      modifies this`document, this`stored
      ensures Valid()
      ensures r == Unhindered(old(document), revision, WithDefault(old(document), s), saves)
      ensures r.Ok? ==> document == r.value && document.selected == Some(s)
      ensures r.Err? ==> document == old(document) && stored == old(stored)
    {
      hide ValidDocument;
      if WithDefault(document, s).Some? { DefaultStaysValid(host, document, s); }
      r := Update(revision, d => WithDefault(d, s), saves);
    }

    /** Goes through whenever it is current, names a provider or model, and can be stored. */
    method SetVisibility(revision: nat, id: string, model: Option<string>, enabled: bool, saves: bool)
      returns (r: Result<Document, Error>)
      requires Valid()
      modifies this`document, this`stored
      ensures Valid()
      ensures r == Unhindered(old(document), revision, WithVisibility(old(document), id, model, enabled), saves)
      ensures r.Ok? ==> document == r.value && document.selected == old(document).selected
      ensures r.Err? ==> document == old(document) && stored == old(stored)
    {
      hide ValidDocument;
      if WithVisibility(document, id, model, enabled).Some? {
        VisibilityStaysValid(host, document, id, model, enabled);
      }
      r := Update(revision, d => WithVisibility(d, id, model, enabled), saves);
    }

    /** `seed`: only a store that was never written takes an initial provider, as given but for its endpoint. */
    method Seed(input: UpsertProvider, extraBody: string, saves: bool) returns (error: Option<Error>)
      requires Valid()
      modifies this`document, this`stored
      ensures Valid()
      ensures old(document).revision != 0 || error.Some? ==> document == old(document) && stored == old(stored)
      ensures old(document).revision != 0 ==> error.None?
      ensures old(document).revision == 0 ==>
                var seeded := Seeded(host, input, extraBody);
                && error == (if seeded.None? then Some(Refused)
                             else if !ValidDocument(host, seeded.value) then Some(Invalid)
                             else if !saves then Some(NotSaved) else None)
                && (error.None? ==> document == seeded.value && stored == seeded)
    {
      hide ValidDocument;
      if document.revision != 0 { return None; }
      var body := extraBody;
      if input.generation.Some? {
        if input.protocol.ChatCompletions? && input.generation.value != host.noBody { return Some(Refused); }
        body := host.merge(extraBody, input.generation.value);
      }
      var base := host.normalize(input.apiBase, input.protocol);
      if base.None? { return Some(Refused); }
      var p := Provider(input.protocol, input.id, input.name, base.value, input.apiKey, input.models, body);
      var next := Document(2, 1, [p], DefaultOf(p));
      if !ValidDocument(host, next) { return Some(Invalid); }
      if !saves { return Some(NotSaved); }
      stored := Some(next);
      document := next;
      error := None;
    }

    /** `bind_selected`: pin a route for one task. It is refused exactly when no model is selected, the selected one is
        not offered, or its adapter cannot be built. */
    method Bind(requested: Option<Selection>) returns (r: Result<string, Error>)
      requires Valid()
      modifies this`bindings, this`sequence
      ensures Valid()
      ensures var selection := if requested.Some? then requested else document.selected;
        && (r.Ok? <==> selection.Some? && Shows(document, selection.value.provider, selection.value.model)
                       && host.adapts(ConfigOf(document, selection.value)))
        && (r.Ok? ==>
              && r.value == RouteId(selection.value.provider, document.revision, old(sequence))
              && RouteStep(Routes(old(bindings), old(sequence)),
                           Opened(document.revision, Bound(selection.value, ConfigOf(document, selection.value))))
                 == Routes(bindings, sequence))
      ensures r.Ok? ==> r.value !in old(bindings) && r.value in bindings
      ensures r.Ok? ==> bindings.Keys == old(bindings).Keys + {r.value} && sequence == old(sequence) + 1
      ensures r.Ok? ==> forall id :: id in old(bindings) ==> bindings[id] == old(bindings)[id]
      ensures r.Err? ==> r.error == Refused && bindings == old(bindings) && sequence == old(sequence)
    {
      hide ValidDocument, RouteId, Shows, ConfigOf;
      var selection := if requested.Some? then requested else document.selected;
      if selection.None? { return Err(Refused); }
      var s := selection.value;
      var config := Adapter(s);
      if config.None? { return Err(Refused); }
      var id := RouteId(s.provider, document.revision, sequence);
      NewRoute(bindings, sequence, s.provider, document.revision);
      bindings := bindings[id := Bound(s, config.value)];
      sequence := sequence + 1;
      r := Ok(id);
    }

    /** The adapter of an offered model. */
    method Adapter(s: Selection) returns (config: Option<AdapterConfig>)
      requires Valid()
      ensures config == if Shows(document, s.provider, s.model) && host.adapts(ConfigOf(document, s))
                        then Some(ConfigOf(document, s)) else None
    {
      hide Config;
      var i := ProviderAt(document.providers, s.provider);
      if i == |document.providers| { return None; }
      var p := document.providers[i];
      ShownInProvider(host, document, s, i);
      hide ValidDocument, Shows;
      if !exists k :: 0 <= k < |p.models| && p.models[k].id == s.model && p.models[k].enabled { return None; }
      config := if host.adapts(Config(p, s.model)) then Some(Config(p, s.model)) else None;
    }

    /** Dropping a binding frees its route. */
    method Unbind(id: string)
      requires Valid()
      modifies this`bindings
      ensures Valid() && Routes(bindings, sequence) == RouteStep(Routes(old(bindings), sequence), Closed(id))
      ensures id !in bindings && forall other :: other != id ==>
                (other in bindings <==> other in old(bindings))
                && (other in bindings ==> bindings[other] == old(bindings)[other])
    {
      bindings := bindings - {id};
    }
  }

  const NO_SETTINGS: Document := Document(2, 0, [], None)

  /** What one transaction answers: it must be written against the current revision, be possible, have a revision
      left, leave a valid document, and be stored; then the document is the changed one, a revision later. */
  function Transaction(host: Host, before: Document, revision: nat, change: Document -> Option<Document>, saves: bool)
    : Result<Document, Error>
  {
    var changed := change(before);
    if before.revision != revision then Err(Stale)
    else if changed.None? then Err(Refused)
    else if changed.value.revision >= WORD_MAX then Err(Exhausted)
    else if !ValidDocument(host, changed.value) then Err(Invalid)
    else if !saves then Err(NotSaved)
    else Ok(changed.value.(revision := changed.value.revision + 1))
  }

  /** The same for a change that validation cannot refuse. */
  function Unhindered(before: Document, revision: nat, changed: Option<Document>,
                      saves: bool): Result<Document, Error> {
    if before.revision != revision then Err(Stale)
    else if changed.None? then Err(Refused)
    else if changed.value.revision >= WORD_MAX then Err(Exhausted)
    else if !saves then Err(NotSaved)
    else Ok(changed.value.(revision := changed.value.revision + 1))
  }

  /** The document an initial provider makes. */
  function Seeded(host: Host, input: UpsertProvider, extraBody: string): Option<Document> {
    var base := host.normalize(input.apiBase, input.protocol);
    if base.None?
      || (input.generation.Some? && input.protocol.ChatCompletions? && input.generation.value != host.noBody)
    then None
    else
      var body := if input.generation.None? then extraBody else host.merge(extraBody, input.generation.value);
      var p := Provider(input.protocol, input.id, input.name, base.value, input.apiKey, input.models, body);
      Some(Document(2, 1, [p], DefaultOf(p)))
  }

  function ConfigOf(d: Document, s: Selection): AdapterConfig {
    var i := ProviderAt(d.providers, s.provider);
    if i < |d.providers| then Config(d.providers[i], s.model)
    else AdapterConfig(ChatCompletions, "", s.model, "", None, "", None, s.provider)
  }

  lemma RevisionDoesNotMatter(host: Host, d: Document)
    ensures ValidDocument(host, d.(revision := d.revision + 1)) == ValidDocument(host, d)
  {
  }

  /** Model ids are unique in a provider, so looking for an enabled one and looking one up agree. */
  lemma ShownInProvider(host: Host, d: Document, s: Selection, i: nat)
    requires ValidDocument(host, d) && i == ProviderAt(d.providers, s.provider) < |d.providers|
    ensures Shows(d, s.provider, s.model) <==>
              exists k :: 0 <= k < |d.providers[i].models| && d.providers[i].models[k].id == s.model
                          && d.providers[i].models[k].enabled
  {
    assert ValidProvider(host, d.providers[i]);
  }

  lemma NewRoute(bindings: map<string, Bound>, sequence: nat, provider: string, revision: nat)
    requires forall id :: id in bindings ==> Issued(id, sequence)
    ensures RouteId(provider, revision, sequence) !in bindings
            && Issued(RouteId(provider, revision, sequence), sequence + 1)
    ensures forall id :: id in bindings ==> Issued(id, sequence + 1)
  {
    var id := RouteId(provider, revision, sequence);
    hide RouteId;
    if id in bindings {
      var p: string, r: nat, n: nat :| n < sequence && id == RouteId(p, r, n);
      RouteIdsDiffer(p, r, n, provider, revision, sequence);
    }
    forall other | other in bindings ensures Issued(other, sequence + 1) {
      var p: string, r: nat, n: nat :| n < sequence && other == RouteId(p, r, n);
      assert n < sequence + 1;
    }
  }

  // ----- Live routes -----

  datatype Routes = Routes(bindings: map<string, Bound>, sequence: nat)

  datatype RouteEvent = Opened(revision: nat, bound: Bound) | Closed(id: string)

  function RouteStep(s: Routes, e: RouteEvent): Routes {
    match e
    case Opened(revision, bound) =>
      Routes(s.bindings[RouteId(bound.selection.provider, revision, s.sequence) := bound], s.sequence + 1)
    case Closed(id) => Routes(s.bindings - {id}, s.sequence)
  }

  function RunRoutes(events: seq<RouteEvent>): Routes {
    if events == [] then Routes(map[], 1) else RouteStep(RunRoutes(events[..|events| - 1]), events[|events| - 1])
  }

  lemma {:induction false} RoutesIssued(events: seq<RouteEvent>)
    ensures forall id :: id in RunRoutes(events).bindings ==> Issued(id, RunRoutes(events).sequence)
    decreases |events|
  {
    hide Issued, RouteId;
    if events != [] {
      var front, e := events[..|events| - 1], events[|events| - 1];
      RoutesIssued(front);
      if e.Opened? {
        NewRoute(RunRoutes(front).bindings, RunRoutes(front).sequence, e.bound.selection.provider, e.revision);
      }
    }
  }

  /** A route means the same model for as long as it exists, whatever is bound or dropped later; and an id that was
      dropped never comes back for another. */
  lemma {:induction false} RouteIsForGood(events: seq<RouteEvent>, n: nat, id: string)
    requires n <= |events| && id in RunRoutes(events[..n]).bindings
    ensures Issued(id, RunRoutes(events).sequence)
    ensures id in RunRoutes(events).bindings ==> RunRoutes(events).bindings[id] == RunRoutes(events[..n]).bindings[id]
    decreases |events|
  {
    hide RouteId;
    if n == |events| {
      assert events[..n] == events;
      RoutesIssued(events);
    } else {
      var front, e := events[..|events| - 1], events[|events| - 1];
      assert front[..n] == events[..n];
      RouteIsForGood(front, n, id);
      var p: string, r: nat, k: nat :| k < RunRoutes(front).sequence && id == RouteId(p, r, k);
      if e.Opened? && id == RouteId(e.bound.selection.provider, e.revision, RunRoutes(front).sequence) {
        RouteIdsDiffer(p, r, k, e.bound.selection.provider, e.revision, RunRoutes(front).sequence);
      }
      assert k < RunRoutes(events).sequence;
    }
  }
}
