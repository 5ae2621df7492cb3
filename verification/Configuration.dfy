/** Configuration, the provider registry built from it, and hot reload
    (internal/config/config.go:102-241, internal/providers/factory.go, internal/server/server.go:22-93,
    cmd/fuse-sidecar/main.go:46-107). */
module Configuration {
  import opened Wrappers
  import opened Providers
  import opened Panel

  datatype ProviderConfig = ProviderConfig(apiKeyEnv: string, baseURL: string)

  /** The fields of a configuration that matter here. */
  datatype Settings = Settings(
    listen: string, logLevel: string, snapshotRetention: int, reasoningBlocksEnabled: bool,
    providers: map<string, ProviderConfig>, models: map<string, Model>)

  type Environment = map<string, string>

  function Getenv(env: Environment, name: string): string { if name in env then env[name] else "" }

  // ---------- Defaults ----------

  function DefaultedModel(m: Model): Model {
    m.(panelTimeoutMs := if m.panelTimeoutMs == 0 then 25000 else m.panelTimeoutMs,
       panelMinSuccess := if m.panelMinSuccess == 0 then 2 else m.panelMinSuccess)
  }

  function Defaulted(s: Settings): Settings {
    s.(listen := if s.listen == "" then "127.0.0.1:7777" else s.listen,
       logLevel := if s.logLevel == "" then "info" else s.logLevel,
       snapshotRetention := if s.snapshotRetention == 0 then 1000 else s.snapshotRetention,
       models := map id | id in s.models :: DefaultedModel(s.models[id]))
  }

  /** What a configuration is after defaults: what was left out has its default, all else is as it was. */
  predicate HasDefaults(s: Settings, given: Settings) {
    && s.listen == (if given.listen == "" then "127.0.0.1:7777" else given.listen)
    && s.logLevel == (if given.logLevel == "" then "info" else given.logLevel)
    && s.snapshotRetention == (if given.snapshotRetention == 0 then 1000 else given.snapshotRetention)
    && s.reasoningBlocksEnabled == given.reasoningBlocksEnabled && s.providers == given.providers
    && s.models.Keys == given.models.Keys
    && forall id :: id in s.models ==> ModelHasDefaults(s.models[id], given.models[id])
  }

  predicate ModelHasDefaults(m: Model, given: Model) {
    && m.primary == given.primary && m.panel == given.panel && m.judge == given.judge
    && m.panelTimeoutMs == (if given.panelTimeoutMs == 0 then 25000 else given.panelTimeoutMs)
    && m.panelMinSuccess == (if given.panelMinSuccess == 0 then 2 else given.panelMinSuccess)
  }

  lemma DefaultedHasDefaults(s: Settings)
    ensures HasDefaults(Defaulted(s), s)
  {
  }

  // ---------- Validation ----------

  predicate EndpointValid(providers: map<string, ProviderConfig>, e: Endpoint) {
    e.provider != "" && e.model != "" && e.provider in providers
  }

  predicate ModelValid(providers: map<string, ProviderConfig>, m: Model) {
    && EndpointValid(providers, m.primary) && EndpointValid(providers, m.judge)
    && |m.panel| > 0 && (forall i :: 0 <= i < |m.panel| ==> EndpointValid(providers, m.panel[i]))
    && 1 <= m.panelMinSuccess <= |m.panel| && m.panelTimeoutMs >= 1000
  }

  /** Lower case as far as it can make an ASCII word: of all letters beyond ASCII only the dotted capital
      I, the bytes C4 B0, goes with a letter of the words below. */
  function Lower(s: string): string {
    if s == "" then ""
    else if |s| > 1 && s[0] as int == 0xC4 && s[1] as int == 0xB0 then "i" + Lower(s[2..])
    else [if 'A' <= s[0] <= 'Z' then s[0] + 32 as char else s[0]] + Lower(s[1..])
  }

  /** Of ASCII words the capitals are folded, and nothing else. */
  lemma {:induction false} LowerFolds(s: string)
    requires forall k :: 0 <= k < |s| ==> s[k] as int < 0x80
    ensures |Lower(s)| == |s|
    ensures forall k :: 0 <= k < |s| ==>
              Lower(s)[k] as int == (if 'A' <= s[k] <= 'Z' then s[k] as int + 32 else s[k] as int)
  {
    if s != "" {
      LowerFolds(s[1..]);
      assert s[0] as int != 0xC4;
    }
  }

  predicate LevelValid(level: string) { Lower(level) in ["debug", "info", "warn", "error"] }

  predicate ProviderValid(env: Environment, p: ProviderConfig) {
    p.apiKeyEnv != "" && Getenv(env, p.apiKeyEnv) != ""
  }

  /** What a configuration must satisfy to be accepted. */
  predicate Acceptable(s: Settings, env: Environment) {
    && s.listen != "" && |s.providers| > 0 && |s.models| > 0 && LevelValid(s.logLevel)
    && (forall id :: id in s.providers ==> ProviderValid(env, s.providers[id]))
    && (forall id :: id in s.models ==> ModelValid(s.providers, s.models[id]))
  }

  /** Acceptable in plain words: an address to listen on, providers with keys the environment has, a known
      log level in any case, and models whose endpoints name a provider there is and a model of it, whose
      panel is not empty and has its minimum within it, and whose timeout is a second at least. */
  ghost predicate Sensible(s: Settings, env: Environment) {
    && |s.listen| > 0 && s.providers != map[] && s.models != map[]
    && (var level := Lower(s.logLevel);
        level == "debug" || level == "info" || level == "warn" || level == "error")
    && (forall id :: id in s.providers ==>
          var name := s.providers[id].apiKeyEnv; |name| > 0 && name in env && |env[name]| > 0)
    && forall id :: id in s.models ==> SensibleModel(s.models[id], s.providers)
  }

  ghost predicate SensibleModel(m: Model, providers: map<string, ProviderConfig>) {
    && |m.panel| > 0 && 1 <= m.panelMinSuccess <= |m.panel| && m.panelTimeoutMs >= 1000
    && forall e :: e == m.primary || e == m.judge || e in m.panel ==>
         |e.provider| > 0 && |e.model| > 0 && e.provider in providers
  }

  lemma ModelIsSensible(m: Model, providers: map<string, ProviderConfig>)
    ensures ModelValid(providers, m) <==> SensibleModel(m, providers)
  {
    assert forall i :: 0 <= i < |m.panel| ==> m.panel[i] in m.panel;
  }

  lemma AcceptableIsSensible(s: Settings, env: Environment)
    ensures Acceptable(s, env) <==> Sensible(s, env)
  {
    forall id | id in s.models
      ensures ModelValid(s.providers, s.models[id]) <==> SensibleModel(s.models[id], s.providers)
    {
      ModelIsSensible(s.models[id], s.providers);
    }
    assert forall id :: id in s.providers ==>
      (ProviderValid(env, s.providers[id]) <==>
       var name := s.providers[id].apiKeyEnv; |name| > 0 && name in env && |env[name]| > 0);
  }

  datatype ConfigError =
    | ListenRequired | ProvidersRequired | ModelsRequired | BadLogLevel
    | KeyNameRequired(id: string) | KeyUnset(id: string)
    | BadEndpoint(id: string) | EmptyPanel(id: string) | MinSuccessTooLow(id: string)
    | MinSuccessTooHigh(id: string) | TimeoutTooShort(id: string)

  /** A configuration file in memory. */
  class Config {
    var settings: Settings

    constructor (settings: Settings)
      ensures this.settings == settings
    {
      this.settings := settings;
    }

    method ApplyDefaults()
      modifies this
      ensures settings == Defaulted(old(settings)) && HasDefaults(settings, old(settings))
    {
      DefaultedHasDefaults(settings);
      var s := settings;
      if s.listen == "" {
        s := s.(listen := "127.0.0.1:7777");
      }
      if s.logLevel == "" {
        s := s.(logLevel := "info");
      }
      if s.snapshotRetention == 0 {
        s := s.(snapshotRetention := 1000);
      }
      var models := DefaultModels(s.models);
      settings := s.(models := models);
    }

    method DefaultModels(given: map<string, Model>) returns (models: map<string, Model>)
      ensures models == map id | id in given :: DefaultedModel(given[id])
    {
      models := given;
      var left := given.Keys;
      while left != {}
        invariant left <= models.Keys == given.Keys
        invariant forall id :: id in models ==>
                    models[id] == if id in left then given[id] else DefaultedModel(given[id])
        decreases left
      {
        var id :| id in left;
        var m := models[id];
        if m.panelTimeoutMs == 0 {
          m := m.(panelTimeoutMs := 25000);
        }
        if m.panelMinSuccess == 0 {
          m := m.(panelMinSuccess := 2);
        }
        models := models[id := m];
        left := left - {id};
      }
    }

    /** Collects every complaint; there is none exactly when the configuration is acceptable. */
    method Validate(env: Environment) returns (errs: seq<ConfigError>)
      ensures errs == [] <==> Acceptable(settings, env)
      ensures errs == [] <==> Sensible(settings, env)
    {
      AcceptableIsSensible(settings, env);
      errs := [];
      if settings.listen == "" {
        errs := errs + [ListenRequired];
      }
      if |settings.providers| == 0 {
        errs := errs + [ProvidersRequired];
      }
      if |settings.models| == 0 {
        errs := errs + [ModelsRequired];
      }
      if !LevelValid(settings.logLevel) {
        errs := errs + [BadLogLevel];
      }
      ghost var good := errs == [];
      var left := settings.providers.Keys;
      while left != {}
        invariant left <= settings.providers.Keys
        invariant errs == [] <==>
                  good && forall id :: id in settings.providers && id !in left ==>
                    ProviderValid(env, settings.providers[id])
        decreases left
      {
        var id :| id in left;
        var p := settings.providers[id];
        if p.apiKeyEnv == "" {
          errs := errs + [KeyNameRequired(id)];
        } else if Getenv(env, p.apiKeyEnv) == "" {
          errs := errs + [KeyUnset(id)];
        }
        left := left - {id};
      }
      good := errs == [];
      left := settings.models.Keys;
      while left != {}
        invariant left <= settings.models.Keys
        invariant errs == [] <==>
                  good && forall id :: id in settings.models && id !in left ==>
                    ModelValid(settings.providers, settings.models[id])
        decreases left
      {
        var id :| id in left;
        var found := ValidateModel(id, settings.models[id]);
        errs := errs + found;
        left := left - {id};
      }
    }

    method ValidateModel(id: string, m: Model) returns (errs: seq<ConfigError>)
      ensures errs == [] <==> ModelValid(settings.providers, m)
    {
      errs := [];
      if !EndpointValid(settings.providers, m.primary) {
        errs := errs + [BadEndpoint(id)];
      }
      if !EndpointValid(settings.providers, m.judge) {
        errs := errs + [BadEndpoint(id)];
      }
      if |m.panel| == 0 {
        errs := errs + [EmptyPanel(id)];
      }
      ghost var good := errs == [];
      for i := 0 to |m.panel|
        invariant errs == [] <==> good && forall k :: 0 <= k < i ==> EndpointValid(settings.providers, m.panel[k])
      {
        if !EndpointValid(settings.providers, m.panel[i]) {
          errs := errs + [BadEndpoint(id)];
        }
      }
      if m.panelMinSuccess < 1 {
        errs := errs + [MinSuccessTooLow(id)];
      }
      if m.panelMinSuccess > |m.panel| {
        errs := errs + [MinSuccessTooHigh(id)];
      }
      if m.panelTimeoutMs < 1000 {
        errs := errs + [TimeoutTooShort(id)];
      }
    }
  }

  // ---------- The registry ----------

  function TrimSlashes(s: string): string {
    if s != "" && s[|s| - 1] == '/' then TrimSlashes(s[..|s| - 1]) else s
  }

  function OrDefault(url: string, default: string): string {
    TrimSlashes(if url == "" then default else url)
  }

  /** The provider constructed for an ID. A generic provider whose ID is empty takes the default name. */
  function ProviderFor(id: string, p: ProviderConfig, env: Environment): Provider {
    var key := Getenv(env, p.apiKeyEnv);
    if id == "anthropic" then Provider("anthropic", "anthropic", OrDefault(p.baseURL, "https://api.anthropic.com"), key)
    else Provider(if id == "" then "openai" else id, "openai", OrDefault(p.baseURL, "https://api.openai.com"), key)
  }

  /** Some text without the slashes at its end. */
  predicate Unslashed(t: string, s: string) {
    t <= s && (t == "" || t[|t| - 1] != '/') && forall k :: |t| <= k < |s| ==> s[k] == '/'
  }

  lemma {:induction false} SlashesTrimmed(s: string)
    ensures Unslashed(TrimSlashes(s), s)
  {
    if s != "" && s[|s| - 1] == '/' {
      SlashesTrimmed(s[..|s| - 1]);
    }
  }

  /** What is built for an ID: the Anthropic client for "anthropic" and the other one for all others, each
      under its own ID, with the key the environment has for it and the address given, or its usual one. */
  predicate BuiltFor(r: Provider, id: string, p: ProviderConfig, env: Environment) {
    && (id != "" ==> r.name == id) && (id == "" ==> r.name == "openai")
    && (id == "anthropic" ==> r.kind == "anthropic") && (id != "anthropic" ==> r.kind == "openai")
    && r.apiKey == (if p.apiKeyEnv in env then env[p.apiKeyEnv] else "")
    && Unslashed(r.baseURL, if p.baseURL != "" then p.baseURL
                            else if id == "anthropic" then "https://api.anthropic.com" else "https://api.openai.com")
  }

  lemma ProviderIsBuiltFor(id: string, p: ProviderConfig, env: Environment)
    ensures BuiltFor(ProviderFor(id, p, env), id, p, env)
  {
    SlashesTrimmed(if p.baseURL != "" then p.baseURL
                   else if id == "anthropic" then "https://api.anthropic.com" else "https://api.openai.com");
  }

  predicate BuiltIn(id: string) { id == "anthropic" || id == "openai" }

  predicate Constructible(id: string, p: ProviderConfig, env: Environment) {
    Getenv(env, p.apiKeyEnv) != "" && (BuiltIn(id) || p.baseURL != "")
  }

  /** Registering the providers in some order; the last registration of a name wins. */
  function RegistryFrom(ps: map<string, ProviderConfig>, env: Environment, order: seq<string>,
                        reg: Registry): Option<Registry>
    requires forall i :: 0 <= i < |order| ==> order[i] in ps
    decreases |order|
  {
    if order == [] then Some(reg)
    else if !Constructible(order[0], ps[order[0]], env) then None
    else
      var p := ProviderFor(order[0], ps[order[0]], env);
      RegistryFrom(ps, env, order[1..], reg[p.name := p])
  }

  /** The order in which a map's keys may come up. */
  ghost predicate OrderOf(order: seq<string>, ps: map<string, ProviderConfig>) {
    && (forall i :: 0 <= i < |order| ==> order[i] in ps)
    && (forall id :: id in ps ==> id in order)
    && Distinct(order)
  }

  ghost predicate Distinct(order: seq<string>) {
    forall i, j :: 0 <= i < j < |order| ==> order[i] != order[j]
  }

  /** Every provider has a key, and a base URL unless it is one of the two built in. */
  ghost predicate Buildable(ps: map<string, ProviderConfig>, env: Environment) {
    forall id :: id in ps ==>
      var p := ps[id];
      && p.apiKeyEnv in env && |env[p.apiKeyEnv]| > 0
      && (id == "anthropic" || id == "openai" || |p.baseURL| > 0)
  }

  lemma {:induction false} RegistersEach(ps: map<string, ProviderConfig>, env: Environment, order: seq<string>,
                                         reg: Registry)
    requires forall i :: 0 <= i < |order| ==> order[i] in ps
    ensures RegistryFrom(ps, env, order, reg).Some? <==> forall id :: id in order ==> Constructible(id, ps[id], env)
    decreases |order|
  {
    if order != [] {
      var p := ProviderFor(order[0], ps[order[0]], env);
      assert order == [order[0]] + order[1..];
      RegistersEach(ps, env, order[1..], reg[p.name := p]);
    }
  }

  /** In whatever order, there is a registry exactly when every provider can be built. */
  lemma RegistersWhenBuildable(ps: map<string, ProviderConfig>, env: Environment, order: seq<string>)
    requires OrderOf(order, ps)
    ensures RegistryFrom(ps, env, order, map[]).Some? <==> Buildable(ps, env)
  {
    RegistersEach(ps, env, order, map[]);
    assert forall id :: id in order <==> id in ps;
    forall id | id in ps
      ensures var p := ps[id];
              Constructible(id, p, env) <==>
              p.apiKeyEnv in env && |env[p.apiKeyEnv]| > 0 && (id == "anthropic" || id == "openai" || |p.baseURL| > 0)
    {
    }
  }

  /** Builds the registry, taking the providers in the order the map yields them. */
  method BuildRegistry(ps: map<string, ProviderConfig>, env: Environment, order: seq<string>)
      returns (reg: Option<Registry>)
    requires OrderOf(order, ps)
    ensures reg == RegistryFrom(ps, env, order, map[])
    ensures reg.Some? <==> Buildable(ps, env)
  {
    RegistersWhenBuildable(ps, env, order);
    var registry: Registry := map[];
    var i := 0;
    assert order[0..] == order;
    while i < |order|
      invariant 0 <= i <= |order|
      invariant RegistryFrom(ps, env, order[i..], registry) == RegistryFrom(ps, env, order, map[])
    {
      var id := order[i];
      assert order[i..][0] == id && order[i..][1..] == order[i + 1..];
      if Getenv(env, ps[id].apiKeyEnv) == "" {
        return None;
      }
      if !BuiltIn(id) && ps[id].baseURL == "" {
        return None;
      }
      var p := ProviderFor(id, ps[id], env);
      registry := registry[p.name := p];
      i := i + 1;
    }
    reg := Some(registry);
  }

  // ---------- Which provider an ID resolves to ----------

  /** Later registrations that bring nothing new leave a name as it is. */
  lemma {:induction false} Untouched(ps: map<string, ProviderConfig>, env: Environment, order: seq<string>,
                                     reg: Registry, n: string)
    requires forall i :: 0 <= i < |order| ==> order[i] in ps
    requires n in reg && RegistryFrom(ps, env, order, reg).Some?
    requires forall i :: 0 <= i < |order| && ProviderFor(order[i], ps[order[i]], env).name == n ==>
               ProviderFor(order[i], ps[order[i]], env) == reg[n]
    ensures n in RegistryFrom(ps, env, order, reg).value && RegistryFrom(ps, env, order, reg).value[n] == reg[n]
    decreases |order|
  {
    if order != [] {
      var p := ProviderFor(order[0], ps[order[0]], env);
      assert order == [order[0]] + order[1..];
      Untouched(ps, env, order[1..], reg[p.name := p], n);
    }
  }

  /** The one way two IDs get in each other's way: a generic provider with an empty ID takes the
      name "openai". */
  predicate Clash(ps: map<string, ProviderConfig>, env: Environment) {
    "" in ps && "openai" in ps && ProviderFor("", ps[""], env) != ProviderFor("openai", ps["openai"], env)
  }

  lemma {:induction false} Resolves(ps: map<string, ProviderConfig>, env: Environment, order: seq<string>,
                                    reg: Registry, id: string)
    requires forall i :: 0 <= i < |order| ==> order[i] in ps
    requires Distinct(order) && id in order && id != "" && !Clash(ps, env)
    requires RegistryFrom(ps, env, order, reg).Some?
    ensures var r := RegistryFrom(ps, env, order, reg).value; id in r && r[id] == ProviderFor(id, ps[id], env)
    decreases |order|
  {
    var p := ProviderFor(order[0], ps[order[0]], env);
    var (rest, next) := (order[1..], reg[p.name := p]);
    assert order == [order[0]] + rest;
    if order[0] == id {
      forall i | 0 <= i < |rest| && ProviderFor(rest[i], ps[rest[i]], env).name == id
        ensures ProviderFor(rest[i], ps[rest[i]], env) == next[id]
      {
        assert order[i + 1] != order[0];
      }
      Untouched(ps, env, rest, next, id);
    } else {
      Resolves(ps, env, rest, next, id);
    }
  }

  ghost predicate AllConstructible(ps: map<string, ProviderConfig>, env: Environment) {
    forall id :: id in ps ==> Constructible(id, ps[id], env)
  }

  lemma {:induction false} KeysInSomeOrder(keys: set<string>) returns (order: seq<string>)
    ensures Distinct(order) && forall id :: id in order <==> id in keys
  {
    if keys == {} {
      return [];
    }
    var x :| x in keys;
    order := KeysInSomeOrder(keys - {x});
    order := order + [x];
  }

  lemma {:induction false} LastWins(ps: map<string, ProviderConfig>, env: Environment, order: seq<string>,
                                    reg: Registry, id: string)
    requires (forall i :: 0 <= i < |order| ==> order[i] in ps) && id in ps && AllConstructible(ps, env)
    ensures var r := RegistryFrom(ps, env, order + [id], reg); var p := ProviderFor(id, ps[id], env);
            r.Some? && p.name in r.value && r.value[p.name] == p
    decreases |order|
  {
    var p := ProviderFor(id, ps[id], env);
    if order == [] {
      assert order + [id] == [id] && [id][1..] == [];
    } else {
      var q := ProviderFor(order[0], ps[order[0]], env);
      assert order + [id] == [order[0]] + (order[1..] + [id]);
      LastWins(ps, env, order[1..], reg[q.name := q], id);
    }
  }

  /** Every non-empty ID resolves to the provider built for it. */
  ghost predicate ResolvesAll(ps: map<string, ProviderConfig>, env: Environment, order: seq<string>)
    requires OrderOf(order, ps)
  {
    var r := RegistryFrom(ps, env, order, map[]);
    r.Some? && forall id :: id in ps && id != "" ==> id in r.value && r.value[id] == ProviderFor(id, ps[id], env)
  }

  /** An order in which a clashing empty ID takes the name "openai" for itself. */
  lemma EmptyIDLast(ps: map<string, ProviderConfig>, env: Environment) returns (order: seq<string>)
    requires AllConstructible(ps, env) && Clash(ps, env)
    ensures OrderOf(order, ps)
    ensures var r := RegistryFrom(ps, env, order, map[]);
            r.Some? && "openai" in r.value && r.value["openai"] == ProviderFor("", ps[""], env)
  {
    var others := KeysInSomeOrder(ps.Keys - {""});
    order := others + [""];
    forall i | 0 <= i < |others| ensures others[i] in ps && others[i] != "" {
      assert others[i] in others;
    }
    forall id | id in ps ensures id in order {
      assert id in others || id == order[|others|];
    }
    LastWins(ps, env, others, map[], "");
  }

  /** Whatever order the map yields its providers in, every non-empty ID resolves to the provider
      built for it, exactly when no empty ID clashes with "openai". */
  lemma EveryOrderResolves(ps: map<string, ProviderConfig>, env: Environment)
    requires AllConstructible(ps, env)
    ensures (forall order :: OrderOf(order, ps) ==> ResolvesAll(ps, env, order)) <==> !Clash(ps, env)
  {
    if Clash(ps, env) {
      var order := EmptyIDLast(ps, env);
      assert RegistryFrom(ps, env, order, map[]).value["openai"] != ProviderFor("openai", ps["openai"], env);
    } else {
      forall order | OrderOf(order, ps) ensures ResolvesAll(ps, env, order) {
        RegistersEach(ps, env, order, map[]);
        forall id | id in ps && id != ""
          ensures var r := RegistryFrom(ps, env, order, map[]).value; id in r && r[id] == ProviderFor(id, ps[id], env)
        {
          Resolves(ps, env, order, map[], id);
        }
      }
    }
  }

  // ---------- Startup and reload ----------

  /** What requests run on: configuration and registry swapped together. */
  datatype Live = Live(settings: Settings, registry: Registry)

  /** One attempt to load: the decoded file if it could be read, the environment, the map order. */
  datatype Attempt = Attempt(file: Option<Settings>, env: Environment, order: seq<string>)

  ghost predicate Possible(a: Attempt) {
    a.file.Some? ==> OrderOf(a.order, Defaulted(a.file.value).providers)
  }

  function Loaded(a: Attempt): Option<Live>
    requires Possible(a)
  {
    if a.file.None? then None
    else
      var s := Defaulted(a.file.value);
      if !Acceptable(s, a.env) then None
      else
        match RegistryFrom(s.providers, a.env, a.order, map[])
        case None => None
        case Some(reg) => Some(Live(s, reg))
  }

  method Load(a: Attempt) returns (live: Option<Live>)
    requires Possible(a)
    ensures live == Loaded(a)
  {
    if a.file.None? {
      return None;
    }
    var c := new Config(a.file.value);
    c.ApplyDefaults();
    var errs := c.Validate(a.env);
    if |errs| > 0 {
      return None;
    }
    var reg := BuildRegistry(c.settings.providers, a.env, a.order);
    if reg.None? {
      return None;
    }
    return Some(Live(c.settings, reg.value));
  }

  /** The server's swappable state. */
  class LiveState {
    var live: Live

    constructor (live: Live)
      ensures this.live == live
    {
      this.live := live;
    }

    /** A reload that fails anywhere keeps the old pair. */
    method Reload(a: Attempt)
      requires Possible(a)
      modifies this
      ensures live == AfterReload(old(live), a)
    {
      var next := Load(a);
      if next.Some? {
        live := next.value;
      }
    }
  }

  function AfterReload(live: Live, a: Attempt): Live
    requires Possible(a)
  {
    if Loaded(a).Some? then Loaded(a).value else live
  }

  function AfterReloads(live: Live, attempts: seq<Attempt>): Live
    requires forall i :: 0 <= i < |attempts| ==> Possible(attempts[i])
    decreases |attempts|
  {
    if attempts == [] then live else AfterReloads(AfterReload(live, attempts[0]), attempts[1..])
  }

  /** The pair comes out of one and the same successful load. */
  ghost predicate Published(live: Live) {
    exists a :: Possible(a) && Loaded(a) == Some(live)
  }

  lemma {:induction false} AlwaysPublished(live: Live, attempts: seq<Attempt>)
    requires Published(live) && forall i :: 0 <= i < |attempts| ==> Possible(attempts[i])
    ensures Published(AfterReloads(live, attempts))
    decreases |attempts|
  {
    if attempts != [] {
      AlwaysPublished(AfterReload(live, attempts[0]), attempts[1..]);
    }
  }

  function EndpointsOf(m: Model): seq<Endpoint> { [m.primary, m.judge] + m.panel }

  /** Every endpoint of the model resolves to the provider built for its ID from this very configuration. */
  ghost predicate Resolved(live: Live, m: Model, env: Environment) {
    forall e :: e in EndpointsOf(m) ==>
      && e.provider in live.settings.providers && e.provider in live.registry
      && live.registry[e.provider] == ProviderFor(e.provider, live.settings.providers[e.provider], env)
      && BuiltFor(live.registry[e.provider], e.provider, live.settings.providers[e.provider], env)
  }

  lemma LoadedModelsResolve(a: Attempt, live: Live, m: Model)
    requires Possible(a) && Loaded(a) == Some(live)
    requires m in live.settings.models.Values && !Clash(live.settings.providers, a.env)
    ensures Resolved(live, m, a.env)
  {
    var ps := live.settings.providers;
    forall e | e in EndpointsOf(m)
      ensures e.provider in ps && e.provider in live.registry
      ensures live.registry[e.provider] == ProviderFor(e.provider, ps[e.provider], a.env)
      ensures BuiltFor(live.registry[e.provider], e.provider, ps[e.provider], a.env)
    {
      ValidEndpoints(ps, m, e);
      ProviderIsBuiltFor(e.provider, ps[e.provider], a.env);
      Resolves(ps, a.env, a.order, map[], e.provider);
    }
  }

  /** After any history of startup, failed and successful reloads: the configuration and the registry
      a request sees come out of one and the same load, every model is valid, and every endpoint of
      every model resolves to the provider built for its ID, provided no empty provider ID clashes
      with "openai". */
  lemma RequestsSeeResolvedModels(start: Live, attempts: seq<Attempt>, id: string) returns (a: Attempt)
    requires Published(start) && forall i :: 0 <= i < |attempts| ==> Possible(attempts[i])
    requires id in AfterReloads(start, attempts).settings.models
    ensures var live := AfterReloads(start, attempts);
            && Possible(a) && Loaded(a) == Some(live)
            && a.file.Some? && HasDefaults(live.settings, a.file.value) && Sensible(live.settings, a.env)
            && ModelValid(live.settings.providers, live.settings.models[id])
            && (!Clash(live.settings.providers, a.env) ==> Resolved(live, live.settings.models[id], a.env))
  {
    AlwaysPublished(start, attempts);
    var live := AfterReloads(start, attempts);
    a :| Possible(a) && Loaded(a) == Some(live);
    DefaultedHasDefaults(a.file.value);
    AcceptableIsSensible(live.settings, a.env);
    if !Clash(live.settings.providers, a.env) {
      LoadedModelsResolve(a, live, live.settings.models[id]);
    }
  }

  lemma ValidEndpoints(ps: map<string, ProviderConfig>, m: Model, e: Endpoint)
    requires ModelValid(ps, m) && e in EndpointsOf(m)
    ensures EndpointValid(ps, e)
  {
    assert e == m.primary || e == m.judge || e in m.panel;
  }
}
