/** The agent registry's snapshot and scope cache, and the handler cache behind
    them: what a caller is served through all three, against what resolving and
    building from the tables alone would give. */
module HandlerCache {
  import opened Prelude
  import opened ScopeResolution

  const SCOPE_CACHE_MAX := 512
  const HANDLER_CACHE_MAX := 65

  /** The tables: the enabled agents, and the active configuration rows. */
  datatype Db = Db(enabled: set<string>, configs: Configs)

  datatype ScopeKey = ScopeKey(version: nat, tenant: string, org: string, agent: string)

  datatype Reg = Reg(version: nat, snapshot: map<string, Cfg>, scoped: map<ScopeKey, Cfg>)

  /** A built handler; `serial` tells one construction from another. */
  datatype Handler = Handler(spec: string, serial: nat)

  datatype CacheKey = CacheKey(specKey: string, checksum: string)

  datatype Factory = Factory(cache: map<CacheKey, Handler>, built: nat)

  // ----------------------------------------------------------- the registry

  /** The default-scope row of an enabled agent. */
  function BaseRow(db: Db, agent: string): Option<Cfg> {
    var r := At(db.configs, agent, DEFAULT, DEFAULT);
    if agent in db.enabled && r.Some? then Some(r.value.value) else None
  }

  function SnapshotOf(db: Db): map<string, Cfg> {
    map a | a in db.enabled && BaseRow(db, a).Some? :: BaseRow(db, a).value
  }

  /** One default row that does not parse makes the whole reload fail. */
  predicate Loadable(db: Db) {
    forall a | a in db.enabled && BaseRow(db, a).Some? :: BaseRow(db, a).value.readable
  }

  /** A failed reload keeps the old snapshot and the old version. */
  function Reloaded(reg: Reg, db: Db): Reg {
    if Loadable(db) then reg.(version := reg.version + 1, snapshot := SnapshotOf(db)) else reg
  }

  function ScopedRow(db: Db, agent: string, c: Caller): Option<Row<Cfg>> {
    Winner(NotDefault(db.configs), agent, Caller(c.tenant, Scoped(c.org)))
  }

  function KeyFor(reg: Reg, agent: string, c: Caller): ScopeKey {
    ScopeKey(reg.version, c.tenant, c.org, agent)
  }

  /** `held` is the agent as the caller read it from the snapshot earlier. */
  function Resolution(reg: Reg, db: Db, agent: string, held: Cfg, c: Caller): Cfg {
    if c.tenant == "" || c.tenant == DEFAULT then held
    else if KeyFor(reg, agent, c) in reg.scoped then reg.scoped[KeyFor(reg, agent, c)]
    else
      var row := ScopedRow(db, agent, c);
      if row.Some? && row.value.value.readable then row.value.value else held
  }

  function AfterResolution(reg: Reg, db: Db, agent: string, held: Cfg, c: Caller): Reg {
    var key := KeyFor(reg, agent, c);
    var row := ScopedRow(db, agent, c);
    if c.tenant == "" || c.tenant == DEFAULT || key in reg.scoped then reg
    else if row.Some? && !row.value.value.readable then reg
    else
      var kept := if |reg.scoped| >= SCOPE_CACHE_MAX then map[] else reg.scoped;
      reg.(scoped := kept[key := Resolution(reg, db, agent, held, c)])
  }

  // ------------------------------------------------------------ the factory

  function RoomFor(cache: map<CacheKey, Handler>): map<CacheKey, Handler> {
    if |cache| > HANDLER_CACHE_MAX - 1 then map[] else cache
  }

  /** `known` is whether a handler is registered for the spec's agent type. */
  function Built(f: Factory, key: CacheKey, spec: string, known: bool): Result<Handler, ()> {
    if key in f.cache then Ok(f.cache[key])
    else if !known then Err(())
    else Ok(Handler(spec, f.built))
  }

  function AfterBuild(f: Factory, key: CacheKey, spec: string, known: bool): Factory {
    if key in f.cache || !known then f
    else Factory(RoomFor(f.cache)[key := Handler(spec, f.built)], f.built + 1)
  }

  // --------------------------------------------------------------- the runs

  datatype Sys = Sys(db: Db, reg: Reg, factory: Factory)

  /** A turn of one caller with one agent, and an admin write with its reload. */
  datatype Op =
    | Serve(agent: string, caller: Caller, specKey: string, known: bool)
    | WriteAndReload(db: Db)

  /** The configuration a caller is served, through the caches. */
  function ServedCfg(s: Sys, op: Op): Option<Cfg>
    requires op.Serve?
  {
    if op.agent in s.reg.snapshot then
      Some(Resolution(s.reg, s.db, op.agent, s.reg.snapshot[op.agent], op.caller))
    else None
  }

  function ServedHandler(s: Sys, op: Op): Option<Handler>
    requires op.Serve?
  {
    var cfg := ServedCfg(s, op);
    if cfg.None? then None
    else
      var h := Built(s.factory, CacheKey(op.specKey, cfg.value.checksum), cfg.value.spec, op.known);
      if h.Ok? then Some(h.value) else None
  }

  function Do(s: Sys, op: Op): Sys {
    match op
    case Serve(agent, c, specKey, known) =>
      if agent !in s.reg.snapshot then s
      else
        var held := s.reg.snapshot[agent];
        var cfg := Resolution(s.reg, s.db, agent, held, c);
        s.(reg := AfterResolution(s.reg, s.db, agent, held, c),
           factory := AfterBuild(s.factory, CacheKey(specKey, cfg.checksum), cfg.spec, known))
    case WriteAndReload(db) => s.(db := db, reg := Reloaded(s.reg, db))
  }

  function RunOps(s: Sys, ops: seq<Op>): Sys
    decreases |ops|
  {
    if ops == [] then s else RunOps(Do(s, ops[0]), ops[1..])
  }

  function Start(db: Db): Sys {
    Sys(db, Reloaded(Reg(0, map[], map[]), db), Factory(map[], 0))
  }

  // ----------------------------------------------------- without any cache

  /** What resolving from the tables gives. */
  function TrueCfg(db: Db, agent: string, c: Caller): Option<Cfg> {
    if BaseRow(db, agent).None? then None
    else
      var r := RegistryConfig(db.configs, agent, c);
      if r.Some? then Some(r.value.value) else None
  }

  /** Each checksum identifies its content, across every state of the tables. */
  ghost predicate Identified(db: Db, content: string -> string) {
    forall r | r in db.configs :: content(r.value.checksum) == r.value.spec
  }

  ghost predicate GoodWrite(op: Op, content: string -> string) {
    op.WriteAndReload? ==> Loadable(op.db) && Identified(op.db, content)
  }

  // --------------------------------------------------------------- invariant

  ghost predicate Fresh(reg: Reg, db: Db) {
    && reg.snapshot == SnapshotOf(db)
    && |reg.scoped| <= SCOPE_CACHE_MAX
    && forall k | k in reg.scoped :: EntryOk(reg, db, k)
  }

  /** Entries of older versions can never be asked for again. */
  ghost predicate EntryOk(reg: Reg, db: Db, k: ScopeKey)
    requires k in reg.scoped
  {
    && k.version <= reg.version
    && k.tenant != "" && k.tenant != DEFAULT
    && (k.version == reg.version ==>
          TrueCfg(db, k.agent, Caller(k.tenant, k.org)) == Some(reg.scoped[k]))
  }

  ghost predicate HandlersOk(f: Factory, content: string -> string) {
    && |f.cache| <= HANDLER_CACHE_MAX
    && forall k | k in f.cache :: f.cache[k].spec == content(k.checksum)
  }

  ghost predicate Inv(s: Sys, content: string -> string) {
    Loadable(s.db) && Identified(s.db, content) && Fresh(s.reg, s.db) && HandlersOk(s.factory, content)
  }

  lemma ResolutionIsTrue(reg: Reg, db: Db, agent: string, c: Caller)
    requires Fresh(reg, db) && agent in reg.snapshot
    ensures Some(Resolution(reg, db, agent, reg.snapshot[agent], c)) == TrueCfg(db, agent, c)
  {
    var key := KeyFor(reg, agent, c);
    if key in reg.scoped {
      assert EntryOk(reg, db, key);
      assert Caller(c.tenant, c.org) == c;
    }
  }

  lemma ResolutionKeeps(reg: Reg, db: Db, agent: string, c: Caller)
    requires Fresh(reg, db) && agent in reg.snapshot
    ensures Fresh(AfterResolution(reg, db, agent, reg.snapshot[agent], c), db)
  {
    ResolutionIsTrue(reg, db, agent, c);
    var after := AfterResolution(reg, db, agent, reg.snapshot[agent], c);
    forall k | k in after.scoped ensures EntryOk(after, db, k) {
      if k in reg.scoped {
        assert EntryOk(reg, db, k);
      } else {
        assert Caller(c.tenant, c.org) == c;
      }
    }
    assert |after.scoped| <= |reg.scoped| + 1;
  }

  lemma ReloadKeeps(reg: Reg, was: Db, db: Db)
    requires Fresh(reg, was) && Loadable(db)
    ensures Fresh(Reloaded(reg, db), db)
  {
    forall k | k in reg.scoped ensures EntryOk(Reloaded(reg, db), db, k) {
      assert EntryOk(reg, was, k);
    }
  }

  /** What is resolved is some row of the tables. */
  lemma TrueCfgIsARow(db: Db, agent: string, c: Caller)
    requires TrueCfg(db, agent, c).Some?
    ensures exists r :: r in db.configs && r.value == TrueCfg(db, agent, c).value
  {
    AtFinds(db.configs, agent, DEFAULT, DEFAULT);
    WinnerIsLeast(NotDefault(db.configs), agent, Caller(c.tenant, Scoped(c.org)));
    var r := RegistryConfig(db.configs, agent, c).value;
    NotDefaultHas(db.configs, r);
    assert r in db.configs;
  }

  lemma BuildKeeps(f: Factory, key: CacheKey, spec: string, known: bool, content: string -> string)
    requires HandlersOk(f, content) && content(key.checksum) == spec
    ensures HandlersOk(AfterBuild(f, key, spec, known), content)
    ensures Built(f, key, spec, known).Ok? ==> Built(f, key, spec, known).value.spec == spec
  {
    var g := AfterBuild(f, key, spec, known);
    assert |g.cache| <= |RoomFor(f.cache)| + 1 || g == f;
  }

  lemma DoKeeps(s: Sys, op: Op, content: string -> string)
    requires Inv(s, content) && GoodWrite(op, content)
    ensures Inv(Do(s, op), content)
  {
    match op
    case Serve(agent, c, specKey, known) =>
      if agent in s.reg.snapshot {
        ResolutionKeeps(s.reg, s.db, agent, c);
        ServedRow(s, op, content);
        var cfg := ServedCfg(s, op).value;
        BuildKeeps(s.factory, CacheKey(specKey, cfg.checksum), cfg.spec, known, content);
      }
    case WriteAndReload(db) => ReloadKeeps(s.reg, s.db, db);
  }

  lemma ServedRow(s: Sys, op: Op, content: string -> string)
    requires Inv(s, content) && op.Serve? && op.agent in s.reg.snapshot
    ensures ServedCfg(s, op) == TrueCfg(s.db, op.agent, op.caller)
    ensures ServedCfg(s, op).Some? && content(ServedCfg(s, op).value.checksum) == ServedCfg(s, op).value.spec
  {
    ResolutionIsTrue(s.reg, s.db, op.agent, op.caller);
    TrueCfgIsARow(s.db, op.agent, op.caller);
  }

  lemma {:induction false} RunKeeps(s: Sys, ops: seq<Op>, content: string -> string)
    requires Inv(s, content) && forall op | op in ops :: GoodWrite(op, content)
    ensures Inv(RunOps(s, ops), content)
    decreases |ops|
  {
    if ops != [] {
      assert ops[0] in ops && forall op | op in ops[1..] :: op in ops;
      DoKeeps(s, ops[0], content);
      RunKeeps(Do(s, ops[0]), ops[1..], content);
    }
  }

  lemma StartOk(db: Db, content: string -> string)
    requires Loadable(db) && Identified(db, content)
    ensures Inv(Start(db), content)
  {
  }

  // ----------------------------------------------------------- main results

  /** The caches never change the answer: after any run of turns and reloaded
      writes, a caller is served exactly the configuration that the tables alone
      would give, from a handler built from that spec, whoever was served before. */
  lemma CachesAreTransparent(db: Db, ops: seq<Op>, op: Op, content: string -> string)
    requires Loadable(db) && Identified(db, content) && forall o | o in ops :: GoodWrite(o, content)
    requires op.Serve?
    ensures var s := RunOps(Start(db), ops);
            && ServedCfg(s, op) == TrueCfg(s.db, op.agent, op.caller)
            && (op.known ==> (ServedHandler(s, op).Some? <==> TrueCfg(s.db, op.agent, op.caller).Some?))
            && (ServedHandler(s, op).Some? ==>
                  ServedHandler(s, op).value.spec == TrueCfg(s.db, op.agent, op.caller).value.spec)
  {
    StartOk(db, content);
    RunKeeps(Start(db), ops, content);
    var s := RunOps(Start(db), ops);
    if op.agent in s.reg.snapshot {
      ServedRow(s, op, content);
      var cfg := ServedCfg(s, op).value;
      BuildKeeps(s.factory, CacheKey(op.specKey, cfg.checksum), cfg.spec, op.known, content);
    }
  }

  /** Who is served at all, and with what by default: an enabled agent with an active
      row at the default scope, and then a caller of no tenant or the default one gets
      that row's content. */
  lemma ServedAtDefault(db: Db, ops: seq<Op>, op: Op, content: string -> string)
    requires Loadable(db) && Identified(db, content) && forall o | o in ops :: GoodWrite(o, content)
    requires op.Serve? && UniqueScopes(RunOps(Start(db), ops).db.configs)
    ensures var s := RunOps(Start(db), ops);
            && (ServedCfg(s, op).Some? <==>
                  op.agent in s.db.enabled
                  && exists r :: r in s.db.configs && r.key == op.agent && r.tenant == "default" && r.org == "default")
            && (ServedCfg(s, op).Some? && (op.caller.tenant == "" || op.caller.tenant == "default") ==>
                  exists r :: r in s.db.configs && r.key == op.agent && r.tenant == "default" && r.org == "default"
                              && ServedCfg(s, op) == Some(r.value))
  {
    CachesAreTransparent(db, ops, op, content);
    AtFinds(RunOps(Start(db), ops).db.configs, op.agent, DEFAULT, DEFAULT);
  }

  /** `r` is the active default-scope row of an enabled agent. */
  ghost predicate Defaults(db: Db, r: Row<Cfg>) {
    r in db.configs && r.key in db.enabled && r.tenant == "default" && r.org == "default"
  }

  /** A reload is all or nothing: one enabled agent's default row that cannot be read
      leaves the registry as it was; otherwise the snapshot is exactly those rows, the
      version is the next, and the scope cache stays. */
  lemma ReloadGives(reg: Reg, db: Db)
    requires UniqueScopes(db.configs)
    ensures var after := Reloaded(reg, db);
            && ((exists r :: Defaults(db, r) && !r.value.readable) ==> after == reg)
            && ((forall r | Defaults(db, r) :: r.value.readable) ==>
                  && after.version == reg.version + 1 && after.scoped == reg.scoped
                  && (forall r | Defaults(db, r) :: r.key in after.snapshot && after.snapshot[r.key] == r.value)
                  && forall a | a in after.snapshot :: exists r :: Defaults(db, r) && r.key == a)
  {
    forall r | Defaults(db, r) ensures BaseRow(db, r.key) == Some(r.value) {
      AtFinds(db.configs, r.key, DEFAULT, DEFAULT);
    }
    forall a | a in db.enabled && BaseRow(db, a).Some?
      ensures exists r :: Defaults(db, r) && r.key == a && r.value == BaseRow(db, a).value
    {
      AtFinds(db.configs, a, DEFAULT, DEFAULT);
      assert Defaults(db, At(db.configs, a, DEFAULT, DEFAULT).value);
    }
  }

  /** When a resolution is cached: for a caller of a tenant of its own, unless the
      scope's row cannot be read; what is cached already stays below the limit. */
  lemma CachedIff(reg: Reg, db: Db, agent: string, held: Cfg, c: Caller)
    ensures var row := ScopedRow(db, agent, c);
            var after := AfterResolution(reg, db, agent, held, c);
            && (KeyFor(reg, agent, c) in after.scoped <==>
                  KeyFor(reg, agent, c) in reg.scoped
                  || (c.tenant != "" && c.tenant != "default" && (row.None? || row.value.value.readable)))
            && (|reg.scoped| < 512 ==> forall k | k in reg.scoped :: k in after.scoped && after.scoped[k] == reg.scoped[k])
            && after.version == reg.version && after.snapshot == reg.snapshot
  {
  }

  /** A handler is built anew exactly when its key is not cached and its type is
      known; those built before stay while there are at most sixty-four. */
  lemma BuiltIff(f: Factory, key: CacheKey, spec: string, known: bool)
    ensures var g := AfterBuild(f, key, spec, known);
            && (g.built == f.built + 1 <==> key !in f.cache && known)
            && (Built(f, key, spec, known).Ok? <==> key in f.cache || known)
            && (Built(f, key, spec, known).Ok? ==> key in g.cache && g.cache[key] == Built(f, key, spec, known).value)
            && (|f.cache| <= 64 ==> forall k | k in f.cache :: k in g.cache && g.cache[k] == f.cache[k])
  {
  }

  /** Both caches stay within their bounds. */
  lemma CachesAreBounded(db: Db, ops: seq<Op>, content: string -> string)
    requires Loadable(db) && Identified(db, content) && forall o | o in ops :: GoodWrite(o, content)
    ensures var s := RunOps(Start(db), ops);
            |s.reg.scoped| <= 512 && |s.factory.cache| <= 65
  {
    StartOk(db, content);
    RunKeeps(Start(db), ops, content);
  }

  /** Callers whose configurations have the same checksum share one handler. */
  lemma SameChecksumSameHandler(s: Sys, a: Op, b: Op, content: string -> string)
    requires Inv(s, content) && a.Serve? && b.Serve? && a.specKey == b.specKey && a.known
    requires ServedCfg(s, a).Some? && ServedCfg(Do(s, a), b).Some?
    requires ServedCfg(s, a).value.checksum == ServedCfg(Do(s, a), b).value.checksum
    ensures ServedHandler(Do(s, a), b) == ServedHandler(s, a) && ServedHandler(s, a).Some?
  {
  }

  /** Resolution agrees with the sidebar for every caller for whom the tables let
      the two agree at all. */
  lemma ServedIsSidebars(s: Sys, op: Op, content: string -> string)
    requires Inv(s, content) && op.Serve? && op.agent in s.reg.snapshot
    requires UniqueScopes(s.db.configs)
    requires op.caller.tenant != "" && op.caller.tenant != DEFAULT && op.caller.org != ""
    ensures var w := SidebarConfig(s.db.configs, op.agent, op.caller);
            && w.Some?
            && (w.value.value.readable || (w.value.tenant == DEFAULT && w.value.org == DEFAULT) ==>
                  ServedCfg(s, op) == Some(w.value.value))
  {
    ServedRow(s, op, content);
    ResolversAgreeIff(s.db.configs, op.agent, op.caller);
    WinnerIsLeast(s.db.configs, op.agent, op.caller);
    AtFinds(s.db.configs, op.agent, DEFAULT, DEFAULT);
  }

  /** The hypothesis that the agent is read from the snapshot in force is needed: a
      turn that read it before a reload and resolves after it caches the old
      configuration under the new version, and every later turn of that scope is
      served it, exactly when the scope has no row of its own. */
  lemma StaleReaderPoisons(reg: Reg, db: Db, agent: string, stale: Cfg, c: Caller)
    requires Fresh(reg, db) && agent in reg.snapshot && stale != reg.snapshot[agent]
    requires c.tenant != "" && c.tenant != DEFAULT && KeyFor(reg, agent, c) !in reg.scoped
    ensures var after := AfterResolution(reg, db, agent, stale, c);
            Resolution(after, db, agent, reg.snapshot[agent], c) == Resolution(reg, db, agent, reg.snapshot[agent], c)
            <==> ScopedRow(db, agent, c).Some?
  {
  }

  // ------------------------------------------------------------- the objects

  class Registry {
    var version: nat
    var snapshot: map<string, Cfg>
    var scopeCache: map<ScopeKey, Cfg>

    function View(): Reg
      reads this
    {
      Reg(version, snapshot, scopeCache)
    }

    constructor ()
      ensures View() == Reg(0, map[], map[])
    {
      version, snapshot, scopeCache := 0, map[], map[];
    }

    /** Replace the snapshot, or keep it if any row does not parse. */
    method Reload(db: Db) returns (v: nat)
      modifies this
      ensures View() == Reloaded(old(View()), db) && v == version
    {
      var loaded: map<string, Cfg> := map[];
      var todo := db.enabled;
      while todo != {}
        invariant todo <= db.enabled
        invariant loaded == map a | a in db.enabled - todo && BaseRow(db, a).Some? :: BaseRow(db, a).value
        invariant forall a | a in db.enabled - todo && BaseRow(db, a).Some? :: BaseRow(db, a).value.readable
        decreases |todo|
      {
        var a :| a in todo;
        todo := todo - {a};
        var row := BaseRow(db, a);
        if row.Some? {
          if !row.value.readable {
            return version;
          }
          loaded := loaded[a := row.value];
        }
      }
      snapshot, version := loaded, version + 1;
      assert snapshot == SnapshotOf(db);
      return version;
    }

    method ResolveForScope(db: Db, agent: string, held: Cfg, c: Caller) returns (cfg: Cfg)
      modifies this`scopeCache
      ensures cfg == Resolution(old(View()), db, agent, held, c)
      ensures View() == AfterResolution(old(View()), db, agent, held, c)
    {
      if c.tenant == "" || c.tenant == DEFAULT {
        return held;
      }
      var key := ScopeKey(version, c.tenant, c.org, agent);
      if key in scopeCache {
        return scopeCache[key];
      }
      cfg := held;
      var row := ScopedRow(db, agent, c);
      if row.Some? {
        if !row.value.value.readable {
          return held;
        }
        cfg := row.value.value;
      }
      if |scopeCache| >= SCOPE_CACHE_MAX {
        scopeCache := map[];
      }
      scopeCache := scopeCache[key := cfg];
    }
  }

  class HandlerFactory {
    var cache: map<CacheKey, Handler>
    var built: nat

    function View(): Factory
      reads this
    {
      Factory(cache, built)
    }

    constructor ()
      ensures View() == Factory(map[], 0)
    {
      cache, built := map[], 0;
    }

    method Build(key: CacheKey, spec: string, known: bool) returns (r: Result<Handler, ()>)
      modifies this
      ensures r == Built(old(View()), key, spec, known)
      ensures View() == AfterBuild(old(View()), key, spec, known)
    {
      if key !in cache {
        if !known {
          return Err(());
        }
        if |cache| > HANDLER_CACHE_MAX - 1 {
          cache := map[];
        }
        cache := cache[key := Handler(spec, built)];
        built := built + 1;
      }
      return Ok(cache[key]);
    }
  }
}
