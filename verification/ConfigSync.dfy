/** The agent catalogue and its configurations: reconciliation with the YAML files
    at startup, and the two admin writers.  Rows are those of the default scope. */
module ConfigSync {
  import opened Prelude
  import opened ConfigHistory

  type Key = string

  datatype Kind = Llm | RemoteFlow

  datatype Status = Enabled | Disabled

  datatype Agent = Agent(name: string, kind: Kind, status: Status, isDefault: bool)

  /** One YAML file.  `deployable` is whether its tools, environment variables and
      finalize path are known where it is loaded. */
  datatype Spec = Spec(key: Key, name: string, kind: Kind, status: Status, isDefault: bool,
                       content: Content, deployable: bool)

  datatype Tables = Tables(agents: map<Key, Agent>, configs: map<Key, History>)

  datatype SyncError = DuplicateSpec | SeveralDefaults | NotDeployable | UniqueViolation

  datatype AdminError = AgentNotFound | InvalidRequest

  // ------------------------------------------------------- the agents table

  /** Names are unique, and at most one agent is the default. */
  ghost predicate AgentsUnique(agents: map<Key, Agent>) {
    forall k, l {:trigger k in agents, l in agents} | k in agents && l in agents && k != l ::
      agents[k].name != agents[l].name && !(agents[k].isDefault && agents[l].isDefault)
  }

  predicate NameTaken(agents: map<Key, Agent>, key: Key, name: string) {
    exists k | k in agents :: k != key && agents[k].name == name
  }

  predicate HasDefault(agents: map<Key, Agent>) {
    exists k | k in agents :: agents[k].isDefault
  }

  /** A remote agent cannot work without Mitra, whatever its file says. */
  function EffectiveStatus(spec: Spec, mitra: bool): Status {
    if spec.kind.Llm? || mitra then spec.status else Disabled
  }

  /** The identity columns follow the file.  Status is left to the admin, except
      that a remote agent's tracks whether Mitra is there. */
  function Refreshed(a: Agent, spec: Spec, mitra: bool): Agent {
    a.(name := spec.name, kind := spec.kind,
       status := if spec.kind.RemoteFlow? then EffectiveStatus(spec, mitra) else a.status)
  }

  // ---------------------------------------------------------------- one file

  datatype Step = Step(tables: Tables, outcome: Outcome)

  function SyncOne(t: Tables, spec: Spec, mode: Mode, mitra: bool): Result<Step, SyncError> {
    if spec.key !in t.agents then
      if NameTaken(t.agents, spec.key, spec.name) || (spec.isDefault && HasDefault(t.agents)) then
        Err(UniqueViolation)
      else
        var agent := Agent(spec.name, spec.kind, EffectiveStatus(spec, mitra), spec.isDefault);
        WriteConfigs(t.(agents := t.agents[spec.key := agent]), spec.key, [], FirstPlan(spec.content))
    else if NameTaken(t.agents, spec.key, spec.name) then Err(UniqueViolation)
    else
      var agents := t.agents[spec.key := Refreshed(t.agents[spec.key], spec, mitra)];
      var h := if spec.key in t.configs then t.configs[spec.key] else [];
      WriteConfigs(t.(agents := agents), spec.key, h, SyncPlan(h, spec.content, mode))
  }

  function WriteConfigs(t: Tables, key: Key, h: History, p: Plan): Result<Step, SyncError> {
    var g := ExecAll(h, p.stmts);
    if g.None? then Err(UniqueViolation) else Ok(Step(t.(configs := t.configs[key := g.value]), p.outcome))
  }

  datatype Progress = Progress(tables: Tables, outcomes: seq<Outcome>)

  /** The first `n` files. */
  function SyncFirst(t: Tables, specs: seq<Spec>, n: nat, mode: Mode, mitra: bool): Result<Progress, SyncError>
    requires n <= |specs|
  {
    if n == 0 then Ok(Progress(t, []))
    else
      var before := SyncFirst(t, specs, n - 1, mode, mitra);
      if before.Err? then Err(before.error)
      else
        var one := SyncOne(before.value.tables, specs[n - 1], mode, mitra);
        if one.Err? then Err(one.error)
        else Ok(Progress(one.value.tables, before.value.outcomes + [one.value.outcome]))
  }

  // ----------------------------------------------------------------- orphans

  predicate YamlActive(t: Tables, k: Key) {
    k in t.configs && Active(t.configs[k]).Some? && Active(t.configs[k]).value.source.Yaml?
  }

  function Keys(specs: seq<Spec>): set<Key> {
    set s | s in specs :: s.key
  }

  /** Agents served from a YAML row whose file is gone. */
  function Orphans(t: Tables, specs: seq<Spec>): set<Key> {
    set k | k in t.agents && YamlActive(t, k) && k !in Keys(specs)
  }

  function DisableAll(t: Tables, keys: set<Key>): Tables {
    t.(agents := map k | k in t.agents :: if k in keys then t.agents[k].(status := Disabled) else t.agents[k])
  }

  // ---------------------------------------------------------------- the sync

  datatype Report = Report(created: seq<Key>, updated: seq<Key>, same: seq<Key>, drifted: seq<Key>, orphaned: set<Key>)

  predicate Distinct<T(==)>(s: seq<T>) {
    forall i, j | 0 <= i < j < |s| :: s[i] != s[j]
  }

  function SpecKeys(specs: seq<Spec>): seq<Key> {
    seq(|specs|, i requires 0 <= i < |specs| => specs[i].key)
  }

  function SpecNames(specs: seq<Spec>): seq<string> {
    seq(|specs|, i requires 0 <= i < |specs| => specs[i].name)
  }

  predicate SeveralDefault(specs: seq<Spec>) {
    exists i, j | 0 <= i < j < |specs| :: specs[i].isDefault && specs[j].isDefault
  }

  /** The checks made before anything is written. */
  function Refusal(specs: seq<Spec>): Option<SyncError> {
    if !Distinct(SpecKeys(specs)) || !Distinct(SpecNames(specs)) then Some(DuplicateSpec)
    else if SeveralDefault(specs) then Some(SeveralDefaults)
    else if exists s | s in specs :: !s.deployable then Some(NotDeployable)
    else None
  }

  /** The keys of the first `n` files whose outcome was `o`, in file order. */
  function With(specs: seq<Spec>, outcomes: seq<Outcome>, o: Outcome): seq<Key>
    requires |outcomes| <= |specs|
  {
    if outcomes == [] then []
    else
      var n := |outcomes| - 1;
      With(specs, outcomes[..n], o) + (if outcomes[n] == o then [specs[n].key] else [])
  }

  datatype SyncResult = SyncResult(tables: Tables, report: Report)

  function SyncAll(t: Tables, specs: seq<Spec>, mode: Mode, mitra: bool): Result<SyncResult, SyncError> {
    if Refusal(specs).Some? then Err(Refusal(specs).value)
    else
      var p := SyncFirst(t, specs, |specs|, mode, mitra);
      if p.Err? then Err(p.error)
      else
        SyncFirstLength(t, specs, |specs|, mode, mitra);
        var orphans := Orphans(p.value.tables, specs);
        Ok(SyncResult(DisableAll(p.value.tables, orphans), ReportOf(specs, p.value.outcomes, orphans)))
  }

  function ReportOf(specs: seq<Spec>, outcomes: seq<Outcome>, orphans: set<Key>): Report
    requires |outcomes| <= |specs|
  {
    Report(With(specs, outcomes, Created), With(specs, outcomes, Updated), With(specs, outcomes, Unchanged),
           With(specs, outcomes, Drifted), orphans)
  }

  lemma {:induction false} SyncFirstLength(t: Tables, specs: seq<Spec>, n: nat, mode: Mode, mitra: bool)
    requires n <= |specs|
    ensures SyncFirst(t, specs, n, mode, mitra).Ok? ==> |SyncFirst(t, specs, n, mode, mitra).value.outcomes| == n
  {
    if n > 0 {
      SyncFirstLength(t, specs, n - 1, mode, mitra);
    }
  }

  // ----------------------------------------------------------- admin writers

  function CreateVersion(t: Tables, key: Key, kind: Kind, content: Content): Result<Tables, AdminError> {
    if key !in t.agents then Err(AgentNotFound)
    else if kind != t.agents[key].kind then Err(InvalidRequest)
    else
      var h := if key in t.configs then t.configs[key] else [];
      var g := ExecAll(h, CreatePlan(h, content));
      if g.None? then Err(InvalidRequest) else Ok(t.(configs := t.configs[key := g.value]))
  }

  function ActivateVersion(t: Tables, key: Key, version: int): Result<Tables, AdminError> {
    if key !in t.agents then Err(AgentNotFound)
    else
      var h := if key in t.configs then t.configs[key] else [];
      if !HasVersion(h, version) then Err(InvalidRequest)
      else
        var g := ExecAll(h, ActivatePlan(version));
        if g.None? then Err(InvalidRequest) else Ok(t.(configs := t.configs[key := g.value]))
  }

  function SetStatus(t: Tables, key: Key, status: Status): Result<Tables, AdminError> {
    if key !in t.agents then Err(AgentNotFound)
    else Ok(t.(agents := t.agents[key := t.agents[key].(status := status)]))
  }

  // --------------------------------------------------------------- invariant

  /** Every agent has configurations, numbered from one with exactly one active. */
  ghost predicate Valid(t: Tables) {
    && t.agents.Keys == t.configs.Keys
    && (forall k | k in t.configs :: Sound(t.configs[k]))
    && AgentsUnique(t.agents)
  }

  /** The statements on the configuration rows never raise: what can stop a file is
      only another agent's name, or a second default agent. */
  lemma SyncOneFails(t: Tables, spec: Spec, mode: Mode, mitra: bool)
    requires Valid(t)
    ensures SyncOne(t, spec, mode, mitra).Err? <==>
            || NameTaken(t.agents, spec.key, spec.name)
            || (spec.key !in t.agents && spec.isDefault && HasDefault(t.agents))
  {
    if spec.key in t.agents {
      SyncPlanEffect(t.configs[spec.key], spec.content, mode);
    } else {
      FirstPlanEffect(spec.content);
    }
  }

  lemma AgentsUpdate(agents: map<Key, Agent>, key: Key, a: Agent)
    requires AgentsUnique(agents) && !NameTaken(agents, key, a.name)
    requires a.isDefault && !(key in agents && agents[key].isDefault) ==> !HasDefault(agents)
    ensures AgentsUnique(agents[key := a])
  {
  }

  /** A new agent, and one that is already there. */
  lemma OneNew(t: Tables, spec: Spec, mode: Mode, mitra: bool)
    requires Valid(t) && spec.key !in t.agents && SyncOne(t, spec, mode, mitra).Ok?
    ensures SyncOne(t, spec, mode, mitra).value ==
            Step(Put(t, spec.key, Agent(spec.name, spec.kind, EffectiveStatus(spec, mitra), spec.isDefault),
                     [Config(1, Yaml, spec.content, true)]),
                 Created)
  {
    FirstPlanEffect(spec.content);
  }

  lemma OneOld(t: Tables, spec: Spec, mode: Mode, mitra: bool)
    requires Valid(t) && spec.key in t.agents && SyncOne(t, spec, mode, mitra).Ok?
    ensures Active(t.configs[spec.key]).Some?
    ensures var h := t.configs[spec.key];
            SyncOne(t, spec, mode, mitra).value ==
            Step(Put(t, spec.key, Refreshed(t.agents[spec.key], spec, mitra), Synced(h, spec.content, mode)),
                 SyncPlan(h, spec.content, mode).outcome)
  {
    SyncPlanEffect(t.configs[spec.key], spec.content, mode);
  }

  /** Agents outside `keys` are as they were. */
  ghost predicate Untouched(t: Tables, u: Tables, keys: set<Key>) {
    forall k | k in t.agents && k !in keys ::
      && k in u.agents && u.agents[k] == t.agents[k]
      && k in t.configs && k in u.configs && u.configs[k] == t.configs[k]
  }

  /** Every history only grew. */
  ghost predicate Grown(t: Tables, u: Tables) {
    forall k | k in t.configs :: k in u.configs && Extends(t.configs[k], u.configs[k])
  }

  /** `u` is `t` after the files of `keys`. */
  ghost predicate Advanced(t: Tables, u: Tables, keys: set<Key>) {
    Valid(u) && u.agents.Keys == t.agents.Keys + keys && Untouched(t, u, keys) && Grown(t, u)
  }

  lemma SyncOneKeeps(t: Tables, spec: Spec, mode: Mode, mitra: bool)
    requires Valid(t) && SyncOne(t, spec, mode, mitra).Ok?
    ensures var u := SyncOne(t, spec, mode, mitra).value.tables;
            Advanced(t, u, {spec.key}) && Settled(u, spec, mode, mitra)
  {
    var u := SyncOne(t, spec, mode, mitra).value.tables;
    if spec.key in t.agents {
      OneOld(t, spec, mode, mitra);
      OldAdvances(t, spec, mode, mitra, u);
    } else {
      OneNew(t, spec, mode, mitra);
      NewAdvances(t, spec, mode, mitra, u);
    }
  }

  function Put(t: Tables, key: Key, a: Agent, h: History): Tables {
    Tables(t.agents[key := a], t.configs[key := h])
  }

  /** Replacing one agent and its rows by good ones. */
  lemma PutAdvances(t: Tables, key: Key, a: Agent, h: History)
    requires Valid(t) && Sound(h) && AgentsUnique(t.agents[key := a])
    requires key in t.configs ==> Extends(t.configs[key], h)
    ensures Advanced(t, Put(t, key, a, h), {key})
  {
    PutValid(t, key, a, h);
    PutGrown(t, Put(t, key, a, h), key, h);
    PutUntouched(t, key, a, h);
  }

  lemma PutUntouched(t: Tables, key: Key, a: Agent, h: History)
    requires t.agents.Keys == t.configs.Keys
    ensures Untouched(t, Put(t, key, a, h), {key})
    ensures Put(t, key, a, h).agents.Keys == t.agents.Keys + {key}
  {
  }

  lemma PutGrown(t: Tables, u: Tables, key: Key, h: History)
    requires u.configs == t.configs[key := h]
    requires key in t.configs ==> Extends(t.configs[key], h)
    ensures Grown(t, u)
  {
    forall k | k in t.configs ensures k in u.configs && Extends(t.configs[k], u.configs[k]) {
      if k != key {
        ExtendsSelf(t.configs[k]);
      }
    }
  }

  lemma PutValid(t: Tables, key: Key, a: Agent, h: History)
    requires Valid(t) && Sound(h) && AgentsUnique(t.agents[key := a])
    ensures Valid(Put(t, key, a, h))
  {
    var u := Put(t, key, a, h);
    forall k | k in u.configs ensures Sound(u.configs[k]) {
      assert k != key ==> k in t.configs;
    }
  }

  lemma ExtendsSelf(h: History)
    ensures Extends(h, h)
  {
    assert h[..|h|] == h;
  }

  lemma OldAdvances(t: Tables, spec: Spec, mode: Mode, mitra: bool, u: Tables)
    requires Valid(t) && spec.key in t.agents && Active(t.configs[spec.key]).Some?
    requires !NameTaken(t.agents, spec.key, spec.name)
    requires u == Put(t, spec.key, Refreshed(t.agents[spec.key], spec, mitra), Synced(t.configs[spec.key], spec.content, mode))
    ensures Advanced(t, u, {spec.key}) && Settled(u, spec, mode, mitra)
  {
    var h := t.configs[spec.key];
    SyncPlanEffect(h, spec.content, mode);
    SecondSyncIsQuiet(h, spec.content, mode);
    SyncedExtends(h, spec.content, mode);
    AgentsUpdate(t.agents, spec.key, Refreshed(t.agents[spec.key], spec, mitra));
    PutAdvances(t, spec.key, Refreshed(t.agents[spec.key], spec, mitra), Synced(h, spec.content, mode));
  }

  lemma NewAdvances(t: Tables, spec: Spec, mode: Mode, mitra: bool, u: Tables)
    requires Valid(t) && spec.key !in t.agents
    requires !NameTaken(t.agents, spec.key, spec.name) && (spec.isDefault ==> !HasDefault(t.agents))
    requires u == Put(t, spec.key, Agent(spec.name, spec.kind, EffectiveStatus(spec, mitra), spec.isDefault),
                      [Config(1, Yaml, spec.content, true)])
    ensures Advanced(t, u, {spec.key}) && Settled(u, spec, mode, mitra)
  {
    FirstPlanEffect(spec.content);
    FirstIsQuiet(spec.content, mode);
    AgentsUpdate(t.agents, spec.key, u.agents[spec.key]);
    PutAdvances(t, spec.key, u.agents[spec.key], u.configs[spec.key]);
  }

  lemma FirstIsQuiet(content: Content, mode: Mode)
    ensures SyncPlan([Config(1, Yaml, content, true)], content, mode) == Plan([], Unchanged)
  {
  }

  /** Nothing is left to do for this file. */
  ghost predicate Settled(t: Tables, spec: Spec, mode: Mode, mitra: bool) {
    && spec.key in t.agents && spec.key in t.configs
    && Refreshed(t.agents[spec.key], spec, mitra) == t.agents[spec.key]
    && QuietPlan(SyncPlan(t.configs[spec.key], spec.content, mode))
  }

  predicate QuietPlan(p: Plan) {
    p.stmts == [] && (p.outcome.Unchanged? || p.outcome.Drifted?)
  }

  ghost predicate AllSettled(t: Tables, specs: seq<Spec>, n: nat, mode: Mode, mitra: bool)
    requires n <= |specs|
  {
    forall i | 0 <= i < n :: Settled(t, specs[i], mode, mitra)
  }

  lemma FirstNext(t: Tables, specs: seq<Spec>, n: nat, mode: Mode, mitra: bool) returns (v: Tables, u: Tables)
    requires 0 < n <= |specs| && SyncFirst(t, specs, n, mode, mitra).Ok?
    ensures SyncFirst(t, specs, n - 1, mode, mitra).Ok? && SyncFirst(t, specs, n - 1, mode, mitra).value.tables == v
    ensures SyncOne(v, specs[n - 1], mode, mitra).Ok? && SyncOne(v, specs[n - 1], mode, mitra).value.tables == u
    ensures SyncFirst(t, specs, n, mode, mitra).value.tables == u
    ensures SyncFirst(t, specs, n, mode, mitra).value.outcomes ==
            SyncFirst(t, specs, n - 1, mode, mitra).value.outcomes + [SyncOne(v, specs[n - 1], mode, mitra).value.outcome]
  {
    v := SyncFirst(t, specs, n - 1, mode, mitra).value.tables;
    u := SyncFirst(t, specs, n, mode, mitra).value.tables;
  }

  lemma {:induction false} SyncFirstKeeps(t: Tables, specs: seq<Spec>, n: nat, mode: Mode, mitra: bool)
    requires Valid(t) && n <= |specs| && Distinct(SpecKeys(specs)) && SyncFirst(t, specs, n, mode, mitra).Ok?
    ensures var u := SyncFirst(t, specs, n, mode, mitra).value.tables;
            Advanced(t, u, Keys(specs[..n])) && AllSettled(u, specs, n, mode, mitra)
  {
    if n == 0 {
      NothingAdvances(t, specs);
    } else {
      var v, u := FirstNext(t, specs, n, mode, mitra);
      SyncFirstKeeps(t, specs, n - 1, mode, mitra);
      SyncOneKeeps(v, specs[n - 1], mode, mitra);
      KeysNext(specs, n);
      AdvancedTwice(t, v, u, Keys(specs[..n - 1]), {specs[n - 1].key});
      SettledNext(v, u, specs, n, mode, mitra);
    }
  }

  lemma NothingAdvances(t: Tables, specs: seq<Spec>)
    requires Valid(t)
    ensures Advanced(t, t, Keys(specs[..0]))
  {
    assert Keys(specs[..0]) == {};
    forall k | k in t.configs ensures k in t.configs && Extends(t.configs[k], t.configs[k]) {
      ExtendsSelf(t.configs[k]);
    }
  }

  lemma SettledNext(v: Tables, u: Tables, specs: seq<Spec>, n: nat, mode: Mode, mitra: bool)
    requires 0 < n <= |specs| && Distinct(SpecKeys(specs))
    requires AllSettled(v, specs, n - 1, mode, mitra) && Untouched(v, u, {specs[n - 1].key})
    requires Settled(u, specs[n - 1], mode, mitra)
    ensures AllSettled(u, specs, n, mode, mitra)
  {
    forall i | 0 <= i < n ensures Settled(u, specs[i], mode, mitra) {
      if i < n - 1 {
        assert SpecKeys(specs)[i] != SpecKeys(specs)[n - 1];
        StaysSettled(v, u, specs[i], specs[n - 1].key, mode, mitra);
      }
    }
  }

  lemma StaysSettled(v: Tables, u: Tables, spec: Spec, key: Key, mode: Mode, mitra: bool)
    requires Settled(v, spec, mode, mitra) && Untouched(v, u, {key}) && spec.key != key
    ensures Settled(u, spec, mode, mitra)
  {
  }

  lemma AdvancedTwice(t: Tables, v: Tables, u: Tables, a: set<Key>, b: set<Key>)
    requires Advanced(t, v, a) && Advanced(v, u, b)
    ensures Advanced(t, u, a + b)
  {
    assert u.agents.Keys == t.agents.Keys + (a + b);
    forall k | k in t.configs ensures k in u.configs && Extends(t.configs[k], u.configs[k]) {
      assert k in v.configs;
      ExtendsTransitive(t.configs[k], v.configs[k], u.configs[k]);
    }
  }

  lemma KeysNext(specs: seq<Spec>, n: nat)
    requires 0 < n <= |specs|
    ensures Keys(specs[..n]) == Keys(specs[..n - 1]) + {specs[n - 1].key}
  {
    assert specs[..n] == specs[..n - 1] + [specs[n - 1]];
  }

  /** Rows are only ever added; nothing but the active flag of a row changes. */
  ghost predicate Extends(h: History, g: History) {
    |h| <= |g| && SameRows(h, g[..|h|])
  }

  lemma SyncedExtends(h: History, content: Content, mode: Mode)
    requires Sound(h)
    ensures Extends(h, Synced(h, content, mode))
  {
  }

  lemma ExtendsTransitive(a: History, b: History, c: History)
    requires Extends(a, b) && Extends(b, c)
    ensures Extends(a, c)
  {
    forall i | 0 <= i < |a| ensures a[i].(active := false) == c[i].(active := false) {
      assert b[..|a|][i] == b[i] && c[..|b|][i] == c[i];
    }
  }

  /** A sync that raises has changed nothing; one that completes leaves every agent
      with exactly one active row, every file settled, agents without a file as they
      were but for the disabled, and no enabled agent served from a YAML row whose
      file is gone. */
  lemma SyncKeeps(t: Tables, specs: seq<Spec>, mode: Mode, mitra: bool)
    requires Valid(t) && SyncAll(t, specs, mode, mitra).Ok?
    ensures var s := SyncAll(t, specs, mode, mitra).value;
            var u := s.tables;
            && Valid(u) && Grown(t, u)
            && u.agents.Keys == t.agents.Keys + Keys(specs)
            && AllSettled(u, specs, |specs|, mode, mitra)
            && (forall k | k in u.agents && k !in Keys(specs) ::
                  && k in t.agents && u.configs[k] == t.configs[k]
                  && u.agents[k] == (if YamlActive(t, k) then t.agents[k].(status := Disabled) else t.agents[k]))
            && (forall k | k in u.agents && k !in Keys(specs) && u.agents[k].status.Enabled? :: !YamlActive(u, k))
            && s.report.orphaned == Orphans(u, specs) && s.report.orphaned !! Keys(specs)
  {
    SyncFirstKeeps(t, specs, |specs|, mode, mitra);
    assert specs[..|specs|] == specs;
    var v := SyncFirst(t, specs, |specs|, mode, mitra).value.tables;
    DisableKeeps(v, Orphans(v, specs));
    var u := SyncAll(t, specs, mode, mitra).value.tables;
    forall i | 0 <= i < |specs| ensures Settled(u, specs[i], mode, mitra) {
      assert specs[i].key in Keys(specs);
      assert Settled(v, specs[i], mode, mitra);
    }
  }

  lemma DisableKeeps(t: Tables, keys: set<Key>)
    requires Valid(t)
    ensures Valid(DisableAll(t, keys))
  {
  }

  // ----------------------------------------------------------- main results

  /** Syncing again with the same files and mode changes nothing, in any table, and
      reports nothing created or updated. */
  lemma SyncIsIdempotent(t: Tables, specs: seq<Spec>, mode: Mode, mitra: bool)
    requires Valid(t) && SyncAll(t, specs, mode, mitra).Ok?
    ensures var s := SyncAll(t, specs, mode, mitra).value;
            var again := SyncAll(s.tables, specs, mode, mitra);
            && again.Ok? && again.value.tables == s.tables
            && again.value.report.created == [] && again.value.report.updated == []
            && again.value.report.orphaned == s.report.orphaned
  {
    SyncKeeps(t, specs, mode, mitra);
    SettledIsFixed(SyncAll(t, specs, mode, mitra).value.tables, specs, mode, mitra);
  }

  /** Tables with every file settled and every orphan disabled are left alone. */
  lemma SettledIsFixed(u: Tables, specs: seq<Spec>, mode: Mode, mitra: bool)
    requires Valid(u) && Refusal(specs).None? && AllSettled(u, specs, |specs|, mode, mitra)
    requires forall k | k in u.agents && k !in Keys(specs) && u.agents[k].status.Enabled? :: !YamlActive(u, k)
    ensures var again := SyncAll(u, specs, mode, mitra);
            && again.Ok? && again.value.tables == u
            && again.value.report.created == [] && again.value.report.updated == []
            && again.value.report.orphaned == Orphans(u, specs)
  {
    var outcomes := QuietFirst(u, specs, |specs|, mode, mitra);
    NoneWith(specs, outcomes, Created);
    NoneWith(specs, outcomes, Updated);
    DisabledAlready(u, Orphans(u, specs));
  }

  lemma DisabledAlready(u: Tables, keys: set<Key>)
    requires forall k | k in keys && k in u.agents :: u.agents[k].status.Disabled?
    ensures DisableAll(u, keys) == u
  {
    assert DisableAll(u, keys).agents == u.agents;
  }

  /** Files that are settled are passed over. */
  lemma {:induction false} QuietFirst(u: Tables, specs: seq<Spec>, n: nat, mode: Mode, mitra: bool)
      returns (outcomes: seq<Outcome>)
    requires Valid(u) && n <= |specs| && AllSettled(u, specs, |specs|, mode, mitra)
    ensures SyncFirst(u, specs, n, mode, mitra) == Ok(Progress(u, outcomes))
    ensures |outcomes| == n && Created !in outcomes && Updated !in outcomes
  {
    if n == 0 {
      return [];
    }
    var before := QuietFirst(u, specs, n - 1, mode, mitra);
    var o := QuietStep(u, specs, n, mode, mitra, before);
    return before + [o];
  }

  lemma QuietStep(u: Tables, specs: seq<Spec>, n: nat, mode: Mode, mitra: bool, before: seq<Outcome>) returns (o: Outcome)
    requires Valid(u) && 0 < n <= |specs| && AllSettled(u, specs, |specs|, mode, mitra)
    requires SyncFirst(u, specs, n - 1, mode, mitra) == Ok(Progress(u, before))
    ensures o != Created && o != Updated
    ensures SyncFirst(u, specs, n, mode, mitra) == Ok(Progress(u, before + [o]))
  {
    assert Settled(u, specs[n - 1], mode, mitra);
    QuietOne(u, specs[n - 1], mode, mitra);
    FirstStep(u, specs, n, mode, mitra);
    o := SyncOne(u, specs[n - 1], mode, mitra).value.outcome;
  }

  lemma FirstStep(u: Tables, specs: seq<Spec>, n: nat, mode: Mode, mitra: bool)
    requires 0 < n <= |specs| && SyncFirst(u, specs, n - 1, mode, mitra).Ok?
    ensures var v := SyncFirst(u, specs, n - 1, mode, mitra).value;
            var one := SyncOne(v.tables, specs[n - 1], mode, mitra);
            one.Ok? ==> SyncFirst(u, specs, n, mode, mitra)
                        == Ok(Progress(one.value.tables, v.outcomes + [one.value.outcome]))
  {
  }

  lemma QuietOne(u: Tables, spec: Spec, mode: Mode, mitra: bool)
    requires Valid(u) && Settled(u, spec, mode, mitra)
    ensures var s := SyncOne(u, spec, mode, mitra);
            s.Ok? && s.value.tables == u && (s.value.outcome.Unchanged? || s.value.outcome.Drifted?)
  {
    assert u.agents[spec.key].name == spec.name;
    assert !NameTaken(u.agents, spec.key, spec.name);
    assert u.agents[spec.key := u.agents[spec.key]] == u.agents;
    assert u.configs[spec.key := u.configs[spec.key]] == u.configs;
  }

  lemma {:induction false} NoneWith(specs: seq<Spec>, outcomes: seq<Outcome>, o: Outcome)
    requires |outcomes| <= |specs| && o !in outcomes
    ensures With(specs, outcomes, o) == []
  {
    if outcomes != [] {
      NoneWith(specs, outcomes[..|outcomes| - 1], o);
    }
  }

  /** The report accounts for every file once: each key is in exactly the list of
      its outcome, and the orphans are none of them. */
  lemma ReportPartitions(t: Tables, specs: seq<Spec>, mode: Mode, mitra: bool)
    requires Valid(t) && SyncAll(t, specs, mode, mitra).Ok?
    ensures var r := SyncAll(t, specs, mode, mitra).value.report;
            && multiset(r.created) + multiset(r.updated) + multiset(r.same) + multiset(r.drifted)
               == multiset(SpecKeys(specs))
            && Distinct(SpecKeys(specs))
            && r.orphaned !! Keys(specs)
  {
    SyncFirstLength(t, specs, |specs|, mode, mitra);
    SyncKeeps(t, specs, mode, mitra);
    var outcomes := SyncFirst(t, specs, |specs|, mode, mitra).value.outcomes;
    EachOnce(specs, outcomes);
    assert SpecKeys(specs)[..|specs|] == SpecKeys(specs);
  }

  function Tally(specs: seq<Spec>, outcomes: seq<Outcome>, o: Outcome): multiset<Key>
    requires |outcomes| <= |specs|
  {
    multiset(With(specs, outcomes, o))
  }

  function Total(specs: seq<Spec>, outcomes: seq<Outcome>): multiset<Key>
    requires |outcomes| <= |specs|
  {
    Tally(specs, outcomes, Created) + Tally(specs, outcomes, Updated)
    + Tally(specs, outcomes, Unchanged) + Tally(specs, outcomes, Drifted)
  }

  lemma {:induction false} EachOnce(specs: seq<Spec>, outcomes: seq<Outcome>)
    requires |outcomes| <= |specs|
    ensures Total(specs, outcomes) == multiset(SpecKeys(specs)[..|outcomes|])
    decreases |outcomes|
  {
    if outcomes == [] {
      assert SpecKeys(specs)[..0] == [];
    } else {
      var n := |outcomes| - 1;
      EachOnce(specs, outcomes[..n]);
      KeysSnoc(specs, n);
      TotalNext(specs, outcomes);
    }
  }

  lemma TotalNext(specs: seq<Spec>, outcomes: seq<Outcome>)
    requires 0 < |outcomes| <= |specs|
    ensures var n := |outcomes| - 1; Total(specs, outcomes) == Total(specs, outcomes[..n]) + multiset{specs[n].key}
  {
    var n := |outcomes| - 1;
    TallyNext(specs, outcomes, Created);
    TallyNext(specs, outcomes, Updated);
    TallyNext(specs, outcomes, Unchanged);
    TallyNext(specs, outcomes, Drifted);
    OneMore(Tally(specs, outcomes[..n], Created), Tally(specs, outcomes[..n], Updated),
            Tally(specs, outcomes[..n], Unchanged), Tally(specs, outcomes[..n], Drifted), specs[n].key, outcomes[n]);
  }

  lemma KeysSnoc(specs: seq<Spec>, n: nat)
    requires n < |specs|
    ensures multiset(SpecKeys(specs)[..n + 1]) == multiset(SpecKeys(specs)[..n]) + multiset{specs[n].key}
  {
    assert SpecKeys(specs)[..n + 1] == SpecKeys(specs)[..n] + [specs[n].key];
  }

  function Bumped(m: multiset<Key>, k: Key, o: Outcome, p: Outcome): multiset<Key> {
    m + (if o == p then multiset{k} else multiset{})
  }

  lemma OneMore(a: multiset<Key>, b: multiset<Key>, c: multiset<Key>, d: multiset<Key>, k: Key, o: Outcome)
    ensures Bumped(a, k, o, Created) + Bumped(b, k, o, Updated) + Bumped(c, k, o, Unchanged) + Bumped(d, k, o, Drifted)
            == a + b + c + d + multiset{k}
  {
  }

  lemma TallyNext(specs: seq<Spec>, outcomes: seq<Outcome>, o: Outcome)
    requires 0 < |outcomes| <= |specs|
    ensures var n := |outcomes| - 1;
            Tally(specs, outcomes, o) == Bumped(Tally(specs, outcomes[..n], o), specs[n].key, outcomes[n], o)
  {
  }

  /** What a sync makes of one file, told from the tables before it: the identity
      columns follow the file; the status does for a new agent, and for a remote one
      tracks whether Mitra is there, and is otherwise left alone; and the outcome. */
  ghost predicate FileIs(t: Tables, u: Tables, spec: Spec, mode: Mode, mitra: bool, o: Outcome) {
    && spec.key in u.agents && spec.key in u.configs
    && (var a := u.agents[spec.key];
        && a.name == spec.name && a.kind == spec.kind
        && a.status == (if spec.kind == RemoteFlow then (if mitra then spec.status else Disabled)
                        else if spec.key in t.agents then t.agents[spec.key].status else spec.status)
        && a.isDefault == if spec.key in t.agents then t.agents[spec.key].isDefault else spec.isDefault)
    && (if spec.key !in t.agents then o == Created && u.configs[spec.key] == [Config(1, Yaml, spec.content, true)]
        else
          && spec.key in t.configs
          && (var h := t.configs[spec.key];
              && Active(h).Some? && u.configs[spec.key] == Synced(h, spec.content, mode)
              && o == if YamlIsActive(h) then (if LatestYamlHas(h, spec.content) then Unchanged else Updated)
                      else if mode == Safe then Drifted else Updated))
  }

  lemma OneFileIs(t: Tables, v: Tables, spec: Spec, mode: Mode, mitra: bool)
    requires Valid(t) && Valid(v) && SyncOne(v, spec, mode, mitra).Ok?
    requires spec.key in v.agents <==> spec.key in t.agents
    requires spec.key in t.agents ==> v.agents[spec.key] == t.agents[spec.key] && v.configs[spec.key] == t.configs[spec.key]
    ensures var s := SyncOne(v, spec, mode, mitra).value; FileIs(t, s.tables, spec, mode, mitra, s.outcome)
  {
    if spec.key in v.agents {
      OneOld(v, spec, mode, mitra);
      SyncOutcomeIs(v.configs[spec.key], spec.content, mode);
    } else {
      OneNew(v, spec, mode, mitra);
    }
  }

  lemma FileStays(t: Tables, v: Tables, u: Tables, spec: Spec, key: Key, mode: Mode, mitra: bool, o: Outcome)
    requires FileIs(t, v, spec, mode, mitra, o) && Untouched(v, u, {key}) && spec.key != key
    ensures FileIs(t, u, spec, mode, mitra, o)
  {
  }

  lemma {:induction false} FirstFiles(t: Tables, specs: seq<Spec>, n: nat, mode: Mode, mitra: bool, i: nat)
      returns (u: Tables, o: Outcome)
    requires Valid(t) && i < n <= |specs| && Distinct(SpecKeys(specs)) && SyncFirst(t, specs, n, mode, mitra).Ok?
    ensures FileIs(t, u, specs[i], mode, mitra, o)
    ensures var p := SyncFirst(t, specs, n, mode, mitra).value; p.tables == u && |p.outcomes| == n && p.outcomes[i] == o
  {
    if i == n - 1 {
      u, o := LastFileIs(t, specs, i, mode, mitra);
    } else {
      var v, w;
      v, o := FirstFiles(t, specs, n - 1, mode, mitra, i);
      w, u := LastTouchesOne(t, specs, n, mode, mitra);
      OutcomesGrow(t, specs, n, mode, mitra, i);
      KeysDiffer(specs, i, n - 1);
      FileStays(t, v, u, specs[i], specs[n - 1].key, mode, mitra, o);
    }
  }

  lemma KeysDiffer(specs: seq<Spec>, i: nat, j: nat)
    requires i < j < |specs| && Distinct(SpecKeys(specs))
    ensures specs[i].key != specs[j].key
  {
    assert SpecKeys(specs)[i] != SpecKeys(specs)[j];
  }

  lemma LastFile(t: Tables, specs: seq<Spec>, i: nat, mode: Mode, mitra: bool, v: Tables)
    requires Valid(t) && i < |specs| && Distinct(SpecKeys(specs)) && SyncFirst(t, specs, i, mode, mitra).Ok?
    requires v == SyncFirst(t, specs, i, mode, mitra).value.tables && SyncOne(v, specs[i], mode, mitra).Ok?
    ensures var s := SyncOne(v, specs[i], mode, mitra).value; FileIs(t, s.tables, specs[i], mode, mitra, s.outcome)
  {
    SyncFirstKeeps(t, specs, i, mode, mitra);
    NotAmong(specs, i);
    OneFileIs(t, v, specs[i], mode, mitra);
  }

  lemma LastFileIs(t: Tables, specs: seq<Spec>, i: nat, mode: Mode, mitra: bool) returns (u: Tables, o: Outcome)
    requires Valid(t) && i < |specs| && Distinct(SpecKeys(specs)) && SyncFirst(t, specs, i + 1, mode, mitra).Ok?
    ensures FileIs(t, u, specs[i], mode, mitra, o)
    ensures var p := SyncFirst(t, specs, i + 1, mode, mitra).value; p.tables == u && |p.outcomes| == i + 1 && p.outcomes[i] == o
  {
    SyncFirstLength(t, specs, i, mode, mitra);
    var v;
    v, u := FirstNext(t, specs, i + 1, mode, mitra);
    o := SyncOne(v, specs[i], mode, mitra).value.outcome;
    LastFile(t, specs, i, mode, mitra, v);
  }

  lemma ValidNext(t: Tables, specs: seq<Spec>, n: nat, mode: Mode, mitra: bool) returns (v: Tables, u: Tables)
    requires Valid(t) && 0 < n <= |specs| && Distinct(SpecKeys(specs)) && SyncFirst(t, specs, n, mode, mitra).Ok?
    ensures SyncFirst(t, specs, n - 1, mode, mitra).Ok? && SyncFirst(t, specs, n - 1, mode, mitra).value.tables == v
    ensures SyncOne(v, specs[n - 1], mode, mitra).Ok? && SyncOne(v, specs[n - 1], mode, mitra).value.tables == u
    ensures SyncFirst(t, specs, n, mode, mitra).value.tables == u && Valid(v)
  {
    v, u := FirstNext(t, specs, n, mode, mitra);
    SyncFirstKeeps(t, specs, n - 1, mode, mitra);
  }

  /** The last file of those synced leaves every other as it was. */
  lemma LastTouchesOne(t: Tables, specs: seq<Spec>, n: nat, mode: Mode, mitra: bool) returns (v: Tables, u: Tables)
    requires Valid(t) && 0 < n <= |specs| && Distinct(SpecKeys(specs)) && SyncFirst(t, specs, n, mode, mitra).Ok?
    ensures SyncFirst(t, specs, n - 1, mode, mitra).Ok? && SyncFirst(t, specs, n - 1, mode, mitra).value.tables == v
    ensures SyncFirst(t, specs, n, mode, mitra).value.tables == u && Untouched(v, u, {specs[n - 1].key})
  {
    v, u := ValidNext(t, specs, n, mode, mitra);
    SyncOneKeeps(v, specs[n - 1], mode, mitra);
  }

  lemma OutcomesGrow(t: Tables, specs: seq<Spec>, n: nat, mode: Mode, mitra: bool, i: nat)
    requires i < n - 1 < |specs| && SyncFirst(t, specs, n, mode, mitra).Ok?
    ensures SyncFirst(t, specs, n - 1, mode, mitra).Ok?
    ensures var now, was := SyncFirst(t, specs, n, mode, mitra).value.outcomes, SyncFirst(t, specs, n - 1, mode, mitra).value.outcomes;
            |now| == n && |was| == n - 1 && now[i] == was[i]
  {
    SyncFirstLength(t, specs, n, mode, mitra);
    SyncFirstLength(t, specs, n - 1, mode, mitra);
  }

  lemma NotAmong(specs: seq<Spec>, i: nat)
    requires i < |specs| && Distinct(SpecKeys(specs))
    ensures specs[i].key !in Keys(specs[..i])
  {
    forall s | s in specs[..i] ensures s.key != specs[i].key {
      var j :| 0 <= j < i && specs[j] == s;
      assert SpecKeys(specs)[j] != SpecKeys(specs)[i];
    }
  }

  lemma {:induction false} InList(specs: seq<Spec>, outcomes: seq<Outcome>, o: Outcome, i: nat)
    requires |outcomes| <= |specs| && i < |outcomes| && Distinct(SpecKeys(specs))
    ensures specs[i].key in With(specs, outcomes, o) <==> outcomes[i] == o
    decreases |outcomes|
  {
    var n := |outcomes| - 1;
    assert SpecKeys(specs)[i] == specs[i].key && SpecKeys(specs)[n] == specs[n].key;
    if i < n {
      InList(specs, outcomes[..n], o, i);
    } else {
      EarlierOnly(specs, outcomes[..n], o, n);
    }
  }

  lemma {:induction false} EarlierOnly(specs: seq<Spec>, outcomes: seq<Outcome>, o: Outcome, i: nat)
    requires |outcomes| <= i < |specs| && Distinct(SpecKeys(specs))
    ensures specs[i].key !in With(specs, outcomes, o)
  {
    if outcomes != [] {
      var n := |outcomes| - 1;
      EarlierOnly(specs, outcomes[..n], o, i);
      assert SpecKeys(specs)[n] != SpecKeys(specs)[i];
    }
  }

  /** The list a file is reported in is that of its outcome. */
  ghost predicate ReportedAs(r: Report, key: Key, o: Outcome) {
    && (key in r.created <==> o == Created) && (key in r.updated <==> o == Updated)
    && (key in r.same <==> o == Unchanged) && (key in r.drifted <==> o == Drifted)
  }

  /** Every file of a completed sync, in the tables and in the report. */
  lemma EachFileIs(t: Tables, specs: seq<Spec>, mode: Mode, mitra: bool, i: nat) returns (o: Outcome)
    requires Valid(t) && SyncAll(t, specs, mode, mitra).Ok? && i < |specs|
    ensures var s := SyncAll(t, specs, mode, mitra).value;
            FileIs(t, s.tables, specs[i], mode, mitra, o) && ReportedAs(s.report, specs[i].key, o)
  {
    var u;
    u, o := FirstFiles(t, specs, |specs|, mode, mitra, i);
    var p := SyncFirst(t, specs, |specs|, mode, mitra).value;
    InList(specs, p.outcomes, Created, i);
    InList(specs, p.outcomes, Updated, i);
    InList(specs, p.outcomes, Unchanged, i);
    InList(specs, p.outcomes, Drifted, i);
    assert specs[i] in specs && specs[i].key in Keys(specs);
  }

  /** The orphans a sync reports and disables: the agents without a file that a YAML
      row serves. */
  lemma OrphansAre(t: Tables, specs: seq<Spec>, mode: Mode, mitra: bool, k: Key)
    requires Valid(t) && SyncAll(t, specs, mode, mitra).Ok?
    ensures var s := SyncAll(t, specs, mode, mitra).value;
            && (k in s.report.orphaned <==>
                  k in t.agents && (forall f | f in specs :: f.key != k) && YamlIsActive(t.configs[k]))
            && (k in s.report.orphaned ==> k in s.tables.agents && s.tables.agents[k] == t.agents[k].(status := Disabled))
  {
    SyncKeeps(t, specs, mode, mitra);
    var u := SyncAll(t, specs, mode, mitra).value.tables;
    if k in t.agents && k !in Keys(specs) {
      assert u.configs[k] == t.configs[k];
      ServedByYamlIff(t, k);
      ServedByYamlIff(u, k);
    }
  }

  lemma ServedByYamlIff(t: Tables, k: Key)
    requires Valid(t) && k in t.configs
    ensures YamlActive(t, k) <==> YamlIsActive(t.configs[k])
  {
    var h := t.configs[k];
    var i :| OnlyActive(h, i);
    ActiveIs(h, i);
    forall j | OnlyActive(h, j) ensures j == i {
      assert h[j].active;
    }
  }

  /** Two files of one key or one name. */
  ghost predicate Clash(specs: seq<Spec>) {
    exists i, j | 0 <= i < j < |specs| :: specs[i].key == specs[j].key || specs[i].name == specs[j].name
  }

  ghost predicate TwoDefaults(specs: seq<Spec>) {
    exists i, j | 0 <= i < j < |specs| :: specs[i].isDefault && specs[j].isDefault
  }

  /** Which files refuse a sync before anything is written, and with what. */
  lemma RefusedIff(t: Tables, specs: seq<Spec>, mode: Mode, mitra: bool)
    ensures var r := SyncAll(t, specs, mode, mitra);
            && (Clash(specs) <==> r == Err(DuplicateSpec))
            && (!Clash(specs) && TwoDefaults(specs) <==> r == Err(SeveralDefaults))
            && (!Clash(specs) && !TwoDefaults(specs) && (exists s | s in specs :: !s.deployable) <==> r == Err(NotDeployable))
  {
    ClashIff(specs);
    if Refusal(specs).None? && SyncFirst(t, specs, |specs|, mode, mitra).Err? {
      OnlyUnique(t, specs, |specs|, mode, mitra);
    }
  }

  lemma ClashIff(specs: seq<Spec>)
    ensures Clash(specs) <==> !Distinct(SpecKeys(specs)) || !Distinct(SpecNames(specs))
    ensures TwoDefaults(specs) <==> SeveralDefault(specs)
  {
    var k, n := SpecKeys(specs), SpecNames(specs);
    assert forall i | 0 <= i < |specs| :: k[i] == specs[i].key && n[i] == specs[i].name;
    if i, j :| 0 <= i < j < |specs| && (k[i] == k[j] || n[i] == n[j]) {
      assert specs[i].key == specs[j].key || specs[i].name == specs[j].name;
    }
    if i, j :| 0 <= i < j < |specs| && (specs[i].key == specs[j].key || specs[i].name == specs[j].name) {
      assert k[i] == k[j] || n[i] == n[j];
    }
  }

  lemma {:induction false} OnlyUnique(t: Tables, specs: seq<Spec>, n: nat, mode: Mode, mitra: bool)
    requires n <= |specs| && SyncFirst(t, specs, n, mode, mitra).Err?
    ensures SyncFirst(t, specs, n, mode, mitra) == Err(UniqueViolation)
  {
    if SyncFirst(t, specs, n - 1, mode, mitra).Err? {
      OnlyUnique(t, specs, n - 1, mode, mitra);
    }
  }

  /** In safe mode no agent with a file loses an active override, and what the file
      says is active afterwards exactly when an override is not. */
  lemma SafeSyncKeepsOverrides(t: Tables, specs: seq<Spec>, mitra: bool, k: Key)
    requires Valid(t) && SyncAll(t, specs, Safe, mitra).Ok?
    requires Overridden(t, k)
    ensures var u := SyncAll(t, specs, Safe, mitra).value.tables;
            k in u.configs && Active(u.configs[k]) == Active(t.configs[k])
  {
    SafeFirst(t, specs, |specs|, mitra, k);
  }

  predicate Overridden(t: Tables, k: Key) {
    k in t.configs && Active(t.configs[k]).Some? && Active(t.configs[k]).value.source.Db?
  }

  lemma {:induction false} SafeFirst(t: Tables, specs: seq<Spec>, n: nat, mitra: bool, k: Key)
    requires Valid(t) && n <= |specs| && Distinct(SpecKeys(specs)) && SyncFirst(t, specs, n, Safe, mitra).Ok?
    requires Overridden(t, k)
    ensures var u := SyncFirst(t, specs, n, Safe, mitra).value.tables;
            k in u.configs && Active(u.configs[k]) == Active(t.configs[k])
  {
    if n > 0 {
      SafeFirst(t, specs, n - 1, mitra, k);
      var v, u := ValidNext(t, specs, n, Safe, mitra);
      SafeOne(v, specs[n - 1], mitra, k);
    }
  }

  lemma SafeOne(v: Tables, spec: Spec, mitra: bool, k: Key)
    requires Valid(v) && SyncOne(v, spec, Safe, mitra).Ok? && Overridden(v, k)
    ensures var u := SyncOne(v, spec, Safe, mitra).value.tables;
            k in u.configs && Active(u.configs[k]) == Active(v.configs[k])
  {
    if spec.key in v.agents {
      OneOld(v, spec, Safe, mitra);
      if spec.key == k {
        SafeKeepsOverride(v.configs[k], spec.content);
      }
    } else {
      OneNew(v, spec, Safe, mitra);
    }
  }

  // -------------------------------------------------------- the admin writers

  /** Writing a version succeeds whenever the agent is there and the kind is its
      own; the new version is then the active one and no other agent is touched. */
  lemma CreateWrites(t: Tables, key: Key, kind: Kind, content: Content)
    requires Valid(t) && key in t.agents
    ensures var r := CreateVersion(t, key, kind, content);
            && (r.Ok? <==> kind == t.agents[key].kind) && (r.Err? ==> r.error == InvalidRequest)
            && (r.Ok? ==>
                  && Valid(r.value) && Grown(t, r.value) && r.value.agents == t.agents
                  && r.value.configs == t.configs[key := Appended(t.configs[key], Db, content)]
                  && Active(r.value.configs[key]) == Some(Config(|t.configs[key]| + 1, Db, content, true)))
  {
    var h := t.configs[key];
    CreatePlanEffect(h, content);
    assert Extends(h, Appended(h, Db, content));
    RowsPut(t, key, Appended(h, Db, content));
  }

  lemma RowsPut(t: Tables, key: Key, h: History)
    requires Valid(t) && key in t.agents && Sound(h) && Extends(t.configs[key], h)
    ensures Valid(t.(configs := t.configs[key := h])) && Grown(t, t.(configs := t.configs[key := h]))
  {
    assert t.agents[key := t.agents[key]] == t.agents;
    PutAdvances(t, key, t.agents[key], h);
  }

  /** The admin writers know no other agent than those there are. */
  lemma NoSuchAgentIff(t: Tables, key: Key, kind: Kind, content: Content, version: int, status: Status)
    requires Valid(t)
    ensures CreateVersion(t, key, kind, content) == Err(AgentNotFound) <==> key !in t.agents
    ensures ActivateVersion(t, key, version) == Err(AgentNotFound) <==> key !in t.agents
    ensures match SetStatus(t, key, status)
            case Ok(u) => key in t.agents && u.configs == t.configs && u.agents == t.agents[key := t.agents[key].(status := status)]
            case Err(e) => e == AgentNotFound && key !in t.agents
  {
    if key in t.agents {
      CreateWrites(t, key, kind, content);
      ActivationWrites(t, key, version);
    }
  }

  /** Activating succeeds exactly for the versions there are. */
  lemma ActivationWrites(t: Tables, key: Key, version: int)
    requires Valid(t) && key in t.agents
    ensures var r := ActivateVersion(t, key, version);
            && (r.Ok? <==> 1 <= version <= |t.configs[key]|) && (r.Err? ==> r.error == InvalidRequest)
            && (r.Ok? ==>
                  && Valid(r.value) && Grown(t, r.value) && r.value.agents == t.agents
                  && r.value.configs == t.configs[key := Switched(t.configs[key], version)]
                  && Active(r.value.configs[key]) == Some(t.configs[key][version - 1].(active := true)))
  {
    if 1 <= version <= |t.configs[key]| {
      ActivationIs(t, key, version);
    } else {
      assert !HasVersion(t.configs[key], version);
    }
  }

  lemma ActivationIs(t: Tables, key: Key, version: int)
    requires Valid(t) && key in t.agents && 1 <= version <= |t.configs[key]|
    ensures var u := t.(configs := t.configs[key := Switched(t.configs[key], version)]);
            && ActivateVersion(t, key, version) == Ok(u) && Valid(u) && Grown(t, u)
            && Active(u.configs[key]) == Some(t.configs[key][version - 1].(active := true))
  {
    var h := t.configs[key];
    SwitchedRows(h, version);
    RowsPut(t, key, Switched(h, version));
  }

  lemma SwitchedRows(h: History, version: int)
    requires Sound(h) && 1 <= version <= |h|
    ensures HasVersion(h, version) && ExecAll(h, ActivatePlan(version)) == Some(Switched(h, version))
    ensures Sound(Switched(h, version)) && Extends(h, Switched(h, version))
    ensures Active(Switched(h, version)) == Some(h[version - 1].(active := true))
  {
    assert h[version - 1].version == version;
    ActivatePlanEffect(h, version);
    SwitchedActive(h, version);
    assert Switched(h, version)[..|h|] == Switched(h, version);
  }

  // ------------------------------------------------------------- whole runs

  datatype Op =
    | Sync(specs: seq<Spec>, mode: Mode, mitra: bool)
    | Create(key: Key, kind: Kind, content: Content)
    | Activation(key: Key, version: int)
    | Patch(key: Key, status: Status)

  /** A failed operation rolls back. */
  function Do(t: Tables, op: Op): Tables {
    match op
    case Sync(specs, mode, mitra) =>
      var r := SyncAll(t, specs, mode, mitra); if r.Ok? then r.value.tables else t
    case Create(key, kind, content) =>
      var r := CreateVersion(t, key, kind, content); if r.Ok? then r.value else t
    case Activation(key, version) =>
      var r := ActivateVersion(t, key, version); if r.Ok? then r.value else t
    case Patch(key, status) =>
      var r := SetStatus(t, key, status); if r.Ok? then r.value else t
  }

  function RunOps(t: Tables, ops: seq<Op>): Tables
    decreases |ops|
  {
    if ops == [] then t else RunOps(Do(t, ops[0]), ops[1..])
  }

  lemma DoKeeps(t: Tables, op: Op)
    requires Valid(t)
    ensures Valid(Do(t, op)) && Grown(t, Do(t, op))
  {
    match op
    case Sync(specs, mode, mitra) =>
      if SyncAll(t, specs, mode, mitra).Ok? {
        SyncKeeps(t, specs, mode, mitra);
      }
    case Create(key, kind, content) =>
      if key in t.agents {
        CreateWrites(t, key, kind, content);
      }
    case Activation(key, version) =>
      if key in t.agents {
        ActivationWrites(t, key, version);
      }
    case Patch(key, status) =>
      if key in t.agents {
        PatchKeeps(t, key, status);
      }
  }

  lemma PatchKeeps(t: Tables, key: Key, status: Status)
    requires Valid(t) && key in t.agents
    ensures SetStatus(t, key, status).Ok? && Valid(SetStatus(t, key, status).value)
    ensures SetStatus(t, key, status).value.configs == t.configs && Grown(t, SetStatus(t, key, status).value)
  {
    var a := t.agents[key].(status := status);
    assert t.configs[key := t.configs[key]] == t.configs;
    ExtendsSelf(t.configs[key]);
    PutAdvances(t, key, a, t.configs[key]);
  }

  /** Over any sequence of syncs and admin writes, failed ones included, from an
      empty catalogue: every agent has consecutively numbered rows with exactly one
      active, names are unique, there is at most one default agent. */
  lemma {:induction false} RunKeepsValid(t: Tables, ops: seq<Op>)
    requires Valid(t)
    ensures Valid(RunOps(t, ops)) && Grown(t, RunOps(t, ops))
    decreases |ops|
  {
    if ops != [] {
      DoKeeps(t, ops[0]);
      var u, w := Do(t, ops[0]), RunOps(t, ops);
      RunKeepsValid(u, ops[1..]);
      forall k | k in t.configs ensures k in w.configs && Extends(t.configs[k], w.configs[k]) {
        assert k in u.configs;
        ExtendsTransitive(t.configs[k], u.configs[k], w.configs[k]);
      }
    }
  }

  lemma EmptyIsValid()
    ensures Valid(Tables(map[], map[]))
  {
  }

  // -------------------------------------------------------------- the service

  lemma {:induction false} FailureStays(t: Tables, specs: seq<Spec>, n: nat, m: nat, mode: Mode, mitra: bool)
    requires n <= m <= |specs| && SyncFirst(t, specs, n, mode, mitra).Err?
    ensures SyncFirst(t, specs, m, mode, mitra) == SyncFirst(t, specs, n, mode, mitra)
    decreases m
  {
    if n < m {
      FailureStays(t, specs, n, m - 1, mode, mitra);
    }
  }

  lemma OneFailure(t: Tables, specs: seq<Spec>, n: nat, mode: Mode, mitra: bool)
    requires 0 < n <= |specs| && SyncFirst(t, specs, n - 1, mode, mitra).Ok? && Refusal(specs).None?
    ensures var one := SyncOne(SyncFirst(t, specs, n - 1, mode, mitra).value.tables, specs[n - 1], mode, mitra);
            one.Err? ==> SyncAll(t, specs, mode, mitra) == Err(one.error)
  {
    if SyncFirst(t, specs, n, mode, mitra).Err? {
      FailureStays(t, specs, n, |specs|, mode, mitra);
    }
  }

  lemma WithSnoc(specs: seq<Spec>, outcomes: seq<Outcome>, o: Outcome, p: Outcome)
    requires |outcomes| < |specs|
    ensures With(specs, outcomes + [o], p) == With(specs, outcomes, p) + (if o == p then [specs[|outcomes|].key] else [])
  {
    assert (outcomes + [o])[..|outcomes|] == outcomes;
  }

  /** The statements of one writer, one by one; the first that violates an index stops it. */
  method Execute(h: History, stmts: seq<Stmt>) returns (g: Option<History>)
    ensures g == ExecAll(h, stmts)
  {
    var now := h;
    for i := 0 to |stmts|
      invariant ExecAll(h, stmts) == ExecAll(now, stmts[i..])
    {
      assert stmts[i..][0] == stmts[i] && stmts[i..][1..] == stmts[i + 1..];
      var next := Exec(now, stmts[i]);
      if next.None? {
        return None;
      }
      now := next.value;
    }
    return Some(now);
  }

  class Catalogue {
    var tables: Tables

    constructor ()
      ensures Valid(tables) && tables == Tables(map[], map[])
    {
      tables := Tables(map[], map[]);
      EmptyIsValid();
    }

    /** Reconcile with the files, in one transaction: nothing is kept if it raises. */
    method SyncFiles(specs: seq<Spec>, mode: Mode, mitra: bool) returns (r: Result<Report, SyncError>)
      requires Valid(tables)
      modifies this
      ensures Valid(tables)
      ensures match SyncAll(old(tables), specs, mode, mitra)
              case Ok(s) => tables == s.tables && r == Ok(s.report)
              case Err(e) => tables == old(tables) && r == Err(e)
    {
      var refusal := Refusal(specs);
      if refusal.Some? {
        return Err(refusal.value);
      }
      ghost var start := tables;
      var work := tables;
      var created, updated, same, drifted := [], [], [], [];
      ghost var outcomes: seq<Outcome> := [];
      for i := 0 to |specs|
        invariant SyncFirst(start, specs, i, mode, mitra) == Ok(Progress(work, outcomes)) && |outcomes| == i
        invariant tables == start
        invariant created == With(specs, outcomes, Created) && updated == With(specs, outcomes, Updated)
        invariant same == With(specs, outcomes, Unchanged) && drifted == With(specs, outcomes, Drifted)
      {
        var one := SyncOne(work, specs[i], mode, mitra);
        if one.Err? {
          OneFailure(start, specs, i + 1, mode, mitra);
          return Err(one.error);
        }
        FirstStep(start, specs, i + 1, mode, mitra);
        work := one.value.tables;
        WithSnoc(specs, outcomes, one.value.outcome, Created);
        WithSnoc(specs, outcomes, one.value.outcome, Updated);
        WithSnoc(specs, outcomes, one.value.outcome, Unchanged);
        WithSnoc(specs, outcomes, one.value.outcome, Drifted);
        outcomes := outcomes + [one.value.outcome];
        match one.value.outcome {
          case Created => created := created + [specs[i].key];
          case Updated => updated := updated + [specs[i].key];
          case Unchanged => same := same + [specs[i].key];
          case Drifted => drifted := drifted + [specs[i].key];
        }
      }
      var orphans := Orphans(work, specs);
      var disabled := DisableOrphans(work, orphans);
      SyncKeeps(start, specs, mode, mitra);
      tables := disabled;
      return Ok(Report(created, updated, same, drifted, orphans));
    }

    method DisableOrphans(work: Tables, orphans: set<Key>) returns (done: Tables)
      requires orphans <= work.agents.Keys
      ensures done == DisableAll(work, orphans)
    {
      done := work;
      var todo := orphans;
      DisableNone(work);
      while todo != {}
        invariant todo <= orphans && done == DisableAll(work, orphans - todo)
        decreases |todo|
      {
        var k :| k in todo;
        DisableOneMore(work, orphans - todo, k);
        done := done.(agents := done.agents[k := done.agents[k].(status := Disabled)]);
        todo := todo - {k};
        assert orphans - todo == (orphans - (todo + {k})) + {k};
      }
      assert orphans - {} == orphans;
    }

    method CreateConfig(key: Key, kind: Kind, content: Content) returns (r: Result<int, AdminError>)
      requires Valid(tables)
      modifies this
      ensures Valid(tables)
      ensures match CreateVersion(old(tables), key, kind, content)
              case Ok(t) => tables == t && r.Ok? && key in t.configs && r.value == |t.configs[key]|
              case Err(e) => tables == old(tables) && r == Err(e)
    {
      if key !in tables.agents {
        return Err(AgentNotFound);
      }
      if kind != tables.agents[key].kind {
        return Err(InvalidRequest);
      }
      CreateWrites(tables, key, kind, content);
      var h := tables.configs[key];
      NextIs(h);
      var g := Execute(h, CreatePlan(h, content));
      if g.None? {
        return Err(InvalidRequest);
      }
      tables := tables.(configs := tables.configs[key := g.value]);
      return Ok(NextVersion(h));
    }

    method ActivateConfig(key: Key, version: int) returns (r: Result<int, AdminError>)
      requires Valid(tables)
      modifies this
      ensures Valid(tables)
      ensures match ActivateVersion(old(tables), key, version)
              case Ok(t) => tables == t && r == Ok(version)
              case Err(e) => tables == old(tables) && r == Err(e)
    {
      if key !in tables.agents {
        return Err(AgentNotFound);
      }
      ActivationWrites(tables, key, version);
      var h := tables.configs[key];
      if !HasVersion(h, version) {
        return Err(InvalidRequest);
      }
      var g := Execute(h, ActivatePlan(version));
      if g.None? {
        return Err(InvalidRequest);
      }
      tables := tables.(configs := tables.configs[key := g.value]);
      return Ok(version);
    }
  }

  lemma DisableNone(t: Tables)
    ensures DisableAll(t, {}) == t
  {
    assert DisableAll(t, {}).agents == t.agents;
  }

  lemma DisableOneMore(t: Tables, keys: set<Key>, k: Key)
    requires k in t.agents
    ensures var d := DisableAll(t, keys);
            d.(agents := d.agents[k := d.agents[k].(status := Disabled)]) == DisableAll(t, keys + {k})
  {
    var d := DisableAll(t, keys);
    assert d.agents[k := d.agents[k].(status := Disabled)] == DisableAll(t, keys + {k}).agents;
  }
}
