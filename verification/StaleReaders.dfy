/** Turns of several callers that read an agent, resolve it for their scope and
    build its handler as three separate steps, with reloads anywhere between: when
    an answer is the one the tables alone would give, and what decides it. */
module StaleReaders {
  import opened Prelude
  import opened ScopeResolution
  import opened HandlerCache

  /** What a turn holds once it has read the agent, and in which version. */
  datatype Held = Held(agent: string, caller: Caller, cfg: Cfg, version: nat)

  /** `filler` remembers, of each cached scope entry, what the turn that filled it held. */
  datatype Desk = Desk(db: Db, reg: Reg, factory: Factory, held: map<nat, Held>, resolved: map<nat, Cfg>,
                       filler: map<ScopeKey, Held>)

  datatype Move =
    | Read(turn: nat, agent: string, caller: Caller)
    | Resolve(turn: nat)
    | Make(turn: nat, specKey: string, known: bool)
    | Publish(db: Db)

  function KeyOf(d: Desk, h: Held): ScopeKey {
    KeyFor(d.reg, h.agent, h.caller)
  }

  function Answer(d: Desk, h: Held): Cfg {
    Resolution(d.reg, d.db, h.agent, h.cfg, h.caller)
  }

  /** The scope has a readable row of its own. */
  predicate OwnRow(db: Db, agent: string, c: Caller) {
    && c.tenant != "" && c.tenant != DEFAULT
    && ScopedRow(db, agent, c).Some? && ScopedRow(db, agent, c).value.value.readable
  }

  /** Resolving will leave an entry in the scope cache. */
  predicate Fills(d: Desk, h: Held) {
    && h.caller.tenant != "" && h.caller.tenant != DEFAULT && KeyOf(d, h) !in d.reg.scoped
    && !(ScopedRow(d.db, h.agent, h.caller).Some? && !ScopedRow(d.db, h.agent, h.caller).value.value.readable)
  }

  function StepDesk(d: Desk, m: Move): Desk {
    match m
    case Read(turn, agent, caller) =>
      if agent !in d.reg.snapshot then d
      else d.(held := d.held[turn := Held(agent, caller, d.reg.snapshot[agent], d.reg.version)])
    case Resolve(turn) =>
      if turn !in d.held then d
      else
        var h := d.held[turn];
        d.(reg := AfterResolution(d.reg, d.db, h.agent, h.cfg, h.caller),
           resolved := d.resolved[turn := Answer(d, h)],
           filler := if !Fills(d, h) then d.filler
                     else (if |d.reg.scoped| >= SCOPE_CACHE_MAX then map[] else d.filler)[KeyOf(d, h) := h])
    case Make(turn, specKey, known) =>
      if turn !in d.resolved then d
      else
        var cfg := d.resolved[turn];
        d.(factory := AfterBuild(d.factory, CacheKey(specKey, cfg.checksum), cfg.spec, known))
    case Publish(db) => d.(db := db, reg := Reloaded(d.reg, db))
  }

  function RunMoves(d: Desk, moves: seq<Move>): Desk
    decreases |moves|
  {
    if moves == [] then d else RunMoves(StepDesk(d, moves[0]), moves[1..])
  }

  function Opening(db: Db): Desk {
    Desk(db, Reloaded(Reg(0, map[], map[]), db), Factory(map[], 0), map[], map[], map[])
  }

  /** Whose reading decides the answer for a scope without a row of its own: that of
      the turn that filled the cache entry, else the asking turn's. */
  function Decider(d: Desk, h: Held): Held {
    if KeyOf(d, h) in d.reg.scoped && KeyOf(d, h) in d.filler then d.filler[KeyOf(d, h)] else h
  }

  // --------------------------------------------------------------- invariant

  ghost predicate HeldOk(d: Desk, h: Held, content: string -> string) {
    && h.version <= d.reg.version
    && content(h.cfg.checksum) == h.cfg.spec
    && (h.version == d.reg.version ==> BaseRow(d.db, h.agent) == Some(h.cfg))
  }

  ghost predicate CachedOk(d: Desk, k: ScopeKey, content: string -> string)
    requires k in d.reg.scoped
  {
    && k.version <= d.reg.version
    && k.tenant != "" && k.tenant != DEFAULT
    && content(d.reg.scoped[k].checksum) == d.reg.scoped[k].spec
    && k in d.filler && d.filler[k].agent == k.agent && HeldOk(d, d.filler[k], content)
    && (k.version == d.reg.version ==>
          var c := Caller(k.tenant, k.org);
          var row := ScopedRow(d.db, k.agent, c);
          if row.None? then d.reg.scoped[k] == d.filler[k].cfg
          else row.value.value.readable && d.reg.scoped[k] == row.value.value)
  }

  ghost predicate DeskInv(d: Desk, content: string -> string) {
    && Identified(d.db, content)
    && d.reg.snapshot == SnapshotOf(d.db)
    && (forall t | t in d.held :: HeldOk(d, d.held[t], content))
    && (forall t | t in d.resolved :: content(d.resolved[t].checksum) == d.resolved[t].spec)
    && (forall k | k in d.reg.scoped :: CachedOk(d, k, content))
    && HandlersOk(d.factory, content)
  }

  lemma BaseIsIdentified(db: Db, agent: string, content: string -> string)
    requires Identified(db, content) && BaseRow(db, agent).Some?
    ensures content(BaseRow(db, agent).value.checksum) == BaseRow(db, agent).value.spec
  {
    AtFinds(db.configs, agent, DEFAULT, DEFAULT);
  }

  lemma ScopedIsIdentified(db: Db, agent: string, c: Caller, content: string -> string)
    requires Identified(db, content) && ScopedRow(db, agent, c).Some?
    ensures content(ScopedRow(db, agent, c).value.value.checksum) == ScopedRow(db, agent, c).value.value.spec
  {
    WinnerIsLeast(NotDefault(db.configs), agent, Caller(c.tenant, Scoped(c.org)));
    NotDefaultHas(db.configs, ScopedRow(db, agent, c).value);
  }

  lemma AnswerIsIdentified(d: Desk, h: Held, content: string -> string)
    requires DeskInv(d, content) && HeldOk(d, h, content)
    ensures content(Answer(d, h).checksum) == Answer(d, h).spec
  {
    if KeyOf(d, h) in d.reg.scoped {
      assert CachedOk(d, KeyOf(d, h), content);
    }
    if ScopedRow(d.db, h.agent, h.caller).Some? {
      ScopedIsIdentified(d.db, h.agent, h.caller, content);
    }
  }

  lemma ReadKeeps(d: Desk, turn: nat, agent: string, caller: Caller, content: string -> string)
    requires DeskInv(d, content)
    ensures DeskInv(StepDesk(d, Read(turn, agent, caller)), content)
  {
    var e := StepDesk(d, Read(turn, agent, caller));
    if agent in d.reg.snapshot {
      BaseIsIdentified(d.db, agent, content);
    }
    forall t | t in e.held ensures HeldOk(e, e.held[t], content) {
      assert t != turn ==> t in d.held && HeldOk(d, d.held[t], content);
    }
    forall k | k in e.reg.scoped ensures CachedOk(e, k, content) {
      assert CachedOk(d, k, content);
    }
  }

  lemma ResolveKeeps(d: Desk, turn: nat, content: string -> string)
    requires DeskInv(d, content) && turn in d.held
    ensures DeskInv(StepDesk(d, Resolve(turn)), content)
  {
    var e, h := StepDesk(d, Resolve(turn)), d.held[turn];
    AnswerIsIdentified(d, h, content);
    forall t | t in e.held ensures HeldOk(e, e.held[t], content) {
      assert HeldOk(d, d.held[t], content);
    }
    forall k | k in e.reg.scoped ensures CachedOk(e, k, content) {
      if k in d.reg.scoped {
        assert CachedOk(d, k, content);
      } else {
        assert k == KeyOf(d, h) && Caller(k.tenant, k.org) == h.caller;
        assert HeldOk(d, h, content);
      }
    }
  }

  lemma PublishKeeps(d: Desk, db: Db, content: string -> string)
    requires DeskInv(d, content) && Loadable(db) && Identified(db, content)
    ensures DeskInv(StepDesk(d, Publish(db)), content)
  {
    var e := StepDesk(d, Publish(db));
    forall t | t in e.held ensures HeldOk(e, e.held[t], content) {
      assert HeldOk(d, d.held[t], content);
    }
    forall k | k in e.reg.scoped ensures CachedOk(e, k, content) {
      assert CachedOk(d, k, content);
    }
  }

  lemma MakeKeeps(d: Desk, turn: nat, specKey: string, known: bool, content: string -> string)
    requires DeskInv(d, content)
    ensures DeskInv(StepDesk(d, Make(turn, specKey, known)), content)
  {
    var e := StepDesk(d, Make(turn, specKey, known));
    if turn in d.resolved {
      var cfg := d.resolved[turn];
      BuildKeeps(d.factory, CacheKey(specKey, cfg.checksum), cfg.spec, known, content);
    }
    forall t | t in e.held ensures HeldOk(e, e.held[t], content) {
      assert HeldOk(d, d.held[t], content);
    }
    forall k | k in e.reg.scoped ensures CachedOk(e, k, content) {
      assert CachedOk(d, k, content);
    }
  }

  ghost predicate GoodMove(m: Move, content: string -> string) {
    m.Publish? ==> Loadable(m.db) && Identified(m.db, content)
  }

  lemma {:induction false} MovesKeep(d: Desk, moves: seq<Move>, content: string -> string)
    requires DeskInv(d, content) && forall m | m in moves :: GoodMove(m, content)
    ensures DeskInv(RunMoves(d, moves), content)
    decreases |moves|
  {
    if moves != [] {
      assert moves[0] in moves && forall m | m in moves[1..] :: m in moves;
      match moves[0] {
        case Read(turn, agent, caller) => ReadKeeps(d, turn, agent, caller, content);
        case Resolve(turn) => if turn in d.held { ResolveKeeps(d, turn, content); }
        case Make(turn, specKey, known) => MakeKeeps(d, turn, specKey, known, content);
        case Publish(db) => PublishKeeps(d, db, content);
      }
      MovesKeep(StepDesk(d, moves[0]), moves[1..], content);
    }
  }

  // ----------------------------------------------------------- main results

  /** Over every run, a turn's answer is the one the tables alone would give exactly
      when the agent is still served at the default scope and either its scope has
      a row of its own, or what the deciding turn had read is still the default
      row; a reading of the version in force always is. */
  lemma AnswerIsTrueIff(db: Db, moves: seq<Move>, turn: nat, content: string -> string)
    requires Loadable(db) && Identified(db, content) && forall m | m in moves :: GoodMove(m, content)
    requires turn in RunMoves(Opening(db), moves).held
    ensures var d := RunMoves(Opening(db), moves);
            var h := d.held[turn];
            var base := BaseRow(d.db, h.agent);
            && (TrueCfg(d.db, h.agent, h.caller) == Some(Answer(d, h)) <==>
                  base.Some? && (OwnRow(d.db, h.agent, h.caller) || Decider(d, h).cfg == base.value))
            && (Decider(d, h).version == d.reg.version ==> base == Some(Decider(d, h).cfg))
  {
    MovesKeep(Opening(db), moves, content);
    AnswerByDecider(RunMoves(Opening(db), moves), turn, content);
  }

  lemma AnswerByDecider(d: Desk, turn: nat, content: string -> string)
    requires DeskInv(d, content) && turn in d.held
    ensures var h := d.held[turn];
            var base := BaseRow(d.db, h.agent);
            && (TrueCfg(d.db, h.agent, h.caller) == Some(Answer(d, h)) <==>
                  base.Some? && (OwnRow(d.db, h.agent, h.caller) || Decider(d, h).cfg == base.value))
            && (Decider(d, h).version == d.reg.version ==> base == Some(Decider(d, h).cfg))
  {
    var h := d.held[turn];
    assert HeldOk(d, h, content);
    if KeyOf(d, h) in d.reg.scoped {
      assert CachedOk(d, KeyOf(d, h), content);
      assert Caller(h.caller.tenant, h.caller.org) == h.caller;
    }
  }

  /** So an answer that differs was decided by a turn that had read the agent before
      the last reload, for a scope without a row of its own or an agent since withdrawn. */
  lemma WrongAnswersAreStale(db: Db, moves: seq<Move>, turn: nat, content: string -> string)
    requires Loadable(db) && Identified(db, content) && forall m | m in moves :: GoodMove(m, content)
    requires turn in RunMoves(Opening(db), moves).held
    requires var d := RunMoves(Opening(db), moves);
             TrueCfg(d.db, d.held[turn].agent, d.held[turn].caller) != Some(Answer(d, d.held[turn]))
    ensures var d := RunMoves(Opening(db), moves);
            var h := d.held[turn];
            && Decider(d, h).version < d.reg.version
            && (OwnRow(d.db, h.agent, h.caller) ==> BaseRow(d.db, h.agent).None?)
  {
    AnswerIsTrueIff(db, moves, turn, content);
    MovesKeep(Opening(db), moves, content);
    var d := RunMoves(Opening(db), moves);
    assert HeldOk(d, d.held[turn], content);
    if KeyOf(d, d.held[turn]) in d.reg.scoped {
      assert CachedOk(d, KeyOf(d, d.held[turn]), content);
    }
  }

  /** Stale or not, the handler a turn gets is built from the very spec it resolved. */
  lemma HandlerIsOfResolvedSpec(db: Db, moves: seq<Move>, turn: nat, specKey: string, known: bool, content: string -> string)
    requires Loadable(db) && Identified(db, content) && forall m | m in moves :: GoodMove(m, content)
    requires turn in RunMoves(Opening(db), moves).resolved
    ensures var d := RunMoves(Opening(db), moves);
            var cfg := d.resolved[turn];
            var h := Built(d.factory, CacheKey(specKey, cfg.checksum), cfg.spec, known);
            h.Ok? ==> h.value.spec == cfg.spec
  {
    MovesKeep(Opening(db), moves, content);
  }
}
