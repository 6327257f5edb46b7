/** The versioned configuration of one agent at the default scope: the rows, the
    statements that write them with the unique indexes checked statement by
    statement, and what each writer issues. */
module ConfigHistory {
  import opened Prelude

  /** A canonical spec.  Its checksum identifies it, so equal checksums are equal contents. */
  type Content = string

  datatype Source = Yaml | Db

  datatype Config = Config(version: int, source: Source, content: Content, active: bool)

  type History = seq<Config>

  datatype Mode = Safe | Force

  datatype Outcome = Created | Updated | Unchanged | Drifted

  // -------------------------------------------------------------- statements

  datatype Stmt =
    | DeactivateActive
    | DeactivateAll
    | DeactivateOthers(version: int)
    | Activate(version: int)
    | Insert(row: Config)

  function AllOff(h: History): History {
    seq(|h|, i requires 0 <= i < |h| => h[i].(active := false))
  }

  function OthersOff(h: History, v: int): History {
    seq(|h|, i requires 0 <= i < |h| => h[i].(active := h[i].active && h[i].version == v))
  }

  function TurnOn(h: History, v: int): History {
    seq(|h|, i requires 0 <= i < |h| => h[i].(active := h[i].active || h[i].version == v))
  }

  function Effect(h: History, s: Stmt): History {
    match s
    case DeactivateActive => AllOff(h)
    case DeactivateAll => AllOff(h)
    case DeactivateOthers(v) => OthersOff(h, v)
    case Activate(v) => TurnOn(h, v)
    case Insert(row) => h + [row]
  }

  /** The two unique indexes: versions, and the partial one over active rows. */
  predicate Unique(h: History) {
    forall i, j | 0 <= i < j < |h| :: h[i].version != h[j].version && !(h[i].active && h[j].active)
  }

  /** A statement that would leave an index violated raises and writes nothing. */
  function Exec(h: History, s: Stmt): Option<History> {
    if Unique(Effect(h, s)) then Some(Effect(h, s)) else None
  }

  function ExecAll(h: History, stmts: seq<Stmt>): Option<History>
    decreases |stmts|
  {
    if stmts == [] then Some(h)
    else
      var next := Exec(h, stmts[0]);
      if next.None? then None else ExecAll(next.value, stmts[1..])
  }

  // ----------------------------------------------------------------- queries

  function Active(h: History): Option<Config> {
    if h == [] then None
    else if h[|h| - 1].active then Some(h[|h| - 1])
    else Active(h[..|h| - 1])
  }

  /** The YAML row of highest version; rows are kept in version order. */
  function LatestYaml(h: History): Option<Config> {
    if h == [] then None
    else if h[|h| - 1].source.Yaml? then Some(h[|h| - 1])
    else LatestYaml(h[..|h| - 1])
  }

  function NextVersion(h: History): int {
    if h == [] then 1
    else
      var v := NextVersion(h[..|h| - 1]);
      if h[|h| - 1].version >= v then h[|h| - 1].version + 1 else v
  }

  // ----------------------------------------------------------------- writers

  datatype Plan = Plan(stmts: seq<Stmt>, outcome: Outcome)

  function FirstPlan(content: Content): Plan {
    Plan([Insert(Config(1, Yaml, content, true))], Created)
  }

  /** What one sync does to an agent that is already there. */
  function SyncPlan(h: History, content: Content, mode: Mode): Plan {
    var y, a := LatestYaml(h), Active(h);
    if y.Some? && y.value.content == content then
      if a.Some? && a.value.source.Db? then
        if mode.Force? then
          Plan([DeactivateOthers(y.value.version), Activate(y.value.version)], Updated)
        else Plan([], Drifted)
      else Plan([], Unchanged)
    else
      var adopt := mode.Force? || a.None? || a.value.source.Yaml?;
      var row := Config(NextVersion(h), Yaml, content, adopt);
      if adopt then Plan([DeactivateActive, Insert(row)], Updated) else Plan([Insert(row)], Drifted)
  }

  function CreatePlan(h: History, content: Content): seq<Stmt> {
    [DeactivateAll, Insert(Config(NextVersion(h), Db, content, true))]
  }

  function ActivatePlan(v: int): seq<Stmt> {
    [DeactivateAll, Activate(v)]
  }

  predicate HasVersion(h: History, v: int) {
    exists i | 0 <= i < |h| :: h[i].version == v
  }

  // --------------------------------------------------------------- invariant

  /** Versions count up from one, and exactly one row is active. */
  ghost predicate Sound(h: History) {
    Numbered(h) && Active(h).Some? && exists i :: OnlyActive(h, i)
  }

  ghost predicate Numbered(h: History) {
    forall i | 0 <= i < |h| :: h[i].version == i + 1
  }

  ghost predicate OnlyActive(h: History, i: int) {
    0 <= i < |h| && forall j | 0 <= j < |h| :: h[j].active <==> j == i
  }

  /** The same rows, active or not. */
  ghost predicate SameRows(h: History, g: History) {
    |h| == |g| && forall i | 0 <= i < |h| :: h[i].(active := false) == g[i].(active := false)
  }

  lemma {:induction false} NextIs(h: History)
    requires Numbered(h)
    ensures NextVersion(h) == |h| + 1
  {
    if h != [] {
      NextIs(h[..|h| - 1]);
    }
  }

  lemma {:induction false} ActiveIs(h: History, i: nat)
    requires OnlyActive(h, i)
    ensures Active(h) == Some(h[i])
  {
    if i < |h| - 1 {
      ActiveIs(h[..|h| - 1], i);
    }
  }

  lemma {:induction false} LatestYamlIs(h: History)
    ensures match LatestYaml(h)
            case Some(y) => exists i :: LastYaml(h, i) && y == h[i]
            case None => forall i | 0 <= i < |h| :: h[i].source.Db?
  {
    if h != [] {
      if h[|h| - 1].source.Yaml? {
        assert LastYaml(h, |h| - 1);
      } else {
        LatestYamlIs(h[..|h| - 1]);
        if LatestYaml(h).Some? {
          var i :| LastYaml(h[..|h| - 1], i) && LatestYaml(h) == Some(h[..|h| - 1][i]);
          assert LastYaml(h, i);
        }
      }
    }
  }

  ghost predicate LastYaml(h: History, i: int) {
    0 <= i < |h| && h[i].source.Yaml? && forall j | i < j < |h| :: h[j].source.Db?
  }

  /** Which rows are active has no say in which YAML row is the latest. */
  lemma {:induction false} LatestYamlSame(h: History, g: History)
    requires SameRows(h, g)
    ensures LatestYaml(h).Some? <==> LatestYaml(g).Some?
    ensures LatestYaml(h).Some? ==> LatestYaml(h).value.(active := false) == LatestYaml(g).value.(active := false)
  {
    if h != [] {
      assert h[|h| - 1].(active := false) == g[|g| - 1].(active := false);
      if !h[|h| - 1].source.Yaml? {
        LatestYamlSame(h[..|h| - 1], g[..|g| - 1]);
      }
    }
  }

  // --------------------------------------------------- what the writers do

  /** The two-statement writers, in effect. */
  function Appended(h: History, source: Source, content: Content): History {
    AllOff(h) + [Config(|h| + 1, source, content, true)]
  }

  function Shelved(h: History, content: Content): History {
    h + [Config(|h| + 1, Yaml, content, false)]
  }

  function Switched(h: History, v: int): History {
    seq(|h|, i requires 0 <= i < |h| => h[i].(active := h[i].version == v))
  }

  lemma ExecOne(h: History, s: Stmt)
    requires Exec(h, s).Some?
    ensures ExecAll(h, [s]) == Exec(h, s)
  {
    assert [s][1..] == [];
    assert ExecAll(Exec(h, s).value, []) == Exec(h, s);
  }

  lemma ExecTwo(h: History, a: Stmt, b: Stmt)
    requires Exec(h, a).Some? && Exec(Exec(h, a).value, b).Some?
    ensures ExecAll(h, [a, b]) == Exec(Exec(h, a).value, b)
  {
    ExecOne(Exec(h, a).value, b);
    assert [a, b][1..] == [b];
  }

  lemma DeactivateThenInsert(h: History, s: Stmt, row: Config)
    requires Numbered(h) && (s.DeactivateAll? || s.DeactivateActive?)
    requires row.version == |h| + 1 && row.active
    ensures var g := AllOff(h);
            && Exec(h, s) == Some(g) && Unique(g)
            && Exec(g, Insert(row)) == Some(g + [row])
            && Numbered(g + [row]) && OnlyActive(g + [row], |h|)
    ensures Sound(AllOff(h) + [row])
  {
    ActiveIs(AllOff(h) + [row], |h|);
  }

  lemma DeactivateThenActivate(h: History, s: Stmt, v: int)
    requires Sound(h) && 1 <= v <= |h| && (s.DeactivateAll? || s == DeactivateOthers(v))
    ensures var g := Effect(h, s);
            && Exec(h, s) == Some(g) && Unique(g)
            && Exec(g, Activate(v)) == Some(Switched(h, v))
            && Sound(Switched(h, v)) && OnlyActive(Switched(h, v), v - 1) && SameRows(h, Switched(h, v))
  {
    var g := Effect(h, s);
    assert forall i | 0 <= i < |h| :: g[i].active ==> h[i].version == v;
    assert Effect(g, Activate(v)) == Switched(h, v);
    assert OnlyActive(Switched(h, v), v - 1);
    assert Unique(g) && Unique(Switched(h, v));
    ActiveIs(Switched(h, v), v - 1);
  }

  lemma InsertInactive(h: History, row: Config)
    requires Sound(h) && row.version == |h| + 1 && !row.active
    ensures Exec(h, Insert(row)) == Some(h + [row])
    ensures Sound(h + [row]) && Active(h + [row]) == Active(h)
  {
    var i :| OnlyActive(h, i);
    assert OnlyActive(h + [row], i);
    ActiveIs(h, i);
    ActiveIs(h + [row], i);
  }

  /** No statement of any writer violates an index, and no point between two
      statements has two active rows or two rows of one version. */
  ghost predicate Smooth(h: History, stmts: seq<Stmt>)
    decreases |stmts|
  {
    Unique(h) && (stmts != [] ==> Exec(h, stmts[0]).Some? && Smooth(Exec(h, stmts[0]).value, stmts[1..]))
  }

  lemma SmoothTwo(h: History, a: Stmt, b: Stmt)
    requires Unique(h) && Exec(h, a).Some? && Exec(Exec(h, a).value, b).Some?
    ensures Smooth(h, [a, b]) && ExecAll(h, [a, b]) == Exec(Exec(h, a).value, b)
  {
    ExecTwo(h, a, b);
    var g := Exec(h, a).value;
    assert [a, b][1..] == [b] && [b][1..] == [];
    assert Smooth(Exec(g, b).value, []);
    assert Smooth(g, [b]);
  }

  lemma SoundIsUnique(h: History)
    requires Sound(h)
    ensures Unique(h) && Active(h).Some? && Active(h).value in h
  {
    var i :| OnlyActive(h, i);
    ActiveIs(h, i);
  }

  /** The rows after one sync. */
  function Synced(h: History, content: Content, mode: Mode): History
    requires Active(h).Some?
  {
    var y, a := LatestYaml(h), Active(h).value;
    if y.Some? && y.value.content == content then
      if a.source.Db? && mode.Force? then Switched(h, y.value.version) else h
    else if mode.Force? || a.source.Yaml? then Appended(h, Yaml, content)
    else Shelved(h, content)
  }

  /** What one sync of one agent comes to, whichever statements it issues. */
  lemma SyncPlanEffect(h: History, content: Content, mode: Mode)
    requires Sound(h)
    ensures var p := SyncPlan(h, content, mode);
            && ExecAll(h, p.stmts) == Some(Synced(h, content, mode))
            && Smooth(h, p.stmts) && Sound(Synced(h, content, mode))
  {
    SoundIsUnique(h);
    NextIs(h);
    LatestYamlIs(h);
    var p := SyncPlan(h, content, mode);
    var y, a := LatestYaml(h), Active(h).value;
    if y.Some? && y.value.content == content {
      if a.source.Db? && mode.Force? {
        var v := y.value.version;
        DeactivateThenActivate(h, DeactivateOthers(v), v);
        SmoothTwo(h, DeactivateOthers(v), Activate(v));
      }
    } else if mode.Force? || a.source.Yaml? {
      var row := Config(|h| + 1, Yaml, content, true);
      DeactivateThenInsert(h, DeactivateActive, row);
      SmoothTwo(h, DeactivateActive, Insert(row));
    } else {
      var row := Config(|h| + 1, Yaml, content, false);
      InsertInactive(h, row);
      ExecOne(h, Insert(row));
      SoundIsUnique(h + [row]);
      assert Smooth(h + [row], []);
      assert [Insert(row)][1..] == [];
    }
  }

  lemma CreatePlanEffect(h: History, content: Content)
    requires Sound(h)
    ensures var stmts := CreatePlan(h, content);
            && Smooth(h, stmts) && ExecAll(h, stmts) == Some(Appended(h, Db, content))
            && Sound(Appended(h, Db, content))
            && Active(Appended(h, Db, content)) == Some(Config(|h| + 1, Db, content, true))
  {
    SoundIsUnique(h);
    NextIs(h);
    var row := Config(|h| + 1, Db, content, true);
    DeactivateThenInsert(h, DeactivateAll, row);
    SmoothTwo(h, DeactivateAll, Insert(row));
    ActiveIs(Appended(h, Db, content), |h|);
  }

  lemma ActivatePlanEffect(h: History, v: int)
    requires Sound(h) && HasVersion(h, v)
    ensures var stmts := ActivatePlan(v);
            && Smooth(h, stmts) && ExecAll(h, stmts) == Some(Switched(h, v))
            && Sound(Switched(h, v)) && SameRows(h, Switched(h, v))
            && Active(Switched(h, v)).Some? && Active(Switched(h, v)).value.version == v
  {
    SoundIsUnique(h);
    DeactivateThenActivate(h, DeactivateAll, v);
    SmoothTwo(h, DeactivateAll, Activate(v));
    ActiveIs(Switched(h, v), v - 1);
  }

  /** The order of the two statements matters: inserting the new active row before
      deactivating the old one always raises. */
  lemma InsertFirstRaises(h: History, row: Config)
    requires Sound(h) && row.active
    ensures Exec(h, Insert(row)).None?
  {
    var i :| OnlyActive(h, i);
    assert (h + [row])[i].active && (h + [row])[|h|].active;
  }

  // ------------------------------------------------------------- main results

  /** The content of the YAML row of highest version. */
  ghost predicate LatestYamlHas(h: History, content: Content) {
    exists y :: LastYaml(h, y) && h[y].content == content
  }

  ghost predicate YamlIsActive(h: History) {
    exists i :: OnlyActive(h, i) && h[i].source == Yaml
  }

  /** What a sync reports of an agent that is already there: unchanged when the file
      is the latest YAML row and a YAML row is active; drifted when safe mode keeps an
      override; updated in every other case. */
  lemma SyncOutcomeIs(h: History, content: Content, mode: Mode)
    requires Sound(h)
    ensures SyncPlan(h, content, mode).outcome ==
            if YamlIsActive(h) then (if LatestYamlHas(h, content) then Unchanged else Updated)
            else if mode == Safe then Drifted else Updated
  {
    var i :| OnlyActive(h, i);
    ActiveIs(h, i);
    forall j | OnlyActive(h, j) ensures j == i {
      assert h[j].active;
    }
    LatestYamlIs(h);
    if LatestYaml(h).Some? {
      var y :| LastYaml(h, y) && LatestYaml(h).value == h[y];
      forall z | LastYaml(h, z) ensures z == y {
        assert !(z < y) && !(y < z);
      }
    }
  }

  /** The rows after a sync.  A file that is the latest YAML row adds none, and in force
      mode takes over from an override as that row; a changed file is added as the
      next version, active unless safe mode keeps an override. */
  lemma SyncedRowsAre(h: History, content: Content, mode: Mode)
    requires Sound(h)
    ensures var g := Synced(h, content, mode);
            if LatestYamlHas(h, content) then
              && SameRows(h, g)
              && (if mode == Force && !YamlIsActive(h) then exists y :: LastYaml(h, y) && OnlyActive(g, y) else g == h)
            else
              && |g| == |h| + 1 && SameRows(h, g[..|h|])
              && g[|h|] == Config(|h| + 1, Yaml, content, mode == Force || YamlIsActive(h))
              && (if mode == Force || YamlIsActive(h) then OnlyActive(g, |h|) else g[..|h|] == h)
  {
    var i :| OnlyActive(h, i);
    ActiveIs(h, i);
    forall j | OnlyActive(h, j) ensures j == i {
      assert h[j].active;
    }
    LatestYamlIs(h);
    if LatestYaml(h).Some? {
      var y :| LastYaml(h, y) && LatestYaml(h).value == h[y];
      forall z | LastYaml(h, z) ensures z == y {
        assert !(z < y) && !(y < z);
      }
      if mode == Force && LatestYamlHas(h, content) && h[i].source.Db? {
        DeactivateThenActivate(h, DeactivateAll, y + 1);
        assert OnlyActive(Switched(h, y + 1), y);
      }
    }
  }

  /** Safe mode never changes the active row while a db override is active. */
  lemma SafeKeepsOverride(h: History, content: Content)
    requires Sound(h) && Active(h).value.source.Db?
    ensures Active(Synced(h, content, Safe)) == Active(h)
  {
    SyncPlanEffect(h, content, Safe);
    NextIs(h);
    if !(LatestYaml(h).Some? && LatestYaml(h).value.content == content) {
      InsertInactive(h, Config(|h| + 1, Yaml, content, false));
    }
  }

  /** After a sync the active content is the YAML's exactly when it already was, or
      the latest YAML row does not carry it and a YAML row is active or the mode is
      force, or the mode is force and a db override is active.  What is left out: an
      older YAML row that someone activated survives even a force sync. */
  lemma YamlActiveIff(h: History, content: Content, mode: Mode)
    requires Sound(h)
    ensures var a := Active(h).value;
            var stale := LatestYaml(h).None? || LatestYaml(h).value.content != content;
            && Active(Synced(h, content, mode)).Some?
            && (Active(Synced(h, content, mode)).value.content == content
                <==> || a.content == content
                     || (mode.Force? && (stale || a.source.Db?))
                     || (mode.Safe? && stale && a.source.Yaml?))
  {
    SyncPlanEffect(h, content, mode);
    SoundIsUnique(h);
    LatestYamlIs(h);
    NextIs(h);
    var y, a := LatestYaml(h), Active(h).value;
    if y.Some? && y.value.content == content {
      if a.source.Db? && mode.Force? {
        SwitchedActive(h, y.value.version);
      }
    } else if mode.Force? || a.source.Yaml? {
      DeactivateThenInsert(h, DeactivateActive, Config(|h| + 1, Yaml, content, true));
      ActiveIs(Appended(h, Yaml, content), |h|);
    } else {
      InsertInactive(h, Config(|h| + 1, Yaml, content, false));
    }
  }

  lemma SwitchedActive(h: History, v: int)
    requires Sound(h) && 1 <= v <= |h|
    ensures Active(Switched(h, v)) == Some(h[v - 1].(active := true))
    ensures Sound(Switched(h, v)) && SameRows(h, Switched(h, v))
  {
    DeactivateThenActivate(h, DeactivateAll, v);
    ActiveIs(Switched(h, v), v - 1);
  }

  /** A second sync with the same YAML and mode writes nothing and reports the agent
      unchanged, or drifted if safe mode is keeping an override. */
  lemma SecondSyncIsQuiet(h: History, content: Content, mode: Mode)
    requires Sound(h)
    ensures SyncPlan(Synced(h, content, mode), content, mode) ==
            Plan([], if mode.Safe? && Active(h).value.source.Db? then Drifted else Unchanged)
  {
    var g := Synced(h, content, mode);
    SoundIsUnique(h);
    NextIs(h);
    var y, a := LatestYaml(h), Active(h).value;
    if y.Some? && y.value.content == content {
      if a.source.Db? && mode.Force? {
        LatestYamlIs(h);
        SwitchedActive(h, y.value.version);
        LatestYamlSame(h, g);
      }
    } else if mode.Force? || a.source.Yaml? {
      ActiveIs(g, |h|);
    } else {
      InsertInactive(h, Config(|h| + 1, Yaml, content, false));
    }
    Quiet(g, content, mode);
  }

  lemma Quiet(g: History, content: Content, mode: Mode)
    requires LatestYaml(g).Some? && LatestYaml(g).value.content == content
    requires Active(g).Some? && (mode.Force? ==> Active(g).value.source.Yaml?)
    ensures SyncPlan(g, content, mode) == Plan([], if Active(g).value.source.Db? then Drifted else Unchanged)
  {
  }

  /** A run that ends with force mode leaving the wrong content active: the file is
      edited, an admin goes back to the first version, and force is asked for. */
  lemma ForceKeepsOlderYaml(first: Content, second: Content)
    requires first != second
    ensures var h0 := [Config(1, Yaml, first, true)];
            var h1 := [Config(1, Yaml, first, false), Config(2, Yaml, second, true)];
            var h2 := [Config(1, Yaml, first, true), Config(2, Yaml, second, false)];
            && ExecAll([], FirstPlan(first).stmts) == Some(h0)
            && ExecAll(h0, SyncPlan(h0, second, Force).stmts) == Some(h1)
            && ExecAll(h1, ActivatePlan(1)) == Some(h2)
            && SyncPlan(h2, second, Force) == Plan([], Unchanged)
            && Active(h2).Some? && Active(h2).value.content == first
  {
    var h0 := [Config(1, Yaml, first, true)];
    FirstPlanEffect(first);
    SyncPlanEffect(h0, second, Force);
    var h1 := Appended(h0, Yaml, second);
    assert h1 == [Config(1, Yaml, first, false), Config(2, Yaml, second, true)];
    assert h1[0].version == 1;
    ActivatePlanEffect(h1, 1);
    assert Switched(h1, 1) == [Config(1, Yaml, first, true), Config(2, Yaml, second, false)];
    SwitchedActive(h1, 1);
  }

  lemma FirstPlanEffect(content: Content)
    ensures var h := [Config(1, Yaml, content, true)];
            Smooth([], FirstPlan(content).stmts) && ExecAll([], FirstPlan(content).stmts) == Some(h) && Sound(h)
  {
    var h, row := [Config(1, Yaml, content, true)], Config(1, Yaml, content, true);
    assert OnlyActive(h, 0);
    assert [Insert(row)][1..] == [] && [] + [row] == h;
    ActiveIs(h, 0);
    assert Exec([], Insert(row)) == Some(h);
    assert Smooth(h, []);
    ExecOne([], Insert(row));
  }
}
