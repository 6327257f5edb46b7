/** Which row a caller sees when rows carry a tenant and an organization: the
    ranked query, the rule it is meant to implement, and the two resolvers of an
    agent's configuration that must agree. */
module ScopeResolution {
  import opened Prelude

  const DEFAULT := "default"

  /** A row of a scoped table. */
  datatype Row<T> = Row(key: string, tenant: string, org: string, value: T)

  datatype Caller = Caller(tenant: string, org: string)

  // -------------------------------------------------------------- the query

  predicate Candidate<T>(row: Row<T>, key: string, c: Caller) {
    && row.key == key
    && (row.tenant == c.tenant || row.tenant == DEFAULT)
    && (row.org == c.org || row.org == DEFAULT)
  }

  /** The two CASE expressions, organization before tenant. */
  function Rank<T>(row: Row<T>, c: Caller): nat {
    (if row.org == c.org then 0 else 2) + (if row.tenant == c.tenant then 0 else 1)
  }

  /** The first candidate in the ranked order, whatever order the rows come in. */
  function Winner<T>(rows: seq<Row<T>>, key: string, c: Caller): Option<Row<T>> {
    if rows == [] then None
    else
      var rest := Winner(rows[1..], key, c);
      if !Candidate(rows[0], key, c) then rest
      else if rest.None? || Rank(rows[0], c) <= Rank(rest.value, c) then Some(rows[0])
      else rest
  }

  /** No two rows of one key at one scope. */
  ghost predicate UniqueScopes<T>(rows: seq<Row<T>>) {
    forall i, j | 0 <= i < j < |rows| ::
      !(rows[i].key == rows[j].key && rows[i].tenant == rows[j].tenant && rows[i].org == rows[j].org)
  }

  lemma {:induction false} WinnerIsLeast<T>(rows: seq<Row<T>>, key: string, c: Caller)
    ensures match Winner(rows, key, c)
            case Some(w) => w in rows && Candidate(w, key, c) &&
                            forall r | r in rows && Candidate(r, key, c) :: Rank(w, c) <= Rank(r, c)
            case None => forall r | r in rows :: !Candidate(r, key, c)
  {
    if rows != [] {
      WinnerIsLeast(rows[1..], key, c);
      assert forall r | r in rows :: r == rows[0] || r in rows[1..];
    }
  }

  /** Candidates at different scopes never tie, so the order of the rows has no say. */
  lemma RankSeparates<T>(a: Row<T>, b: Row<T>, key: string, c: Caller)
    requires Candidate(a, key, c) && Candidate(b, key, c) && Rank(a, c) == Rank(b, c)
    ensures a.key == b.key && a.tenant == b.tenant && a.org == b.org
  {
  }

  lemma SameRow<T>(rows: seq<Row<T>>, a: Row<T>, b: Row<T>)
    requires UniqueScopes(rows) && a in rows && b in rows
    requires a.key == b.key && a.tenant == b.tenant && a.org == b.org
    ensures a == b
  {
    var i :| 0 <= i < |rows| && rows[i] == a;
    var j :| 0 <= j < |rows| && rows[j] == b;
    assert !(i < j) && !(j < i);
  }

  lemma WinnerIs<T>(rows: seq<Row<T>>, key: string, c: Caller, w: Row<T>)
    requires UniqueScopes(rows) && w in rows && Candidate(w, key, c)
    requires forall r | r in rows && Candidate(r, key, c) :: Rank(w, c) <= Rank(r, c)
    ensures Winner(rows, key, c) == Some(w)
  {
    WinnerIsLeast(rows, key, c);
    var v := Winner(rows, key, c).value;
    RankSeparates(v, w, key, c);
    SameRow(rows, v, w);
  }

  /** Tables with the same rows answer alike. */
  lemma OrderIrrelevant<T(!new)>(rows: seq<Row<T>>, other: seq<Row<T>>, key: string, c: Caller)
    requires UniqueScopes(rows) && UniqueScopes(other) && forall r :: r in rows <==> r in other
    ensures Winner(rows, key, c) == Winner(other, key, c)
  {
    WinnerIsLeast(rows, key, c);
    WinnerIsLeast(other, key, c);
    if Winner(rows, key, c).Some? {
      WinnerIs(other, key, c, Winner(rows, key, c).value);
    }
  }

  // --------------------------------------------------------------- the rule

  function At<T>(rows: seq<Row<T>>, key: string, tenant: string, org: string): Option<Row<T>> {
    if rows == [] then None
    else if rows[0].key == key && rows[0].tenant == tenant && rows[0].org == org then Some(rows[0])
    else At(rows[1..], key, tenant, org)
  }

  /** Most specific wins: the caller's own scope, then its tenant's, then the default. */
  function ThreeLevel<T>(rows: seq<Row<T>>, key: string, c: Caller): Option<Row<T>> {
    var own, tenant := At(rows, key, c.tenant, c.org), At(rows, key, c.tenant, DEFAULT);
    if own.Some? then own else if tenant.Some? then tenant else At(rows, key, DEFAULT, DEFAULT)
  }

  lemma {:induction false} AtFinds<T>(rows: seq<Row<T>>, key: string, tenant: string, org: string)
    ensures match At(rows, key, tenant, org)
            case Some(r) => r in rows && r.key == key && r.tenant == tenant && r.org == org
            case None => forall r | r in rows :: !(r.key == key && r.tenant == tenant && r.org == org)
  {
    if rows != [] {
      AtFinds(rows[1..], key, tenant, org);
    }
  }

  /** What the query picks, level by level: the rows of the caller's organization
      at the default tenant come BEFORE the tenant's own default row. */
  function FourLevel<T>(rows: seq<Row<T>>, key: string, c: Caller): Option<Row<T>> {
    var own, org := At(rows, key, c.tenant, c.org), At(rows, key, DEFAULT, c.org);
    if own.Some? then own else if org.Some? then org
    else if At(rows, key, c.tenant, DEFAULT).Some? then At(rows, key, c.tenant, DEFAULT)
    else At(rows, key, DEFAULT, DEFAULT)
  }

  lemma WinnerIsFourLevel<T>(rows: seq<Row<T>>, key: string, c: Caller)
    requires UniqueScopes(rows)
    ensures Winner(rows, key, c) == FourLevel(rows, key, c)
  {
    AtFinds(rows, key, c.tenant, c.org);
    AtFinds(rows, key, DEFAULT, c.org);
    AtFinds(rows, key, c.tenant, DEFAULT);
    AtFinds(rows, key, DEFAULT, DEFAULT);
    WinnerIsLeast(rows, key, c);
    var f := FourLevel(rows, key, c);
    if f.Some? {
      forall r | r in rows && Candidate(r, key, c) ensures Rank(f.value, c) <= Rank(r, c) {
      }
      WinnerIs(rows, key, c, f.value);
    }
  }

  /** The query implements the documented rule exactly for the callers for whom no
      row at (default tenant, their organization) gets in front of a row of their
      tenant or of the default. */
  lemma RuleHoldsIff<T>(rows: seq<Row<T>>, key: string, c: Caller)
    requires UniqueScopes(rows)
    ensures Winner(rows, key, c) == ThreeLevel(rows, key, c) <==>
            || c.tenant == DEFAULT || c.org == DEFAULT
            || At(rows, key, c.tenant, c.org).Some? || At(rows, key, DEFAULT, c.org).None?
  {
    WinnerIsFourLevel(rows, key, c);
    AtFinds(rows, key, DEFAULT, c.org);
    AtFinds(rows, key, c.tenant, DEFAULT);
    AtFinds(rows, key, DEFAULT, DEFAULT);
  }

  // ------------------------------------------------------ the capabilities

  datatype CardStatus = Shown | ComingSoon | Off

  datatype Card = Card(status: CardStatus, order: int, text: string)

  type Cards = seq<Row<Card>>

  /** What one caller's document holds under `key`. */
  function Visible(rows: Cards, key: string, c: Caller): Option<Row<Card>> {
    var w := Winner(rows, key, c);
    if w.Some? && !w.value.value.status.Off? then w else None
  }

  function Enabled(rows: Cards): Cards {
    if rows == [] then [] else (if rows[0].value.status.Off? then [] else [rows[0]]) + Enabled(rows[1..])
  }

  lemma {:induction false} EnabledHas(rows: Cards, r: Row<Card>)
    ensures r in Enabled(rows) <==> r in rows && !r.value.status.Off?
  {
    if rows != [] {
      EnabledHas(rows[1..], r);
    }
  }

  /** Dropping disabled rows before resolving would expose another row exactly where
      a disabled winner has an enabled rival; resolving first hides the key. */
  lemma FilterFirstExposesIff(rows: Cards, key: string, c: Caller)
    requires UniqueScopes(rows)
    ensures Winner(Enabled(rows), key, c).Some? && Visible(rows, key, c).None? <==>
            && Winner(rows, key, c).Some? && Winner(rows, key, c).value.value.status.Off?
            && exists r :: r in rows && Candidate(r, key, c) && !r.value.status.Off?
  {
    WinnerIsLeast(rows, key, c);
    WinnerIsLeast(Enabled(rows), key, c);
    forall r ensures r in Enabled(rows) <==> r in rows && !r.value.status.Off? {
      EnabledHas(rows, r);
    }
  }

  /** A card is shown exactly when the most specific candidate is not disabled; a
      disabled one hides the key whatever stands behind it. */
  lemma DisabledWinnerHides(rows: Cards, key: string, c: Caller, w: Row<Card>)
    requires UniqueScopes(rows) && w in rows && Candidate(w, key, c)
    requires forall r | r in rows && Candidate(r, key, c) :: Rank(w, c) <= Rank(r, c)
    ensures Visible(rows, key, c) == if w.value.status.Off? then None else Some(w)
  {
    WinnerIs(rows, key, c, w);
  }

  datatype CapabilityError = Exists | NotFound

  function Scoped(s: string): string {
    if s == "" then DEFAULT else s
  }

  /** Insert one row at one scope. */
  function CreateCapability(rows: Cards, row: Row<Card>): Result<Cards, CapabilityError> {
    var r := row.(tenant := Scoped(row.tenant), org := Scoped(row.org));
    if At(rows, r.key, r.tenant, r.org).Some? then Err(Exists) else Ok(rows + [r])
  }

  function Without(rows: Cards, r: Row<Card>): Cards {
    if rows == [] then [] else if rows[0] == r then rows[1..] else [rows[0]] + Without(rows[1..], r)
  }

  /** Delete one scope's row; the others of the key stay. */
  function DeleteCapability(rows: Cards, key: string, tenant: string, org: string): Result<Cards, CapabilityError> {
    var r := At(rows, key, Scoped(tenant), Scoped(org));
    if r.None? then Err(NotFound) else Ok(Without(rows, r.value))
  }

  /** A row is of this key at this scope, the empty string being the default one. */
  predicate Sits(r: Row<Card>, key: string, tenant: string, org: string) {
    && r.key == key
    && r.tenant == (if tenant == "" then "default" else tenant)
    && r.org == (if org == "" then "default" else org)
  }

  /** Creating succeeds exactly where the scope has no row of the key yet, and adds the row. */
  lemma CreateIff(rows: Cards, row: Row<Card>)
    ensures CreateCapability(rows, row).Ok? <==> forall r | r in rows :: !Sits(r, row.key, row.tenant, row.org)
    ensures match CreateCapability(rows, row)
            case Ok(t) =>
              && |t| == |rows| + 1 && t[..|rows|] == rows
              && Sits(t[|rows|], row.key, row.tenant, row.org) && t[|rows|].value == row.value
            case Err(e) => e == Exists
  {
    AtFinds(rows, row.key, Scoped(row.tenant), Scoped(row.org));
  }

  /** Deleting succeeds exactly where the scope has a row of the key, and takes that
      one row out of any table, leaving every other where it was. */
  lemma DeleteIff(rows: Cards, key: string, tenant: string, org: string)
    ensures DeleteCapability(rows, key, tenant, org).Ok? <==> exists r :: r in rows && Sits(r, key, tenant, org)
    ensures match DeleteCapability(rows, key, tenant, org)
            case Ok(t) => exists i :: 0 <= i < |rows| && Sits(rows[i], key, tenant, org) && t == rows[..i] + rows[i + 1..]
            case Err(e) => e == NotFound
    ensures UniqueScopes(rows) && DeleteCapability(rows, key, tenant, org).Ok? ==>
              var t := DeleteCapability(rows, key, tenant, org).value;
              UniqueScopes(t) && forall r | r in t :: !Sits(r, key, tenant, org)
  {
    AtFinds(rows, key, Scoped(tenant), Scoped(org));
    var r := At(rows, key, Scoped(tenant), Scoped(org));
    if r.Some? {
      var i := WithoutAt(rows, r.value);
      assert Sits(rows[i], key, tenant, org);
      if UniqueScopes(rows) {
        CutStaysUnique(rows, i);
      }
    }
  }

  lemma {:induction false} WithoutAt(rows: Cards, r: Row<Card>) returns (i: nat)
    requires r in rows
    ensures i < |rows| && rows[i] == r && Without(rows, r) == rows[..i] + rows[i + 1..]
  {
    if rows[0] == r {
      i := 0;
    } else {
      var k := WithoutAt(rows[1..], r);
      i := k + 1;
      assert rows[1..][..k] == rows[1..i] && rows[1..][k + 1..] == rows[i + 1..];
      assert rows[..i] == [rows[0]] + rows[1..i];
    }
  }

  lemma CutStaysUnique(rows: Cards, i: nat)
    requires UniqueScopes(rows) && i < |rows|
    ensures var t := rows[..i] + rows[i + 1..];
            && UniqueScopes(t)
            && forall r | r in t :: !(r.key == rows[i].key && r.tenant == rows[i].tenant && r.org == rows[i].org)
  {
  }

  lemma {:induction false} AtAppend<T>(rows: seq<Row<T>>, r: Row<T>, key: string, tenant: string, org: string)
    ensures At(rows + [r], key, tenant, org) ==
            if At(rows, key, tenant, org).Some? then At(rows, key, tenant, org)
            else if r.key == key && r.tenant == tenant && r.org == org then Some(r) else None
  {
    if rows == [] {
      assert rows + [r] == [r];
    } else {
      assert (rows + [r])[1..] == rows[1..] + [r];
      AtAppend(rows[1..], r, key, tenant, org);
    }
  }

  lemma {:induction false} WithoutLast(rows: Cards, r: Row<Card>)
    requires r !in rows
    ensures Without(rows + [r], r) == rows
  {
    if rows == [] {
      assert rows + [r] == [r];
    } else {
      assert (rows + [r])[1..] == rows[1..] + [r];
      WithoutLast(rows[1..], r);
      assert [rows[0]] + rows[1..] == rows;
    }
  }

  /** Deleting what was just inserted restores the table, and with it every caller's
      document; keys stay unique per scope. */
  lemma InsertThenDelete(rows: Cards, row: Row<Card>)
    requires UniqueScopes(rows) && CreateCapability(rows, row).Ok?
    ensures var t := CreateCapability(rows, row).value;
            UniqueScopes(t) && DeleteCapability(t, row.key, row.tenant, row.org) == Ok(rows)
  {
    var r := row.(tenant := Scoped(row.tenant), org := Scoped(row.org));
    AtFinds(rows, r.key, r.tenant, r.org);
    AtAppend(rows, r, r.key, r.tenant, r.org);
    assert Scoped(Scoped(row.tenant)) == Scoped(row.tenant);
    WithoutLast(rows, r);
  }

  /** A new row changes what a caller sees exactly when it is a candidate of theirs
      that outranks what they saw; so a tenant's row never shows to another tenant. */
  lemma InsertReaches(rows: Cards, row: Row<Card>, key: string, c: Caller)
    requires UniqueScopes(rows) && CreateCapability(rows, row).Ok?
    ensures var t := CreateCapability(rows, row).value;
            var r := row.(tenant := Scoped(row.tenant), org := Scoped(row.org));
            var was := Winner(rows, key, c);
            Winner(t, key, c) ==
            if Candidate(r, key, c) && (was.None? || Rank(r, c) < Rank(was.value, c)) then Some(r) else was
  {
    InsertThenDelete(rows, row);
    var t := CreateCapability(rows, row).value;
    var r := row.(tenant := Scoped(row.tenant), org := Scoped(row.org));
    WinnerIsLeast(rows, key, c);
    WinnerIsLeast(t, key, c);
    assert forall x :: x in t <==> x in rows || x == r;
    var was := Winner(rows, key, c);
    if Candidate(r, key, c) && (was.None? || Rank(r, c) < Rank(was.value, c)) {
      WinnerIs(t, key, c, r);
    } else if was.Some? {
      WinnerIs(t, key, c, was.value);
    }
  }

  lemma OtherTenantsUnaffected(rows: Cards, row: Row<Card>, key: string, c: Caller)
    requires UniqueScopes(rows) && CreateCapability(rows, row).Ok?
    requires Scoped(row.tenant) != DEFAULT && Scoped(row.tenant) != c.tenant
    ensures Visible(CreateCapability(rows, row).value, key, c) == Visible(rows, key, c)
  {
    InsertReaches(rows, row, key, c);
  }

  // ------------------------------------------- two resolvers of one question

  /** An active configuration row of an agent. */
  datatype Cfg = Cfg(spec: string, checksum: string, readable: bool)

  type Configs = seq<Row<Cfg>>

  /** What the sidebar's query takes. */
  function SidebarConfig(configs: Configs, agent: string, c: Caller): Option<Row<Cfg>> {
    Winner(configs, agent, c)
  }

  function NotDefault(configs: Configs): Configs {
    if configs == [] then []
    else (if configs[0].tenant == DEFAULT && configs[0].org == DEFAULT then [] else [configs[0]]) + NotDefault(configs[1..])
  }

  /** What the registry serves a turn from: its snapshot of the default scope,
      overridden by a scoped row unless the caller is of the default tenant or the
      row cannot be read. */
  function RegistryConfig(configs: Configs, agent: string, c: Caller): Option<Row<Cfg>> {
    var base := At(configs, agent, DEFAULT, DEFAULT);
    if base.None? || c.tenant == "" || c.tenant == DEFAULT then base
    else
      var scoped := Winner(NotDefault(configs), agent, Caller(c.tenant, Scoped(c.org)));
      if scoped.Some? && scoped.value.value.readable then scoped else base
  }

  lemma {:induction false} NotDefaultHas(configs: Configs, r: Row<Cfg>)
    ensures r in NotDefault(configs) <==> r in configs && !(r.tenant == DEFAULT && r.org == DEFAULT)
  {
    if configs != [] {
      NotDefaultHas(configs[1..], r);
    }
  }

  lemma {:induction false} NotDefaultUnique(configs: Configs)
    requires UniqueScopes(configs)
    ensures UniqueScopes(NotDefault(configs))
  {
    if configs != [] {
      var rest := NotDefault(configs[1..]);
      NotDefaultUnique(configs[1..]);
      forall j | 0 <= j < |rest|
        ensures !(configs[0].key == rest[j].key && configs[0].tenant == rest[j].tenant && configs[0].org == rest[j].org)
      {
        NotDefaultHas(configs[1..], rest[j]);
        var k :| 0 <= k < |configs[1..]| && configs[1..][k] == rest[j];
        assert configs[k + 1] == rest[j];
      }
    }
  }

  /** Leaving out the default row changes the winner only when it was the winner. */
  lemma ScopedWinner(configs: Configs, agent: string, c: Caller)
    requires UniqueScopes(configs) && c.tenant != DEFAULT
    ensures var w := Winner(configs, agent, c);
            Winner(NotDefault(configs), agent, c) ==
            if w.Some? && !(w.value.tenant == DEFAULT && w.value.org == DEFAULT) then w else None
  {
    var rest := NotDefault(configs);
    NotDefaultUnique(configs);
    forall r ensures r in rest <==> r in configs && !(r.tenant == DEFAULT && r.org == DEFAULT) {
      NotDefaultHas(configs, r);
    }
    WinnerIsLeast(configs, agent, c);
    WinnerIsLeast(rest, agent, c);
    var w := Winner(configs, agent, c);
    if w.Some? && w.value in rest {
      WinnerIs(rest, agent, c, w.value);
    }
  }

  /** The sidebar and the registry take the same row of an agent exactly when the
      row is readable if it is a scoped one, the agent has a default row at all, and
      a caller of the default tenant has no row at their organization. */
  lemma ResolversAgreeIff(configs: Configs, agent: string, c: Caller)
    requires UniqueScopes(configs) && c.tenant != "" && c.org != ""
    ensures var w := SidebarConfig(configs, agent, c);
            RegistryConfig(configs, agent, c) == w <==>
            || w.None?
            || (w.value.tenant == DEFAULT && w.value.org == DEFAULT)
            || (w.value.value.readable && c.tenant != DEFAULT && At(configs, agent, DEFAULT, DEFAULT).Some?)
  {
    AtFinds(configs, agent, DEFAULT, DEFAULT);
    WinnerIsLeast(configs, agent, c);
    var w, base := Winner(configs, agent, c), At(configs, agent, DEFAULT, DEFAULT);
    if c.tenant != DEFAULT {
      ScopedWinner(configs, agent, c);
    }
    if w.Some? && base.Some? && w.value.tenant == DEFAULT && w.value.org == DEFAULT {
      SameRow(configs, w.value, base.value);
    }
  }

  /** What the two differ on: an agent configured for one tenant only is in that
      tenant's sidebar, and the registry does not know it. */
  lemma ScopedOnlyAgentIsUnroutable(cfg: Cfg, agent: string, tenant: string)
    requires tenant != DEFAULT && tenant != ""
    ensures var configs := [Row(agent, tenant, DEFAULT, cfg)];
            && SidebarConfig(configs, agent, Caller(tenant, DEFAULT)) == Some(configs[0])
            && RegistryConfig(configs, agent, Caller(tenant, DEFAULT)).None?
  {
    var configs := [Row(agent, tenant, DEFAULT, cfg)];
    assert configs[1..] == [] && At(configs[1..], agent, DEFAULT, DEFAULT).None?;
    WinnerIs(configs, agent, Caller(tenant, DEFAULT), configs[0]);
  }
}
