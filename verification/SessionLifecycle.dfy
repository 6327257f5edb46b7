/** The eight-state lifecycle of one agent session row, and every write the
    repository can make to such a row. */
module SessionLifecycle {
  import opened Prelude

  type AgentId = nat
  type Time = int

  datatype State =
    | Pending | Authenticating | InProgress | AwaitingUser
    | Finalizing | Completed | Failed | Abandoned

  predicate Terminal(s: State) {
    s.Completed? || s.Failed? || s.Abandoned?
  }

  predicate Claimable(s: State) {
    s.InProgress? || s.AwaitingUser?
  }

  /** The lifecycle table that `apply` validates against. */
  predicate Allowed(from: State, to: State) {
    match from
    case Pending =>
      to.Pending? || to.Authenticating? || to.AwaitingUser? || to.Finalizing? || to.Failed?
    case Authenticating => to.Authenticating? || to.InProgress? || to.Failed?
    case InProgress => to.InProgress? || to.AwaitingUser? || to.Finalizing? || to.Failed?
    case AwaitingUser => to.AwaitingUser? || to.InProgress? || to.Finalizing? || to.Abandoned?
    case Finalizing => to.Finalizing? || to.Completed? || to.Failed?
    case Completed => false
    case Failed => false
    case Abandoned => false
  }

  /** How far through its life a session is. */
  function Rank(s: State): nat {
    match s
    case Pending => 0
    case Authenticating => 1
    case InProgress => 2
    case AwaitingUser => 2
    case Finalizing => 3
    case Completed => 4
    case Failed => 4
    case Abandoned => 4
  }

  datatype Session = Session(
    agent: AgentId,
    state: State,
    remoteId: Option<string>,
    remoteProfile: Option<string>,
    step: int,
    turnCount: nat,
    resultRef: Option<string>,
    reportUrl: Option<string>,
    error: Option<string>,
    lastActivity: Time,
    finalizedAt: Option<Time>,
    endedAt: Option<Time>)
  {
    predicate Open() {
      !Terminal(state)
    }

    /** The table's CHECK constraints. */
    predicate Checks() {
      && (Terminal(state) <==> endedAt.Some?)
      && (state.Pending? || state.Failed? || state.Abandoned? || remoteId.Some?)
      && (state.Completed? ==> resultRef.Some?)
    }

    /** The CHECK constraints, and that exactly the completed rows are finalized. */
    predicate Holds() {
      Checks() && (state.Completed? <==> finalizedAt.Some?)
    }

    /** What the turns maintain beyond that: a pending row has no remote identity. */
    predicate Fits() {
      Holds() && (state.Pending? ==> remoteId.None?)
    }
  }

  datatype Delta = Delta(
    state: State,
    remoteId: Option<string>,
    remoteProfile: Option<string>,
    step: Option<int>,
    resultRef: Option<string>,
    reportUrl: Option<string>,
    error: Option<string>)

  /** A delta that changes the state and nothing else. */
  function OnlyState(s: State): Delta {
    Delta(s, None, None, None, None, None, None)
  }

  function Coalesce<T>(x: Option<T>, y: Option<T>): Option<T> {
    if x.Some? then x else y
  }

  function FreshSession(agent: AgentId, now: Time): Session {
    Session(agent, Pending, None, None, 0, 0, None, None, None, now, None, None)
  }

  datatype ApplyError = InvalidTransition | ConcurrentModification | CheckViolation

  /** The columns one `apply` writes. */
  function Applied(row: Session, d: Delta, now: Time): Session {
    row.(state := d.state,
         remoteId := Coalesce(d.remoteId, row.remoteId),
         remoteProfile := Coalesce(d.remoteProfile, row.remoteProfile),
         step := if d.step.Some? then d.step.value else row.step,
         turnCount := row.turnCount + 1,
         resultRef := Coalesce(d.resultRef, row.resultRef),
         reportUrl := Coalesce(d.reportUrl, row.reportUrl),
         error := Coalesce(d.error, row.error),
         lastActivity := now,
         finalizedAt := if d.state.Completed? then Some(now) else row.finalizedAt,
         endedAt := if Terminal(d.state) then Some(now) else row.endedAt)
  }

  /** `apply`: the transition is validated against the state the caller READ,
      then a guarded update is issued against the row as it is NOW. */
  function Apply(row: Session, read: State, d: Delta, now: Time): Result<Session, ApplyError> {
    if !Allowed(read, d.state) then Err(InvalidTransition)
    else if row.state != read then Err(ConcurrentModification)
    else
      var next := Applied(row, d, now);
      if next.Checks() then Ok(next) else Err(CheckViolation)
  }

  /** The finalisation claim: one guarded update that sets the state and nothing else. */
  function Claim(row: Session): Option<Session> {
    if Claimable(row.state) then Some(row.(state := Finalizing)) else None
  }

  /** The escape hatch shared by abandon and the idle sweep. */
  function Retired(row: Session, reason: string, now: Time): Session {
    row.(state := Abandoned, endedAt := Some(now), error := Some(reason))
  }

  /** `older` can be an earlier version of `newer`: same agent, no step back in
      the lifecycle, final once terminal, remote identity and result written once. */
  predicate Older(older: Session, newer: Session) {
    && older.agent == newer.agent
    && Rank(older.state) <= Rank(newer.state)
    && (Terminal(older.state) ==> older == newer)
    && (older.remoteId.Some? ==> newer.remoteId == older.remoteId)
    && older.turnCount <= newer.turnCount
  }

  lemma OlderTransitive(a: Session, b: Session, c: Session)
    requires Older(a, b) && Older(b, c)
    ensures Older(a, c)
  {
  }

  /** Every entry of the lifecycle table moves forward, and nothing leaves a terminal state. */
  lemma TableIsMonotone(from: State, to: State)
    ensures Allowed(from, to) ==> Rank(from) <= Rank(to) && !Terminal(from)
    ensures Terminal(from) <==> forall t: State :: !Allowed(from, t)
  {
    if !Terminal(from) {
      assert Allowed(from, from);
    }
  }

  /** The table read by its targets: from where each state can be reached. */
  lemma WhereFrom(from: State, to: State)
    ensures Allowed(from, to) <==>
            match to
            case Pending => from == Pending
            case Authenticating => from == Pending || from == Authenticating
            case InProgress => from == Authenticating || from == InProgress || from == AwaitingUser
            case AwaitingUser => from == Pending || from == InProgress || from == AwaitingUser
            case Finalizing => from == Pending || from == InProgress || from == AwaitingUser || from == Finalizing
            case Completed => from == Finalizing
            case Failed => from == Pending || from == Authenticating || from == InProgress || from == Finalizing
            case Abandoned => from == AwaitingUser
  {
  }

  /** Each column after an `apply`: what the delta leaves out stays, what it brings
      replaces; the turn is counted and dated, and ending and completing are dated. */
  lemma ApplyColumns(row: Session, read: State, d: Delta, now: Time)
    requires Apply(row, read, d, now).Ok?
    ensures var next := Apply(row, read, d, now).value;
            && next.agent == row.agent && next.state == d.state
            && (if d.remoteId.Some? then next.remoteId == d.remoteId else next.remoteId == row.remoteId)
            && (if d.remoteProfile.Some? then next.remoteProfile == d.remoteProfile else next.remoteProfile == row.remoteProfile)
            && (if d.step.Some? then next.step == d.step.value else next.step == row.step)
            && (if d.resultRef.Some? then next.resultRef == d.resultRef else next.resultRef == row.resultRef)
            && (if d.reportUrl.Some? then next.reportUrl == d.reportUrl else next.reportUrl == row.reportUrl)
            && (if d.error.Some? then next.error == d.error else next.error == row.error)
            && next.turnCount == row.turnCount + 1 && next.lastActivity == now
            && (d.state == Completed ==> next.finalizedAt == Some(now))
            && (d.state != Completed ==> next.finalizedAt == row.finalizedAt)
            && (d.state == Completed || d.state == Failed || d.state == Abandoned ==> next.endedAt == Some(now))
            && (d.state != Completed && d.state != Failed && d.state != Abandoned ==> next.endedAt == row.endedAt)
  {
  }

  /** What the delta must carry for `apply` to get past the CHECK constraints:
      exactly these two conditions on a well-formed row. */
  lemma ApplyOutcome(row: Session, read: State, d: Delta, now: Time)
    requires row.Holds()
    ensures Apply(row, read, d, now).Ok? <==>
            && Allowed(read, d.state)
            && row.state == read
            && (d.state.Pending? || d.state.Failed? || d.state.Abandoned? || d.remoteId.Some? || row.remoteId.Some?)
            && (d.state.Completed? ==> d.resultRef.Some? || row.resultRef.Some?)
    ensures Apply(row, read, d, now).Ok? ==>
              var next := Apply(row, read, d, now).value;
              next.state == d.state && next.Checks() && next.turnCount == row.turnCount + 1
  {
    TableIsMonotone(read, d.state);
  }

  /** The delta replaces the remote identity that the row has. */
  predicate Renames(row: Session, d: Delta) {
    row.remoteId.Some? && d.remoteId.Some? && d.remoteId != row.remoteId
  }

  /** Whatever delta `apply` accepts, the row stays well formed.  It is a newer
      version of the row exactly when the delta does not rename the remote
      identity, which `apply` would do without complaint; and a row without one
      while pending stays so exactly when no pending delta brings one. */
  lemma ApplyKeepsRow(row: Session, read: State, d: Delta, now: Time)
    requires row.Holds() && Apply(row, read, d, now).Ok?
    ensures var next := Apply(row, read, d, now).value;
            && row.Open() && next.Holds() && next.state == d.state
            && (Older(row, next) <==> !Renames(row, d))
            && next.remoteId == Coalesce(d.remoteId, row.remoteId)
            && (row.Fits() ==> (next.Fits() <==> !(d.state.Pending? && d.remoteId.Some?)))
  {
    TableIsMonotone(read, d.state);
  }

  lemma ClaimKeepsRow(row: Session)
    requires row.Holds()
    ensures Claim(row).Some? <==> row.state == InProgress || row.state == AwaitingUser
    ensures Claim(row).Some? ==>
              var next := Claim(row).value;
              && next.state == Finalizing && next == row.(state := next.state)
              && row.Open() && Older(row, next) && next.Fits()
              && !Claimable(next.state) && Claim(next).None?
  {
  }

  lemma RetireKeepsRow(row: Session, reason: string, now: Time)
    requires row.Holds() && row.Open()
    ensures var next := Retired(row, reason, now);
            && Older(row, next) && next.Fits() && !next.Open()
            && next.state == Abandoned && next.endedAt == Some(now) && next.error == Some(reason)
            && next == row.(state := next.state, endedAt := next.endedAt, error := next.error)
  {
  }
}
