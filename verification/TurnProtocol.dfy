/** The turn, finalise, resume and retire requests on one conversation, as a
    state machine whose steps are single SQL statements.

    Any number of connections run requests at once.  Each connection has at most
    one transaction open: its writes are invisible to the others until it
    commits, a row it has written stays locked until then, and a rollback drops
    every write.  Statements see committed rows plus their own writes. */
module TurnProtocol {
  import opened Prelude
  import opened SessionLifecycle

  type Conn = nat
  type Sid = nat

  /** A version of a session row.  `spent` records that the remote finalize call
      was made under the claim this version descends from. */
  datatype Version = Version(row: Session, spent: bool)

  datatype Dirty<V> = Dirty(owner: Conn, v: V)

  /** A session row: its committed version, and the uncommitted one of the
      connection holding the row lock. */
  datatype Cell = Cell(base: Option<Version>, dirty: Option<Dirty<Version>>)

  datatype Conv = Conv(count: nat, pin: Option<AgentId>)

  datatype Message = UserMessage(content: string) | AgentMessage(session: Option<Sid>)

  /** A session as a request remembers it from an earlier read. */
  datatype Ref = Ref(sid: Sid, row: Session)

  datatype Origin = InTurn | Forced

  /** What a connection will do next. */
  datatype Pc =
    | Idle
    // POST /api/chat
    | ChatOpened(content: string)
    | Refused
    | Locked(content: string)
    | Numbered(content: string, num: nat)
    | Recorded
    | Exiting
    | ExitUnpin
    | Routed(agent: AgentId, pins: bool)
    | Displacing(agent: AgentId, pins: bool)
    | DisplaceUnpin(agent: AgentId, pins: bool)
    | Vacant(agent: AgentId, pins: bool)
    | Attached(agent: AgentId, pins: bool, sess: Option<Ref>)
    | ReadyToCommit(agent: AgentId, sess: Option<Ref>)
    | InHandler(sess: Option<Ref>)
    | Handled(sess: Option<Ref>, delta: Option<Delta>, terminal: bool)
    | Replying(on: Option<Sid>)
    | ReplyNumbered(on: Option<Sid>, num: nat)
    | ReplyRecorded
    | Unlocking
    // finalisation, from a terminal turn or forced
    | ToFinalize(sid: Sid, origin: Origin)
    | Claimed(sid: Sid, origin: Origin)
    | CallFailed(sid: Sid, origin: Origin, mitra: bool, why: string)
    | CallDone(sid: Sid, origin: Origin, story: string)
    | Closing(sid: Sid, origin: Origin)
    // POST /api/sessions/{id}/resume
    | ResumeOpened(ref: Ref)
    | ResumeNumbered(ref: Ref, num: nat)
    | ResumeRecorded(ref: Ref)
    // abandon, reset and the idle sweep
    | Retiring(reason: string)
    | RetireUnpin(sid: Sid)
    // request teardown: normally, or after the database aborted the transaction
    | Ending(raised: bool)
    | Aborted(locked: bool)

  datatype Worker = Worker(pc: Pc, mine: map<nat, Message>, leaked: nat)

  datatype Hold = Hold(owner: Conn, depth: nat)

  datatype World = World(
    conv: Conv,
    convDirty: Option<Dirty<Conv>>,
    sessions: map<Sid, Cell>,
    log: map<nat, Message>,
    lock: Option<Hold>,
    workers: map<Conn, Worker>,
    calls: multiset<Sid>,
    undone: multiset<Sid>)

  datatype Event =
    // a request arrives on an idle connection, or the connection is recycled
    | Chat(content: string) | Finalize(on: Sid) | Resume(on: Sid) | Retire(reason: string) | Recycle
    // a statement takes effect: normally, on a given session, or on no row
    | Next | Hit(sid: Sid) | Miss
    // the router, the handler and the remote service answer
    | Exit | Route(agent: AgentId, pins: bool)
    | Reply(delta: Option<Delta>, terminal: bool)
    | StoryStored(story: string) | StoryFailed(mitra: bool, why: string) | NotCalled(mitra: bool, why: string) | Reported(url: string)
    // application code raises; or the database aborts the transaction
    | Raise | Crash

  datatype Action = Action(conn: Conn, now: Time, event: Event)

  // ---------------------------------------------------------------- views

  predicate HasConv(w: World, c: Conn) {
    w.convDirty.Some? && w.convDirty.value.owner == c
  }

  function ConvOf(w: World, c: Conn): Conv {
    if HasConv(w, c) then w.convDirty.value.v else w.conv
  }

  predicate DirtyBy(w: World, c: Conn, s: Sid) {
    s in w.sessions && w.sessions[s].dirty.Some? && w.sessions[s].dirty.value.owner == c
  }

  /** The version of session `s` that statements of `c` see. */
  function Sees(w: World, c: Conn, s: Sid): Option<Version> {
    if s !in w.sessions then None
    else if DirtyBy(w, c, s) then Some(w.sessions[s].dirty.value.v)
    else w.sessions[s].base
  }

  predicate SeesOpen(w: World, c: Conn, s: Sid) {
    Sees(w, c, s).Some? && Sees(w, c, s).value.row.Open()
  }

  predicate SeesNoneOpen(w: World, c: Conn) {
    forall s | s in w.sessions :: !SeesOpen(w, c, s)
  }

  predicate BaseOpen(w: World, s: Sid) {
    s in w.sessions && w.sessions[s].base.Some? && w.sessions[s].base.value.row.Open()
  }

  /** The newest version of `s`, committed or not. */
  function Latest(cell: Cell): Option<Version> {
    if cell.dirty.Some? then Some(cell.dirty.value.v) else cell.base
  }

  // ----------------------------------------------------------- statements

  function PcOf(w: World, c: Conn): Pc {
    if c in w.workers then w.workers[c].pc else Idle
  }

  function SetPc(w: World, c: Conn, pc: Pc): World
    requires c in w.workers
  {
    w.(workers := w.workers[c := w.workers[c].(pc := pc)])
  }

  predicate ConvFree(w: World, c: Conn) {
    w.convDirty.None? || w.convDirty.value.owner == c
  }

  function WriteConv(w: World, c: Conn, row: Conv): World {
    w.(convDirty := Some(Dirty(c, row)))
  }

  predicate RowFree(w: World, c: Conn, s: Sid) {
    s in w.sessions && (w.sessions[s].dirty.Some? ==> w.sessions[s].dirty.value.owner == c)
  }

  function WriteRow(w: World, c: Conn, s: Sid, v: Version): World
    requires s in w.sessions
  {
    w.(sessions := w.sessions[s := w.sessions[s].(dirty := Some(Dirty(c, v)))])
  }

  function InsertRow(w: World, c: Conn, s: Sid, v: Version): World {
    w.(sessions := w.sessions[s := Cell(None, Some(Dirty(c, v)))])
  }

  function AddMessage(w: World, c: Conn, num: nat, m: Message): World
    requires c in w.workers
  {
    w.(workers := w.workers[c := w.workers[c].(mine := w.workers[c].mine[num := m])])
  }

  function CommitCell(cell: Cell, c: Conn): Cell {
    if cell.dirty.Some? && cell.dirty.value.owner == c then Cell(Some(cell.dirty.value.v), None) else cell
  }

  function Commit(w: World, c: Conn): World
    requires c in w.workers
  {
    w.(conv := ConvOf(w, c),
       convDirty := if HasConv(w, c) then None else w.convDirty,
       sessions := map s | s in w.sessions :: CommitCell(w.sessions[s], c),
       log := w.log + w.workers[c].mine,
       workers := w.workers[c := w.workers[c].(mine := map[])])
  }

  predicate Survives(cell: Cell, c: Conn) {
    cell.base.Some? || !(cell.dirty.Some? && cell.dirty.value.owner == c)
  }

  function RollbackCell(cell: Cell, c: Conn): Cell {
    if cell.dirty.Some? && cell.dirty.value.owner == c then cell.(dirty := None) else cell
  }

  /** A remote finalize call whose claim this rollback undoes. */
  predicate Wasted(cell: Cell, c: Conn) {
    && cell.dirty.Some? && cell.dirty.value.owner == c && cell.dirty.value.v.spent
    && (cell.base.None? || !cell.base.value.spent)
  }

  function Rollback(w: World, c: Conn): World
    requires c in w.workers
  {
    w.(convDirty := if HasConv(w, c) then None else w.convDirty,
       sessions := map s | s in w.sessions && Survives(w.sessions[s], c) :: RollbackCell(w.sessions[s], c),
       undone := w.undone + multiset(set s | s in w.sessions && Wasted(w.sessions[s], c)),
       workers := w.workers[c := w.workers[c].(mine := map[])])
  }

  // ---------------------------------------------------- the advisory lock

  /** Session-scoped, re-entrant and non-blocking: it belongs to the connection. */
  function TryLock(lock: Option<Hold>, c: Conn): Option<Hold> {
    if lock.None? then Some(Hold(c, 1))
    else if lock.value.owner == c then Some(Hold(c, lock.value.depth + 1))
    else None
  }

  function Unlock(lock: Option<Hold>, c: Conn): Option<Hold> {
    if lock.Some? && lock.value.owner == c
    then if lock.value.depth <= 1 then None else Some(Hold(c, lock.value.depth - 1))
    else lock
  }

  /** Between a successful try-lock and its unlock. */
  predicate InLockedTurn(pc: Pc) {
    || pc.Locked? || pc.Numbered? || pc.Recorded? || pc.Exiting? || pc.ExitUnpin?
    || pc.Routed? || pc.Displacing? || pc.DisplaceUnpin? || pc.Vacant? || pc.Attached?
    || pc.ReadyToCommit? || pc.InHandler? || pc.Handled?
    || pc.Replying? || pc.ReplyNumbered? || pc.ReplyRecorded? || pc.Unlocking?
    || ((pc.ToFinalize? || pc.Claimed? || pc.CallFailed? || pc.CallDone? || pc.Closing?) && pc.origin.InTurn?)
    || (pc.Aborted? && pc.locked)
  }

  /** The database aborts the transaction: nothing it wrote can commit any more. */
  function Abort(w: World, c: Conn): World
    requires c in w.workers
  {
    SetPc(w, c, Aborted(InLockedTurn(w.workers[c].pc)))
  }

  /** Teardown after an abort.  The unlock in the turn's `finally` block fails on
      the aborted transaction and is swallowed, so a locked turn leaves its lock
      on the connection. */
  function Discard(w: World, c: Conn): World
    requires c in w.workers
  {
    var r, k := Rollback(w, c), w.workers[c];
    r.(workers := w.workers[c := Worker(Idle, map[], k.leaked + if InLockedTurn(k.pc) then 1 else 0)])
  }

  // ------------------------------------------------------- the requests

  function StepIdle(w: World, c: Conn, e: Event): World
    requires c in w.workers
  {
    match e
    case Chat(content) => SetPc(w, c, ChatOpened(content))
    case Finalize(s) => if Sees(w, c, s).Some? then SetPc(w, c, ToFinalize(s, Forced)) else w
    case Resume(s) =>
      // only an answered turn of a session with a remote identity writes anything
      if Sees(w, c, s).Some? && Sees(w, c, s).value.row.remoteId.Some?
      then SetPc(w, c, ResumeOpened(Ref(s, Sees(w, c, s).value.row)))
      else w
    case Retire(reason) => SetPc(w, c, Retiring(reason))
    case Recycle =>
      w.(lock := if w.lock.Some? && w.lock.value.owner == c then None else w.lock,
         workers := w.workers[c := w.workers[c].(leaked := 0)])
    case _ => w
  }

  /** Claim the turn, then number and insert the user's message. */
  function StepUserMessage(w: World, c: Conn, e: Event): World
    requires c in w.workers
  {
    if !e.Next? then w
    else
      match w.workers[c].pc
      case ChatOpened(content) =>
        var held := TryLock(w.lock, c);
        if held.Some? then SetPc(w, c, Locked(content)).(lock := held)
        else SetPc(w, c, Refused)  // 409
      case Locked(content) =>
        if !ConvFree(w, c) then w
        else
          var row := ConvOf(w, c);
          SetPc(WriteConv(w, c, row.(count := row.count + 1)), c, Numbered(content, row.count + 1))
      case Numbered(content, num) =>
        if num in w.log || num in w.workers[c].mine then Abort(w, c)
        else SetPc(AddMessage(w, c, num, UserMessage(content)), c, Recorded)
      case _ => w
  }

  /** The router: an exit command retires the open session and unpins; any other
      outcome just names an agent. */
  function StepRouting(w: World, c: Conn, now: Time, e: Event): World
    requires c in w.workers
  {
    match w.workers[c].pc
    case Recorded =>
      (match e
       case Exit => SetPc(w, c, Exiting)
       case Route(a, pins) => SetPc(w, c, Routed(a, pins))
       case Raise => SetPc(w, c, Unlocking)
       case _ => w)
    case Exiting =>
      (match e
       case Miss => SetPc(w, c, Unlocking)  // read a session, updated no row
       case Next => if SeesNoneOpen(w, c) then SetPc(w, c, ExitUnpin) else w
       case Hit(s) => if SeesOpen(w, c, s) && RowFree(w, c, s) then SetPc(RetireRow(w, c, s, "user_exit", now), c, ExitUnpin) else w
       case _ => w)
    case ExitUnpin =>
      (match e
       case Route(a, pins) =>
         if ConvFree(w, c) then SetPc(WriteConv(w, c, ConvOf(w, c).(pin := None)), c, Routed(a, pins)) else w
       case _ => w)
    case _ => w
  }

  function RetireRow(w: World, c: Conn, s: Sid, reason: string, now: Time): World
    requires SeesOpen(w, c, s)
  {
    var v := Sees(w, c, s).value;
    WriteRow(w, c, s, v.(row := Retired(v.row, reason, now)))
  }

  /** Another transaction holds an open session of this conversation: the unique
      index makes the insert wait for it. */
  predicate InsertBlocked(w: World, c: Conn) {
    exists s | s in w.sessions ::
      && w.sessions[s].dirty.Some? && w.sessions[s].dirty.value.owner != c
      && (BaseOpen(w, s) || w.sessions[s].dirty.value.v.row.Open())
  }

  /** `open_for`, the pin, and the commit that ends the first transaction. */
  function StepOpenFor(w: World, c: Conn, now: Time, e: Event): World
    requires c in w.workers
  {
    match w.workers[c].pc
    case Routed(a, pins) =>
      (match e
       case Raise => SetPc(w, c, Unlocking)  // a limit refuses the turn
       case Next => if SeesNoneOpen(w, c) then SetPc(w, c, Vacant(a, pins)) else w
       case Hit(s) =>
         if !SeesOpen(w, c, s) then w
         else if Sees(w, c, s).value.row.agent == a
         then SetPc(w, c, Attached(a, pins, Some(Ref(s, Sees(w, c, s).value.row))))
         else SetPc(w, c, Displacing(a, pins))
       case _ => w)
    case Displacing(a, pins) =>
      (match e
       case Miss => SetPc(w, c, Unlocking)
       case Next => if SeesNoneOpen(w, c) then SetPc(w, c, Vacant(a, pins)) else w
       case Hit(s) =>
         if SeesOpen(w, c, s) && RowFree(w, c, s) then SetPc(RetireRow(w, c, s, "agent_switch", now), c, DisplaceUnpin(a, pins)) else w
       case _ => w)
    case DisplaceUnpin(a, pins) =>
      if e.Next? && ConvFree(w, c)
      then SetPc(WriteConv(w, c, ConvOf(w, c).(pin := None)), c, Vacant(a, pins))
      else w
    case Vacant(a, pins) =>
      (match e
       case Next => if pins then w else SetPc(w, c, Attached(a, pins, None))
       case Hit(s) =>
         if !pins || s in w.sessions || InsertBlocked(w, c) then w
         else if !SeesNoneOpen(w, c) then Abort(w, c)
         else
           var row := FreshSession(a, now);
           SetPc(InsertRow(w, c, s, Version(row, false)), c, Attached(a, pins, Some(Ref(s, row))))
       case _ => w)
    case Attached(a, pins, sess) =>
      if !e.Next? then w
      else if !pins then SetPc(w, c, ReadyToCommit(a, sess))
      else if ConvFree(w, c)
      then SetPc(WriteConv(w, c, ConvOf(w, c).(pin := Some(a))), c, ReadyToCommit(a, sess))
      else w
    case ReadyToCommit(a, sess) =>
      if e.Next? then SetPc(Commit(w, c), c, InHandler(sess)) else w
    case _ => w
  }

  /** What a handler, or the recovery of a timed-out turn, can hand back: a delta
      always awaits the user, carries the remote identity, and keeps one that
      the session already had; only such a turn can be terminal. */
  predicate HandlerContract(sess: Option<Ref>, delta: Option<Delta>, terminal: bool) {
    && (delta.Some? ==>
          && sess.Some?
          && delta.value.state.AwaitingUser?
          && delta.value.remoteId.Some?
          && (sess.value.row.remoteId.Some? ==> delta.value.remoteId == sess.value.row.remoteId))
    && (terminal ==> delta.Some?)
  }

  /** The outcome of a guarded update: written, aborted by a CHECK, or refused. */
  function WriteApplied(w: World, c: Conn, s: Sid, v: Version, r: Result<Session, ApplyError>, ok: Pc, refused: Pc): World
    requires c in w.workers && s in w.sessions
  {
    match r
    case Ok(row) => SetPc(WriteRow(w, c, s, v.(row := row)), c, ok)
    case Err(e) => if e.CheckViolation? then Abort(w, c) else SetPc(w, c, refused)
  }

  /** `apply` on the session a request remembers. */
  function ApplyTo(w: World, c: Conn, now: Time, ref: Ref, d: Delta, ok: Pc, refused: Pc): World
    requires c in w.workers
  {
    if !Allowed(ref.row.state, d.state) then SetPc(w, c, refused)
    else if !RowFree(w, c, ref.sid) then w
    else if Sees(w, c, ref.sid).None? then SetPc(w, c, refused)
    else
      var v := Sees(w, c, ref.sid).value;
      WriteApplied(w, c, ref.sid, v, Apply(v.row, ref.row.state, d, now), ok, refused)
  }

  function StepHandler(w: World, c: Conn, now: Time, e: Event): World
    requires c in w.workers
  {
    match w.workers[c].pc
    case InHandler(sess) =>
      (match e
       case Raise => SetPc(w, c, Unlocking)
       case Reply(delta, terminal) =>
         if HandlerContract(sess, delta, terminal) then SetPc(w, c, Handled(sess, delta, terminal)) else w
       case _ => w)
    case Handled(sess, delta, terminal) =>
      if !e.Next? then w
      else if sess.None? || delta.None?
      then SetPc(w, c, Replying(if sess.Some? then Some(sess.value.sid) else None))
      else
        var s := sess.value.sid;
        ApplyTo(w, c, now, sess.value, delta.value,
                if terminal then ToFinalize(s, InTurn) else Replying(Some(s)), Unlocking)
    case _ => w
  }

  function AfterFinalize(sid: Sid, o: Origin): Pc {
    if o.InTurn? then Replying(Some(sid)) else Ending(false)
  }

  /** An exception in `_finalize`: a turn's is swallowed into an error response;
      a forced finalise's is too when it is a Mitra error, else it rolls back. */
  function FinalizeRaised(o: Origin, mitra: bool): Pc {
    if o.InTurn? then Unlocking else Ending(!mitra)
  }

  /** The remote end-story call is attempted under the claim. */
  function CallRemote(w: World, c: Conn, s: Sid): World
    requires Sees(w, c, s).Some?
  {
    WriteRow(w, c, s, Sees(w, c, s).value.(spent := true)).(calls := w.calls + multiset{s})
  }

  function FailedDelta(why: string): Delta {
    OnlyState(Failed).(error := Some(why))
  }

  function StoryDelta(story: string, url: Option<string>): Delta {
    OnlyState(Completed).(resultRef := Some(story), reportUrl := url)
  }

  function StepFinalize(w: World, c: Conn, now: Time, e: Event): World
    requires c in w.workers
  {
    match w.workers[c].pc
    case ToFinalize(s, o) =>
      if !e.Next? || !RowFree(w, c, s) then w
      else if Sees(w, c, s).None? then SetPc(w, c, AfterFinalize(s, o))
      else
        var v := Sees(w, c, s).value;
        (match Claim(v.row)
         case Some(row) => SetPc(WriteRow(w, c, s, v.(row := row)), c, Claimed(s, o))
         case None => SetPc(w, c, AfterFinalize(s, o)))
    case Claimed(s, o) =>
      if !DirtyBy(w, c, s) then w
      else
        (match e
         case StoryStored(story) => SetPc(CallRemote(w, c, s), c, CallDone(s, o, story))
         case StoryFailed(mitra, why) => SetPc(CallRemote(w, c, s), c, CallFailed(s, o, mitra, why))
         case NotCalled(mitra, why) => SetPc(w, c, CallFailed(s, o, mitra, why))
         case _ => w)
    case CallFailed(s, o, mitra, why) =>
      if !e.Next? || Sees(w, c, s).None? then w
      else
        var v := Sees(w, c, s).value;
        ApplyTo(w, c, now, Ref(s, v.row), FailedDelta(why), FinalizeRaised(o, mitra), FinalizeRaised(o, false))
    case CallDone(s, o, story) =>
      if Sees(w, c, s).None? then w
      else if e.Raise? then SetPc(w, c, FinalizeRaised(o, false))  // the report fetch raised
      else if !e.Next? && !e.Reported? then w
      else
        // with the report's address, if there is a report already
        var v := Sees(w, c, s).value;
        ApplyTo(w, c, now, Ref(s, v.row), StoryDelta(story, if e.Reported? then Some(e.url) else None),
                Closing(s, o), FinalizeRaised(o, false))
    case Closing(s, o) =>
      if e.Next? && ConvFree(w, c)
      then SetPc(WriteConv(w, c, ConvOf(w, c).(pin := None)), c, AfterFinalize(s, o))
      else w
    case _ => w
  }

  /** Number and insert the agent's message, commit, release the turn lock. */
  function StepReply(w: World, c: Conn, e: Event): World
    requires c in w.workers
  {
    if !e.Next? then w
    else
      match w.workers[c].pc
      case Replying(on) =>
        if !ConvFree(w, c) then w
        else
          var row := ConvOf(w, c);
          SetPc(WriteConv(w, c, row.(count := row.count + 1)), c, ReplyNumbered(on, row.count + 1))
      case ReplyNumbered(on, num) =>
        if num in w.log || num in w.workers[c].mine then Abort(w, c)
        else SetPc(AddMessage(w, c, num, AgentMessage(on)), c, ReplyRecorded)
      case ReplyRecorded => SetPc(Commit(w, c), c, Unlocking)
      case Unlocking => SetPc(w, c, Ending(false)).(lock := Unlock(w.lock, c))
      case Refused => SetPc(Commit(w, c), c, Idle)
      case Ending(raised) => if raised then Discard(w, c) else SetPc(Commit(w, c), c, Idle)
      case Aborted(_) => Discard(w, c)
      case _ => w
  }

  function StepResume(w: World, c: Conn, now: Time, e: Event): World
    requires c in w.workers
  {
    if !e.Next? then w
    else
      match w.workers[c].pc
      case ResumeOpened(ref) =>
        if !ConvFree(w, c) then w
        else
          var row := ConvOf(w, c);
          SetPc(WriteConv(w, c, row.(count := row.count + 1)), c, ResumeNumbered(ref, row.count + 1))
      case ResumeNumbered(ref, num) =>
        if num in w.log || num in w.workers[c].mine then Abort(w, c)
        else SetPc(AddMessage(w, c, num, AgentMessage(Some(ref.sid))), c, ResumeRecorded(ref))
      case ResumeRecorded(ref) =>
        ApplyTo(w, c, now, ref, OnlyState(AwaitingUser), Ending(false), Ending(true))
      case _ => w
  }

  function StepRetire(w: World, c: Conn, now: Time, e: Event): World
    requires c in w.workers
  {
    match w.workers[c].pc
    case Retiring(reason) =>
      (match e
       case Miss => SetPc(w, c, Ending(true))  // read a session, updated no row
       case Next => SetPc(w, c, Ending(false))  // nothing to retire (or nothing idle long enough)
       case Hit(s) => if SeesOpen(w, c, s) && RowFree(w, c, s) then SetPc(RetireRow(w, c, s, reason, now), c, RetireUnpin(s)) else w
       case _ => w)
    case RetireUnpin(_) =>
      if e.Next? && ConvFree(w, c)
      then SetPc(WriteConv(w, c, ConvOf(w, c).(pin := None)), c, Ending(false))
      else w
    case _ => w
  }

  /** One action.  A statement that would block, or an event that cannot happen
      here, leaves the world as it is. */
  function Step(w: World, a: Action): World {
    var c, now, e := a.conn, a.now, a.event;
    if c !in w.workers then w
    else if e.Crash? then if w.workers[c].pc.Idle? || w.workers[c].pc.Aborted? then w else Abort(w, c)
    else
      match w.workers[c].pc
      case Idle => StepIdle(w, c, e)
      case ChatOpened(_) => StepUserMessage(w, c, e)
      case Locked(_) => StepUserMessage(w, c, e)
      case Numbered(_, _) => StepUserMessage(w, c, e)
      case Recorded => StepRouting(w, c, now, e)
      case Exiting => StepRouting(w, c, now, e)
      case ExitUnpin => StepRouting(w, c, now, e)
      case Routed(_, _) => StepOpenFor(w, c, now, e)
      case Displacing(_, _) => StepOpenFor(w, c, now, e)
      case DisplaceUnpin(_, _) => StepOpenFor(w, c, now, e)
      case Vacant(_, _) => StepOpenFor(w, c, now, e)
      case Attached(_, _, _) => StepOpenFor(w, c, now, e)
      case ReadyToCommit(_, _) => StepOpenFor(w, c, now, e)
      case InHandler(_) => StepHandler(w, c, now, e)
      case Handled(_, _, _) => StepHandler(w, c, now, e)
      case ToFinalize(_, _) => StepFinalize(w, c, now, e)
      case Claimed(_, _) => StepFinalize(w, c, now, e)
      case CallFailed(_, _, _, _) => StepFinalize(w, c, now, e)
      case CallDone(_, _, _) => StepFinalize(w, c, now, e)
      case Closing(_, _) => StepFinalize(w, c, now, e)
      case Replying(_) => StepReply(w, c, e)
      case ReplyNumbered(_, _) => StepReply(w, c, e)
      case ReplyRecorded => StepReply(w, c, e)
      case Unlocking => StepReply(w, c, e)
      case Refused => StepReply(w, c, e)
      case Ending(_) => StepReply(w, c, e)
      case Aborted(_) => StepReply(w, c, e)
      case ResumeOpened(_) => StepResume(w, c, now, e)
      case ResumeNumbered(_, _) => StepResume(w, c, now, e)
      case ResumeRecorded(_) => StepResume(w, c, now, e)
      case Retiring(_) => StepRetire(w, c, now, e)
      case RetireUnpin(_) => StepRetire(w, c, now, e)
  }

  /** A new conversation, seen by a pool of idle connections. */
  function Initial(pool: set<Conn>): World {
    World(Conv(0, None), None, map[], map[], None,
          map c | c in pool :: Worker(Idle, map[], 0), multiset{}, multiset{})
  }

  function Run(w: World, acts: seq<Action>): World
    decreases |acts|
  {
    if acts == [] then w else Run(Step(w, acts[0]), acts[1..])
  }
}
