/** The inductive invariant of the turn protocol: what holds of the committed
    rows, of each row's uncommitted version, of the view each connection has of
    the conversation given where it is in its request, of the turn lock, and of
    the account of remote finalize calls; and that each primitive change to the
    database keeps it. */
module TurnInvariant {
  import opened Prelude
  import opened SessionLifecycle
  import opened TurnProtocol

  // --------------------------------------------------- classes of positions

  /** The open transaction has written nothing. */
  predicate Clean(pc: Pc) {
    || pc.Idle? || pc.ChatOpened? || pc.Refused? || pc.Locked? || pc.InHandler? || pc.Handled?
    || pc.ResumeOpened? || pc.Retiring? || (pc.ToFinalize? && pc.origin.Forced?)
  }

  /** The conversation row is locked by this transaction. */
  predicate MustHoldConv(pc: Pc) {
    || pc.Numbered? || pc.Recorded? || pc.Exiting? || pc.ExitUnpin? || pc.Routed?
    || pc.Displacing? || pc.DisplaceUnpin? || pc.Vacant? || pc.Attached? || pc.ReadyToCommit?
    || pc.ReplyNumbered? || pc.ReplyRecorded? || pc.ResumeNumbered? || pc.ResumeRecorded?
  }

  predicate MustNotHoldConv(pc: Pc) {
    || Clean(pc) || pc.ToFinalize? || pc.Claimed? || pc.CallFailed? || pc.CallDone? || pc.Closing?
    || pc.RetireUnpin?
  }

  /** Only here can the transaction contain an uncommitted new session. */
  predicate Inserting(pc: Pc) {
    pc.Attached? || pc.ReadyToCommit? || pc.Aborted?
  }

  /** A sequence number has been allocated and its message not yet inserted. */
  predicate Numbering(pc: Pc) {
    pc.Numbered? || pc.ReplyNumbered? || pc.ResumeNumbered?
  }

  predicate CanCommit(pc: Pc) {
    !Numbering(pc) && !pc.Aborted?
  }

  predicate PinPending(pc: Pc) {
    pc.Attached? && pc.pins
  }

  // ------------------------------------------------------ per-worker facts

  ghost predicate NoneOpen(w: World, c: Conn) {
    forall s :: !SeesOpen(w, c, s)
  }

  ghost predicate AllOpenAre(w: World, c: Conn, a: AgentId) {
    forall s :: SeesOpen(w, c, s) ==> Sees(w, c, s).value.row.agent == a
  }

  ghost predicate ViewUnique(w: World, c: Conn) {
    forall s, t :: SeesOpen(w, c, s) && SeesOpen(w, c, t) ==> s == t
  }

  ghost predicate ViewPinned(w: World, c: Conn) {
    forall s :: SeesOpen(w, c, s) ==> ConvOf(w, c).pin == Some(Sees(w, c, s).value.row.agent)
  }

  ghost predicate WroteNothing(w: World, c: Conn) {
    forall s :: !DirtyBy(w, c, s)
  }

  ghost predicate Dense(keys: set<nat>, n: nat) {
    forall k: nat :: k in keys <==> 1 <= k <= n
  }

  ghost predicate TranscriptOk(w: World, c: Conn)
    requires c in w.workers
  {
    var k := w.workers[c];
    if HasConv(w, c) then
      && w.log.Keys !! k.mine.Keys
      && (Numbering(k.pc) ==> k.pc.num == ConvOf(w, c).count && 1 <= ConvOf(w, c).count)
      && Dense(w.log.Keys + k.mine.Keys,
               if Numbering(k.pc) then ConvOf(w, c).count - 1 else ConvOf(w, c).count)
    else k.mine == map[]
  }

  /** What a request remembers of a session is an earlier version of what it sees. */
  ghost predicate Remembers(w: World, c: Conn, r: Ref) {
    && r.row.Fits()
    && Sees(w, c, r.sid).Some?
    && Older(r.row, Sees(w, c, r.sid).value.row)
  }

  ghost predicate RemembersAny(w: World, c: Conn, sess: Option<Ref>) {
    sess.Some? ==> Remembers(w, c, sess.value)
  }

  ghost predicate Owns(w: World, c: Conn, s: Sid, st: State) {
    DirtyBy(w, c, s) && Sees(w, c, s).value.row.state == st
  }

  ghost predicate PcFacts(w: World, c: Conn, pc: Pc) {
    match pc
    case ExitUnpin => NoneOpen(w, c)
    case DisplaceUnpin(_, _) => NoneOpen(w, c)
    case Vacant(_, _) => NoneOpen(w, c)
    case Attached(a, _, sess) => AllOpenAre(w, c, a) && RemembersAny(w, c, sess)
    case ReadyToCommit(a, sess) => AllOpenAre(w, c, a) && RemembersAny(w, c, sess)
    case InHandler(sess) => RemembersAny(w, c, sess)
    case Handled(sess, d, t) => RemembersAny(w, c, sess) && HandlerContract(sess, d, t)
    case ToFinalize(s, o) => if o.InTurn? then Owns(w, c, s, AwaitingUser) else Sees(w, c, s).Some?
    case Claimed(s, _) => Owns(w, c, s, Finalizing) && !Sees(w, c, s).value.spent
    case CallFailed(s, _, _, _) => Owns(w, c, s, Finalizing)
    case CallDone(s, _, _) => Owns(w, c, s, Finalizing) && Sees(w, c, s).value.spent
    case Closing(s, _) => Owns(w, c, s, Completed)
    case RetireUnpin(s) => Owns(w, c, s, Abandoned)
    case ResumeOpened(r) => Remembers(w, c, r) && r.row.remoteId.Some?
    case ResumeNumbered(r, _) => Remembers(w, c, r) && r.row.remoteId.Some?
    case ResumeRecorded(r) => Remembers(w, c, r) && r.row.remoteId.Some?
    case _ => true
  }

  ghost predicate WorkerInv(w: World, c: Conn)
    requires c in w.workers
  {
    var pc := w.workers[c].pc;
    && (Clean(pc) ==> WroteNothing(w, c))
    && (MustHoldConv(pc) ==> HasConv(w, c))
    && (MustNotHoldConv(pc) ==> !HasConv(w, c))
    && ViewUnique(w, c)
    && (PinPending(pc) || pc.Aborted? || ViewPinned(w, c))
    && (pc.Aborted? || TranscriptOk(w, c))
    && PcFacts(w, c, pc)
  }

  // ------------------------------------------------------------- the whole

  predicate VersionOk(v: Version) {
    v.row.Fits() && (v.spent ==> Rank(v.row.state) >= 3)
  }

  ghost predicate CellInv(w: World, s: Sid)
    requires s in w.sessions
  {
    var cell := w.sessions[s];
    && (cell.base.Some? || cell.dirty.Some?)
    && (cell.base.Some? ==> VersionOk(cell.base.value))
    && (cell.dirty.Some? ==>
          var c, v := cell.dirty.value.owner, cell.dirty.value.v;
          && VersionOk(v)
          && c in w.workers && !Clean(w.workers[c].pc)
          && (cell.base.Some? ==>
                && cell.base.value.row.Open()
                && Older(cell.base.value.row, v.row)
                && (cell.base.value.spent ==> v.spent))
          && (cell.base.None? ==> Inserting(w.workers[c].pc) && HasConv(w, c) && !v.spent))
  }

  ghost predicate BaseInv(w: World) {
    && (forall s, t :: BaseOpen(w, s) && BaseOpen(w, t) ==> s == t)
    && (forall s :: BaseOpen(w, s) ==> w.conv.pin == Some(w.sessions[s].base.value.row.agent))
    && Dense(w.log.Keys, w.conv.count)
    && (w.convDirty.Some? ==> w.convDirty.value.owner in w.workers)
  }

  function Depth(lock: Option<Hold>, c: Conn): nat {
    if lock.Some? && lock.value.owner == c then lock.value.depth else 0
  }

  ghost predicate LockInv(w: World) {
    && (w.lock.Some? ==> w.lock.value.owner in w.workers && w.lock.value.depth >= 1)
    && forall c {:trigger Depth(w.lock, c)} | c in w.workers ::
         Depth(w.lock, c) == w.workers[c].leaked + if InLockedTurn(w.workers[c].pc) then 1 else 0
  }

  predicate IsSpent(w: World, s: Sid) {
    s in w.sessions && Latest(w.sessions[s]).Some? && Latest(w.sessions[s]).value.spent
  }

  /** Every remote finalize call is accounted for: either its claim was rolled
      back, or it is recorded in the newest version of its session. */
  ghost predicate CallsInv(w: World) {
    forall s: Sid {:trigger IsSpent(w, s)} :: w.calls[s] == w.undone[s] + if IsSpent(w, s) then 1 else 0
  }

  ghost predicate Inv(w: World) {
    && BaseInv(w)
    && (forall s {:trigger CellInv(w, s)} | s in w.sessions :: CellInv(w, s))
    && (forall c {:trigger WorkerInv(w, c)} | c in w.workers :: WorkerInv(w, c))
    && LockInv(w)
    && CallsInv(w)
  }

  // ------------------------------------------------------------- framing

  /** Nothing that connection `c` can observe differs between the two worlds. */
  ghost predicate SameTo(w: World, w': World, c: Conn) {
    && c in w.workers && c in w'.workers && w.workers[c] == w'.workers[c]
    && w.log == w'.log
    && HasConv(w, c) == HasConv(w', c) && ConvOf(w, c) == ConvOf(w', c)
    && (forall s :: Sees(w, c, s) == Sees(w', c, s))
    && (forall s :: DirtyBy(w, c, s) == DirtyBy(w', c, s))
  }

  lemma WorkerFrame(w: World, w': World, c: Conn)
    requires SameTo(w, w', c) && WorkerInv(w, c)
    ensures WorkerInv(w', c)
  {
    assert forall s :: SeesOpen(w, c, s) == SeesOpen(w', c, s);
  }

  /** A statement that only moves `c` on. */
  lemma PcStep(w: World, c: Conn, pc: Pc)
    requires Inv(w) && c in w.workers
    requires InLockedTurn(pc) == InLockedTurn(w.workers[c].pc)
    requires Inserting(w.workers[c].pc) ==> Inserting(pc)
    requires WorkerInv(SetPc(w, c, pc), c)
    ensures Inv(SetPc(w, c, pc))
  {
    var w' := SetPc(w, c, pc);
    forall c2 | c2 in w'.workers ensures WorkerInv(w', c2) {
      if c2 != c {
        WorkerFrame(w, w', c2);
      }
    }
    forall s | s in w'.sessions ensures CellInv(w', s) {
      assert CellInv(w, s);
      assert DirtyBy(w', c, s) == DirtyBy(w, c, s);
    }
    assert forall s :: BaseOpen(w', s) == BaseOpen(w, s);
    assert forall s :: IsSpent(w', s) == IsSpent(w, s);
  }

  /** A write to the conversation row. */
  lemma ConvStep(w: World, c: Conn, row: Conv, pc: Pc)
    requires Inv(w) && c in w.workers && ConvFree(w, c)
    requires InLockedTurn(pc) == InLockedTurn(w.workers[c].pc)
    requires Inserting(w.workers[c].pc) ==> Inserting(pc)
    requires WorkerInv(SetPc(WriteConv(w, c, row), c, pc), c)
    ensures Inv(SetPc(WriteConv(w, c, row), c, pc))
  {
    var w' := SetPc(WriteConv(w, c, row), c, pc);
    forall c2 | c2 in w'.workers ensures WorkerInv(w', c2) {
      if c2 != c {
        WorkerFrame(w, w', c2);
      }
    }
    forall s | s in w'.sessions ensures CellInv(w', s) {
      assert CellInv(w, s);
      assert DirtyBy(w', c, s) == DirtyBy(w, c, s);
    }
    assert forall s :: BaseOpen(w', s) == BaseOpen(w, s);
    assert forall s :: IsSpent(w', s) == IsSpent(w, s);
  }

  /** An insert into the transcript. */
  lemma MessageStep(w: World, c: Conn, num: nat, m: Message, pc: Pc)
    requires Inv(w) && c in w.workers
    requires InLockedTurn(pc) == InLockedTurn(w.workers[c].pc)
    requires Inserting(w.workers[c].pc) ==> Inserting(pc)
    requires WorkerInv(SetPc(AddMessage(w, c, num, m), c, pc), c)
    ensures Inv(SetPc(AddMessage(w, c, num, m), c, pc))
  {
    var w' := SetPc(AddMessage(w, c, num, m), c, pc);
    forall c2 | c2 in w'.workers ensures WorkerInv(w', c2) {
      if c2 != c {
        WorkerFrame(w, w', c2);
      }
    }
    forall s | s in w'.sessions ensures CellInv(w', s) {
      assert CellInv(w, s);
      assert DirtyBy(w', c, s) == DirtyBy(w, c, s);
    }
    assert forall s :: BaseOpen(w', s) == BaseOpen(w, s);
    assert forall s :: IsSpent(w', s) == IsSpent(w, s);
  }

  /** A guarded update of a session row: `v` succeeds the open version `c` sees. */
  ghost predicate Succeeds(w: World, c: Conn, s: Sid, v: Version) {
    && SeesOpen(w, c, s) && RowFree(w, c, s)
    && VersionOk(v)
    && Older(Sees(w, c, s).value.row, v.row)
    && v.spent == Sees(w, c, s).value.spent
  }

  lemma RowCell(w: World, c: Conn, s: Sid, v: Version, pc: Pc, t: Sid)
    requires c in w.workers && Succeeds(w, c, s, v) && t in w.sessions && CellInv(w, t)
    requires !Clean(pc) && (Inserting(w.workers[c].pc) ==> Inserting(pc))
    ensures CellInv(SetPc(WriteRow(w, c, s, v), c, pc), t)
  {
    if t == s && w.sessions[s].base.Some? {
      OlderTransitive(w.sessions[s].base.value.row, Sees(w, c, s).value.row, v.row);
    }
  }

  lemma RowOther(w: World, c: Conn, s: Sid, v: Version, pc: Pc, c2: Conn)
    requires c in w.workers && c2 in w.workers && c2 != c && RowFree(w, c, s) && WorkerInv(w, c2)
    ensures WorkerInv(SetPc(WriteRow(w, c, s, v), c, pc), c2)
  {
    WorkerFrame(w, SetPc(WriteRow(w, c, s, v), c, pc), c2);
  }

  lemma RowAccount(w: World, c: Conn, s: Sid, v: Version, pc: Pc)
    requires c in w.workers && Succeeds(w, c, s, v) && BaseInv(w) && CallsInv(w)
    ensures var w' := SetPc(WriteRow(w, c, s, v), c, pc); BaseInv(w') && CallsInv(w')
  {
    var w' := SetPc(WriteRow(w, c, s, v), c, pc);
    assert forall t :: BaseOpen(w', t) == BaseOpen(w, t);
    assert forall t :: IsSpent(w', t) == IsSpent(w, t);
  }

  lemma RowStep(w: World, c: Conn, s: Sid, v: Version, pc: Pc)
    requires Inv(w) && c in w.workers && Succeeds(w, c, s, v)
    requires InLockedTurn(pc) == InLockedTurn(w.workers[c].pc)
    requires Inserting(w.workers[c].pc) ==> Inserting(pc)
    requires WorkerInv(SetPc(WriteRow(w, c, s, v), c, pc), c)
    ensures Inv(SetPc(WriteRow(w, c, s, v), c, pc))
  {
    var w' := SetPc(WriteRow(w, c, s, v), c, pc);
    assert !Clean(pc) by {
      assert DirtyBy(w', c, s);
    }
    forall c2 | c2 in w'.workers ensures WorkerInv(w', c2) {
      if c2 != c {
        RowOther(w, c, s, v, pc, c2);
      }
    }
    forall t | t in w'.sessions ensures CellInv(w', t) {
      RowCell(w, c, s, v, pc, t);
    }
    RowAccount(w, c, s, v, pc);
  }

  /** The view of the writer after a guarded update. */
  lemma RowView(w: World, c: Conn, s: Sid, v: Version, pc: Pc)
    requires Inv(w) && c in w.workers && Succeeds(w, c, s, v)
    ensures var w' := SetPc(WriteRow(w, c, s, v), c, pc);
            && Sees(w', c, s) == Some(v) && DirtyBy(w', c, s)
            && (forall t :: t != s ==> Sees(w', c, t) == Sees(w, c, t))
            && (forall t :: SeesOpen(w', c, t) ==> SeesOpen(w, c, t) && Sees(w', c, t).value.row.agent == Sees(w, c, t).value.row.agent)
            && ViewUnique(w', c)
            && (ViewPinned(w, c) ==> ViewPinned(w', c))
            && (!v.row.Open() ==> NoneOpen(w', c))
  {
    var w' := SetPc(WriteRow(w, c, s, v), c, pc);
    assert WorkerInv(w, c);
    forall t | t != s ensures Sees(w', c, t) == Sees(w, c, t) {
      assert DirtyBy(w', c, t) == DirtyBy(w, c, t);
    }
    assert DirtyBy(w', c, s);
    assert forall t :: SeesOpen(w', c, t) ==> SeesOpen(w, c, t);
  }

  /** The insert of a new pending session. */
  lemma InsertStep(w: World, c: Conn, s: Sid, row: Session, pc: Pc)
    requires Inv(w) && c in w.workers && s !in w.sessions && HasConv(w, c)
    requires NoneOpen(w, c) && row.Fits() && Inserting(pc)
    requires InLockedTurn(pc) == InLockedTurn(w.workers[c].pc)
    requires WorkerInv(SetPc(InsertRow(w, c, s, Version(row, false)), c, pc), c)
    ensures Inv(SetPc(InsertRow(w, c, s, Version(row, false)), c, pc))
  {
    var w' := SetPc(InsertRow(w, c, s, Version(row, false)), c, pc);
    forall c2 | c2 in w'.workers ensures WorkerInv(w', c2) {
      if c2 != c {
        WorkerFrame(w, w', c2);
      }
    }
    assert DirtyBy(w', c, s);
    forall t | t in w'.sessions ensures CellInv(w', t) {
      if t != s {
        assert CellInv(w, t);
        assert DirtyBy(w', c, t) == DirtyBy(w, c, t);
      }
    }
    assert forall t :: BaseOpen(w', t) == BaseOpen(w, t);
    assert forall t :: IsSpent(w', t) == IsSpent(w, t);
  }

  // ------------------------------------------------- commit and rollback

  /** What another connection sees of `s` once `c` commits. */
  lemma CommitShows(w: World, c: Conn, c2: Conn, s: Sid)
    requires Inv(w) && c in w.workers && c2 in w.workers && c != c2
    ensures var w' := Commit(w, c);
            && DirtyBy(w', c2, s) == DirtyBy(w, c2, s)
            && (DirtyBy(w, c2, s) ==> Sees(w', c2, s) == Sees(w, c2, s))
            && (Sees(w, c2, s).Some? ==>
                  && Sees(w', c2, s).Some?
                  && Older(Sees(w, c2, s).value.row, Sees(w', c2, s).value.row))
            && (SeesOpen(w', c2, s) && !HasConv(w, c) ==> SeesOpen(w, c2, s))
            && (SeesOpen(w', c2, s) && HasConv(w, c) ==>
                  SeesOpen(w, c, s) && Sees(w, c, s).value.row.agent == Sees(w', c2, s).value.row.agent)
  {
    if s in w.sessions {
      assert CellInv(w, s);
      assert WorkerInv(w, c) && WorkerInv(w, c2);
    }
  }

  lemma CommitOther(w: World, c: Conn, c2: Conn)
    requires Inv(w) && c in w.workers && c2 in w.workers && c != c2
    requires ViewPinned(w, c) && CanCommit(w.workers[c].pc)
    ensures WorkerInv(Commit(w, c), c2)
  {
    var w' := Commit(w, c);
    assert WorkerInv(w, c) && WorkerInv(w, c2);
    forall s ensures DirtyBy(w', c2, s) == DirtyBy(w, c2, s)
             ensures DirtyBy(w, c2, s) ==> Sees(w', c2, s) == Sees(w, c2, s)
             ensures Sees(w, c2, s).Some? ==>
                       Sees(w', c2, s).Some? && Older(Sees(w, c2, s).value.row, Sees(w', c2, s).value.row)
             ensures SeesOpen(w', c2, s) && !HasConv(w, c) ==> SeesOpen(w, c2, s)
             ensures SeesOpen(w', c2, s) && HasConv(w, c) ==>
                       SeesOpen(w, c, s) && Sees(w, c, s).value.row.agent == Sees(w', c2, s).value.row.agent
    {
      CommitShows(w, c, c2, s);
    }
    assert ViewUnique(w', c2);
    assert w'.workers[c2] == w.workers[c2];
    if !w.workers[c2].pc.Aborted? {
      assert HasConv(w, c2) ==> w'.log == w.log;
      assert TranscriptOk(w', c2);
    }
    assert PinPending(w.workers[c2].pc) || w.workers[c2].pc.Aborted? || ViewPinned(w', c2);
    CommitFacts(w, c, c2);
  }

  lemma CommitFacts(w: World, c: Conn, c2: Conn)
    requires Inv(w) && c in w.workers && c2 in w.workers && c != c2
    ensures PcFacts(Commit(w, c), c2, w.workers[c2].pc)
  {
    var w' := Commit(w, c);
    var pc := w.workers[c2].pc;
    assert WorkerInv(w, c2) && PcFacts(w, c2, pc);
    forall s ensures DirtyBy(w', c2, s) == DirtyBy(w, c2, s)
             ensures DirtyBy(w, c2, s) ==> Sees(w', c2, s) == Sees(w, c2, s)
             ensures Sees(w, c2, s).Some? ==>
                       Sees(w', c2, s).Some? && Older(Sees(w, c2, s).value.row, Sees(w', c2, s).value.row)
             ensures HasConv(w, c2) && SeesOpen(w', c2, s) ==> SeesOpen(w, c2, s)
    {
      CommitShows(w, c, c2, s);
    }
  }

  /** The committing connection keeps its own view, now with nothing pending. */
  lemma CommitSelf(w: World, c: Conn, pc: Pc)
    requires c in w.workers && WorkerInv(w, c) && ViewPinned(w, c) && CanCommit(w.workers[c].pc)
    requires !MustHoldConv(pc) && !pc.ToFinalize? && !pc.Claimed? && !pc.CallFailed? && !pc.CallDone?
    requires !pc.Closing? && !pc.RetireUnpin?
    requires PcFacts(w, c, pc)
    ensures WorkerInv(SetPc(Commit(w, c), c, pc), c)
  {
    var w' := SetPc(Commit(w, c), c, pc);
    forall s ensures Sees(w', c, s) == Sees(w, c, s) && !DirtyBy(w', c, s) {
    }
    assert forall s :: SeesOpen(w', c, s) == SeesOpen(w, c, s);
    assert ConvOf(w', c) == ConvOf(w, c) && !HasConv(w', c);
  }

  lemma CommitBase(w: World, c: Conn)
    requires c in w.workers && WorkerInv(w, c) && ViewPinned(w, c) && CanCommit(w.workers[c].pc)
    requires BaseInv(w)
    ensures BaseInv(Commit(w, c))
  {
    var w' := Commit(w, c);
    forall s ensures BaseOpen(w', s) ==> SeesOpen(w, c, s) && w'.sessions[s].base == Sees(w, c, s) {
    }
    assert w'.log.Keys == w.log.Keys + w.workers[c].mine.Keys;
  }

  lemma CommitStep(w: World, c: Conn, pc: Pc)
    requires Inv(w) && c in w.workers && ViewPinned(w, c) && CanCommit(w.workers[c].pc)
    requires InLockedTurn(pc) == InLockedTurn(w.workers[c].pc)
    requires !MustHoldConv(pc) && !pc.ToFinalize? && !pc.Claimed? && !pc.CallFailed? && !pc.CallDone?
    requires !pc.Closing? && !pc.RetireUnpin?
    requires PcFacts(w, c, pc)
    ensures Inv(SetPc(Commit(w, c), c, pc))
  {
    var m := Commit(w, c);
    var w' := SetPc(m, c, pc);
    CommitSelf(w, c, pc);
    CommitBase(w, c);
    assert forall s :: BaseOpen(w', s) == BaseOpen(m, s);
    assert BaseInv(w');
    forall c2 | c2 in w'.workers ensures WorkerInv(w', c2) {
      if c2 != c {
        CommitOther(w, c, c2);
        assert SameTo(m, w', c2);
        WorkerFrame(m, w', c2);
      }
    }
    CommitCells(w, c, pc);
    assert LockInv(w');
  }

  lemma CommitCells(w: World, c: Conn, pc: Pc)
    requires c in w.workers && CallsInv(w)
    requires forall s | s in w.sessions :: CellInv(w, s)
    ensures var w' := SetPc(Commit(w, c), c, pc);
            (forall s | s in w'.sessions :: CellInv(w', s)) && CallsInv(w')
  {
    var w' := SetPc(Commit(w, c), c, pc);
    forall s | s in w'.sessions ensures CellInv(w', s) {
      assert CellInv(w, s);
    }
    assert forall s :: IsSpent(w', s) == IsSpent(w, s);
  }

  lemma DiscardStep(w: World, c: Conn)
    requires Inv(w) && c in w.workers
    ensures Inv(Discard(w, c))
  {
    var w' := Discard(w, c);
    DiscardBase(w, c);
    DiscardSelf(w, c);
    forall c2 | c2 in w'.workers ensures WorkerInv(w', c2) {
      if c2 != c {
        DiscardOther(w, c, c2);
      }
    }
    forall s: Sid ensures w'.calls[s] == w'.undone[s] + if IsSpent(w', s) then 1 else 0 {
      DiscardAccount(w, c, s);
    }
  }

  lemma DiscardBase(w: World, c: Conn)
    requires c in w.workers && BaseInv(w)
    requires forall s | s in w.sessions :: CellInv(w, s)
    ensures var w' := Discard(w, c);
            BaseInv(w') && forall s | s in w'.sessions :: CellInv(w', s)
  {
    var w' := Discard(w, c);
    forall s ensures BaseOpen(w', s) == BaseOpen(w, s)
             ensures BaseOpen(w, s) ==> w'.sessions[s].base == w.sessions[s].base
    {
    }
    forall s | s in w'.sessions ensures CellInv(w', s) {
      assert CellInv(w, s);
    }
  }

  /** After a rollback a connection sees what is committed. */
  lemma DiscardSelf(w: World, c: Conn)
    requires BaseInv(w) && c in w.workers
    ensures WorkerInv(Discard(w, c), c)
  {
    var w' := Discard(w, c);
    forall s ensures !DirtyBy(w', c, s) && SeesOpen(w', c, s) == BaseOpen(w, s)
             ensures BaseOpen(w, s) ==> Sees(w', c, s) == w.sessions[s].base
    {
    }
  }

  lemma DiscardOther(w: World, c: Conn, c2: Conn)
    requires c in w.workers && c2 in w.workers && c2 != c && WorkerInv(w, c2)
    ensures WorkerInv(Discard(w, c), c2)
  {
    var w' := Discard(w, c);
    forall s ensures Sees(w, c2, s) == Sees(w', c2, s) && DirtyBy(w, c2, s) == DirtyBy(w', c2, s) {
    }
    WorkerFrame(w, w', c2);
  }

  lemma DiscardAccount(w: World, c: Conn, s: Sid)
    requires c in w.workers && CallsInv(w) && (s in w.sessions ==> CellInv(w, s))
    ensures var r := Discard(w, c); r.calls[s] == r.undone[s] + if IsSpent(r, s) then 1 else 0
  {
    var r := Discard(w, c);
    var wasted := set t | t in w.sessions && Wasted(w.sessions[t], c);
    assert r.undone[s] == w.undone[s] + if s in wasted then 1 else 0;
    assert w.calls[s] == w.undone[s] + if IsSpent(w, s) then 1 else 0;
  }
}
