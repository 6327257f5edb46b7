/** Every statement of every request keeps the invariant, group by group:

      - starting, locking, unlocking, ending and aborting a request;
      - the user's message and the reply, each with the number it allocated;
      - routing, displacing another agent's session, creating and pinning one;
      - the handler's answer, applied under the row's guard;
      - finalisation, forced or at the end of a terminal turn;
      - resume, and the retirement of a session. */
module TurnSteps {
  import opened Prelude
  import opened SessionLifecycle
  import opened TurnProtocol
  import opened TurnInvariant

  /** Moving on leaves the view of a connection as it was. */
  lemma PcView(w: World, c: Conn, pc: Pc)
    requires c in w.workers
    ensures var w' := SetPc(w, c, pc);
            && HasConv(w', c) == HasConv(w, c) && ConvOf(w', c) == ConvOf(w, c)
            && (forall s :: Sees(w', c, s) == Sees(w, c, s) && DirtyBy(w', c, s) == DirtyBy(w, c, s))
            && (forall s :: SeesOpen(w', c, s) == SeesOpen(w, c, s))
  {
    forall s ensures Sees(SetPc(w, c, pc), c, s) == Sees(w, c, s)
             ensures DirtyBy(SetPc(w, c, pc), c, s) == DirtyBy(w, c, s)
    {
    }
  }

  lemma SameSessionsView(w: World, w': World, c: Conn)
    requires w.sessions == w'.sessions
    ensures forall s :: Sees(w', c, s) == Sees(w, c, s) && DirtyBy(w', c, s) == DirtyBy(w, c, s)
    ensures forall s :: SeesOpen(w', c, s) == SeesOpen(w, c, s)
  {
    forall s ensures Sees(w', c, s) == Sees(w, c, s) && DirtyBy(w', c, s) == DirtyBy(w, c, s) {
    }
  }

  /** Writing the conversation row leaves the view of its sessions as it was. */
  lemma ConvView(w: World, c: Conn, row: Conv, pc: Pc)
    requires c in w.workers
    ensures var w' := SetPc(WriteConv(w, c, row), c, pc);
            && HasConv(w', c) && ConvOf(w', c) == row
            && (forall s :: Sees(w', c, s) == Sees(w, c, s) && DirtyBy(w', c, s) == DirtyBy(w, c, s))
            && (forall s :: SeesOpen(w', c, s) == SeesOpen(w, c, s))
  {
    var w' := SetPc(WriteConv(w, c, row), c, pc);
    forall s ensures Sees(w', c, s) == Sees(w, c, s) && DirtyBy(w', c, s) == DirtyBy(w, c, s) {
    }
  }

  lemma AbortKeeps(w: World, c: Conn)
    requires Inv(w) && c in w.workers
    ensures Inv(Abort(w, c))
  {
    assert WorkerInv(w, c);
    PcView(w, c, Aborted(InLockedTurn(w.workers[c].pc)));
    PcStep(w, c, Aborted(InLockedTurn(w.workers[c].pc)));
  }

  lemma LocalKeeps(w: World, c: Conn, pc: Pc)
    requires Inv(w) && c in w.workers
    requires InLockedTurn(pc) == InLockedTurn(w.workers[c].pc)
    requires Inserting(w.workers[c].pc) ==> Inserting(pc)
    requires Clean(pc) ==> WroteNothing(w, c)
    requires MustHoldConv(pc) ==> HasConv(w, c)
    requires MustNotHoldConv(pc) ==> !HasConv(w, c)
    requires PinPending(pc) || ViewPinned(w, c)
    requires CanCommit(w.workers[c].pc) && CanCommit(pc)
    requires PcFacts(SetPc(w, c, pc), c, pc)
    ensures Inv(SetPc(w, c, pc))
  {
    PcView(w, c, pc);
    assert WorkerInv(w, c);
    PcStep(w, c, pc);
  }

  /** Numbering a message: the count of the locked conversation row goes up by one. */
  lemma NumberKeeps(w: World, c: Conn, pc: Pc)
    requires Inv(w) && c in w.workers && ConvFree(w, c)
    requires InLockedTurn(pc) == InLockedTurn(w.workers[c].pc)
    requires CanCommit(w.workers[c].pc) && Numbering(pc) && pc.num == ConvOf(w, c).count + 1
    requires !Inserting(w.workers[c].pc) && !PinPending(w.workers[c].pc)
    requires pc.ResumeNumbered? ==> Remembers(w, c, pc.ref) && pc.ref.row.remoteId.Some?
    ensures Inv(SetPc(WriteConv(w, c, ConvOf(w, c).(count := ConvOf(w, c).count + 1)), c, pc))
  {
    var row := ConvOf(w, c).(count := ConvOf(w, c).count + 1);
    ConvView(w, c, row, pc);
    assert WorkerInv(w, c);
    assert w.log.Keys + {} == w.log.Keys;
    ConvStep(w, c, row, pc);
  }

  /** The number allocated for a message is free, and inserting it closes the gap. */
  lemma InsertFillsGap(w: World, c: Conn, m: Message, pc: Pc)
    requires c in w.workers && WorkerInv(w, c) && Numbering(w.workers[c].pc)
    requires pc.Recorded? || pc.ReplyRecorded? || pc.ResumeRecorded?
    requires pc.ResumeRecorded? ==> Remembers(w, c, pc.ref) && pc.ref.row.remoteId.Some?
    ensures var num := w.workers[c].pc.num;
            && num !in w.log && num !in w.workers[c].mine
            && WorkerInv(SetPc(AddMessage(w, c, num, m), c, pc), c)
  {
    var num := w.workers[c].pc.num;
    assert num !in w.log.Keys + w.workers[c].mine.Keys;
    var w' := SetPc(AddMessage(w, c, num, m), c, pc);
    assert w'.log.Keys + w'.workers[c].mine.Keys == w.log.Keys + w.workers[c].mine.Keys + {num};
    SameSessionsView(w, w', c);
    assert TranscriptOk(w', c);
  }

  lemma InsertMessageKeeps(w: World, c: Conn, m: Message, pc: Pc)
    requires Inv(w) && c in w.workers && Numbering(w.workers[c].pc)
    requires InLockedTurn(pc) == InLockedTurn(w.workers[c].pc)
    requires pc.Recorded? || pc.ReplyRecorded? || pc.ResumeRecorded?
    requires pc.ResumeRecorded? ==> Remembers(w, c, pc.ref) && pc.ref.row.remoteId.Some?
    ensures var num := w.workers[c].pc.num;
            && num !in w.log && num !in w.workers[c].mine
            && Inv(SetPc(AddMessage(w, c, num, m), c, pc))
  {
    assert WorkerInv(w, c);
    InsertFillsGap(w, c, m, pc);
    MessageStep(w, c, w.workers[c].pc.num, m, pc);
  }

  lemma UserMessageKeeps(w: World, c: Conn, e: Event)
    requires Inv(w) && c in w.workers
    ensures Inv(StepUserMessage(w, c, e))
  {
    if e.Next? {
      assert WorkerInv(w, c);
      match w.workers[c].pc
      case ChatOpened(content) => LockKeeps(w, c, content);
      case Locked(content) =>
        if ConvFree(w, c) {
          NumberKeeps(w, c, Numbered(content, ConvOf(w, c).count + 1));
        }
      case Numbered(content, num) => InsertMessageKeeps(w, c, UserMessage(content), Recorded);
      case _ =>
    }
  }

  lemma LockKeeps(w: World, c: Conn, content: string)
    requires Inv(w) && c in w.workers && w.workers[c].pc == ChatOpened(content)
    ensures Inv(StepUserMessage(w, c, Next))
  {
    var held := TryLock(w.lock, c);
    assert WorkerInv(w, c);
    if held.Some? {
      var w' := SetPc(w, c, Locked(content)).(lock := held);
      SameSessionsView(w, w', c);
      forall c2 | c2 in w'.workers
        ensures Depth(w'.lock, c2) == w'.workers[c2].leaked + if InLockedTurn(w'.workers[c2].pc) then 1 else 0
      {
        assert Depth(w.lock, c2) == w.workers[c2].leaked + if InLockedTurn(w.workers[c2].pc) then 1 else 0;
      }
      LockFrame(w, w', c);
    } else {
      LocalKeeps(w, c, Refused);
    }
  }

  /** Only the advisory lock and the position of `c` change. */
  lemma LockFrame(w: World, w': World, c: Conn)
    requires Inv(w) && c in w.workers
    requires w'.workers.Keys == w.workers.Keys
    requires forall c2 | c2 in w.workers && c2 != c :: w'.workers[c2] == w.workers[c2]
    requires w' == w.(lock := w'.lock, workers := w'.workers)
    requires Clean(w.workers[c].pc) == Clean(w'.workers[c].pc)
    requires Inserting(w.workers[c].pc) == Inserting(w'.workers[c].pc)
    requires WorkerInv(w', c) && LockInv(w')
    ensures Inv(w')
  {
    forall c2 | c2 in w'.workers ensures WorkerInv(w', c2) {
      if c2 != c {
        WorkerFrame(w, w', c2);
      }
    }
    forall s | s in w'.sessions ensures CellInv(w', s) {
      assert CellInv(w, s);
    }
    assert forall s :: BaseOpen(w', s) == BaseOpen(w, s);
    assert forall s :: IsSpent(w', s) == IsSpent(w, s);
  }

  lemma UnlockKeeps(w: World, c: Conn)
    requires Inv(w) && c in w.workers && w.workers[c].pc.Unlocking?
    ensures Inv(StepReply(w, c, Next))
  {
    assert WorkerInv(w, c);
    var w' := SetPc(w, c, Ending(false)).(lock := Unlock(w.lock, c));
    UnlockSelf(w, c);
    UnlockDepths(w, c);
    LockFrame(w, w', c);
  }

  lemma UnlockSelf(w: World, c: Conn)
    requires c in w.workers && w.workers[c].pc.Unlocking? && WorkerInv(w, c)
    ensures WorkerInv(SetPc(w, c, Ending(false)).(lock := Unlock(w.lock, c)), c)
  {
    SameSessionsView(w, SetPc(w, c, Ending(false)).(lock := Unlock(w.lock, c)), c);
  }

  lemma UnlockDepths(w: World, c: Conn)
    requires c in w.workers && w.workers[c].pc.Unlocking? && LockInv(w)
    ensures LockInv(SetPc(w, c, Ending(false)).(lock := Unlock(w.lock, c)))
  {
    var w' := SetPc(w, c, Ending(false)).(lock := Unlock(w.lock, c));
    forall c2 | c2 in w'.workers
      ensures Depth(w'.lock, c2) == w'.workers[c2].leaked + if InLockedTurn(w'.workers[c2].pc) then 1 else 0
    {
      assert Depth(w.lock, c2) == w.workers[c2].leaked + if InLockedTurn(w.workers[c2].pc) then 1 else 0;
    }
  }

  lemma RecycleKeeps(w: World, c: Conn)
    requires Inv(w) && c in w.workers && w.workers[c].pc.Idle?
    ensures Inv(StepIdle(w, c, Recycle))
  {
    assert WorkerInv(w, c);
    var w' := StepIdle(w, c, Recycle);
    SameSessionsView(w, w', c);
    forall c2 | c2 in w'.workers
      ensures Depth(w'.lock, c2) == w'.workers[c2].leaked + if InLockedTurn(w'.workers[c2].pc) then 1 else 0
    {
      assert Depth(w.lock, c2) == w.workers[c2].leaked + if InLockedTurn(w.workers[c2].pc) then 1 else 0;
    }
    LockFrame(w, w', c);
  }

  lemma StartKeeps(w: World, c: Conn, pc: Pc)
    requires Inv(w) && c in w.workers && w.workers[c].pc.Idle?
    requires pc.ChatOpened? || pc.Retiring?
             || (pc.ToFinalize? && pc.origin.Forced? && Sees(w, c, pc.sid).Some?)
             || (pc.ResumeOpened? && Sees(w, c, pc.ref.sid).Some? && pc.ref.row == Sees(w, c, pc.ref.sid).value.row
                 && pc.ref.row.remoteId.Some?)
    ensures Inv(SetPc(w, c, pc))
  {
    assert WorkerInv(w, c);
    PcView(w, c, pc);
    if pc.ResumeOpened? {
      SeesOk(w, c, pc.ref.sid);
    }
    LocalKeeps(w, c, pc);
  }

  lemma IdleKeeps(w: World, c: Conn, e: Event)
    requires Inv(w) && c in w.workers && w.workers[c].pc.Idle?
    ensures Inv(StepIdle(w, c, e))
  {
    match e
    case Chat(content) => StartKeeps(w, c, ChatOpened(content));
    case Finalize(s) =>
      if Sees(w, c, s).Some? {
        StartKeeps(w, c, ToFinalize(s, Forced));
      }
    case Resume(s) =>
      if Sees(w, c, s).Some? && Sees(w, c, s).value.row.remoteId.Some? {
        StartKeeps(w, c, ResumeOpened(Ref(s, Sees(w, c, s).value.row)));
      }
    case Retire(reason) => StartKeeps(w, c, Retiring(reason));
    case Recycle => RecycleKeeps(w, c);
    case _ =>
  }

  /** Retiring the open session a connection sees leaves it none. */
  lemma RetireKeeps(w: World, c: Conn, s: Sid, reason: string, now: Time, pc: Pc)
    requires Inv(w) && c in w.workers && SeesOpen(w, c, s) && RowFree(w, c, s)
    requires InLockedTurn(pc) == InLockedTurn(w.workers[c].pc)
    requires !Inserting(w.workers[c].pc) && !Numbering(w.workers[c].pc)
    requires pc.ExitUnpin? || pc.DisplaceUnpin? || pc == RetireUnpin(s)
    requires MustHoldConv(pc) ==> HasConv(w, c)
    requires MustNotHoldConv(pc) ==> !HasConv(w, c)
    ensures Inv(SetPc(RetireRow(w, c, s, reason, now), c, pc))
  {
    var prev := Sees(w, c, s).value;
    var v := prev.(row := Retired(prev.row, reason, now));
    SeesOk(w, c, s);
    RetireKeepsRow(prev.row, reason, now);
    RowView(w, c, s, v, pc);
    assert WorkerInv(w, c);
    var w' := SetPc(WriteRow(w, c, s, v), c, pc);
    assert TranscriptOk(w', c);
    RowStep(w, c, s, v, pc);
  }

  lemma SeesOk(w: World, c: Conn, s: Sid)
    requires Inv(w) && Sees(w, c, s).Some?
    ensures VersionOk(Sees(w, c, s).value)
  {
    assert CellInv(w, s);
  }

  lemma UnpinKeeps(w: World, c: Conn, pc: Pc)
    requires Inv(w) && c in w.workers && ConvFree(w, c) && NoneOpen(w, c)
    requires InLockedTurn(pc) == InLockedTurn(w.workers[c].pc)
    requires !Inserting(w.workers[c].pc) && !Numbering(w.workers[c].pc)
    requires pc.Routed? || pc.Vacant? || pc.Replying? || pc.Ending?
    ensures Inv(SetPc(WriteConv(w, c, ConvOf(w, c).(pin := None)), c, pc))
  {
    var row := ConvOf(w, c).(pin := None);
    ConvView(w, c, row, pc);
    assert WorkerInv(w, c);
    assert w.log.Keys + {} == w.log.Keys;
    ConvStep(w, c, row, pc);
  }

  lemma RouterKeeps(w: World, c: Conn, pc: Pc)
    requires Inv(w) && c in w.workers && (w.workers[c].pc.Recorded? || w.workers[c].pc.Exiting?)
    requires pc.Exiting? || pc.Routed? || pc.Unlocking? || (pc.ExitUnpin? && SeesNoneOpen(w, c))
    ensures Inv(SetPc(w, c, pc))
  {
    assert WorkerInv(w, c);
    PcView(w, c, pc);
    LocalKeeps(w, c, pc);
  }

  lemma RoutingKeeps(w: World, c: Conn, now: Time, e: Event)
    requires Inv(w) && c in w.workers
    ensures Inv(StepRouting(w, c, now, e))
  {
    match w.workers[c].pc
    case Recorded =>
      match e {
        case Exit => RouterKeeps(w, c, Exiting);
        case Route(a, pins) => RouterKeeps(w, c, Routed(a, pins));
        case Raise => RouterKeeps(w, c, Unlocking);
        case _ =>
      }
    case Exiting =>
      match e {
        case Miss => RouterKeeps(w, c, Unlocking);
        case Next =>
          if SeesNoneOpen(w, c) {
            RouterKeeps(w, c, ExitUnpin);
          }
        case Hit(s) =>
          if SeesOpen(w, c, s) && RowFree(w, c, s) {
            assert WorkerInv(w, c);
            RetireKeeps(w, c, s, "user_exit", now, ExitUnpin);
          }
        case _ =>
      }
    case ExitUnpin =>
      match e {
        case Route(a, pins) =>
          if ConvFree(w, c) {
            assert WorkerInv(w, c);
            UnpinKeeps(w, c, Routed(a, pins));
          }
        case _ =>
      }
    case _ =>
  }

  /** `open_for` inserts a session: no other is open in its view, and the unique
      index neither blocks nor rejects the insert. */
  lemma CreateKeeps(w: World, c: Conn, s: Sid, row: Session, pc: Pc)
    requires Inv(w) && c in w.workers && s !in w.sessions && NoneOpen(w, c)
    requires w.workers[c].pc.Vacant? && w.workers[c].pc.pins
    requires row.Fits() && row.agent == w.workers[c].pc.agent
    requires pc == Attached(row.agent, true, Some(Ref(s, row)))
    ensures Inv(SetPc(InsertRow(w, c, s, Version(row, false)), c, pc))
  {
    var v := Version(row, false);
    var w' := SetPc(InsertRow(w, c, s, v), c, pc);
    assert WorkerInv(w, c);
    assert DirtyBy(w', c, s);
    forall t ensures SeesOpen(w', c, t) ==> t == s {
      if t != s {
        assert !SeesOpen(w, c, t);
        assert DirtyBy(w', c, t) == DirtyBy(w, c, t);
      }
    }
    assert TranscriptOk(w', c);
    InsertStep(w, c, s, row, pc);
  }

  /** At the point of creation the insert can always take effect. */
  lemma CreationUnhindered(w: World, c: Conn)
    requires Inv(w) && c in w.workers && w.workers[c].pc.Vacant?
    ensures !InsertBlocked(w, c) && SeesNoneOpen(w, c)
  {
    assert WorkerInv(w, c);
    if InsertBlocked(w, c) {
      var s :| s in w.sessions && w.sessions[s].dirty.Some? && w.sessions[s].dirty.value.owner != c
               && (BaseOpen(w, s) || w.sessions[s].dirty.value.v.row.Open());
      HiddenOpenIsVisible(w, c, s);
      assert false;
    }
  }

  /** An open session that another transaction holds was open when committed, so everyone sees it. */
  lemma HiddenOpenIsVisible(w: World, c: Conn, s: Sid)
    requires Inv(w) && c in w.workers && HasConv(w, c) && s in w.sessions
    requires w.sessions[s].dirty.Some? && w.sessions[s].dirty.value.owner != c
    requires BaseOpen(w, s) || w.sessions[s].dirty.value.v.row.Open()
    ensures SeesOpen(w, c, s)
  {
    assert CellInv(w, s);
    assert WorkerInv(w, w.sessions[s].dirty.value.owner);
  }

  lemma PinKeeps(w: World, c: Conn, pc: Pc)
    requires Inv(w) && c in w.workers && ConvFree(w, c)
    requires w.workers[c].pc.Attached?
    requires pc == ReadyToCommit(w.workers[c].pc.agent, w.workers[c].pc.sess)
    ensures Inv(SetPc(WriteConv(w, c, ConvOf(w, c).(pin := Some(w.workers[c].pc.agent))), c, pc))
  {
    var row := ConvOf(w, c).(pin := Some(w.workers[c].pc.agent));
    ConvView(w, c, row, pc);
    assert WorkerInv(w, c);
    ConvStep(w, c, row, pc);
  }

  lemma LookupKeeps(w: World, c: Conn, now: Time, e: Event)
    requires Inv(w) && c in w.workers && w.workers[c].pc.Routed?
    ensures Inv(StepOpenFor(w, c, now, e))
  {
    assert WorkerInv(w, c);
    var Routed(a, pins) := w.workers[c].pc;
    match e
    case Raise => LocalKeeps(w, c, Unlocking);
    case Next =>
      if SeesNoneOpen(w, c) {
        PcView(w, c, Vacant(a, pins));
        LocalKeeps(w, c, Vacant(a, pins));
      }
    case Hit(s) =>
      if SeesOpen(w, c, s) {
        if Sees(w, c, s).value.row.agent == a {
          AttachKeeps(w, c, s);
        } else {
          LocalKeeps(w, c, Displacing(a, pins));
        }
      }
    case _ =>
  }

  lemma AttachKeeps(w: World, c: Conn, s: Sid)
    requires Inv(w) && c in w.workers && w.workers[c].pc.Routed? && SeesOpen(w, c, s)
    requires Sees(w, c, s).value.row.agent == w.workers[c].pc.agent
    ensures Inv(SetPc(w, c, Attached(w.workers[c].pc.agent, w.workers[c].pc.pins, Some(Ref(s, Sees(w, c, s).value.row)))))
  {
    var pc := Attached(w.workers[c].pc.agent, w.workers[c].pc.pins, Some(Ref(s, Sees(w, c, s).value.row)));
    assert WorkerInv(w, c);
    SeesOk(w, c, s);
    PcView(w, c, pc);
    LocalKeeps(w, c, pc);
  }

  lemma DisplaceKeeps(w: World, c: Conn, now: Time, e: Event)
    requires Inv(w) && c in w.workers && (w.workers[c].pc.Displacing? || w.workers[c].pc.DisplaceUnpin?)
    ensures Inv(StepOpenFor(w, c, now, e))
  {
    assert WorkerInv(w, c);
    var a, pins := w.workers[c].pc.agent, w.workers[c].pc.pins;
    if w.workers[c].pc.DisplaceUnpin? {
      if e.Next? && ConvFree(w, c) {
        UnpinKeeps(w, c, Vacant(a, pins));
      }
    } else if e.Miss? {
      LocalKeeps(w, c, Unlocking);
    } else if e.Next? && SeesNoneOpen(w, c) {
      PcView(w, c, Vacant(a, pins));
      LocalKeeps(w, c, Vacant(a, pins));
    } else if e.Hit? && SeesOpen(w, c, e.sid) && RowFree(w, c, e.sid) {
      RetireKeeps(w, c, e.sid, "agent_switch", now, DisplaceUnpin(a, pins));
    }
  }

  lemma VacantKeeps(w: World, c: Conn, now: Time, e: Event)
    requires Inv(w) && c in w.workers && w.workers[c].pc.Vacant?
    ensures Inv(StepOpenFor(w, c, now, e))
  {
    assert WorkerInv(w, c);
    var Vacant(a, pins) := w.workers[c].pc;
    CreationUnhindered(w, c);
    if e.Next? && !pins {
      PcView(w, c, Attached(a, pins, None));
      LocalKeeps(w, c, Attached(a, pins, None));
    } else if e.Hit? && pins && e.sid !in w.sessions {
      CreateKeeps(w, c, e.sid, FreshSession(a, now), Attached(a, pins, Some(Ref(e.sid, FreshSession(a, now)))));
    }
  }

  lemma OpenForKeeps(w: World, c: Conn, now: Time, e: Event)
    requires Inv(w) && c in w.workers
    ensures Inv(StepOpenFor(w, c, now, e))
  {
    assert WorkerInv(w, c);
    match w.workers[c].pc
    case Routed(_, _) => LookupKeeps(w, c, now, e);
    case Displacing(_, _) => DisplaceKeeps(w, c, now, e);
    case DisplaceUnpin(_, _) => DisplaceKeeps(w, c, now, e);
    case Vacant(_, _) => VacantKeeps(w, c, now, e);
    case Attached(a, pins, sess) =>
      if e.Next? {
        if !pins {
          PcView(w, c, ReadyToCommit(a, sess));
          LocalKeeps(w, c, ReadyToCommit(a, sess));
        } else if ConvFree(w, c) {
          PinKeeps(w, c, ReadyToCommit(a, sess));
        }
      }
    case ReadyToCommit(a, sess) =>
      if e.Next? {
        CommitStep(w, c, InHandler(sess));
      }
    case _ =>
  }

  /** The positions an `apply` can be issued from, and what its delta may say there. */
  ghost predicate ApplySite(w: World, c: Conn, ref: Ref, d: Delta, ok: Pc)
    requires c in w.workers
  {
    var pc := w.workers[c].pc;
    && Remembers(w, c, ref)
    && (pc.Handled? || pc.CallFailed? || pc.CallDone? || pc.ResumeRecorded?)
    && InLockedTurn(ok) == InLockedTurn(pc)
    && (d.state.AwaitingUser? || d.state.Failed? || d.state.Completed?)
    && (d.state.AwaitingUser? ==>
          && (ref.row.remoteId.Some? && d.remoteId.Some? ==> d.remoteId == ref.row.remoteId)
          && (ref.row.remoteId.Some? || d.remoteId.Some?))
    && (!d.state.AwaitingUser? ==> d.remoteId.None? && Sees(w, c, ref.sid).value.row.state.Finalizing?)
    && (d.state.Completed? ==> d.resultRef.Some?)
    && (|| ok.Unlocking? || ok.Ending?
        || (ok.Replying? && pc.Handled?)
        || (ok == ToFinalize(ref.sid, InTurn) && d.state.AwaitingUser? && pc.Handled?)
        || (ok.Closing? && ok.sid == ref.sid && d.state.Completed? && pc.CallDone?))
  }

  /** From those positions no CHECK constraint can fire, and the new version succeeds the old. */
  lemma ApplyAtSite(w: World, c: Conn, now: Time, ref: Ref, d: Delta, ok: Pc)
    requires Inv(w) && c in w.workers && ApplySite(w, c, ref, d, ok) && RowFree(w, c, ref.sid)
    ensures var v := Sees(w, c, ref.sid).value;
            var r := Apply(v.row, ref.row.state, d, now);
            && r != Err(CheckViolation)
            && (r.Ok? ==> Succeeds(w, c, ref.sid, v.(row := r.value)) && r.value.state == d.state)
  {
    var prev := Sees(w, c, ref.sid).value;
    SeesOk(w, c, ref.sid);
    if Allowed(ref.row.state, d.state) && prev.row.state == ref.row.state {
      ApplyOutcome(prev.row, ref.row.state, d, now);
      assert prev.row.remoteId.Some? || d.remoteId.Some?;
      assert Apply(prev.row, ref.row.state, d, now).Ok?;
      ApplyKeepsRow(prev.row, ref.row.state, d, now);
    }
  }

  lemma ApplyWrites(w: World, c: Conn, ref: Ref, d: Delta, v: Version, ok: Pc)
    requires Inv(w) && c in w.workers && ApplySite(w, c, ref, d, ok)
    requires Succeeds(w, c, ref.sid, v) && v.row.state == d.state
    ensures Inv(SetPc(WriteRow(w, c, ref.sid, v), c, ok))
  {
    assert WorkerInv(w, c);
    RowView(w, c, ref.sid, v, ok);
    ApplySelf(w, c, ref, d, v, ok);
    RowStep(w, c, ref.sid, v, ok);
  }

  lemma ApplySelf(w: World, c: Conn, ref: Ref, d: Delta, v: Version, ok: Pc)
    requires c in w.workers && WorkerInv(w, c) && ApplySite(w, c, ref, d, ok)
    requires Succeeds(w, c, ref.sid, v) && v.row.state == d.state
    requires var w' := SetPc(WriteRow(w, c, ref.sid, v), c, ok);
             && Sees(w', c, ref.sid) == Some(v) && DirtyBy(w', c, ref.sid)
             && ViewUnique(w', c) && (ViewPinned(w, c) ==> ViewPinned(w', c))
             && (!v.row.Open() ==> NoneOpen(w', c))
    ensures WorkerInv(SetPc(WriteRow(w, c, ref.sid, v), c, ok), c)
  {
    assert TranscriptOk(SetPc(WriteRow(w, c, ref.sid, v), c, ok), c);
  }

  lemma ApplyKeeps(w: World, c: Conn, now: Time, ref: Ref, d: Delta, ok: Pc, refused: Pc)
    requires Inv(w) && c in w.workers && ApplySite(w, c, ref, d, ok)
    requires refused.Unlocking? || refused.Ending?
    requires InLockedTurn(refused) == InLockedTurn(w.workers[c].pc)
    ensures Inv(ApplyTo(w, c, now, ref, d, ok, refused))
  {
    if Allowed(ref.row.state, d.state) && RowFree(w, c, ref.sid) {
      ApplyAtSite(w, c, now, ref, d, ok);
      var v := Sees(w, c, ref.sid).value;
      if Apply(v.row, ref.row.state, d, now).Ok? {
        ApplyWrites(w, c, ref, d, v.(row := Apply(v.row, ref.row.state, d, now).value), ok);
      } else {
        RefusedKeeps(w, c, refused);
      }
    } else {
      RefusedKeeps(w, c, refused);
    }
  }

  lemma RefusedKeeps(w: World, c: Conn, refused: Pc)
    requires Inv(w) && c in w.workers
    requires var pc := w.workers[c].pc;
             pc.Handled? || pc.CallFailed? || pc.CallDone? || pc.ResumeRecorded?
    requires refused.Unlocking? || refused.Ending?
    requires InLockedTurn(refused) == InLockedTurn(w.workers[c].pc)
    ensures Inv(SetPc(w, c, refused))
  {
    assert WorkerInv(w, c);
    LocalKeeps(w, c, refused);
  }

  lemma HandlerKeeps(w: World, c: Conn, now: Time, e: Event)
    requires Inv(w) && c in w.workers
    ensures Inv(StepHandler(w, c, now, e))
  {
    assert WorkerInv(w, c);
    match w.workers[c].pc
    case InHandler(sess) =>
      match e {
        case Raise => LocalKeeps(w, c, Unlocking);
        case Reply(delta, terminal) =>
         if HandlerContract(sess, delta, terminal) {
           PcView(w, c, Handled(sess, delta, terminal));
           LocalKeeps(w, c, Handled(sess, delta, terminal));
         }
        case _ =>
      }
    case Handled(sess, delta, terminal) =>
      if e.Next? {
        if sess.None? || delta.None? {
          LocalKeeps(w, c, Replying(if sess.Some? then Some(sess.value.sid) else None));
        } else {
          var s := sess.value.sid;
          ApplyKeeps(w, c, now, sess.value, delta.value,
                     if terminal then ToFinalize(s, InTurn) else Replying(Some(s)), Unlocking);
        }
      }
    case _ =>
  }

  lemma ClaimKeeps(w: World, c: Conn, s: Sid, o: Origin)
    requires Inv(w) && c in w.workers && w.workers[c].pc == ToFinalize(s, o)
    requires RowFree(w, c, s) && Sees(w, c, s).Some? && Claim(Sees(w, c, s).value.row).Some?
    ensures var v := Sees(w, c, s).value;
            Inv(SetPc(WriteRow(w, c, s, v.(row := Claim(v.row).value)), c, Claimed(s, o)))
  {
    assert WorkerInv(w, c);
    var prev := Sees(w, c, s).value;
    SeesOk(w, c, s);
    ClaimKeepsRow(prev.row);
    var v := prev.(row := Claim(prev.row).value);
    RowView(w, c, s, v, Claimed(s, o));
    assert TranscriptOk(SetPc(WriteRow(w, c, s, v), c, Claimed(s, o)), c);
    RowStep(w, c, s, v, Claimed(s, o));
  }

  /** The remote call marks the claimed version and is counted. */
  lemma CallKeeps(w: World, c: Conn, s: Sid, pc: Pc)
    requires Inv(w) && c in w.workers && w.workers[c].pc.Claimed? && w.workers[c].pc.sid == s
    requires pc.CallFailed? || pc.CallDone?
    requires pc.sid == s && pc.origin == w.workers[c].pc.origin
    ensures DirtyBy(w, c, s) && Inv(SetPc(CallRemote(w, c, s), c, pc))
  {
    assert WorkerInv(w, c);
    assert CellInv(w, s);
    CallSelf(w, c, s, pc);
    CallOthers(w, c, s, pc);
    CallAccount(w, c, s, pc);
  }

  lemma CallSelf(w: World, c: Conn, s: Sid, pc: Pc)
    requires c in w.workers && w.workers[c].pc.Claimed? && w.workers[c].pc.sid == s
    requires WorkerInv(w, c) && DirtyBy(w, c, s)
    requires pc.CallFailed? || pc.CallDone?
    requires pc.sid == s && pc.origin == w.workers[c].pc.origin
    ensures WorkerInv(SetPc(CallRemote(w, c, s), c, pc), c)
  {
    var v := Sees(w, c, s).value.(spent := true);
    var w' := SetPc(CallRemote(w, c, s), c, pc);
    assert DirtyBy(w', c, s) && Sees(w', c, s) == Some(v);
    forall t | t != s ensures Sees(w', c, t) == Sees(w, c, t) && DirtyBy(w', c, t) == DirtyBy(w, c, t) {
    }
    forall t ensures SeesOpen(w', c, t) == SeesOpen(w, c, t)
             ensures SeesOpen(w, c, t) ==> Sees(w', c, t).value.row == Sees(w, c, t).value.row
    {
    }
    assert TranscriptOk(w', c);
  }

  lemma CallOthers(w: World, c: Conn, s: Sid, pc: Pc)
    requires c in w.workers && DirtyBy(w, c, s)
    requires forall c2 | c2 in w.workers :: WorkerInv(w, c2)
    ensures var w' := SetPc(CallRemote(w, c, s), c, pc);
            forall c2 | c2 in w'.workers && c2 != c :: WorkerInv(w', c2)
  {
    var w' := SetPc(CallRemote(w, c, s), c, pc);
    forall c2 | c2 in w'.workers && c2 != c ensures WorkerInv(w', c2) {
      WorkerFrame(w, w', c2);
    }
  }

  lemma CallAccount(w: World, c: Conn, s: Sid, pc: Pc)
    requires c in w.workers && DirtyBy(w, c, s) && BaseInv(w) && CallsInv(w)
    requires forall t | t in w.sessions :: CellInv(w, t)
    requires !Sees(w, c, s).value.spent && Rank(Sees(w, c, s).value.row.state) >= 3
    requires !Inserting(w.workers[c].pc) && !Clean(pc)
    ensures var w' := SetPc(CallRemote(w, c, s), c, pc);
            && BaseInv(w') && CallsInv(w')
            && forall t | t in w'.sessions :: CellInv(w', t)
  {
    var w' := SetPc(CallRemote(w, c, s), c, pc);
    assert forall t :: BaseOpen(w', t) == BaseOpen(w, t);
    assert forall t :: IsSpent(w', t) == (t == s || IsSpent(w, t));
    assert !IsSpent(w, s);
    forall t | t in w'.sessions ensures CellInv(w', t) {
      assert CellInv(w, t);
    }
  }

  /** A connection that has ended its own session sees no open one. */
  lemma EndedSeesNone(w: World, c: Conn, s: Sid)
    requires Inv(w) && c in w.workers && DirtyBy(w, c, s) && !SeesOpen(w, c, s)
    requires !Inserting(w.workers[c].pc)
    ensures NoneOpen(w, c)
  {
    assert CellInv(w, s);
    assert BaseOpen(w, s);
    forall t ensures !SeesOpen(w, c, t) {
      if SeesOpen(w, c, t) {
        assert CellInv(w, t);
        assert BaseOpen(w, t);
      }
    }
  }

  lemma ClaimStepKeeps(w: World, c: Conn, now: Time, e: Event)
    requires Inv(w) && c in w.workers && w.workers[c].pc.ToFinalize?
    ensures Inv(StepFinalize(w, c, now, e))
  {
    assert WorkerInv(w, c);
    var ToFinalize(s, o) := w.workers[c].pc;
    if e.Next? && RowFree(w, c, s) {
      if Claim(Sees(w, c, s).value.row).Some? {
        ClaimKeeps(w, c, s, o);
      } else {
        LocalKeeps(w, c, AfterFinalize(s, o));
      }
    }
  }

  lemma CallStepKeeps(w: World, c: Conn, now: Time, e: Event)
    requires Inv(w) && c in w.workers && w.workers[c].pc.Claimed?
    ensures Inv(StepFinalize(w, c, now, e))
  {
    assert WorkerInv(w, c);
    var Claimed(s, o) := w.workers[c].pc;
    match e
    case StoryStored(story) => CallKeeps(w, c, s, CallDone(s, o, story));
    case StoryFailed(mitra, why) => CallKeeps(w, c, s, CallFailed(s, o, mitra, why));
    case NotCalled(mitra, why) =>
      PcView(w, c, CallFailed(s, o, mitra, why));
      LocalKeeps(w, c, CallFailed(s, o, mitra, why));
    case _ =>
  }

  lemma OutcomeKeeps(w: World, c: Conn, now: Time, e: Event)
    requires Inv(w) && c in w.workers && (w.workers[c].pc.CallFailed? || w.workers[c].pc.CallDone?)
    ensures Inv(StepFinalize(w, c, now, e))
  {
    assert WorkerInv(w, c);
    var s, o := w.workers[c].pc.sid, w.workers[c].pc.origin;
    SeesOk(w, c, s);
    var ref := Ref(s, Sees(w, c, s).value.row);
    if w.workers[c].pc.CallFailed? {
      var mitra := w.workers[c].pc.mitra;
      if e.Next? {
        ApplyKeeps(w, c, now, ref, FailedDelta(w.workers[c].pc.why), FinalizeRaised(o, mitra), FinalizeRaised(o, false));
      }
    } else if e.Raise? {
      LocalKeeps(w, c, FinalizeRaised(o, false));
    } else if e.Next? || e.Reported? {
      ApplyKeeps(w, c, now, ref, StoryDelta(w.workers[c].pc.story, if e.Reported? then Some(e.url) else None),
                 Closing(s, o), FinalizeRaised(o, false));
    }
  }

  lemma FinalizeKeeps(w: World, c: Conn, now: Time, e: Event)
    requires Inv(w) && c in w.workers
    ensures Inv(StepFinalize(w, c, now, e))
  {
    match w.workers[c].pc
    case ToFinalize(_, _) => ClaimStepKeeps(w, c, now, e);
    case Claimed(_, _) => CallStepKeeps(w, c, now, e);
    case CallFailed(_, _, _, _) => OutcomeKeeps(w, c, now, e);
    case CallDone(_, _, _) => OutcomeKeeps(w, c, now, e);
    case Closing(_, _) => ClosingKeeps(w, c, now, e);
    case _ =>
  }

  lemma ClosingKeeps(w: World, c: Conn, now: Time, e: Event)
    requires Inv(w) && c in w.workers && w.workers[c].pc.Closing?
    ensures Inv(StepFinalize(w, c, now, e))
  {
    assert WorkerInv(w, c);
    var pc := w.workers[c].pc;
    if e.Next? && ConvFree(w, c) {
      EndedSeesNone(w, c, pc.sid);
      UnpinKeeps(w, c, AfterFinalize(pc.sid, pc.origin));
    }
  }

  lemma ReplyNumberKeeps(w: World, c: Conn)
    requires Inv(w) && c in w.workers && w.workers[c].pc.Replying?
    ensures Inv(StepReply(w, c, Next))
  {
    assert WorkerInv(w, c);
    if ConvFree(w, c) {
      NumberKeeps(w, c, ReplyNumbered(w.workers[c].pc.on, ConvOf(w, c).count + 1));
    }
  }

  lemma CommitKeeps(w: World, c: Conn)
    requires Inv(w) && c in w.workers
    requires var pc := w.workers[c].pc; pc.ReplyRecorded? || pc.Refused? || pc == Ending(false)
    ensures Inv(StepReply(w, c, Next))
  {
    assert WorkerInv(w, c);
    CommitStep(w, c, if w.workers[c].pc.ReplyRecorded? then Unlocking else Idle);
  }

  lemma ReplyKeeps(w: World, c: Conn, e: Event)
    requires Inv(w) && c in w.workers
    ensures Inv(StepReply(w, c, e))
  {
    if e.Next? {
      match w.workers[c].pc
      case Replying(on) => ReplyNumberKeeps(w, c);
      case ReplyNumbered(on, num) => InsertMessageKeeps(w, c, AgentMessage(on), ReplyRecorded);
      case ReplyRecorded => CommitKeeps(w, c);
      case Unlocking => UnlockKeeps(w, c);
      case Refused => CommitKeeps(w, c);
      case Ending(raised) =>
        if raised {
          DiscardStep(w, c);
        } else {
          CommitKeeps(w, c);
        }
      case Aborted(_) => DiscardStep(w, c);
      case _ =>
    }
  }

  lemma ResumeNumberKeeps(w: World, c: Conn, now: Time)
    requires Inv(w) && c in w.workers && w.workers[c].pc.ResumeOpened?
    ensures Inv(StepResume(w, c, now, Next))
  {
    assert WorkerInv(w, c);
    if ConvFree(w, c) {
      NumberKeeps(w, c, ResumeNumbered(w.workers[c].pc.ref, ConvOf(w, c).count + 1));
    }
  }

  lemma ResumeInsertKeeps(w: World, c: Conn, now: Time)
    requires Inv(w) && c in w.workers && w.workers[c].pc.ResumeNumbered?
    ensures Inv(StepResume(w, c, now, Next))
  {
    assert WorkerInv(w, c);
    var ref := w.workers[c].pc.ref;
    InsertMessageKeeps(w, c, AgentMessage(Some(ref.sid)), ResumeRecorded(ref));
  }

  lemma ResumeKeeps(w: World, c: Conn, now: Time, e: Event)
    requires Inv(w) && c in w.workers
    ensures Inv(StepResume(w, c, now, e))
  {
    if e.Next? {
      match w.workers[c].pc
      case ResumeOpened(ref) => ResumeNumberKeeps(w, c, now);
      case ResumeNumbered(ref, num) => ResumeInsertKeeps(w, c, now);
      case ResumeRecorded(ref) =>
        assert WorkerInv(w, c);
        ApplyKeeps(w, c, now, ref, OnlyState(AwaitingUser), Ending(false), Ending(true));
      case _ =>
    }
  }

  lemma RetireRequestKeeps(w: World, c: Conn, now: Time, e: Event)
    requires Inv(w) && c in w.workers
    ensures Inv(StepRetire(w, c, now, e))
  {
    match w.workers[c].pc
    case Retiring(_) => RetiringKeeps(w, c, now, e);
    case RetireUnpin(s) => RetireUnpinKeeps(w, c, now, e);
    case _ =>
  }

  lemma RetiringKeeps(w: World, c: Conn, now: Time, e: Event)
    requires Inv(w) && c in w.workers && w.workers[c].pc.Retiring?
    ensures Inv(StepRetire(w, c, now, e))
  {
    assert WorkerInv(w, c);
    match e
    case Miss => LocalKeeps(w, c, Ending(true));
    case Next => LocalKeeps(w, c, Ending(false));
    case Hit(s) =>
      if SeesOpen(w, c, s) && RowFree(w, c, s) {
        RetireKeeps(w, c, s, w.workers[c].pc.reason, now, RetireUnpin(s));
      }
    case _ =>
  }

  lemma RetireUnpinKeeps(w: World, c: Conn, now: Time, e: Event)
    requires Inv(w) && c in w.workers && w.workers[c].pc.RetireUnpin?
    ensures Inv(StepRetire(w, c, now, e))
  {
    assert WorkerInv(w, c);
    if e.Next? && ConvFree(w, c) {
      EndedSeesNone(w, c, w.workers[c].pc.sid);
      UnpinKeeps(w, c, Ending(false));
    }
  }

  lemma StepKeeps(w: World, a: Action)
    requires Inv(w)
    ensures Inv(Step(w, a))
  {
    var c, now, e := a.conn, a.now, a.event;
    if c in w.workers {
      if e.Crash? {
        AbortKeeps(w, c);
      } else {
        if w.workers[c].pc.Idle? {
          IdleKeeps(w, c, e);
        }
        UserMessageKeeps(w, c, e);
        RoutingKeeps(w, c, now, e);
        OpenForKeeps(w, c, now, e);
        HandlerKeeps(w, c, now, e);
        FinalizeKeeps(w, c, now, e);
        ReplyKeeps(w, c, e);
        ResumeKeeps(w, c, now, e);
        RetireRequestKeeps(w, c, now, e);
      }
    }
  }

  lemma InitialKeeps(pool: set<Conn>)
    ensures Inv(Initial(pool))
  {
  }

  lemma {:induction false} RunKeeps(w: World, acts: seq<Action>)
    requires Inv(w)
    ensures Inv(Run(w, acts))
    decreases |acts|
  {
    if acts != [] {
      StepKeeps(w, acts[0]);
      RunKeeps(Step(w, acts[0]), acts[1..]);
    }
  }
}
