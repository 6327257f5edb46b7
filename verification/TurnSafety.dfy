/** What every interleaving of turns, forced finalisations, resumes, abandons and
    sweeps on one conversation guarantees. */
module TurnSafety {
  import opened Prelude
  import opened SessionLifecycle
  import opened TurnProtocol
  import opened TurnInvariant
  import opened TurnSteps

  lemma Reached(pool: set<Conn>, acts: seq<Action>)
    ensures Inv(Run(Initial(pool), acts))
  {
    InitialKeeps(pool);
    RunKeeps(Initial(pool), acts);
  }

  // ------------------------------------------------------------ the turn lock

  /** At most one connection is between its try-lock and its unlock, across the
      mid-turn commit and every crash. */
  lemma OneTurnAtATime(pool: set<Conn>, acts: seq<Action>, c1: Conn, c2: Conn)
    requires var w := Run(Initial(pool), acts);
             && c1 in w.workers && c2 in w.workers
             && InLockedTurn(w.workers[c1].pc) && InLockedTurn(w.workers[c2].pc)
    ensures c1 == c2
  {
    var w := Run(Initial(pool), acts);
    Reached(pool, acts);
    assert Depth(w.lock, c1) >= 1 && Depth(w.lock, c2) >= 1;
  }

  /** The lock is free exactly when no turn is running and no crashed turn left it behind. */
  lemma LockFreeIff(pool: set<Conn>, acts: seq<Action>)
    ensures var w := Run(Initial(pool), acts);
            w.lock.None? <==>
            forall c | c in w.workers :: !InLockedTurn(w.workers[c].pc) && w.workers[c].leaked == 0
  {
    var w := Run(Initial(pool), acts);
    Reached(pool, acts);
    if w.lock.None? {
      forall c | c in w.workers ensures !InLockedTurn(w.workers[c].pc) && w.workers[c].leaked == 0 {
        assert Depth(w.lock, c) == 0;
      }
    } else {
      assert Depth(w.lock, w.lock.value.owner) >= 1;
    }
  }

  /** A refused turn leaves nothing behind.  In every reachable state, and so with
      any steps of other connections between its own, each of its two steps moves it
      on and changes nothing else: no row, no message, no lock. */
  lemma RefusedTurnWritesNothing(pool: set<Conn>, acts: seq<Action>, c: Conn, now: Time)
    requires c in Run(Initial(pool), acts).workers
    ensures var w := Run(Initial(pool), acts);
            && (w.workers[c].pc.ChatOpened? && w.lock.Some? && w.lock.value.owner != c ==>
                  Step(w, Action(c, now, Next)) == SetPc(w, c, Refused))
            && (w.workers[c].pc.Refused? ==> Step(w, Action(c, now, Next)) == SetPc(w, c, Idle))
  {
    var w := Run(Initial(pool), acts);
    Reached(pool, acts);
    assert WorkerInv(w, c);
    if w.workers[c].pc.Refused? {
      EmptyEnds(w, c, now);
    }
  }

  lemma EmptyEnds(w: World, c: Conn, now: Time)
    requires c in w.workers && w.workers[c].pc.Refused? && WorkerInv(w, c)
    ensures Step(w, Action(c, now, Next)) == SetPc(w, c, Idle)
  {
    forall s | s in w.sessions ensures CommitCell(w.sessions[s], c) == w.sessions[s] {
      assert !DirtyBy(w, c, s);
    }
    assert Commit(w, c).sessions == w.sessions;
    assert w.log + map[] == w.log;
    assert w.workers[c].(mine := map[]) == w.workers[c];
    assert w.workers[c := w.workers[c]] == w.workers;
    assert Commit(w, c) == w;
  }

  // -------------------------------------------------------- session and pin

  /** Every committed state has at most one open session, and the conversation is
      pinned to that session's agent. */
  lemma OpenSessionIsPinned(pool: set<Conn>, acts: seq<Action>, s: Sid, t: Sid)
    requires BaseOpen(Run(Initial(pool), acts), s)
    ensures var w := Run(Initial(pool), acts);
            && w.conv.pin == Some(w.sessions[s].base.value.row.agent)
            && (BaseOpen(w, t) ==> t == s)
  {
    Reached(pool, acts);
  }

  /** When a turn commits after `open_for`, the conversation's open session, if it
      has one, belongs to the agent of the turn. */
  lemma TurnOpensForItsAgent(pool: set<Conn>, acts: seq<Action>, c: Conn, now: Time, s: Sid)
    requires var w := Run(Initial(pool), acts);
             c in w.workers && w.workers[c].pc.ReadyToCommit?
    ensures var w := Run(Initial(pool), acts);
            var w' := Step(w, Action(c, now, Next));
            && w'.workers[c].pc.InHandler?
            && (BaseOpen(w', s) ==> w'.sessions[s].base.value.row.agent == w.workers[c].pc.agent)
  {
    var w := Run(Initial(pool), acts);
    Reached(pool, acts);
    assert WorkerInv(w, c);
    var w' := Step(w, Action(c, now, Next));
    if BaseOpen(w', s) {
      assert SeesOpen(w, c, s) && w'.sessions[s].base == Sees(w, c, s);
    }
  }

  // ------------------------------------------------------------ the database

  /** No statement of any request violates the message number's uniqueness, the
      one-open-session index or a CHECK.  Only a crash from outside aborts a
      transaction. */
  lemma NoConstraintFires(pool: set<Conn>, acts: seq<Action>, a: Action)
    requires !PcOf(Run(Initial(pool), acts), a.conn).Aborted? && !a.event.Crash?
    ensures !PcOf(Step(Run(Initial(pool), acts), a), a.conn).Aborted?
  {
    var w, c := Run(Initial(pool), acts), a.conn;
    Reached(pool, acts);
    if c in w.workers {
      assert WorkerInv(w, c);
      if Numbering(w.workers[c].pc) {
        InsertFillsGap(w, c, UserMessage(""), Recorded);
      } else if w.workers[c].pc.Vacant? {
        CreationUnhindered(w, c);
      } else {
        ApplyNeverAborts(w, a);
      }
    }
  }

  lemma ApplyNeverAborts(w: World, a: Action)
    requires Inv(w) && a.conn in w.workers && !a.event.Crash?
    requires var pc := w.workers[a.conn].pc;
             !pc.Aborted? && !Numbering(pc) && !pc.Vacant?
    ensures !PcOf(Step(w, a), a.conn).Aborted?
  {
    var c := a.conn;
    match w.workers[c].pc
    case Handled(sess, delta, terminal) => HandledNeverAborts(w, c, a.now, a.event);
    case CallFailed(s, o, mitra, why) => OutcomeNeverAborts(w, c, a.now, a.event);
    case CallDone(s, o, story) => OutcomeNeverAborts(w, c, a.now, a.event);
    case ResumeRecorded(ref) => ResumeNeverAborts(w, c, a.now, a.event);
    case _ => OthersNeverAbort(w, a);
  }

  lemma OthersNeverAbort(w: World, a: Action)
    requires a.conn in w.workers && !a.event.Crash?
    requires var pc := w.workers[a.conn].pc;
             && !pc.Aborted? && !Numbering(pc) && !pc.Vacant? && !pc.Handled?
             && !pc.CallFailed? && !pc.CallDone? && !pc.ResumeRecorded?
    ensures !PcOf(Step(w, a), a.conn).Aborted?
  {
  }

  lemma HandledNeverAborts(w: World, c: Conn, now: Time, e: Event)
    requires Inv(w) && c in w.workers && w.workers[c].pc.Handled?
    ensures !PcOf(StepHandler(w, c, now, e), c).Aborted?
  {
    assert WorkerInv(w, c);
    var Handled(sess, delta, terminal) := w.workers[c].pc;
    if sess.Some? && delta.Some? && RowFree(w, c, sess.value.sid) {
      ApplyAtSite(w, c, now, sess.value, delta.value,
                  if terminal then ToFinalize(sess.value.sid, InTurn) else Replying(Some(sess.value.sid)));
    }
  }

  lemma OutcomeNeverAborts(w: World, c: Conn, now: Time, e: Event)
    requires Inv(w) && c in w.workers && (w.workers[c].pc.CallFailed? || w.workers[c].pc.CallDone?)
    ensures !PcOf(StepFinalize(w, c, now, e), c).Aborted?
  {
    assert WorkerInv(w, c);
    var s, o := w.workers[c].pc.sid, w.workers[c].pc.origin;
    SeesOk(w, c, s);
    var ref := Ref(s, Sees(w, c, s).value.row);
    if w.workers[c].pc.CallFailed? {
      ApplyAtSite(w, c, now, ref, FailedDelta(w.workers[c].pc.why), FinalizeRaised(o, w.workers[c].pc.mitra));
    } else {
      ApplyAtSite(w, c, now, ref, StoryDelta(w.workers[c].pc.story, if e.Reported? then Some(e.url) else None), Closing(s, o));
    }
  }

  lemma ResumeNeverAborts(w: World, c: Conn, now: Time, e: Event)
    requires Inv(w) && c in w.workers && w.workers[c].pc.ResumeRecorded?
    ensures !PcOf(StepResume(w, c, now, e), c).Aborted?
  {
    assert WorkerInv(w, c);
    var ref := w.workers[c].pc.ref;
    if RowFree(w, c, ref.sid) {
      ApplyAtSite(w, c, now, ref, OnlyState(AwaitingUser), Ending(false));
    }
  }

  /** The committed transcript is numbered exactly 1..message_count. */
  lemma TranscriptIsDense(pool: set<Conn>, acts: seq<Action>, k: nat)
    ensures var w := Run(Initial(pool), acts);
            k in w.log <==> 1 <= k <= w.conv.count
  {
    Reached(pool, acts);
    var w := Run(Initial(pool), acts);
    assert k in w.log.Keys <==> 1 <= k <= w.conv.count;
  }

  /** Every committed row satisfies the table's CHECK constraints, and is completed
      exactly when it has a finalisation time. */
  lemma CommittedRowsFit(pool: set<Conn>, acts: seq<Action>, s: Sid)
    requires var w := Run(Initial(pool), acts); s in w.sessions && w.sessions[s].base.Some?
    ensures var row := Run(Initial(pool), acts).sessions[s].base.value.row;
            && row.Checks()
            && (row.state.Completed? <==> row.finalizedAt.Some?)
            && (row.state.Pending? ==> row.remoteId.None?)
  {
    Reached(pool, acts);
    assert CellInv(Run(Initial(pool), acts), s);
  }

  /** The committed version of `s` is still there, unchanged. */
  ghost predicate BaseKept(w: World, w': World, s: Sid)
    requires s in w.sessions
  {
    s in w'.sessions && w'.sessions[s].base == w.sessions[s].base
  }

  lemma WriteAppliedKeepsBase(w: World, c: Conn, t: Sid, v: Version, r: Result<Session, ApplyError>, ok: Pc, refused: Pc, s: Sid)
    requires c in w.workers && s in w.sessions && t in w.sessions
    ensures BaseKept(w, WriteApplied(w, c, t, v, r, ok, refused), s)
  {
  }

  lemma ApplyKeepsBase(w: World, c: Conn, now: Time, ref: Ref, d: Delta, ok: Pc, refused: Pc, s: Sid)
    requires c in w.workers && s in w.sessions && w.sessions[s].base.Some?
    ensures BaseKept(w, ApplyTo(w, c, now, ref, d, ok, refused), s)
  {
    if !Allowed(ref.row.state, d.state) {
    } else if !RowFree(w, c, ref.sid) {
    } else if Sees(w, c, ref.sid).None? {
    } else {
      var v := Sees(w, c, ref.sid).value;
      WriteAppliedKeepsBase(w, c, ref.sid, v, Apply(v.row, ref.row.state, d, now), ok, refused, s);
    }
  }

  lemma UserMessageKeepsBase(w: World, c: Conn, e: Event, s: Sid)
    requires c in w.workers && s in w.sessions && w.sessions[s].base.Some?
    ensures BaseKept(w, StepUserMessage(w, c, e), s) && BaseKept(w, StepIdle(w, c, e), s)
  {
  }

  lemma RequestKeepsBase(w: World, c: Conn, now: Time, e: Event, s: Sid)
    requires c in w.workers && s in w.sessions && w.sessions[s].base.Some?
    ensures BaseKept(w, StepRouting(w, c, now, e), s) && BaseKept(w, StepRetire(w, c, now, e), s)
  {
  }

  lemma OpenForKeepsBase(w: World, c: Conn, now: Time, e: Event, s: Sid)
    requires c in w.workers && s in w.sessions && w.sessions[s].base.Some?
    requires !w.workers[c].pc.ReadyToCommit?
    ensures BaseKept(w, StepOpenFor(w, c, now, e), s)
  {
  }

  lemma FinalizeKeepsBase(w: World, c: Conn, now: Time, e: Event, s: Sid)
    requires c in w.workers && s in w.sessions && w.sessions[s].base.Some?
    ensures BaseKept(w, StepFinalize(w, c, now, e), s)
  {
    match w.workers[c].pc
    case CallFailed(t, o, mitra, why) =>
      if Sees(w, c, t).Some? {
        ApplyKeepsBase(w, c, now, Ref(t, Sees(w, c, t).value.row), FailedDelta(why),
                       FinalizeRaised(o, mitra), FinalizeRaised(o, false), s);
      }
    case CallDone(t, o, story) =>
      if Sees(w, c, t).Some? {
        ApplyKeepsBase(w, c, now, Ref(t, Sees(w, c, t).value.row),
                       StoryDelta(story, if e.Reported? then Some(e.url) else None), Closing(t, o), FinalizeRaised(o, false), s);
      }
    case _ =>
  }

  lemma HandlerKeepsBase(w: World, c: Conn, now: Time, e: Event, s: Sid)
    requires c in w.workers && s in w.sessions && w.sessions[s].base.Some?
    ensures BaseKept(w, StepHandler(w, c, now, e), s) && BaseKept(w, StepResume(w, c, now, e), s)
  {
    match w.workers[c].pc
    case Handled(sess, delta, terminal) =>
      if sess.Some? && delta.Some? {
        var t := sess.value.sid;
        ApplyKeepsBase(w, c, now, sess.value, delta.value,
                       if terminal then ToFinalize(t, InTurn) else Replying(Some(t)), Unlocking, s);
      }
    case ResumeRecorded(ref) =>
      ApplyKeepsBase(w, c, now, ref, OnlyState(AwaitingUser), Ending(false), Ending(true), s);
    case _ =>
  }

  lemma RequestAges(w: World, a: Action, s: Sid)
    requires s in w.sessions && w.sessions[s].base.Some? && a.conn in w.workers && !a.event.Crash?
    requires var pc := w.workers[a.conn].pc;
             || pc.Idle? || pc.ChatOpened? || pc.Locked? || pc.Numbered?
             || pc.Recorded? || pc.Exiting? || pc.ExitUnpin? || pc.Retiring? || pc.RetireUnpin?
    ensures BaseAged(w, Step(w, a), s)
  {
    UserMessageKeepsBase(w, a.conn, a.event, s);
    RequestKeepsBase(w, a.conn, a.now, a.event, s);
  }

  lemma OpenForAges(w: World, a: Action, s: Sid)
    requires s in w.sessions && CellInv(w, s) && w.sessions[s].base.Some?
    requires a.conn in w.workers && !a.event.Crash?
    requires var pc := w.workers[a.conn].pc;
             || pc.Routed? || pc.Displacing? || pc.DisplaceUnpin? || pc.Vacant? || pc.Attached? || pc.ReadyToCommit?
    ensures BaseAged(w, Step(w, a), s)
  {
    if w.workers[a.conn].pc.ReadyToCommit? {
      CommitAges(w, a.conn, s);
    } else {
      OpenForKeepsBase(w, a.conn, a.now, a.event, s);
    }
  }

  lemma HandlerAges(w: World, a: Action, s: Sid)
    requires s in w.sessions && w.sessions[s].base.Some? && a.conn in w.workers && !a.event.Crash?
    requires var pc := w.workers[a.conn].pc;
             pc.InHandler? || pc.Handled? || pc.ResumeOpened? || pc.ResumeNumbered? || pc.ResumeRecorded?
    ensures BaseAged(w, Step(w, a), s)
  {
    HandlerKeepsBase(w, a.conn, a.now, a.event, s);
  }

  lemma FinalizeAges(w: World, a: Action, s: Sid)
    requires s in w.sessions && w.sessions[s].base.Some? && a.conn in w.workers && !a.event.Crash?
    requires var pc := w.workers[a.conn].pc;
             pc.ToFinalize? || pc.Claimed? || pc.CallFailed? || pc.CallDone? || pc.Closing?
    ensures BaseAged(w, Step(w, a), s)
  {
    FinalizeKeepsBase(w, a.conn, a.now, a.event, s);
  }

  lemma StepAges(w: World, a: Action, s: Sid)
    requires s in w.sessions && CellInv(w, s) && w.sessions[s].base.Some?
    ensures BaseAged(w, Step(w, a), s)
  {
    var pc := PcOf(w, a.conn);
    if a.conn !in w.workers || a.event.Crash? {
    } else if pc.Routed? || pc.Displacing? || pc.DisplaceUnpin? || pc.Vacant? || pc.Attached? || pc.ReadyToCommit? {
      OpenForAges(w, a, s);
    } else if pc.InHandler? || pc.Handled? || pc.ResumeOpened? || pc.ResumeNumbered? || pc.ResumeRecorded? {
      HandlerAges(w, a, s);
    } else if pc.ToFinalize? || pc.Claimed? || pc.CallFailed? || pc.CallDone? || pc.Closing? {
      FinalizeAges(w, a, s);
    } else if pc.Replying? || pc.ReplyNumbered? || pc.ReplyRecorded? || pc.Unlocking? || pc.Refused? || pc.Ending? || pc.Aborted? {
      ReplyAges(w, a.conn, a.event, s);
    } else {
      RequestAges(w, a, s);
    }
  }

  ghost predicate BaseAged(w: World, w': World, s: Sid)
    requires s in w.sessions && w.sessions[s].base.Some?
  {
    && s in w'.sessions && w'.sessions[s].base.Some?
    && Older(w.sessions[s].base.value.row, w'.sessions[s].base.value.row)
  }

  lemma CommitAges(w: World, c: Conn, s: Sid)
    requires c in w.workers && s in w.sessions && CellInv(w, s) && w.sessions[s].base.Some?
    ensures BaseAged(w, Commit(w, c), s)
  {
  }

  lemma ReplyAges(w: World, c: Conn, e: Event, s: Sid)
    requires c in w.workers && s in w.sessions && CellInv(w, s) && w.sessions[s].base.Some?
    ensures BaseAged(w, StepReply(w, c, e), s)
  {
    if !e.Next? {
    } else {
      match w.workers[c].pc
      case ReplyRecorded => CommitAges(w, c, s);
      case Refused => CommitAges(w, c, s);
      case Ending(raised) =>
        if raised {
        } else {
          CommitAges(w, c, s);
        }
      case _ =>
    }
  }

  /** A committed session never disappears, never steps back in its lifecycle,
      never changes again once terminal, and never changes its agent or a remote
      identity it has been given. */
  lemma {:induction false} SessionsOnlyAge(w: World, acts: seq<Action>, s: Sid)
    requires Inv(w) && s in w.sessions && w.sessions[s].base.Some?
    ensures var w' := Run(w, acts);
            BaseAged(w, w', s)
    decreases |acts|
  {
    if acts != [] {
      StepKeeps(w, acts[0]);
      assert CellInv(w, s);
      StepAges(w, acts[0], s);
      SessionsOnlyAge(Step(w, acts[0]), acts[1..], s);
      OlderTransitive(w.sessions[s].base.value.row, Step(w, acts[0]).sessions[s].base.value.row,
                      Run(w, acts).sessions[s].base.value.row);
    }
  }

  // ------------------------------------------------------------ finalisation

  /** Remote finalize calls for a session exceed the rolled-back claims that made
      them by at most one, and by one exactly when the newest version of the
      session records a call. */
  lemma FinalizeCallsAccounted(pool: set<Conn>, acts: seq<Action>, s: Sid)
    ensures var w := Run(Initial(pool), acts);
            && w.calls[s] == w.undone[s] + (if IsSpent(w, s) then 1 else 0)
            && w.calls[s] <= w.undone[s] + 1
  {
    Reached(pool, acts);
    var w := Run(Initial(pool), acts);
    assert w.calls[s] == w.undone[s] + if IsSpent(w, s) then 1 else 0;
  }

  /** As long as no transaction rolls back after making the call, a session is
      submitted to the remote service at most once. */
  lemma FinalizeAtMostOnce(pool: set<Conn>, acts: seq<Action>, s: Sid)
    requires Run(Initial(pool), acts).undone[s] == 0
    ensures Run(Initial(pool), acts).calls[s] <= 1
  {
    FinalizeCallsAccounted(pool, acts, s);
  }

  /** Claimed for finalisation, or past it by that way. */
  predicate PastClaim(s: State) {
    s.Finalizing? || s.Completed? || s.Failed?
  }

  /** A step makes a claim on `s` durable. */
  predicate CommitsClaim(w: World, w': World, s: Sid) {
    && s in w.sessions && w.sessions[s].base.Some? && !PastClaim(w.sessions[s].base.value.row.state)
    && s in w'.sessions && w'.sessions[s].base.Some? && PastClaim(w'.sessions[s].base.value.row.state)
  }

  function ClaimsCommitted(w: World, acts: seq<Action>, s: Sid): nat
    decreases |acts|
  {
    if acts == [] then 0
    else (if CommitsClaim(w, Step(w, acts[0]), s) then 1 else 0) + ClaimsCommitted(Step(w, acts[0]), acts[1..], s)
  }

  /** A claim on a session commits at most once, over any run whatever rolls back,
      and never again once the session is claimed, failed or retired. */
  lemma {:induction false} ClaimCommitsAtMostOnce(w: World, acts: seq<Action>, s: Sid)
    requires Inv(w)
    ensures ClaimsCommitted(w, acts, s) <=
            if s in w.sessions && w.sessions[s].base.Some? && Rank(w.sessions[s].base.value.row.state) >= 3 then 0 else 1
    decreases |acts|
  {
    if acts != [] {
      StepKeeps(w, acts[0]);
      if s in w.sessions && w.sessions[s].base.Some? {
        assert CellInv(w, s);
        StepAges(w, acts[0], s);
      }
      ClaimCommitsAtMostOnce(Step(w, acts[0]), acts[1..], s);
    }
  }

  /** A call is undone only by a teardown that rolls back: after an exception that
      escapes the route, or after the database aborted the transaction. */
  lemma UndoneOnlyByRollback(pool: set<Conn>, acts: seq<Action>, a: Action)
    requires var w := Run(Initial(pool), acts);
             Step(w, a).undone != w.undone
    ensures var w := Run(Initial(pool), acts);
            && a.conn in w.workers
            && (w.workers[a.conn].pc == Ending(true) || w.workers[a.conn].pc.Aborted?)
            && exists s :: s in w.sessions && Wasted(w.sessions[s], a.conn)
  {
    var w := Run(Initial(pool), acts);
    UndoneNeedsDiscard(w, a);
    var wasted := set s | s in w.sessions && Wasted(w.sessions[s], a.conn);
    assert wasted != {} by {
      assert Step(w, a).undone == w.undone + multiset(wasted);
    }
    var s :| s in wasted;
  }

  lemma UndoneNeedsDiscard(w: World, a: Action)
    requires Step(w, a).undone != w.undone
    ensures a.conn in w.workers && Step(w, a) == Discard(w, a.conn)
    ensures w.workers[a.conn].pc == Ending(true) || w.workers[a.conn].pc.Aborted?
  {
    var c, now, e := a.conn, a.now, a.event;
    if c !in w.workers {
    } else if e.Crash? {
    } else {
      match w.workers[c].pc
      case Aborted(_) =>
      case Ending(_) =>
      case _ => OthersUndoNothing(w, a);
    }
  }

  lemma OthersUndoNothing(w: World, a: Action)
    requires a.conn in w.workers && !a.event.Crash?
    requires !w.workers[a.conn].pc.Ending? && !w.workers[a.conn].pc.Aborted?
    ensures Step(w, a).undone == w.undone
  {
  }

  /** A terminal turn always wins the claim on its own session: the delta it has
      just applied leaves the session claimable and locked by the turn. */
  lemma TerminalTurnWinsItsClaim(pool: set<Conn>, acts: seq<Action>, c: Conn, now: Time)
    requires var w := Run(Initial(pool), acts);
             c in w.workers && w.workers[c].pc.ToFinalize? && w.workers[c].pc.origin.InTurn?
    ensures var w := Run(Initial(pool), acts);
            Step(w, Action(c, now, Next)).workers[c].pc == Claimed(w.workers[c].pc.sid, InTurn)
  {
    Reached(pool, acts);
    assert WorkerInv(Run(Initial(pool), acts), c);
  }

  /** Without that hypothesis the bound is false.  A forced finalise whose report
      fetch raises a non-Mitra error rolls its claim back after the story was
      stored, leaves every row as it was, and can be repeated. */
  lemma RolledBackFinalizeRepeats(w: World, c: Conn, s: Sid, now: Time)
    requires Inv(w) && IdleOn(w, c) && Undisturbed(w, s) && Claimable(w.sessions[s].base.value.row.state)
    ensures var w' := Run(w, RolledBackFinalize(c, s, now));
            && w'.calls[s] == w.calls[s] + 1 && w'.undone[s] == w.undone[s] + 1
            && w'.sessions == w.sessions && w'.conv == w.conv && w'.log == w.log
            && IdleOn(w', c)
  {
    assert WorkerInv(w, c) && CellInv(w, s);
    var acts := RolledBackFinalize(c, s, now);
    RunFive(w, acts);
    var w3 := CallThenRaise(w, c, s, now);
    RollbackRestores(w, w3, c, s, now);
  }

  /** Up to the exception: the claim, the call, and nothing committed. */
  lemma CallThenRaise(w: World, c: Conn, s: Sid, now: Time) returns (w4: World)
    requires IdleOn(w, c) && Undisturbed(w, s) && Claimable(w.sessions[s].base.value.row.state)
    requires WorkerInv(w, c) && VersionOk(w.sessions[s].base.value)
    ensures var acts := RolledBackFinalize(c, s, now);
            w4 == Step(Step(Step(Step(w, acts[0]), acts[1]), acts[2]), acts[3])
    ensures IsCalled(w, w4, c, s)
  {
    var w1 := ForcedStart(w, c, s, now);
    var w2 := ForcedClaim(w1, c, s, now);
    var w3 := ForcedCall(w2, c, s, now);
    w4 := ForcedRaise(w3, c, s, now);
    CalledShape(w, c, s, w2, w3, w4);
  }

  lemma CalledShape(w: World, c: Conn, s: Sid, w2: World, w3: World, w4: World)
    requires IdleOn(w, c) && Undisturbed(w, s) && Claimable(w.sessions[s].base.value.row.state)
    requires var v := w.sessions[s].base.value;
             w2 == SetPc(WriteRow(SetPc(w, c, ToFinalize(s, Forced)), c, s, v.(row := Claim(v.row).value)), c, Claimed(s, Forced))
    requires DirtyBy(w2, c, s) && w3 == SetPc(CallRemote(w2, c, s), c, CallDone(s, Forced, "story"))
    requires w4 == SetPc(w3, c, Ending(true))
    ensures IsCalled(w, w4, c, s)
  {
  }

  lemma ForcedRaise(w3: World, c: Conn, s: Sid, now: Time) returns (w4: World)
    requires c in w3.workers && w3.workers[c].pc == CallDone(s, Forced, "story") && DirtyBy(w3, c, s)
    ensures w4 == Step(w3, Action(c, now, Raise)) == SetPc(w3, c, Ending(true))
  {
    w4 := Step(w3, Action(c, now, Raise));
  }

  lemma ForcedStart(w: World, c: Conn, s: Sid, now: Time) returns (w1: World)
    requires IdleOn(w, c) && Undisturbed(w, s)
    ensures w1 == Step(w, Action(c, now, Finalize(s))) == SetPc(w, c, ToFinalize(s, Forced))
  {
    w1 := Step(w, Action(c, now, Finalize(s)));
  }

  lemma ForcedClaim(w1: World, c: Conn, s: Sid, now: Time) returns (w2: World)
    requires c in w1.workers && w1.workers[c].pc == ToFinalize(s, Forced)
    requires Undisturbed(w1, s) && Claimable(w1.sessions[s].base.value.row.state)
    ensures var v := w1.sessions[s].base.value;
            w2 == Step(w1, Action(c, now, Next))
               == SetPc(WriteRow(w1, c, s, v.(row := Claim(v.row).value)), c, Claimed(s, Forced))
  {
    w2 := Step(w1, Action(c, now, Next));
  }

  lemma ForcedCall(w2: World, c: Conn, s: Sid, now: Time) returns (w3: World)
    requires c in w2.workers && w2.workers[c].pc == Claimed(s, Forced) && DirtyBy(w2, c, s)
    ensures w3 == Step(w2, Action(c, now, StoryStored("story")))
               == SetPc(CallRemote(w2, c, s), c, CallDone(s, Forced, "story"))
  {
    w3 := Step(w2, Action(c, now, StoryStored("story")));
  }

  ghost predicate IsCalled(w: World, w4: World, c: Conn, s: Sid)
    requires IdleOn(w, c) && s in w.sessions
  {
    && w4.workers == w.workers[c := w.workers[c].(pc := Ending(true))]
    && s in w4.sessions && w4.sessions[s].base == w.sessions[s].base
    && w4.sessions == w.sessions[s := w4.sessions[s]]
    && DirtyBy(w4, c, s) && w4.sessions[s].dirty.value.v.spent
    && w4.conv == w.conv && w4.convDirty == w.convDirty && w4.log == w.log
    && w4.calls == w.calls + multiset{s} && w4.undone == w.undone
  }

  lemma RollbackRestores(w: World, w4: World, c: Conn, s: Sid, now: Time)
    requires IdleOn(w, c) && Undisturbed(w, s) && !w.sessions[s].base.value.spent
    requires WorkerInv(w, c) && IsCalled(w, w4, c, s)
    ensures var w' := Step(w4, Action(c, now, Next));
            && w'.calls[s] == w.calls[s] + 1 && w'.undone[s] == w.undone[s] + 1
            && w'.sessions == w.sessions && w'.conv == w.conv && w'.log == w.log
            && IdleOn(w', c)
  {
    var w' := Step(w4, Action(c, now, Next));
    assert w' == Discard(w4, c);
    forall t | t in w4.sessions
      ensures Survives(w4.sessions[t], c) && RollbackCell(w4.sessions[t], c) == w.sessions[t]
      ensures Wasted(w4.sessions[t], c) <==> t == s
    {
      if t != s {
        assert !DirtyBy(w, c, t);
      }
    }
    assert (set t | t in w4.sessions && Wasted(w4.sessions[t], c)) == {s};
  }

  predicate IdleOn(w: World, c: Conn) {
    c in w.workers && w.workers[c].pc.Idle?
  }

  /** Session `s` is committed and no transaction is writing it. */
  predicate Undisturbed(w: World, s: Sid) {
    s in w.sessions && w.sessions[s].dirty.None? && w.sessions[s].base.Some?
  }

  function RolledBackFinalize(c: Conn, s: Sid, now: Time): seq<Action> {
    [Action(c, now, Finalize(s)), Action(c, now, Next), Action(c, now, StoryStored("story")),
     Action(c, now, Raise), Action(c, now, Next)]
  }

  lemma RunFive(w: World, acts: seq<Action>)
    requires |acts| == 5
    ensures Run(w, acts) == Step(Step(Step(Step(Step(w, acts[0]), acts[1]), acts[2]), acts[3]), acts[4])
  {
    var w1 := Step(w, acts[0]);
    var w2 := Step(w1, acts[1]);
    var w3 := Step(w2, acts[2]);
    assert Run(w, acts) == Run(w1, acts[1..]);
    assert acts[1..][0] == acts[1] && acts[1..][1..] == acts[2..];
    assert Run(w1, acts[1..]) == Run(w2, acts[2..]);
    assert acts[2..][0] == acts[2] && acts[2..][1..] == acts[3..];
    assert Run(w2, acts[2..]) == Run(w3, acts[3..]);
    assert acts[3..][0] == acts[3] && acts[3..][1..] == acts[4..];
    assert acts[4..][0] == acts[4] && acts[4..][1..] == [];
    assert Run(w3, acts[3..]) == Run(Step(w3, acts[3]), acts[4..]);
    assert Run(Step(w3, acts[3]), acts[4..]) == Run(Step(Step(w3, acts[3]), acts[4]), []);
  }

  // ------------------------------------------------------------------ resume

  function ResumeRequest(c: Conn, s: Sid, now: Time): seq<Action> {
    [Action(c, now, Resume(s)), Action(c, now, Next), Action(c, now, Next),
     Action(c, now, Next), Action(c, now, Next)]
  }

  /** Resuming is not idempotent.  An answered resume that nothing disturbs adds
      one agent message every time the session can still await the user, and
      changes nothing otherwise. */
  lemma ResumeAppendsEachTime(w: World, c: Conn, s: Sid, now: Time)
    requires Inv(w) && IdleOn(w, c) && w.convDirty.None?
    requires Undisturbed(w, s) && w.sessions[s].base.value.row.remoteId.Some?
    ensures var w' := Run(w, ResumeRequest(c, s, now));
            && IdleOn(w', c) && w'.convDirty.None? && Undisturbed(w', s)
            && (if Allowed(w.sessions[s].base.value.row.state, AwaitingUser)
                then w'.conv.count == w.conv.count + 1
                     && w'.log == w.log[w.conv.count + 1 := AgentMessage(Some(s))]
                     && w'.sessions[s].base.value.row.state.AwaitingUser?
                else w'.conv == w.conv && w'.log == w.log && w'.sessions == w.sessions)
  {
    assert WorkerInv(w, c) && CellInv(w, s) && Dense(w.log.Keys, w.conv.count);
    var n := w.conv.count + 1;
    assert n !in w.log.Keys;
    RunFive(w, ResumeRequest(c, s, now));
    var w3 := ResumeInserts(w, c, s, now);
    ResumeEnds(w, w3, c, s, now);
  }

  ghost predicate IsResumed(w: World, w3: World, c: Conn, s: Sid)
    requires IdleOn(w, c) && Undisturbed(w, s)
  {
    var n := w.conv.count + 1;
    w3 == w.(convDirty := Some(Dirty(c, w.conv.(count := n))),
             workers := w.workers[c := Worker(ResumeRecorded(Ref(s, w.sessions[s].base.value.row)),
                                              map[n := AgentMessage(Some(s))], w.workers[c].leaked)])
  }

  lemma ResumeInserts(w: World, c: Conn, s: Sid, now: Time) returns (w3: World)
    requires IdleOn(w, c) && w.convDirty.None? && WorkerInv(w, c) && w.conv.count + 1 !in w.log
    requires Undisturbed(w, s) && w.sessions[s].base.value.row.remoteId.Some?
    ensures var acts := ResumeRequest(c, s, now);
            w3 == Step(Step(Step(w, acts[0]), acts[1]), acts[2])
    ensures IsResumed(w, w3, c, s)
  {
    var ref := Ref(s, w.sessions[s].base.value.row);
    var n := w.conv.count + 1;
    var w1 := ResumeStarts(w, c, s, now);
    var w2 := Step(w1, Action(c, now, Next));
    assert w2 == SetPc(WriteConv(w1, c, w.conv.(count := n)), c, ResumeNumbered(ref, n));
    w3 := Step(w2, Action(c, now, Next));
    assert w3.workers[c].mine == map[n := AgentMessage(Some(s))];
  }

  lemma ResumeStarts(w: World, c: Conn, s: Sid, now: Time) returns (w1: World)
    requires IdleOn(w, c) && Undisturbed(w, s) && w.sessions[s].base.value.row.remoteId.Some?
    ensures w1 == Step(w, Action(c, now, Resume(s)))
               == SetPc(w, c, ResumeOpened(Ref(s, w.sessions[s].base.value.row)))
  {
    w1 := Step(w, Action(c, now, Resume(s)));
  }

  lemma ResumeEnds(w: World, w3: World, c: Conn, s: Sid, now: Time)
    requires IdleOn(w, c) && w.convDirty.None? && WorkerInv(w, c) && w.conv.count + 1 !in w.log
    requires Undisturbed(w, s) && w.sessions[s].base.value.row.Fits() && w.sessions[s].base.value.row.remoteId.Some?
    requires IsResumed(w, w3, c, s)
    ensures var w' := Step(Step(w3, Action(c, now, Next)), Action(c, now, Next));
            && IdleOn(w', c) && w'.convDirty.None? && Undisturbed(w', s)
            && (if Allowed(w.sessions[s].base.value.row.state, AwaitingUser)
                then w'.conv.count == w.conv.count + 1
                     && w'.log == w.log[w.conv.count + 1 := AgentMessage(Some(s))]
                     && w'.sessions[s].base.value.row.state.AwaitingUser?
                else w'.conv == w.conv && w'.log == w.log && w'.sessions == w.sessions)
  {
    var row := w.sessions[s].base.value.row;
    var w4 := Step(w3, Action(c, now, Next));
    if Allowed(row.state, AwaitingUser) {
      ResumeApplies(w3, c, s, now, row);
      ResumeCommits(w, w4, c, s, now);
    } else {
      assert w4 == SetPc(w3, c, Ending(true));
      ResumeDiscards(w, w4, c, s, now);
    }
  }

  lemma ResumeCommits(w: World, w4: World, c: Conn, s: Sid, now: Time)
    requires IdleOn(w, c) && Undisturbed(w, s) && c in w4.workers && w4.workers[c].pc == Ending(false)
    requires var n := w.conv.count + 1;
             && w4.workers[c].mine == map[n := AgentMessage(Some(s))]
             && w4.log == w.log && w4.conv == w.conv
             && w4.convDirty == Some(Dirty(c, w.conv.(count := n)))
    requires s in w4.sessions && DirtyBy(w4, c, s) && w4.sessions[s].dirty.value.v.row.state.AwaitingUser?
    ensures var w' := Step(w4, Action(c, now, Next));
            && IdleOn(w', c) && w'.convDirty.None? && Undisturbed(w', s)
            && w'.conv.count == w.conv.count + 1
            && w'.log == w.log[w.conv.count + 1 := AgentMessage(Some(s))]
            && w'.sessions[s].base.value.row.state.AwaitingUser?
  {
    var w5 := Step(w4, Action(c, now, Next));
    assert w5 == SetPc(Commit(w4, c), c, Idle);
    var n := w.conv.count + 1;
    assert w5.log == w.log + map[n := AgentMessage(Some(s))];
  }

  lemma ResumeDiscards(w: World, w4: World, c: Conn, s: Sid, now: Time)
    requires IdleOn(w, c) && WorkerInv(w, c) && Undisturbed(w, s)
    requires c in w4.workers && w4.workers[c].pc == Ending(true)
    requires w4.log == w.log && w4.conv == w.conv && HasConv(w4, c) && w4.sessions == w.sessions
    ensures var w' := Step(w4, Action(c, now, Next));
            && IdleOn(w', c) && w'.convDirty.None? && Undisturbed(w', s)
            && w'.conv == w.conv && w'.log == w.log && w'.sessions == w.sessions
  {
    var w5 := Step(w4, Action(c, now, Next));
    assert w5 == Discard(w4, c);
    forall t | t in w4.sessions ensures Survives(w4.sessions[t], c) && RollbackCell(w4.sessions[t], c) == w.sessions[t] {
      assert !DirtyBy(w, c, t);
    }
    assert w5.sessions == w.sessions;
  }

  lemma ResumeApplies(w3: World, c: Conn, s: Sid, now: Time, row: Session)
    requires c in w3.workers && w3.workers[c].pc == ResumeRecorded(Ref(s, row))
    requires Undisturbed(w3, s) && w3.sessions[s].base.value.row == row
    requires row.Fits() && row.remoteId.Some? && Allowed(row.state, AwaitingUser)
    ensures var v := w3.sessions[s].base.value;
            Step(w3, Action(c, now, Next))
            == SetPc(WriteRow(w3, c, s, v.(row := Applied(row, OnlyState(AwaitingUser), now))), c, Ending(false))
  {
    ApplyOutcome(row, row.state, OnlyState(AwaitingUser), now);
  }
}
