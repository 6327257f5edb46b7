/** What undisturbed requests come to, committed: an ordinary turn, a
    finalisation forced or at the end of a terminal turn, an exit, a retirement.
    Each is a run of one connection, from any state the protocol can reach in
    which nobody else holds what it needs; its last world is written out. */
module TurnOutcomes {
  import opened Prelude
  import opened SessionLifecycle
  import opened TurnProtocol
  import opened TurnInvariant
  import opened TurnSafety

  // ------------------------------------------------------------- the scenes

  /** What one connection, alone at work, has changed and not committed: its
      position, its messages, the conversation row and the row of one session; and
      the turn lock and the remote calls. */
  datatype Work = Work(
    pc: Pc,
    mine: map<nat, Message>,
    conv: Option<Conv>,
    row: Option<Version>,
    lock: Option<Hold>,
    calls: multiset<Sid>)

  /** Connection `c` has written nothing, session `s` is committed, nobody holds the
      conversation row. */
  ghost predicate Calm(w: World, c: Conn, s: Sid) {
    && c in w.workers && w.workers[c].mine == map[] && w.convDirty.None? && Undisturbed(w, s)
    && forall t {:trigger DirtyBy(w, c, t)} :: !DirtyBy(w, c, t)
  }

  function Owned<V>(c: Conn, v: Option<V>): Option<Dirty<V>> {
    if v.Some? then Some(Dirty(c, v.value)) else None
  }

  function Scene(w: World, c: Conn, s: Sid, x: Work): World
    requires c in w.workers && s in w.sessions
  {
    w.(convDirty := Owned(c, x.conv),
       sessions := w.sessions[s := Cell(w.sessions[s].base, Owned(c, x.row))],
       workers := w.workers[c := Worker(x.pc, x.mine, w.workers[c].leaked)],
       lock := x.lock, calls := x.calls)
  }

  function ConvIn(w: World, x: Work): Conv {
    if x.conv.Some? then x.conv.value else w.conv
  }

  function RowIn(w: World, s: Sid, x: Work): Option<Version>
    requires s in w.sessions
  {
    if x.row.Some? then x.row else w.sessions[s].base
  }

  /** `w` once `c` has committed that. */
  function Settled(w: World, s: Sid, x: Work): World
    requires s in w.sessions
  {
    w.(conv := ConvIn(w, x), sessions := w.sessions[s := Cell(RowIn(w, s, x), None)], log := w.log + x.mine)
  }

  function AtRest(pc: Pc, x: Work): Work {
    Work(pc, map[], None, None, x.lock, x.calls)
  }

  /** One action takes `x` to `y`. */
  ghost predicate Leads(w: World, c: Conn, s: Sid, x: Work, a: Action, y: Work)
    requires c in w.workers && s in w.sessions
  {
    Step(Scene(w, c, s, x), a) == Scene(w, c, s, y)
  }

  lemma SceneOf(w: World, c: Conn, s: Sid)
    requires Calm(w, c, s)
    ensures w == Scene(w, c, s, Work(w.workers[c].pc, map[], None, None, w.lock, w.calls))
  {
    assert w.sessions[s := w.sessions[s]] == w.sessions;
    assert w.workers[c := w.workers[c]] == w.workers;
  }

  lemma SceneViews(w: World, c: Conn, s: Sid, x: Work)
    requires c in w.workers && s in w.sessions
    ensures var z := Scene(w, c, s, x);
            && Sees(z, c, s) == RowIn(w, s, x) && ConvOf(z, c) == ConvIn(w, x)
            && ConvFree(z, c) && RowFree(z, c, s) && z.workers[c].pc == x.pc && z.workers[c].mine == x.mine
  {
  }

  lemma SceneMoves(w: World, c: Conn, s: Sid, x: Work, next: Pc)
    requires c in w.workers && s in w.sessions
    ensures SetPc(Scene(w, c, s, x), c, next) == Scene(w, c, s, x.(pc := next))
  {
    assert SetPc(Scene(w, c, s, x), c, next).workers == w.workers[c := Worker(next, x.mine, w.workers[c].leaked)];
  }

  lemma SceneWrites(w: World, c: Conn, s: Sid, x: Work, v: Version, next: Pc)
    requires c in w.workers && s in w.sessions
    ensures WriteRow(Scene(w, c, s, x), c, s, v) == Scene(w, c, s, x.(row := Some(v)))
    ensures SetPc(WriteRow(Scene(w, c, s, x), c, s, v), c, next) == Scene(w, c, s, x.(pc := next, row := Some(v)))
  {
    assert WriteRow(Scene(w, c, s, x), c, s, v).sessions == w.sessions[s := Cell(w.sessions[s].base, Some(Dirty(c, v)))];
    SceneMoves(w, c, s, x.(row := Some(v)), next);
  }

  lemma SceneWritesConv(w: World, c: Conn, s: Sid, x: Work, k: Conv, next: Pc)
    requires c in w.workers && s in w.sessions
    ensures SetPc(WriteConv(Scene(w, c, s, x), c, k), c, next) == Scene(w, c, s, x.(pc := next, conv := Some(k)))
  {
    assert WriteConv(Scene(w, c, s, x), c, k) == Scene(w, c, s, x.(conv := Some(k)));
    SceneMoves(w, c, s, x.(conv := Some(k)), next);
  }

  lemma SceneSays(w: World, c: Conn, s: Sid, x: Work, n: nat, m: Message, next: Pc)
    requires c in w.workers && s in w.sessions && x.mine == map[]
    ensures SetPc(AddMessage(Scene(w, c, s, x), c, n, m), c, next) == Scene(w, c, s, x.(pc := next, mine := map[n := m]))
  {
    assert x.mine[n := m] == map[n := m];
    assert SetPc(AddMessage(Scene(w, c, s, x), c, n, m), c, next).workers
        == w.workers[c := Worker(next, map[n := m], w.workers[c].leaked)];
  }

  lemma SceneCommits(w: World, c: Conn, s: Sid, x: Work, next: Pc)
    requires Calm(w, c, s)
    ensures Calm(Settled(w, s, x), c, s)
    ensures SetPc(Commit(Scene(w, c, s, x), c), c, next) == Scene(Settled(w, s, x), c, s, AtRest(next, x))
  {
    var z, u := Scene(w, c, s, x), Settled(w, s, x);
    forall t | t in w.sessions ensures CommitCell(z.sessions[t], c) == u.sessions[t] {
      assert !DirtyBy(w, c, t);
    }
    assert Commit(z, c).sessions == u.sessions;
    assert Scene(u, c, s, AtRest(next, x)).sessions == u.sessions;
    assert SetPc(Commit(z, c), c, next).workers == w.workers[c := Worker(next, map[], w.workers[c].leaked)];
    forall t ensures !DirtyBy(u, c, t) {
      assert !DirtyBy(w, c, t);
    }
  }

  lemma TwoSteps(w: World, c: Conn, s: Sid, x: Work, a: Action, y: Work, b: Action, z: Work)
    requires c in w.workers && s in w.sessions && Leads(w, c, s, x, a, y) && Leads(w, c, s, y, b, z)
    ensures Run(Scene(w, c, s, x), [a, b]) == Scene(w, c, s, z)
  {
    RunOne(Scene(w, c, s, x), a);
    RunOne(Scene(w, c, s, y), b);
    RunAppend(Scene(w, c, s, x), [a], [b]);
  }

  lemma {:induction false} RunAppend(w: World, a: seq<Action>, b: seq<Action>)
    ensures Run(w, a + b) == Run(Run(w, a), b)
    decreases |a|
  {
    if a == [] {
      assert a + b == b;
    } else {
      assert (a + b)[0] == a[0] && (a + b)[1..] == a[1..] + b;
      RunAppend(Step(w, a[0]), a[1..], b);
    }
  }

  lemma Joins(w: World, a: seq<Action>, u: World, b: seq<Action>, z: World)
    requires Run(w, a) == u && Run(u, b) == z
    ensures Run(w, a + b) == z
  {
    RunAppend(w, a, b);
  }

  lemma RunOne(w: World, a: Action)
    ensures Run(w, [a]) == Step(w, a)
  {
    assert Run(Step(w, a), [a][1..]) == Step(w, a);
  }

  /** An idle connection of a reachable state is calm, and the next two numbers are free. */
  lemma IdleIsCalm(w: World, c: Conn, s: Sid)
    requires Inv(w) && IdleOn(w, c) && w.convDirty.None? && Undisturbed(w, s)
    ensures Calm(w, c, s) && w.sessions[s].base.value.row.Fits()
    ensures w.conv.count + 1 !in w.log && w.conv.count + 2 !in w.log
    ensures BaseOpen(w, s) ==> forall t | t != s :: !BaseOpen(w, t)
  {
    assert WorkerInv(w, c) && CellInv(w, s);
    assert Dense(w.log.Keys, w.conv.count);
    assert w.conv.count + 1 !in w.log.Keys && w.conv.count + 2 !in w.log.Keys;
  }

  // ---------------------------------------------------- finalisation, stepwise

  /** The row as completion leaves it. */
  function CompletedRow(row: Session, story: string, url: Option<string>, now: Time): Session {
    row.(state := Completed, resultRef := Some(story), reportUrl := if url.Some? then url else row.reportUrl,
         turnCount := row.turnCount + 1, lastActivity := now, finalizedAt := Some(now), endedAt := Some(now))
  }

  /** The row as a failed call leaves it. */
  function FailedRow(row: Session, why: string, now: Time): Session {
    row.(state := Failed, error := Some(why), turnCount := row.turnCount + 1, lastActivity := now, endedAt := Some(now))
  }

  lemma ClaimStep(w: World, c: Conn, s: Sid, x: Work, o: Origin, v: Version, now: Time)
    requires c in w.workers && s in w.sessions && x.pc == ToFinalize(s, o)
    requires RowIn(w, s, x) == Some(v) && Claimable(v.row.state)
    ensures Leads(w, c, s, x, Action(c, now, Next), x.(pc := Claimed(s, o), row := Some(v.(row := v.row.(state := Finalizing)))))
  {
    SceneViews(w, c, s, x);
    SceneWrites(w, c, s, x, v.(row := v.row.(state := Finalizing)), Claimed(s, o));
  }

  /** The call is made: its story is stored, or it fails. */
  lemma CallStep(w: World, c: Conn, s: Sid, x: Work, o: Origin, now: Time, story: string, mitra: bool, why: string)
    requires c in w.workers && s in w.sessions && x.pc == Claimed(s, o) && x.row.Some?
    ensures var y := x.(row := Some(x.row.value.(spent := true)), calls := x.calls + multiset{s});
            && Leads(w, c, s, x, Action(c, now, StoryStored(story)), y.(pc := CallDone(s, o, story)))
            && Leads(w, c, s, x, Action(c, now, StoryFailed(mitra, why)), y.(pc := CallFailed(s, o, mitra, why)))
  {
    var y := x.(row := Some(x.row.value.(spent := true)), calls := x.calls + multiset{s});
    SceneViews(w, c, s, x);
    SceneWrites(w, c, s, x, y.row.value, x.pc);
    assert CallRemote(Scene(w, c, s, x), c, s) == Scene(w, c, s, y);
    SceneMoves(w, c, s, y, CallDone(s, o, story));
    SceneMoves(w, c, s, y, CallFailed(s, o, mitra, why));
  }

  lemma FailStep(w: World, c: Conn, s: Sid, x: Work, o: Origin, mitra: bool, why: string, v: Version, now: Time)
    requires c in w.workers && s in w.sessions && x.pc == CallFailed(s, o, mitra, why)
    requires x.row == Some(v) && v.row.Fits() && v.row.state.Finalizing?
    ensures Leads(w, c, s, x, Action(c, now, Next),
                  x.(pc := FinalizeRaised(o, mitra), row := Some(v.(row := FailedRow(v.row, why, now)))))
  {
    ApplyOutcome(v.row, v.row.state, FailedDelta(why), now);
    assert Apply(v.row, v.row.state, FailedDelta(why), now) == Ok(FailedRow(v.row, why, now));
    SceneViews(w, c, s, x);
    SceneWrites(w, c, s, x, v.(row := FailedRow(v.row, why, now)), FinalizeRaised(o, mitra));
  }

  /** Asking for the report: it has an address, or there is none yet. */
  function Fetched(url: Option<string>): Event {
    if url.Some? then Reported(url.value) else Next
  }

  lemma CompletedIs(row: Session, story: string, url: Option<string>, now: Time)
    requires row.Fits() && row.state.Finalizing?
    ensures Apply(row, row.state, StoryDelta(story, url), now) == Ok(CompletedRow(row, story, url, now))
  {
    ApplyOutcome(row, row.state, StoryDelta(story, url), now);
  }

  lemma CompleteStep(w: World, c: Conn, s: Sid, x: Work, o: Origin, story: string, url: Option<string>, v: Version, now: Time)
    requires c in w.workers && s in w.sessions && x.pc == CallDone(s, o, story)
    requires x.row == Some(v) && v.row.Fits() && v.row.state.Finalizing?
    ensures Leads(w, c, s, x, Action(c, now, Fetched(url)),
                  x.(pc := Closing(s, o), row := Some(v.(row := CompletedRow(v.row, story, url, now)))))
  {
    CompletedIs(v.row, story, url, now);
    SceneViews(w, c, s, x);
    SceneWrites(w, c, s, x, v.(row := CompletedRow(v.row, story, url, now)), Closing(s, o));
  }

  lemma CloseStep(w: World, c: Conn, s: Sid, x: Work, o: Origin, now: Time)
    requires c in w.workers && s in w.sessions && x.pc == Closing(s, o)
    ensures Leads(w, c, s, x, Action(c, now, Next),
                  x.(pc := AfterFinalize(s, o), conv := Some(ConvIn(w, x).(pin := None))))
  {
    SceneViews(w, c, s, x);
    SceneWritesConv(w, c, s, x, ConvIn(w, x).(pin := None), AfterFinalize(s, o));
  }

  /** The work once the claim is won and the call made. */
  function Called(s: Sid, x: Work, v: Version, next: Pc): Work {
    x.(pc := next, row := Some(Version(v.row.(state := Finalizing), true)), calls := x.calls + multiset{s})
  }

  lemma CallRuns(w: World, c: Conn, s: Sid, x: Work, o: Origin, v: Version, story: string, mitra: bool, why: string, now: Time)
    requires c in w.workers && s in w.sessions && x.pc == ToFinalize(s, o)
    requires RowIn(w, s, x) == Some(v) && Claimable(v.row.state)
    ensures Run(Scene(w, c, s, x), [Action(c, now, Next), Action(c, now, StoryStored(story))])
         == Scene(w, c, s, Called(s, x, v, CallDone(s, o, story)))
    ensures Run(Scene(w, c, s, x), [Action(c, now, Next), Action(c, now, StoryFailed(mitra, why))])
         == Scene(w, c, s, Called(s, x, v, CallFailed(s, o, mitra, why)))
  {
    var x1 := x.(pc := Claimed(s, o), row := Some(v.(row := v.row.(state := Finalizing))));
    ClaimStep(w, c, s, x, o, v, now);
    CallStep(w, c, s, x1, o, now, story, mitra, why);
    TwoSteps(w, c, s, x, Action(c, now, Next), x1, Action(c, now, StoryStored(story)), Called(s, x, v, CallDone(s, o, story)));
    TwoSteps(w, c, s, x, Action(c, now, Next), x1, Action(c, now, StoryFailed(mitra, why)), Called(s, x, v, CallFailed(s, o, mitra, why)));
  }

  lemma FailedRuns(w: World, c: Conn, s: Sid, x: Work, o: Origin, mitra: bool, why: string, v: Version, now: Time)
    requires c in w.workers && s in w.sessions && x.pc == CallFailed(s, o, mitra, why)
    requires x.row == Some(v) && v.row.Fits() && v.row.state.Finalizing?
    ensures Run(Scene(w, c, s, x), [Action(c, now, Next)])
         == Scene(w, c, s, x.(pc := FinalizeRaised(o, mitra), row := Some(v.(row := FailedRow(v.row, why, now)))))
  {
    FailStep(w, c, s, x, o, mitra, why, v, now);
    RunOne(Scene(w, c, s, x), Action(c, now, Next));
  }

  lemma CompletedRuns(w: World, c: Conn, s: Sid, x: Work, o: Origin, story: string, url: Option<string>, v: Version, now: Time)
    requires c in w.workers && s in w.sessions && x.pc == CallDone(s, o, story)
    requires x.row == Some(v) && v.row.Fits() && v.row.state.Finalizing?
    ensures Run(Scene(w, c, s, x), [Action(c, now, Fetched(url)), Action(c, now, Next)])
         == Scene(w, c, s, x.(pc := AfterFinalize(s, o), conv := Some(ConvIn(w, x).(pin := None)),
                              row := Some(v.(row := CompletedRow(v.row, story, url, now)))))
  {
    var x1 := x.(pc := Closing(s, o), row := Some(v.(row := CompletedRow(v.row, story, url, now))));
    CompleteStep(w, c, s, x, o, story, url, v, now);
    CloseStep(w, c, s, x1, o, now);
    TwoSteps(w, c, s, x, Action(c, now, Fetched(url)), x1, Action(c, now, Next),
             x1.(pc := AfterFinalize(s, o), conv := Some(ConvIn(w, x).(pin := None))));
  }

  function FailureActs(c: Conn, mitra: bool, why: string, now: Time): seq<Action> {
    [Action(c, now, Next), Action(c, now, StoryFailed(mitra, why))] + [Action(c, now, Next)]
  }

  function CompletionActs(c: Conn, story: string, url: Option<string>, now: Time): seq<Action> {
    [Action(c, now, Next), Action(c, now, StoryStored(story))] + [Action(c, now, Fetched(url)), Action(c, now, Next)]
  }

  function Broken(s: Sid, x: Work, o: Origin, v: Version, mitra: bool, why: string, now: Time): Work {
    x.(pc := FinalizeRaised(o, mitra), row := Some(Version(FailedRow(v.row, why, now), true)), calls := x.calls + multiset{s})
  }

  lemma BrokenIs(s: Sid, x: Work, o: Origin, v: Version, mitra: bool, why: string, now: Time)
    ensures var y := Called(s, x, v, CallFailed(s, o, mitra, why));
            y.(pc := FinalizeRaised(o, mitra), row := Some(y.row.value.(row := FailedRow(y.row.value.row, why, now))))
            == Broken(s, x, o, v, mitra, why, now)
  {
  }

  /** A claimed session whose call fails is failed and ended, wherever the request
      that finalises it comes from. */
  lemma FailureRuns(w: World, c: Conn, s: Sid, x: Work, o: Origin, v: Version, mitra: bool, why: string, now: Time)
    requires c in w.workers && s in w.sessions && x.pc == ToFinalize(s, o)
    requires RowIn(w, s, x) == Some(v) && v.row.Fits() && Claimable(v.row.state)
    ensures Run(Scene(w, c, s, x), FailureActs(c, mitra, why, now)) == Scene(w, c, s, Broken(s, x, o, v, mitra, why, now))
  {
    var y := Called(s, x, v, CallFailed(s, o, mitra, why));
    CallRuns(w, c, s, x, o, v, "", mitra, why, now);
    FailedRuns(w, c, s, y, o, mitra, why, y.row.value, now);
    BrokenIs(s, x, o, v, mitra, why, now);
    Joins(Scene(w, c, s, x), [Action(c, now, Next), Action(c, now, StoryFailed(mitra, why))], Scene(w, c, s, y), [Action(c, now, Next)],
          Scene(w, c, s, Broken(s, x, o, v, mitra, why, now)));
  }

  function Finished(w: World, s: Sid, x: Work, o: Origin, v: Version, story: string, url: Option<string>, now: Time): Work {
    x.(pc := AfterFinalize(s, o), conv := Some(ConvIn(w, x).(pin := None)),
       row := Some(Version(CompletedRow(v.row, story, url, now), true)), calls := x.calls + multiset{s})
  }

  lemma FinishedIs(w: World, s: Sid, x: Work, o: Origin, v: Version, story: string, url: Option<string>, now: Time)
    ensures var y := Called(s, x, v, CallDone(s, o, story));
            y.(pc := AfterFinalize(s, o), conv := Some(ConvIn(w, y).(pin := None)),
               row := Some(y.row.value.(row := CompletedRow(y.row.value.row, story, url, now))))
            == Finished(w, s, x, o, v, story, url, now)
  {
  }

  /** One whose call succeeds is completed with its story, and the pin is cleared. */
  lemma CompletionRuns(w: World, c: Conn, s: Sid, x: Work, o: Origin, v: Version, story: string, url: Option<string>, now: Time)
    requires c in w.workers && s in w.sessions && x.pc == ToFinalize(s, o)
    requires RowIn(w, s, x) == Some(v) && v.row.Fits() && Claimable(v.row.state)
    ensures Run(Scene(w, c, s, x), CompletionActs(c, story, url, now)) == Scene(w, c, s, Finished(w, s, x, o, v, story, url, now))
  {
    var y := Called(s, x, v, CallDone(s, o, story));
    CallRuns(w, c, s, x, o, v, story, true, "", now);
    CompletedRuns(w, c, s, y, o, story, url, y.row.value, now);
    FinishedIs(w, s, x, o, v, story, url, now);
    Joins(Scene(w, c, s, x), [Action(c, now, Next), Action(c, now, StoryStored(story))], Scene(w, c, s, y),
          [Action(c, now, Fetched(url)), Action(c, now, Next)], Scene(w, c, s, Finished(w, s, x, o, v, story, url, now)));
  }

  // -------------------------------------------------------- ending a request

  lemma EndRuns(w: World, c: Conn, s: Sid, x: Work, now: Time)
    requires Calm(w, c, s) && x.pc == Ending(false)
    ensures Run(Scene(w, c, s, x), [Action(c, now, Next)]) == Scene(Settled(w, s, x), c, s, AtRest(Idle, x))
  {
    SceneCommits(w, c, s, x, Idle);
    RunOne(Scene(w, c, s, x), Action(c, now, Next));
  }

  /** Giving the turn lock back ends the turn. */
  lemma UnlockRuns(w: World, c: Conn, s: Sid, x: Work, now: Time)
    requires Calm(w, c, s) && x.pc == Unlocking && x.lock == Some(Hold(c, 1))
    ensures Run(Scene(w, c, s, x), [Action(c, now, Next), Action(c, now, Next)])
         == Scene(Settled(w, s, x), c, s, AtRest(Idle, x).(lock := None))
  {
    var y := x.(pc := Ending(false), lock := None);
    SceneMoves(w, c, s, x, Ending(false));
    assert Leads(w, c, s, x, Action(c, now, Next), y);
    RunOne(Scene(w, c, s, x), Action(c, now, Next));
    EndRuns(w, c, s, y, now);
    RunAppend(Scene(w, c, s, x), [Action(c, now, Next)], [Action(c, now, Next)]);
  }

  lemma NumberStep(w: World, c: Conn, s: Sid, x: Work, now: Time)
    requires c in w.workers && s in w.sessions && x.pc == Replying(Some(s))
    ensures var k := ConvIn(w, x);
            Leads(w, c, s, x, Action(c, now, Next),
                  x.(pc := ReplyNumbered(Some(s), k.count + 1), conv := Some(k.(count := k.count + 1))))
  {
    var k := ConvIn(w, x);
    SceneViews(w, c, s, x);
    SceneWritesConv(w, c, s, x, k.(count := k.count + 1), ReplyNumbered(Some(s), k.count + 1));
  }

  lemma InsertStep(w: World, c: Conn, s: Sid, x: Work, n: nat, now: Time)
    requires c in w.workers && s in w.sessions && x.pc == ReplyNumbered(Some(s), n) && x.mine == map[] && n !in w.log
    ensures Leads(w, c, s, x, Action(c, now, Next), x.(pc := ReplyRecorded, mine := map[n := AgentMessage(Some(s))]))
  {
    SceneViews(w, c, s, x);
    SceneSays(w, c, s, x, n, AgentMessage(Some(s)), ReplyRecorded);
  }

  /** The work once the agent's message is in. */
  function Replied(w: World, s: Sid, x: Work): Work {
    var k := ConvIn(w, x);
    x.(pc := ReplyRecorded, mine := map[k.count + 1 := AgentMessage(Some(s))], conv := Some(k.(count := k.count + 1)))
  }

  lemma ReplyRuns(w: World, c: Conn, s: Sid, x: Work, now: Time)
    requires c in w.workers && s in w.sessions && x.pc == Replying(Some(s)) && x.mine == map[] && ConvIn(w, x).count + 1 !in w.log
    ensures Run(Scene(w, c, s, x), [Action(c, now, Next), Action(c, now, Next)]) == Scene(w, c, s, Replied(w, s, x))
  {
    var k := ConvIn(w, x);
    var x1 := x.(pc := ReplyNumbered(Some(s), k.count + 1), conv := Some(k.(count := k.count + 1)));
    NumberStep(w, c, s, x, now);
    InsertStep(w, c, s, x1, k.count + 1, now);
    TwoSteps(w, c, s, x, Action(c, now, Next), x1, Action(c, now, Next), Replied(w, s, x));
  }

  lemma ReplyCommits(w: World, c: Conn, s: Sid, z: Work, now: Time)
    requires Calm(w, c, s) && z.pc == ReplyRecorded
    ensures Calm(Settled(w, s, z), c, s)
    ensures Run(Scene(w, c, s, z), [Action(c, now, Next)]) == Scene(Settled(w, s, z), c, s, AtRest(Unlocking, z))
  {
    SceneCommits(w, c, s, z, Unlocking);
    RunOne(Scene(w, c, s, z), Action(c, now, Next));
  }

  /** From its last commit to its end a turn only gives the lock back. */
  function Closed(w: World, c: Conn, s: Sid, z: Work): World
    requires c in w.workers && s in w.sessions
  {
    w.(conv := ConvIn(w, z), sessions := w.sessions[s := Cell(RowIn(w, s, z), None)], log := w.log + z.mine,
       lock := None, calls := z.calls, workers := w.workers[c := w.workers[c].(pc := Idle)])
  }

  lemma TurnEnds(w: World, c: Conn, s: Sid, z: Work, now: Time)
    requires Calm(w, c, s) && Calm(Settled(w, s, z), c, s) && z.lock == Some(Hold(c, 1))
    ensures Run(Scene(Settled(w, s, z), c, s, AtRest(Unlocking, z)), [Action(c, now, Next), Action(c, now, Next)])
         == Closed(w, c, s, z)
  {
    var u, x := Settled(w, s, z), AtRest(Unlocking, z);
    UnlockRuns(u, c, s, x, now);
    Rests(u, c, s, x, x.(pc := Idle, lock := None));
    assert u.sessions[s := Cell(RowIn(u, s, x), None)] == u.sessions;
    assert u.log + map[] == u.log;
  }

  function ReplyActs(c: Conn, now: Time): seq<Action> {
    [Action(c, now, Next), Action(c, now, Next)] + [Action(c, now, Next)] + [Action(c, now, Next), Action(c, now, Next)]
  }

  /** The agent's message gets the next number and is committed with all else, and
      the lock is given back. */
  lemma ReplyEnds(w: World, c: Conn, s: Sid, x: Work, now: Time)
    requires Calm(w, c, s) && x.pc == Replying(Some(s)) && x.mine == map[] && ConvIn(w, x).count + 1 !in w.log
    requires x.lock == Some(Hold(c, 1))
    ensures Run(Scene(w, c, s, x), ReplyActs(c, now)) == Closed(w, c, s, Replied(w, s, x))
  {
    var z := Replied(w, s, x);
    var u := Scene(Settled(w, s, z), c, s, AtRest(Unlocking, z));
    ReplyRuns(w, c, s, x, now);
    ReplyCommits(w, c, s, z, now);
    TurnEnds(w, c, s, z, now);
    Joins(Scene(w, c, s, x), [Action(c, now, Next), Action(c, now, Next)], Scene(w, c, s, z), [Action(c, now, Next)], u);
    Joins(Scene(w, c, s, x), [Action(c, now, Next), Action(c, now, Next)] + [Action(c, now, Next)], u,
          [Action(c, now, Next), Action(c, now, Next)], Closed(w, c, s, z));
  }

  // -------------------------------------------------------- forced finalises

  function FinalizeFails(c: Conn, s: Sid, why: string, now: Time): seq<Action> {
    [Action(c, now, Finalize(s))]
    + FailureActs(c, true, why, now) + [Action(c, now, Next)]
  }

  function FinalizeCompletes(c: Conn, s: Sid, story: string, url: Option<string>, now: Time): seq<Action> {
    [Action(c, now, Finalize(s))]
    + CompletionActs(c, story, url, now)
    + [Action(c, now, Next)]
  }

  lemma StartRuns(w: World, c: Conn, s: Sid, x: Work, now: Time)
    requires Calm(w, c, s) && w.workers[c].pc == Idle && x == Work(Idle, map[], None, None, w.lock, w.calls)
    ensures Run(w, [Action(c, now, Finalize(s))]) == Scene(w, c, s, x.(pc := ToFinalize(s, Forced)))
  {
    SceneOf(w, c, s);
    SceneMoves(w, c, s, x, ToFinalize(s, Forced));
    RunOne(w, Action(c, now, Finalize(s)));
  }

  /** The last world, back at rest, is the first but for what was committed. */
  lemma Rests(w: World, c: Conn, s: Sid, x: Work, y: Work)
    requires Calm(w, c, s)
    ensures Scene(Settled(w, s, x), c, s, AtRest(y.pc, y))
         == w.(conv := ConvIn(w, x), sessions := w.sessions[s := Cell(RowIn(w, s, x), None)], log := w.log + x.mine,
               lock := y.lock, calls := y.calls, workers := w.workers[c := w.workers[c].(pc := y.pc)])
  {
    assert Scene(Settled(w, s, x), c, s, AtRest(y.pc, y)).sessions == w.sessions[s := Cell(RowIn(w, s, x), None)];
  }

  /** A forced finalise, once committed: its connection is idle again. */
  lemma ForcedRests(w: World, c: Conn, s: Sid, y: Work, v: Version, k: Conv)
    requires Calm(w, c, s) && w.workers[c].pc == Idle
    requires y.mine == map[] && y.row == Some(v) && ConvIn(w, y) == k && y.lock == w.lock
    ensures Scene(Settled(w, s, y), c, s, AtRest(Idle, y))
         == w.(conv := k, sessions := w.sessions[s := Cell(Some(v), None)], calls := y.calls)
  {
    Rests(w, c, s, y, y.(pc := Idle));
    assert w.log + map[] == w.log && w.workers[c := w.workers[c]] == w.workers;
  }

  lemma ForcedFailureRuns(w: World, c: Conn, s: Sid, x: Work, v: Version, why: string, now: Time)
    requires Calm(w, c, s) && w.workers[c].pc == Idle && w.sessions[s].base == Some(v) && v.row.Fits() && Claimable(v.row.state)
    requires x == Work(ToFinalize(s, Forced), map[], None, None, w.lock, w.calls)
    ensures var y := Broken(s, x, Forced, v, true, why, now);
            Run(w, FinalizeFails(c, s, why, now)) == Scene(Settled(w, s, y), c, s, AtRest(Idle, y))
  {
    var y := Broken(s, x, Forced, v, true, why, now);
    StartRuns(w, c, s, x.(pc := Idle), now);
    FailureRuns(w, c, s, x, Forced, v, true, why, now);
    EndRuns(w, c, s, y, now);
    Joins(w, [Action(c, now, Finalize(s))], Scene(w, c, s, x), FailureActs(c, true, why, now), Scene(w, c, s, y));
    Joins(w, [Action(c, now, Finalize(s))] + FailureActs(c, true, why, now), Scene(w, c, s, y), [Action(c, now, Next)],
          Scene(Settled(w, s, y), c, s, AtRest(Idle, y)));
  }

  lemma ForcedFailureIs(w: World, c: Conn, s: Sid, v: Version, why: string, now: Time)
    requires Calm(w, c, s) && w.workers[c].pc == Idle && w.sessions[s].base == Some(v) && v.row.Fits() && Claimable(v.row.state)
    ensures Run(w, FinalizeFails(c, s, why, now))
         == w.(sessions := w.sessions[s := Cell(Some(Version(FailedRow(v.row, why, now), true)), None)], calls := w.calls + multiset{s})
  {
    var x := Work(ToFinalize(s, Forced), map[], None, None, w.lock, w.calls);
    ForcedFailureRuns(w, c, s, x, v, why, now);
    ForcedRests(w, c, s, Broken(s, x, Forced, v, true, why, now), Version(FailedRow(v.row, why, now), true), w.conv);
  }

  /** An undisturbed forced finalise whose call fails with a Mitra error commits the
      session as failed and ended, and changes nothing else: the pin stays. */
  lemma ForcedFinalizeFails(w: World, c: Conn, s: Sid, why: string, now: Time)
    requires Inv(w) && IdleOn(w, c) && w.convDirty.None? && Undisturbed(w, s) && Claimable(w.sessions[s].base.value.row.state)
    ensures var row := w.sessions[s].base.value.row;
            var failed := row.(state := Failed, error := Some(why), turnCount := row.turnCount + 1, lastActivity := now, endedAt := Some(now));
            Run(w, FinalizeFails(c, s, why, now))
            == w.(sessions := w.sessions[s := Cell(Some(Version(failed, true)), None)], calls := w.calls + multiset{s})
  {
    var v := w.sessions[s].base.value;
    IdleIsCalm(w, c, s);
    ForcedFailureIs(w, c, s, v, why, now);
  }

  lemma ForcedCompletionRuns(w: World, c: Conn, s: Sid, x: Work, v: Version, story: string, url: Option<string>, now: Time)
    requires Calm(w, c, s) && w.workers[c].pc == Idle && w.sessions[s].base == Some(v) && v.row.Fits() && Claimable(v.row.state)
    requires x == Work(ToFinalize(s, Forced), map[], None, None, w.lock, w.calls)
    ensures var y := Finished(w, s, x, Forced, v, story, url, now);
            Run(w, FinalizeCompletes(c, s, story, url, now)) == Scene(Settled(w, s, y), c, s, AtRest(Idle, y))
  {
    var y := Finished(w, s, x, Forced, v, story, url, now);
    StartRuns(w, c, s, x.(pc := Idle), now);
    CompletionRuns(w, c, s, x, Forced, v, story, url, now);
    EndRuns(w, c, s, y, now);
    Joins(w, [Action(c, now, Finalize(s))], Scene(w, c, s, x), CompletionActs(c, story, url, now), Scene(w, c, s, y));
    Joins(w, [Action(c, now, Finalize(s))] + CompletionActs(c, story, url, now), Scene(w, c, s, y), [Action(c, now, Next)],
          Scene(Settled(w, s, y), c, s, AtRest(Idle, y)));
  }

  lemma ForcedCompletionIs(w: World, c: Conn, s: Sid, v: Version, story: string, url: Option<string>, now: Time)
    requires Calm(w, c, s) && w.workers[c].pc == Idle && w.sessions[s].base == Some(v) && v.row.Fits() && Claimable(v.row.state)
    ensures Run(w, FinalizeCompletes(c, s, story, url, now)) == ForciblyCompleted(w, s, v.row, story, url, now)
  {
    var x := Work(ToFinalize(s, Forced), map[], None, None, w.lock, w.calls);
    ForcedCompletionRuns(w, c, s, x, v, story, url, now);
    ForcedRests(w, c, s, Finished(w, s, x, Forced, v, story, url, now), Version(CompletedRow(v.row, story, url, now), true),
                w.conv.(pin := None));
  }

  /** `w` with its session completed under the story, unpinned, and one call more. */
  function ForciblyCompleted(w: World, s: Sid, row: Session, story: string, url: Option<string>, now: Time): World {
    var done := row.(state := Completed, resultRef := Some(story), reportUrl := if url.Some? then url else row.reportUrl,
                     turnCount := row.turnCount + 1, lastActivity := now, finalizedAt := Some(now), endedAt := Some(now));
    w.(conv := Conv(w.conv.count, None), sessions := w.sessions[s := Cell(Some(Version(done, true)), None)],
       calls := w.calls + multiset{s})
  }

  /** One whose call succeeds commits it as completed with its story, and unpins. */
  lemma ForcedFinalizeCompletes(w: World, c: Conn, s: Sid, story: string, url: Option<string>, now: Time)
    requires Inv(w) && IdleOn(w, c) && w.convDirty.None? && Undisturbed(w, s) && Claimable(w.sessions[s].base.value.row.state)
    ensures Run(w, FinalizeCompletes(c, s, story, url, now)) ==
            ForciblyCompleted(w, s, w.sessions[s].base.value.row, story, url, now)
  {
    IdleIsCalm(w, c, s);
    ForcedCompletionIs(w, c, s, w.sessions[s].base.value, story, url, now);
  }

  // ---------------------------------------------------------- terminal turns

  /** A turn about to finalise its session: it alone works on the conversation, and
      the session's row is all it has written since its mid-turn commit. */
  ghost predicate AboutToFinalize(w: World, c: Conn, s: Sid) {
    && c in w.workers && w.workers[c].pc == ToFinalize(s, InTurn) && w.lock == Some(Hold(c, 1)) && w.convDirty.None?
    && forall t {:trigger DirtyBy(w, c, t)} :: DirtyBy(w, c, t) ==> t == s
  }

  /** The state without what the turn has written to its row. */
  function Beneath(w: World, s: Sid): World
    requires s in w.sessions
  {
    w.(sessions := w.sessions[s := w.sessions[s].(dirty := None)])
  }

  lemma TerminalScene(w: World, c: Conn, s: Sid, v: Version)
    requires Inv(w) && AboutToFinalize(w, c, s) && Sees(w, c, s) == Some(v)
    ensures v.row.Fits() && v.row.state == AwaitingUser && w.conv.count + 1 !in w.log
    ensures Calm(Beneath(w, s), c, s)
    ensures w == Scene(Beneath(w, s), c, s, Work(ToFinalize(s, InTurn), map[], None, Some(v), w.lock, w.calls))
  {
    assert WorkerInv(w, c) && CellInv(w, s);
    assert Dense(w.log.Keys, w.conv.count) && w.conv.count + 1 !in w.log.Keys;
    BeneathCalm(w, c, s, v);
  }

  lemma BeneathCalm(w: World, c: Conn, s: Sid, v: Version)
    requires AboutToFinalize(w, c, s) && DirtyBy(w, c, s) && Sees(w, c, s) == Some(v)
    requires w.workers[c].mine == map[] && w.sessions[s].base.Some?
    ensures Calm(Beneath(w, s), c, s)
    ensures w == Scene(Beneath(w, s), c, s, Work(ToFinalize(s, InTurn), map[], None, Some(v), w.lock, w.calls))
  {
    var b := Beneath(w, s);
    forall t ensures !DirtyBy(b, c, t) {
      assert DirtyBy(w, c, t) ==> t == s;
    }
    assert b.sessions[s := w.sessions[s]] == w.sessions;
    assert w.workers[c := w.workers[c]] == w.workers;
  }

  function TerminalFails(c: Conn, mitra: bool, why: string, now: Time): seq<Action> {
    FailureActs(c, mitra, why, now) + [Action(c, now, Next), Action(c, now, Next)]
  }

  function TerminalCompletes(c: Conn, story: string, url: Option<string>, now: Time): seq<Action> {
    CompletionActs(c, story, url, now)
    + ReplyActs(c, now)
  }

  lemma TerminalFailureRuns(b: World, c: Conn, s: Sid, x: Work, v: Version, mitra: bool, why: string, now: Time)
    requires Calm(b, c, s) && x == Work(ToFinalize(s, InTurn), map[], None, Some(v), Some(Hold(c, 1)), x.calls)
    requires v.row.Fits() && Claimable(v.row.state)
    ensures Run(Scene(b, c, s, x), TerminalFails(c, mitra, why, now))
         == b.(sessions := b.sessions[s := Cell(Some(Version(FailedRow(v.row, why, now), true)), None)], lock := None,
               calls := x.calls + multiset{s}, workers := b.workers[c := b.workers[c].(pc := Idle)])
  {
    var y := x.(pc := Unlocking, row := Some(Version(FailedRow(v.row, why, now), true)), calls := x.calls + multiset{s});
    FailureRuns(b, c, s, x, InTurn, v, mitra, why, now);
    UnlockRuns(b, c, s, y, now);
    RunAppend(Scene(b, c, s, x), FailureActs(c, mitra, why, now),
              [Action(c, now, Next), Action(c, now, Next)]);
    Rests(b, c, s, y, y.(pc := Idle, lock := None));
    assert b.log + map[] == b.log;
  }

  /** A terminal turn whose call fails commits the session as failed, on top of the
      delta it had applied, records no reply, keeps the pin, and gives the lock back. */
  lemma TerminalTurnFails(w: World, c: Conn, s: Sid, mitra: bool, why: string, now: Time)
    requires Inv(w) && AboutToFinalize(w, c, s) && DirtyBy(w, c, s)
    ensures var row := w.sessions[s].dirty.value.v.row;
            var failed := row.(state := Failed, error := Some(why), turnCount := row.turnCount + 1, lastActivity := now, endedAt := Some(now));
            Run(w, TerminalFails(c, mitra, why, now))
            == w.(sessions := w.sessions[s := Cell(Some(Version(failed, true)), None)], lock := None,
                  calls := w.calls + multiset{s}, workers := w.workers[c := w.workers[c].(pc := Idle)])
  {
    var v := w.sessions[s].dirty.value.v;
    TerminalScene(w, c, s, v);
    TerminalFailureRuns(Beneath(w, s), c, s, Work(ToFinalize(s, InTurn), map[], None, Some(v), w.lock, w.calls), v, mitra, why, now);
    BeneathSets(w, s, Cell(Some(Version(FailedRow(v.row, why, now), true)), None));
  }

  lemma BeneathSets(w: World, s: Sid, cell: Cell)
    requires s in w.sessions
    ensures Beneath(w, s).sessions[s := cell] == w.sessions[s := cell]
  {
  }

  lemma TerminalCompletionRuns(b: World, c: Conn, s: Sid, x: Work, v: Version, story: string, url: Option<string>, now: Time)
    requires Calm(b, c, s) && x == Work(ToFinalize(s, InTurn), map[], None, Some(v), Some(Hold(c, 1)), x.calls)
    requires v.row.Fits() && Claimable(v.row.state) && b.conv.count + 1 !in b.log
    ensures Run(Scene(b, c, s, x), TerminalCompletes(c, story, url, now))
         == Closed(b, c, s, Replied(b, s, Finished(b, s, x, InTurn, v, story, url, now)))
  {
    var y := Finished(b, s, x, InTurn, v, story, url, now);
    CompletionRuns(b, c, s, x, InTurn, v, story, url, now);
    ReplyEnds(b, c, s, y, now);
    Joins(Scene(b, c, s, x), CompletionActs(c, story, url, now), Scene(b, c, s, y), ReplyActs(c, now),
          Closed(b, c, s, Replied(b, s, y)));
  }

  lemma TerminalCompletionIs(w: World, c: Conn, s: Sid, x: Work, v: Version, story: string, url: Option<string>, now: Time)
    requires c in w.workers && s in w.sessions
    requires x == Work(ToFinalize(s, InTurn), map[], None, Some(v), w.lock, w.calls)
    ensures var n := w.conv.count + 1;
            Closed(Beneath(w, s), c, s, Replied(Beneath(w, s), s, Finished(Beneath(w, s), s, x, InTurn, v, story, url, now)))
            == w.(conv := Conv(n, None), sessions := w.sessions[s := Cell(Some(Version(CompletedRow(v.row, story, url, now), true)), None)],
                  log := w.log[n := AgentMessage(Some(s))], lock := None,
                  calls := w.calls + multiset{s}, workers := w.workers[c := w.workers[c].(pc := Idle)])
  {
    var n := w.conv.count + 1;
    BeneathSets(w, s, Cell(Some(Version(CompletedRow(v.row, story, url, now), true)), None));
    assert w.log + map[n := AgentMessage(Some(s))] == w.log[n := AgentMessage(Some(s))];
  }

  /** One whose call succeeds commits it as completed with its story, unpins, records
      the agent's message as the next of the transcript, and gives the lock back. */
  lemma TerminalTurnCompletes(w: World, c: Conn, s: Sid, story: string, url: Option<string>, now: Time)
    requires Inv(w) && AboutToFinalize(w, c, s) && DirtyBy(w, c, s)
    ensures var row := w.sessions[s].dirty.value.v.row;
            var n := w.conv.count + 1;
            var done := row.(state := Completed, resultRef := Some(story), reportUrl := if url.Some? then url else row.reportUrl,
                             turnCount := row.turnCount + 1,
                             lastActivity := now, finalizedAt := Some(now), endedAt := Some(now));
            Run(w, TerminalCompletes(c, story, url, now))
            == w.(conv := Conv(n, None), sessions := w.sessions[s := Cell(Some(Version(done, true)), None)],
                  log := w.log[n := AgentMessage(Some(s))], lock := None,
                  calls := w.calls + multiset{s}, workers := w.workers[c := w.workers[c].(pc := Idle)])
  {
    var v := w.sessions[s].dirty.value.v;
    TerminalScene(w, c, s, v);
    var x := Work(ToFinalize(s, InTurn), map[], None, Some(v), w.lock, w.calls);
    TerminalCompletionRuns(Beneath(w, s), c, s, x, v, story, url, now);
    TerminalCompletionIs(w, c, s, x, v, story, url, now);
  }

  // ------------------------------------------------------ an ordinary turn

  /** The work of a turn that has recorded the user's message. */
  function Heard(w: World, c: Conn, content: string): Work {
    var n := w.conv.count + 1;
    Work(Recorded, map[n := UserMessage(content)], Some(w.conv.(count := n)), None, Some(Hold(c, 1)), w.calls)
  }

  function MessageActs(c: Conn, content: string, now: Time): seq<Action> {
    [Action(c, now, Chat(content)), Action(c, now, Next)] + [Action(c, now, Next), Action(c, now, Next)]
  }

  lemma LockRuns(w: World, c: Conn, s: Sid, content: string, now: Time)
    requires Calm(w, c, s) && w.workers[c].pc == Idle && w.lock.None?
    ensures Run(w, [Action(c, now, Chat(content)), Action(c, now, Next)])
         == Scene(w, c, s, Work(Locked(content), map[], None, None, Some(Hold(c, 1)), w.calls))
  {
    var x := Work(Idle, map[], None, None, None, w.calls);
    var y := x.(pc := Locked(content), lock := Some(Hold(c, 1)));
    SceneOf(w, c, s);
    SceneMoves(w, c, s, x, ChatOpened(content));
    SceneMoves(w, c, s, x.(pc := ChatOpened(content)), Locked(content));
    assert Leads(w, c, s, x, Action(c, now, Chat(content)), x.(pc := ChatOpened(content)));
    assert Leads(w, c, s, x.(pc := ChatOpened(content)), Action(c, now, Next), y);
    TwoSteps(w, c, s, x, Action(c, now, Chat(content)), x.(pc := ChatOpened(content)), Action(c, now, Next), y);
  }

  lemma HeardRuns(w: World, c: Conn, s: Sid, content: string, now: Time)
    requires c in w.workers && s in w.sessions && w.conv.count + 1 !in w.log
    ensures var x := Work(Locked(content), map[], None, None, Some(Hold(c, 1)), w.calls);
            Run(Scene(w, c, s, x), [Action(c, now, Next), Action(c, now, Next)]) == Scene(w, c, s, Heard(w, c, content))
  {
    var n := w.conv.count + 1;
    var x := Work(Locked(content), map[], None, None, Some(Hold(c, 1)), w.calls);
    var y := x.(pc := Numbered(content, n), conv := Some(w.conv.(count := n)));
    NumberedStep(w, c, s, x, content, now);
    HeardStep(w, c, s, y, content, n, now);
    TwoSteps(w, c, s, x, Action(c, now, Next), y, Action(c, now, Next), Heard(w, c, content));
  }

  lemma NumberedStep(w: World, c: Conn, s: Sid, x: Work, content: string, now: Time)
    requires c in w.workers && s in w.sessions && x.pc == Locked(content)
    ensures var k := ConvIn(w, x);
            Leads(w, c, s, x, Action(c, now, Next),
                  x.(pc := Numbered(content, k.count + 1), conv := Some(k.(count := k.count + 1))))
  {
    var k := ConvIn(w, x);
    SceneViews(w, c, s, x);
    SceneWritesConv(w, c, s, x, k.(count := k.count + 1), Numbered(content, k.count + 1));
  }

  lemma HeardStep(w: World, c: Conn, s: Sid, y: Work, content: string, n: nat, now: Time)
    requires c in w.workers && s in w.sessions && y.pc == Numbered(content, n) && y.mine == map[] && n !in w.log
    ensures Leads(w, c, s, y, Action(c, now, Next), y.(pc := Recorded, mine := map[n := UserMessage(content)]))
  {
    SceneViews(w, c, s, y);
    SceneSays(w, c, s, y, n, UserMessage(content), Recorded);
  }

  lemma MessageRuns(w: World, c: Conn, s: Sid, content: string, now: Time)
    requires Calm(w, c, s) && w.workers[c].pc == Idle && w.lock.None? && w.conv.count + 1 !in w.log
    ensures Run(w, MessageActs(c, content, now)) == Scene(w, c, s, Heard(w, c, content))
  {
    var x := Work(Locked(content), map[], None, None, Some(Hold(c, 1)), w.calls);
    LockRuns(w, c, s, content, now);
    HeardRuns(w, c, s, content, now);
    Joins(w, [Action(c, now, Chat(content)), Action(c, now, Next)], Scene(w, c, s, x),
          [Action(c, now, Next), Action(c, now, Next)], Scene(w, c, s, Heard(w, c, content)));
  }

  lemma AttachRuns(w: World, c: Conn, s: Sid, x: Work, v: Version, a: AgentId, pins: bool, now: Time)
    requires c in w.workers && s in w.sessions && x.pc == Recorded
    requires RowIn(w, s, x) == Some(v) && v.row.Open() && v.row.agent == a
    ensures Run(Scene(w, c, s, x), [Action(c, now, Route(a, pins)), Action(c, now, Hit(s))])
         == Scene(w, c, s, x.(pc := Attached(a, pins, Some(Ref(s, v.row)))))
  {
    var y := x.(pc := Routed(a, pins));
    SceneViews(w, c, s, x);
    SceneMoves(w, c, s, x, y.pc);
    SceneViews(w, c, s, y);
    SceneMoves(w, c, s, y, Attached(a, pins, Some(Ref(s, v.row))));
    assert Leads(w, c, s, x, Action(c, now, Route(a, pins)), y);
    assert Leads(w, c, s, y, Action(c, now, Hit(s)), y.(pc := Attached(a, pins, Some(Ref(s, v.row)))));
    TwoSteps(w, c, s, x, Action(c, now, Route(a, pins)), y, Action(c, now, Hit(s)), y.(pc := Attached(a, pins, Some(Ref(s, v.row)))));
  }

  lemma PinRuns(w: World, c: Conn, s: Sid, x: Work, a: AgentId, pins: bool, sess: Option<Ref>, now: Time)
    requires c in w.workers && s in w.sessions && x.pc == Attached(a, pins, sess) && x.conv.Some?
    ensures Run(Scene(w, c, s, x), [Action(c, now, Next)])
         == Scene(w, c, s, x.(pc := ReadyToCommit(a, sess), conv := Some(x.conv.value.(pin := if pins then Some(a) else x.conv.value.pin))))
  {
    SceneViews(w, c, s, x);
    SceneMoves(w, c, s, x, ReadyToCommit(a, sess));
    SceneWritesConv(w, c, s, x, x.conv.value.(pin := Some(a)), ReadyToCommit(a, sess));
    RunOne(Scene(w, c, s, x), Action(c, now, Next));
  }

  lemma CommitRuns(w: World, c: Conn, s: Sid, x: Work, a: AgentId, sess: Option<Ref>, now: Time)
    requires Calm(w, c, s) && x.pc == ReadyToCommit(a, sess)
    ensures Calm(Settled(w, s, x), c, s)
    ensures Run(Scene(w, c, s, x), [Action(c, now, Next)]) == Scene(Settled(w, s, x), c, s, AtRest(InHandler(sess), x))
  {
    SceneCommits(w, c, s, x, InHandler(sess));
    RunOne(Scene(w, c, s, x), Action(c, now, Next));
  }

  function AttachActs(c: Conn, s: Sid, content: string, a: AgentId, pins: bool, now: Time): seq<Action> {
    MessageActs(c, content, now) + [Action(c, now, Route(a, pins)), Action(c, now, Hit(s))]
    + [Action(c, now, Next)] + [Action(c, now, Next)]
  }

  /** The work of a turn that is about to commit with its agent's session. */
  function Joined(w: World, c: Conn, s: Sid, content: string, row: Session, pins: bool): Work {
    var x := Heard(w, c, content);
    x.(pc := ReadyToCommit(row.agent, Some(Ref(s, row))),
       conv := Some(Conv(w.conv.count + 1, if pins then Some(row.agent) else w.conv.pin)))
  }

  lemma JoinedRuns(w: World, c: Conn, s: Sid, content: string, v: Version, pins: bool, now: Time)
    requires Calm(w, c, s) && w.workers[c].pc == Idle && w.lock.None? && w.conv.count + 1 !in w.log
    requires w.sessions[s].base == Some(v) && v.row.Open()
    ensures var z := Joined(w, c, s, content, v.row, pins);
            Calm(Settled(w, s, z), c, s)
            && Run(w, AttachActs(c, s, content, v.row.agent, pins, now))
               == Scene(Settled(w, s, z), c, s, AtRest(InHandler(Some(Ref(s, v.row))), z))
  {
    var a, x, z := v.row.agent, Heard(w, c, content), Joined(w, c, s, content, v.row, pins);
    var y := x.(pc := Attached(a, pins, Some(Ref(s, v.row))));
    MessageRuns(w, c, s, content, now);
    AttachRuns(w, c, s, x, v, a, pins, now);
    PinRuns(w, c, s, y, a, pins, Some(Ref(s, v.row)), now);
    CommitRuns(w, c, s, z, a, Some(Ref(s, v.row)), now);
    var acts := MessageActs(c, content, now) + [Action(c, now, Route(a, pins)), Action(c, now, Hit(s))];
    Joins(w, MessageActs(c, content, now), Scene(w, c, s, x), [Action(c, now, Route(a, pins)), Action(c, now, Hit(s))], Scene(w, c, s, y));
    Joins(w, acts, Scene(w, c, s, y), [Action(c, now, Next)], Scene(w, c, s, z));
    Joins(w, acts + [Action(c, now, Next)], Scene(w, c, s, z), [Action(c, now, Next)],
          Scene(Settled(w, s, z), c, s, AtRest(InHandler(Some(Ref(s, v.row))), z)));
  }

  /** An undisturbed turn routed to the agent of the open session takes that very
      session to the handler and commits no change to it: the user's message is in
      the transcript, the pin is the agent's if the agent pins and else as before. */
  lemma TurnReusesSession(w: World, c: Conn, s: Sid, content: string, pins: bool, now: Time)
    requires Inv(w) && IdleOn(w, c) && w.lock.None? && w.convDirty.None? && Undisturbed(w, s) && w.sessions[s].base.value.row.Open()
    ensures var row := w.sessions[s].base.value.row;
            var n := w.conv.count + 1;
            Run(w, AttachActs(c, s, content, row.agent, pins, now))
            == w.(conv := Conv(n, if pins then Some(row.agent) else w.conv.pin), log := w.log[n := UserMessage(content)],
                  lock := Some(Hold(c, 1)), workers := w.workers[c := w.workers[c].(pc := InHandler(Some(Ref(s, row))))])
  {
    var v := w.sessions[s].base.value;
    IdleIsCalm(w, c, s);
    JoinedRuns(w, c, s, content, v, pins, now);
    JoinedIs(w, c, s, content, v, pins);
  }

  lemma JoinedIs(w: World, c: Conn, s: Sid, content: string, v: Version, pins: bool)
    requires Calm(w, c, s) && w.sessions[s].base == Some(v)
    ensures var z := Joined(w, c, s, content, v.row, pins);
            var n := w.conv.count + 1;
            Scene(Settled(w, s, z), c, s, AtRest(InHandler(Some(Ref(s, v.row))), z))
            == w.(conv := Conv(n, if pins then Some(v.row.agent) else w.conv.pin), log := w.log[n := UserMessage(content)],
                  lock := Some(Hold(c, 1)), workers := w.workers[c := w.workers[c].(pc := InHandler(Some(Ref(s, v.row))))])
  {
    var z := Joined(w, c, s, content, v.row, pins);
    Rests(w, c, s, z, z.(pc := InHandler(Some(Ref(s, v.row)))));
    assert w.sessions[s := Cell(Some(v), None)] == w.sessions;
    assert w.log + z.mine == w.log[w.conv.count + 1 := UserMessage(content)];
  }

  lemma HandledRuns(w: World, c: Conn, s: Sid, x: Work, v: Version, d: Delta, next: Session, now: Time)
    requires c in w.workers && s in w.sessions && x.pc == InHandler(Some(Ref(s, v.row)))
    requires RowIn(w, s, x) == Some(v) && Apply(v.row, v.row.state, d, now) == Ok(next)
    requires HandlerContract(Some(Ref(s, v.row)), Some(d), false)
    ensures Run(Scene(w, c, s, x), [Action(c, now, Reply(Some(d), false)), Action(c, now, Next)])
         == Scene(w, c, s, x.(pc := Replying(Some(s)), row := Some(v.(row := next))))
  {
    var y := x.(pc := Handled(Some(Ref(s, v.row)), Some(d), false));
    SceneViews(w, c, s, x);
    SceneMoves(w, c, s, x, y.pc);
    assert Leads(w, c, s, x, Action(c, now, Reply(Some(d), false)), y);
    AppliedStep(w, c, s, y, v, d, next, now);
    TwoSteps(w, c, s, x, Action(c, now, Reply(Some(d), false)), y, Action(c, now, Next),
             x.(pc := Replying(Some(s)), row := Some(v.(row := next))));
  }

  lemma AppliedStep(w: World, c: Conn, s: Sid, y: Work, v: Version, d: Delta, next: Session, now: Time)
    requires c in w.workers && s in w.sessions && y.pc == Handled(Some(Ref(s, v.row)), Some(d), false)
    requires RowIn(w, s, y) == Some(v) && Apply(v.row, v.row.state, d, now) == Ok(next)
    ensures Leads(w, c, s, y, Action(c, now, Next), y.(pc := Replying(Some(s)), row := Some(v.(row := next))))
  {
    SceneViews(w, c, s, y);
    SceneWrites(w, c, s, y, v.(row := next), Replying(Some(s)));
  }

  function AnswerActs(c: Conn, d: Delta, now: Time): seq<Action> {
    [Action(c, now, Reply(Some(d), false)), Action(c, now, Next)] + ReplyActs(c, now)
  }

  lemma AnswerRuns(u: World, c: Conn, s: Sid, x: Work, v: Version, d: Delta, next: Session, now: Time)
    requires Calm(u, c, s) && x == Work(InHandler(Some(Ref(s, v.row))), map[], None, None, Some(Hold(c, 1)), x.calls)
    requires u.sessions[s].base == Some(v) && Apply(v.row, v.row.state, d, now) == Ok(next)
    requires HandlerContract(Some(Ref(s, v.row)), Some(d), false) && u.conv.count + 1 !in u.log
    ensures Run(Scene(u, c, s, x), AnswerActs(c, d, now))
         == Closed(u, c, s, Replied(u, s, x.(pc := Replying(Some(s)), row := Some(v.(row := next)))))
  {
    var y := x.(pc := Replying(Some(s)), row := Some(v.(row := next)));
    HandledRuns(u, c, s, x, v, d, next, now);
    ReplyEnds(u, c, s, y, now);
    Joins(Scene(u, c, s, x), [Action(c, now, Reply(Some(d), false)), Action(c, now, Next)], Scene(u, c, s, y),
          ReplyActs(c, now), Closed(u, c, s, Replied(u, s, y)));
  }

  lemma AnsweredIs(w: World, c: Conn, s: Sid, content: string, v: Version, pins: bool, next: Session)
    requires Calm(w, c, s) && w.workers[c].pc == Idle && w.lock.None? && w.sessions[s].base == Some(v)
    ensures var z := Joined(w, c, s, content, v.row, pins);
            var x := AtRest(InHandler(Some(Ref(s, v.row))), z);
            var u := Settled(w, s, z);
            var n := w.conv.count;
            Closed(u, c, s, Replied(u, s, x.(pc := Replying(Some(s)), row := Some(v.(row := next)))))
            == w.(conv := Conv(n + 2, if pins then Some(v.row.agent) else w.conv.pin),
                  sessions := w.sessions[s := Cell(Some(v.(row := next)), None)],
                  log := w.log[n + 1 := UserMessage(content)][n + 2 := AgentMessage(Some(s))])
  {
    var n := w.conv.count;
    var z := Joined(w, c, s, content, v.row, pins);
    assert w.workers[c := w.workers[c].(pc := Idle)] == w.workers;
    assert Settled(w, s, z).sessions[s := Cell(Some(v.(row := next)), None)] == w.sessions[s := Cell(Some(v.(row := next)), None)];
    assert (w.log + z.mine) + map[n + 2 := AgentMessage(Some(s))] == w.log[n + 1 := UserMessage(content)][n + 2 := AgentMessage(Some(s))];
  }

  /** An undisturbed ordinary turn from start to end: two messages, numbered one
      after the other, the handler's delta applied to the session, the pin, and the
      lock free again; nothing else has changed. */
  lemma OrdinaryTurn(w: World, c: Conn, s: Sid, content: string, pins: bool, d: Delta, now: Time)
    requires Inv(w) && IdleOn(w, c) && w.lock.None? && w.convDirty.None? && Undisturbed(w, s)
    requires var row := w.sessions[s].base.value.row;
             (row.state.Pending? || Claimable(row.state)) && HandlerContract(Some(Ref(s, row)), Some(d), false)
    ensures var v := w.sessions[s].base.value;
            var n := w.conv.count;
            var r := Apply(v.row, v.row.state, d, now);
            && r.Ok?
            && Run(w, AttachActs(c, s, content, v.row.agent, pins, now) + AnswerActs(c, d, now))
               == w.(conv := Conv(n + 2, if pins then Some(v.row.agent) else w.conv.pin),
                     sessions := w.sessions[s := Cell(Some(v.(row := r.value)), None)],
                     log := w.log[n + 1 := UserMessage(content)][n + 2 := AgentMessage(Some(s))])
  {
    var v := w.sessions[s].base.value;
    IdleIsCalm(w, c, s);
    ApplyOutcome(v.row, v.row.state, d, now);
    OrdinaryRuns(w, c, s, content, v, pins, d, Apply(v.row, v.row.state, d, now).value, now);
  }

  lemma OrdinaryRuns(w: World, c: Conn, s: Sid, content: string, v: Version, pins: bool, d: Delta, next: Session, now: Time)
    requires Calm(w, c, s) && w.workers[c].pc == Idle && w.lock.None?
    requires w.conv.count + 1 !in w.log && w.conv.count + 2 !in w.log
    requires w.sessions[s].base == Some(v) && v.row.Open() && Apply(v.row, v.row.state, d, now) == Ok(next)
    requires HandlerContract(Some(Ref(s, v.row)), Some(d), false)
    ensures var n := w.conv.count;
            Run(w, AttachActs(c, s, content, v.row.agent, pins, now) + AnswerActs(c, d, now))
            == w.(conv := Conv(n + 2, if pins then Some(v.row.agent) else w.conv.pin),
                  sessions := w.sessions[s := Cell(Some(v.(row := next)), None)],
                  log := w.log[n + 1 := UserMessage(content)][n + 2 := AgentMessage(Some(s))])
  {
    var z := Joined(w, c, s, content, v.row, pins);
    var x := AtRest(InHandler(Some(Ref(s, v.row))), z);
    var u := Settled(w, s, z);
    JoinedRuns(w, c, s, content, v, pins, now);
    AnswerRuns(u, c, s, x, v, d, next, now);
    AnsweredIs(w, c, s, content, v, pins, next);
    Joins(w, AttachActs(c, s, content, v.row.agent, pins, now), Scene(u, c, s, x), AnswerActs(c, d, now),
          Closed(u, c, s, Replied(u, s, x.(pc := Replying(Some(s)), row := Some(v.(row := next))))));
  }

  // ------------------------------------------------- exits and retirements

  function RetiredVersion(v: Version, reason: string, now: Time): Version {
    v.(row := Retired(v.row, reason, now))
  }

  function RetireActs(c: Conn, s: Sid, reason: string, now: Time): seq<Action> {
    [Action(c, now, Retire(reason)), Action(c, now, Hit(s))] + [Action(c, now, Next)] + [Action(c, now, Next)]
  }

  lemma RetireStep(w: World, c: Conn, s: Sid, x: Work, v: Version, reason: string, now: Time)
    requires c in w.workers && s in w.sessions && (x.pc == Retiring(reason) || (x.pc == Exiting && reason == "user_exit"))
    requires RowIn(w, s, x) == Some(v) && v.row.Open()
    ensures Leads(w, c, s, x, Action(c, now, Hit(s)),
                  x.(pc := if x.pc.Retiring? then RetireUnpin(s) else ExitUnpin, row := Some(RetiredVersion(v, reason, now))))
  {
    var next := if x.pc.Retiring? then RetireUnpin(s) else ExitUnpin;
    SceneViews(w, c, s, x);
    SceneWrites(w, c, s, x, RetiredVersion(v, reason, now), next);
    assert SeesOpen(Scene(w, c, s, x), c, s);
    assert RetireRow(Scene(w, c, s, x), c, s, reason, now) == WriteRow(Scene(w, c, s, x), c, s, RetiredVersion(v, reason, now));
  }

  lemma RetireRuns(w: World, c: Conn, s: Sid, v: Version, reason: string, now: Time)
    requires Calm(w, c, s) && w.workers[c].pc == Idle && w.sessions[s].base == Some(v) && v.row.Open()
    ensures Run(w, [Action(c, now, Retire(reason)), Action(c, now, Hit(s))])
         == Scene(w, c, s, Work(RetireUnpin(s), map[], None, Some(RetiredVersion(v, reason, now)), w.lock, w.calls))
  {
    var x := Work(Idle, map[], None, None, w.lock, w.calls);
    var y := x.(pc := RetireUnpin(s), row := Some(RetiredVersion(v, reason, now)));
    SceneOf(w, c, s);
    SceneMoves(w, c, s, x, Retiring(reason));
    assert Leads(w, c, s, x, Action(c, now, Retire(reason)), x.(pc := Retiring(reason)));
    RetireStep(w, c, s, x.(pc := Retiring(reason)), v, reason, now);
    TwoSteps(w, c, s, x, Action(c, now, Retire(reason)), x.(pc := Retiring(reason)), Action(c, now, Hit(s)), y);
  }

  lemma UnpinRuns(w: World, c: Conn, s: Sid, x: Work, now: Time)
    requires c in w.workers && s in w.sessions && x.pc == RetireUnpin(s)
    ensures Run(Scene(w, c, s, x), [Action(c, now, Next)])
         == Scene(w, c, s, x.(pc := Ending(false), conv := Some(ConvIn(w, x).(pin := None))))
  {
    SceneViews(w, c, s, x);
    SceneWritesConv(w, c, s, x, ConvIn(w, x).(pin := None), Ending(false));
    RunOne(Scene(w, c, s, x), Action(c, now, Next));
  }

  lemma RetirementRuns(w: World, c: Conn, s: Sid, v: Version, reason: string, now: Time)
    requires Calm(w, c, s) && w.workers[c].pc == Idle && w.sessions[s].base == Some(v) && v.row.Open()
    ensures Run(w, RetireActs(c, s, reason, now))
         == w.(conv := w.conv.(pin := None), sessions := w.sessions[s := Cell(Some(RetiredVersion(v, reason, now)), None)])
  {
    var x := Work(RetireUnpin(s), map[], None, Some(RetiredVersion(v, reason, now)), w.lock, w.calls);
    var y := x.(pc := Ending(false), conv := Some(w.conv.(pin := None)));
    var z := Scene(Settled(w, s, y), c, s, AtRest(Idle, y));
    RetireRuns(w, c, s, v, reason, now);
    UnpinRuns(w, c, s, x, now);
    EndRuns(w, c, s, y, now);
    Joins(w, [Action(c, now, Retire(reason)), Action(c, now, Hit(s))], Scene(w, c, s, x), [Action(c, now, Next)], Scene(w, c, s, y));
    Joins(w, [Action(c, now, Retire(reason)), Action(c, now, Hit(s))] + [Action(c, now, Next)], Scene(w, c, s, y), [Action(c, now, Next)], z);
    Rests(w, c, s, y, y.(pc := Idle));
    assert w.log + map[] == w.log && w.workers[c := w.workers[c]] == w.workers;
  }

  /** An undisturbed retirement abandons the open session, dated and with its
      reason, leaves the conversation unpinned, and changes nothing else. */
  lemma RetirementUnpins(w: World, c: Conn, s: Sid, reason: string, now: Time)
    requires Inv(w) && IdleOn(w, c) && w.convDirty.None? && Undisturbed(w, s) && w.sessions[s].base.value.row.Open()
    ensures var v := w.sessions[s].base.value;
            var gone := v.(row := v.row.(state := Abandoned, endedAt := Some(now), error := Some(reason)));
            Run(w, RetireActs(c, s, reason, now))
            == w.(conv := Conv(w.conv.count, None), sessions := w.sessions[s := Cell(Some(gone), None)])
  {
    IdleIsCalm(w, c, s);
    RetirementRuns(w, c, s, w.sessions[s].base.value, reason, now);
  }

  function ExitActs(c: Conn, s: Sid, content: string, a: AgentId, now: Time): seq<Action> {
    MessageActs(c, content, now) + [Action(c, now, Exit), Action(c, now, Hit(s))]
    + [Action(c, now, Route(a, false)), Action(c, now, Next)] + [Action(c, now, Next)] + [Action(c, now, Next)]
    + [Action(c, now, Next)]
  }

  lemma ExitRuns(w: World, c: Conn, s: Sid, x: Work, v: Version, now: Time)
    requires c in w.workers && s in w.sessions && x.pc == Recorded && RowIn(w, s, x) == Some(v) && v.row.Open()
    ensures Run(Scene(w, c, s, x), [Action(c, now, Exit), Action(c, now, Hit(s))])
         == Scene(w, c, s, x.(pc := ExitUnpin, row := Some(RetiredVersion(v, "user_exit", now))))
  {
    var y := x.(pc := ExitUnpin, row := Some(RetiredVersion(v, "user_exit", now)));
    SceneViews(w, c, s, x);
    SceneMoves(w, c, s, x, Exiting);
    assert Leads(w, c, s, x, Action(c, now, Exit), x.(pc := Exiting));
    RetireStep(w, c, s, x.(pc := Exiting), v, "user_exit", now);
    TwoSteps(w, c, s, x, Action(c, now, Exit), x.(pc := Exiting), Action(c, now, Hit(s)), y);
  }

  /** With the session retired the connection sees none open. */
  lemma NoneLeft(w: World, c: Conn, s: Sid, x: Work)
    requires Calm(w, c, s) && x.row.Some? && !x.row.value.row.Open() && forall t | t != s :: !BaseOpen(w, t)
    ensures SeesNoneOpen(Scene(w, c, s, x), c)
  {
    var z := Scene(w, c, s, x);
    forall t | t in z.sessions ensures !SeesOpen(z, c, t) {
      if t != s {
        assert !DirtyBy(w, c, t) && !BaseOpen(w, t);
      }
    }
  }

  lemma VacateRuns(w: World, c: Conn, s: Sid, x: Work, a: AgentId, now: Time)
    requires Calm(w, c, s) && x.pc == ExitUnpin && x.row.Some? && !x.row.value.row.Open() && forall t | t != s :: !BaseOpen(w, t)
    ensures Run(Scene(w, c, s, x), [Action(c, now, Route(a, false)), Action(c, now, Next)])
         == Scene(w, c, s, x.(pc := Vacant(a, false), conv := Some(ConvIn(w, x).(pin := None))))
  {
    var y := x.(pc := Routed(a, false), conv := Some(ConvIn(w, x).(pin := None)));
    SceneViews(w, c, s, x);
    SceneWritesConv(w, c, s, x, ConvIn(w, x).(pin := None), Routed(a, false));
    assert Leads(w, c, s, x, Action(c, now, Route(a, false)), y);
    NoneLeft(w, c, s, y);
    SceneMoves(w, c, s, y, Vacant(a, false));
    assert Leads(w, c, s, y, Action(c, now, Next), y.(pc := Vacant(a, false)));
    TwoSteps(w, c, s, x, Action(c, now, Route(a, false)), y, Action(c, now, Next), y.(pc := Vacant(a, false)));
  }

  lemma VacantRuns(w: World, c: Conn, s: Sid, x: Work, a: AgentId, now: Time)
    requires c in w.workers && s in w.sessions && x.pc == Vacant(a, false)
    ensures Run(Scene(w, c, s, x), [Action(c, now, Next)]) == Scene(w, c, s, x.(pc := Attached(a, false, None)))
  {
    SceneMoves(w, c, s, x, Attached(a, false, None));
    RunOne(Scene(w, c, s, x), Action(c, now, Next));
  }

  /** The work of a turn that left its agent and is about to commit. */
  function Left(w: World, c: Conn, content: string, v: Version, a: AgentId, now: Time): Work {
    Heard(w, c, content).(pc := ReadyToCommit(a, None), conv := Some(Conv(w.conv.count + 1, None)), row := Some(RetiredVersion(v, "user_exit", now)))
  }

  lemma LeavingRuns(w: World, c: Conn, s: Sid, content: string, v: Version, a: AgentId, now: Time)
    requires Calm(w, c, s) && w.workers[c].pc == Idle && w.lock.None? && w.conv.count + 1 !in w.log
    requires w.sessions[s].base == Some(v) && v.row.Open() && forall t | t != s :: !BaseOpen(w, t)
    ensures var z := Left(w, c, content, v, a, now);
            Run(w, ExitActs(c, s, content, a, now)) == Scene(Settled(w, s, z), c, s, AtRest(InHandler(None), z))
  {
    var x, z := Heard(w, c, content), Left(w, c, content, v, a, now);
    var x1 := x.(pc := ExitUnpin, row := Some(RetiredVersion(v, "user_exit", now)));
    var x2 := z.(pc := Vacant(a, false));
    var x3 := z.(pc := Attached(a, false, None));
    MessageRuns(w, c, s, content, now);
    ExitRuns(w, c, s, x, v, now);
    VacateRuns(w, c, s, x1, a, now);
    VacantRuns(w, c, s, x2, a, now);
    PinRuns(w, c, s, x3, a, false, None, now);
    CommitRuns(w, c, s, z, a, None, now);
    var acts := MessageActs(c, content, now) + [Action(c, now, Exit), Action(c, now, Hit(s))];
    var on := acts + [Action(c, now, Route(a, false)), Action(c, now, Next)];
    Joins(w, MessageActs(c, content, now), Scene(w, c, s, x), [Action(c, now, Exit), Action(c, now, Hit(s))], Scene(w, c, s, x1));
    Joins(w, acts, Scene(w, c, s, x1), [Action(c, now, Route(a, false)), Action(c, now, Next)], Scene(w, c, s, x2));
    Joins(w, on, Scene(w, c, s, x2), [Action(c, now, Next)], Scene(w, c, s, x3));
    Joins(w, on + [Action(c, now, Next)], Scene(w, c, s, x3), [Action(c, now, Next)], Scene(w, c, s, z));
    Joins(w, on + [Action(c, now, Next)] + [Action(c, now, Next)], Scene(w, c, s, z), [Action(c, now, Next)],
          Scene(Settled(w, s, z), c, s, AtRest(InHandler(None), z)));
  }

  lemma LeftIs(w: World, c: Conn, s: Sid, content: string, v: Version, a: AgentId, now: Time)
    requires Calm(w, c, s)
    ensures var z := Left(w, c, content, v, a, now);
            var n := w.conv.count + 1;
            Scene(Settled(w, s, z), c, s, AtRest(InHandler(None), z))
            == w.(conv := Conv(n, None), sessions := w.sessions[s := Cell(Some(RetiredVersion(v, "user_exit", now)), None)],
                  log := w.log[n := UserMessage(content)], lock := Some(Hold(c, 1)),
                  workers := w.workers[c := w.workers[c].(pc := InHandler(None))])
  {
    var z := Left(w, c, content, v, a, now);
    Rests(w, c, s, z, z.(pc := InHandler(None)));
    assert w.log + z.mine == w.log[w.conv.count + 1 := UserMessage(content)];
  }

  /** A turn whose message leaves the agent has, by its mid-turn commit, abandoned the
      open session and unpinned the conversation, and goes on without a session. */
  lemma ExitUnpins(w: World, c: Conn, s: Sid, content: string, a: AgentId, now: Time)
    requires Inv(w) && IdleOn(w, c) && w.lock.None? && w.convDirty.None? && Undisturbed(w, s) && w.sessions[s].base.value.row.Open()
    ensures var v := w.sessions[s].base.value;
            var gone := v.(row := v.row.(state := Abandoned, endedAt := Some(now), error := Some("user_exit")));
            var n := w.conv.count + 1;
            Run(w, ExitActs(c, s, content, a, now))
            == w.(conv := Conv(n, None), sessions := w.sessions[s := Cell(Some(gone), None)],
                  log := w.log[n := UserMessage(content)], lock := Some(Hold(c, 1)),
                  workers := w.workers[c := w.workers[c].(pc := InHandler(None))])
  {
    var v := w.sessions[s].base.value;
    IdleIsCalm(w, c, s);
    LeavingRuns(w, c, s, content, v, a, now);
    LeftIs(w, c, s, content, v, a, now);
  }
}
