/** Whose remote session a conversation's pooled channel was opened for: the turns
    of one conversation on the shared pool, one at a time under the turn lock, and
    everything beside them that retires the row or works on the pool. */
module RemoteTurns {
  import opened Prelude
  import opened ChannelPool

  /** The conversation's open session row. */
  datatype Row = Row(sid: nat, remote: Option<string>)

  /** A turn in its handler: the row it read, the remote session it talks to, and
      whether it had to generate that session, the row having none. */
  datatype Turn = Turn(sid: nat, remote: string, generated: bool)

  /** `ids` are the remote ids generated so far; Mitra never gives one twice. */
  datatype Talk = Talk(pool: Pool, row: Option<Row>, turn: Option<Turn>, sids: nat, ids: set<string>)

  datatype Act =
    // A turn reads its row, creating one if none is open, and names its remote session.
    | Begin(fresh0: string)
    // It acquires a channel: for its first send, or again after a dead socket.
    | Connect(ok: bool)
    // It is over: answered, or timed out, failed, rolled back.
    | EndTurn(answered: bool)
    // The row is retired: exit, sweep, abandon, reset, displacement or finalisation.
    | Retire
    // Anything else on the pool, the closes that follow most retirements included.
    | Beside(action: Action)

  /** The row the turn read is still open. */
  predicate Lands(t: Talk) {
    t.turn.Some? && t.row.Some? && t.row.value.sid == t.turn.value.sid
  }

  function StepTalk(t: Talk, c: Conv, a: Act): Talk {
    match a
    case Begin(id) =>
      var row := if t.row.Some? then t.row.value else Row(t.sids, None);
      if t.turn.Some? || (row.remote.None? && id in t.ids) then t
      else
        var turn := if row.remote.Some? then Turn(row.sid, row.remote.value, false) else Turn(row.sid, id, true);
        t.(row := Some(row), turn := Some(turn), sids := t.sids + (if t.row.None? then 1 else 0), ids := t.ids + {turn.remote})
    case Connect(ok) =>
      if t.turn.None? then t else t.(pool := AfterAcquire(t.pool, c, t.turn.value.remote, ok))
    case EndTurn(answered) =>
      // An answer's delta lands only on a row that is still open.
      if answered && Lands(t) then t.(row := Some(t.row.value.(remote := Some(t.turn.value.remote))), turn := None)
      else t.(turn := None)
    case Retire => t.(row := None)
    case Beside(action) =>
      if action.DoAcquire? && action.conv == c then t else t.(pool := Step(t.pool, action))
  }

  function After(t: Talk, c: Conv, acts: seq<Act>): Talk {
    if acts == [] then t else StepTalk(After(t, c, acts[..|acts| - 1]), c, acts[|acts| - 1])
  }

  function Start(max: int, idle: Time, now: Time): Talk {
    Talk(Empty(max, idle, now), None, None, 0, {})
  }

  // ------------------------------------------------------- what spoils a channel

  /** The conversation's own pooled channel. */
  predicate Kept(t: Talk, c: Conv, ch: Chan) {
    Pooled(t.pool, ch) && t.pool.made[ch].conv == c
  }

  /** What a caller can know of the history, remote ids left aside.  A channel is
      spoilt when, while it stays pooled, the row is retired, or a turn that
      generated its remote session ends without its delta being applied; or when
      it is opened by a turn whose row had been retired meanwhile. */
  predicate Spoils(t: Talk, c: Conv, a: Act, ch: Chan) {
    match a
    case Begin(_) => false
    case Connect(ok) => t.turn.Some? && !Lands(t) && AcquireResult(t.pool, c, ok) == Got(|t.pool.made|) && ch == |t.pool.made|
    case EndTurn(answered) => t.turn.Some? && t.turn.value.generated && !(answered && Lands(t)) && Kept(t, c, ch)
    case Retire => t.row.Some? && Kept(t, c, ch)
    case Beside(_) => false
  }

  /** Some event since the channel was opened spoilt it. */
  predicate Spoilt(t: Talk, c: Conv, acts: seq<Act>, ch: Chan) {
    acts != [] &&
    (Spoilt(t, c, acts[..|acts| - 1], ch) || Spoils(After(t, c, acts[..|acts| - 1]), c, acts[|acts| - 1], ch))
  }

  // --------------------------------------------------------------- invariant

  /** `id` is the remote id the row has, or that the turn in flight will give it. */
  predicate Belongs(t: Talk, id: string) {
    t.row.Some? &&
    (t.row.value.remote == Some(id) || (t.turn.Some? && t.turn.value.generated && t.turn.value.remote == id))
  }

  ghost predicate Sane(t: Talk, c: Conv) {
    && Inv(t.pool)
    && (forall ch | 0 <= ch < |t.pool.made| && t.pool.made[ch].conv == c :: t.pool.made[ch].remote in t.ids)
    && (t.row.Some? && t.row.value.remote.Some? ==> t.row.value.remote.value in t.ids)
    && (t.turn.Some? ==> t.turn.value.remote in t.ids)
    && (t.turn.Some? && t.row.Some? ==>
          && Lands(t)
          && t.row.value.remote == if t.turn.value.generated then None else Some(t.turn.value.remote))
  }

  /** Pooled channels are unspoilt exactly when they are of the row's remote session. */
  ghost predicate Told(t0: Talk, c: Conv, acts: seq<Act>) {
    var t := After(t0, c, acts);
    forall ch: Chan | Kept(t, c, ch) :: !Spoilt(t0, c, acts, ch) <==> Belongs(t, t.pool.made[ch].remote)
  }

  lemma ConnectSane(t: Talk, c: Conv, ok: bool)
    requires Sane(t, c)
    ensures Sane(StepTalk(t, c, Connect(ok)), c)
    ensures var u := StepTalk(t, c, Connect(ok)); t.pool.made <= u.pool.made
  {
    if t.turn.Some? {
      var r := t.turn.value.remote;
      StepKeeps(t.pool, DoAcquire(c, r, ok));
      AcquireMakes(t.pool, c, r, ok);
    }
  }

  /** What an acquire adds to the channels made, and that it pools nothing else. */
  lemma AcquireMakes(p: Pool, c: Conv, remote: string, ok: bool)
    ensures var q := AfterAcquire(p, c, remote, ok);
            && q.made == p.made + (if !Hit(p, c) && p.max >= 1 && ok then [Made(c, remote)] else [])
            && forall ch: Chan | ch < |p.made| && Pooled(q, ch) :: Pooled(p, ch)
    ensures Hit(p, c) ==> AfterAcquire(p, c, remote, ok).chans == p.chans
  {
  }

  lemma BesideMakes(p: Pool, a: Action)
    ensures var q := Step(p, a);
            && p.made <= q.made
            && (forall ch: Chan | |p.made| <= ch < |q.made| :: a.DoAcquire? && q.made[ch].conv == a.conv)
            && forall ch: Chan | ch < |p.made| && Pooled(q, ch) :: Pooled(p, ch)
  {
    match a
    case DoAcquire(c, remote, ok) => AcquireMakes(p, c, remote, ok);
    case DoTake(_) =>
    case DoTakeAll =>
    case DoReap(_) =>
    case CloseOne(_) =>
    case Die(_) =>
    case Wait(_) =>
  }

  lemma BesideSane(t: Talk, c: Conv, action: Action)
    requires Sane(t, c)
    ensures Sane(StepTalk(t, c, Beside(action)), c)
  {
    StepKeeps(t.pool, action);
    BesideMakes(t.pool, action);
  }

  lemma StepSane(t: Talk, c: Conv, a: Act)
    requires Sane(t, c)
    ensures Sane(StepTalk(t, c, a), c)
  {
    match a
    case Begin(_) =>
    case Connect(ok) => ConnectSane(t, c, ok);
    case EndTurn(_) =>
    case Retire =>
    case Beside(action) => BesideSane(t, c, action);
  }

  lemma {:induction false} AfterSane(t: Talk, c: Conv, acts: seq<Act>)
    requires Sane(t, c)
    ensures Sane(After(t, c, acts), c)
  {
    if acts != [] {
      AfterSane(t, c, acts[..|acts| - 1]);
      StepSane(After(t, c, acts[..|acts| - 1]), c, acts[|acts| - 1]);
    }
  }

  lemma {:induction false} SpoiltWasMade(t0: Talk, c: Conv, acts: seq<Act>, ch: Chan)
    requires Sane(t0, c) && Spoilt(t0, c, acts, ch)
    ensures ch < |After(t0, c, acts).pool.made|
  {
    var init, a := acts[..|acts| - 1], acts[|acts| - 1];
    var t := After(t0, c, init);
    AfterSane(t0, c, init);
    MadeGrows(t, c, a);
    if Spoilt(t0, c, init, ch) {
      SpoiltWasMade(t0, c, init, ch);
    }
  }

  lemma MadeGrows(t: Talk, c: Conv, a: Act)
    requires Sane(t, c)
    ensures |t.pool.made| <= |StepTalk(t, c, a).pool.made|
    ensures forall ch: Chan :: Spoils(t, c, a, ch) ==> ch < |StepTalk(t, c, a).pool.made|
  {
    match a
    case Begin(_) =>
    case Connect(ok) =>
      if t.turn.Some? {
        AcquireMakes(t.pool, c, t.turn.value.remote, ok);
      }
    case EndTurn(_) =>
    case Retire =>
    case Beside(action) => BesideMakes(t.pool, action);
  }

  /** One event: what it spoils is exactly what no longer belongs to the row. */
  lemma BelongsStep(t: Talk, c: Conv, a: Act, ch: Chan)
    requires Sane(t, c) && Kept(StepTalk(t, c, a), c, ch)
    ensures var u := StepTalk(t, c, a);
            if ch < |t.pool.made| then
              && Kept(t, c, ch) && u.pool.made[ch] == t.pool.made[ch]
              && (Belongs(u, u.pool.made[ch].remote)
                  <==> Belongs(t, t.pool.made[ch].remote) && !Spoils(t, c, a, ch))
            else Belongs(u, u.pool.made[ch].remote) <==> !Spoils(t, c, a, ch)
  {
    match a
    case Begin(_) =>
    case Connect(ok) =>
      if t.turn.Some? {
        AcquireMakes(t.pool, c, t.turn.value.remote, ok);
      }
    case EndTurn(_) =>
    case Retire =>
    case Beside(action) => BesideMakes(t.pool, action);
  }

  lemma {:induction false} AfterTold(t0: Talk, c: Conv, acts: seq<Act>)
    requires Sane(t0, c) && Told(t0, c, [])
    ensures Told(t0, c, acts)
    decreases |acts|
  {
    if acts != [] {
      var init, a := acts[..|acts| - 1], acts[|acts| - 1];
      var t, u := After(t0, c, init), After(t0, c, acts);
      AfterTold(t0, c, init);
      AfterSane(t0, c, init);
      forall ch: Chan | Kept(u, c, ch)
        ensures !Spoilt(t0, c, acts, ch) <==> Belongs(u, u.pool.made[ch].remote)
      {
        BelongsStep(t, c, a, ch);
        if ch >= |t.pool.made| && Spoilt(t0, c, init, ch) {
          SpoiltWasMade(t0, c, init, ch);
        }
      }
    }
  }

  // ----------------------------------------------------------- main results

  /** Over every run of turns and everything beside them: the channel handed to a
      turn whose row is still open was opened for that turn's remote session exactly
      when, since that channel was opened, no turn that generated its session ended
      without its delta being applied, and no retirement of the row left the
      channel pooled. */
  lemma HandedMatchesIff(max: int, idle: Time, now: Time, c: Conv, acts: seq<Act>, ok: bool)
    requires var t := After(Start(max, idle, now), c, acts);
             Lands(t) && AcquireResult(t.pool, c, ok).Got?
    ensures var t0 := Start(max, idle, now);
            var t := After(t0, c, acts);
            var ch := AcquireResult(t.pool, c, ok).ch;
            var u := StepTalk(t, c, Connect(ok));
            && ch < |u.pool.made|
            && (u.pool.made[ch].remote == t.turn.value.remote <==> !Spoilt(t0, c, acts, ch))
  {
    var t0 := Start(max, idle, now);
    var t := After(t0, c, acts);
    StartOk(max, idle, now, c);
    AfterSane(t0, c, acts);
    AfterTold(t0, c, acts);
    AcquireMakes(t.pool, c, t.turn.value.remote, ok);
    var ch := AcquireResult(t.pool, c, ok).ch;
    if Hit(t.pool, c) {
      assert Kept(t, c, ch);
    } else if Spoilt(t0, c, acts, ch) {
      SpoiltWasMade(t0, c, acts, ch);
    }
  }

  lemma StartOk(max: int, idle: Time, now: Time, c: Conv)
    ensures Sane(Start(max, idle, now), c) && Told(Start(max, idle, now), c, [])
  {
  }

  /** Whatever was retired meanwhile: a channel handed to a turn is of its remote
      session exactly when it was opened since the turn began, or was unspoilt then. */
  lemma HandedMatchesTurnIff(max: int, idle: Time, now: Time, c: Conv, before: seq<Act>, id: string,
                             during: seq<Act>, ok: bool)
    requires var t0 := Start(max, idle, now);
             var t := After(t0, c, before + [Begin(id)] + during);
             && After(t0, c, before).turn.None? && After(t0, c, before + [Begin(id)]).turn.Some?
             && (forall a | a in during :: !a.EndTurn?)
             && AcquireResult(t.pool, c, ok).Got?
    ensures var t0 := Start(max, idle, now);
            var s, t := After(t0, c, before), After(t0, c, before + [Begin(id)] + during);
            var ch := AcquireResult(t.pool, c, ok).ch;
            var u := StepTalk(t, c, Connect(ok));
            && t.turn.Some? && ch < |u.pool.made|
            && (u.pool.made[ch].remote == t.turn.value.remote
                <==> |s.pool.made| <= ch || !Spoilt(t0, c, before, ch))
  {
    var t0 := Start(max, idle, now);
    var s := After(t0, c, before);
    var t := After(t0, c, before + [Begin(id)] + during);
    StartOk(max, idle, now, c);
    AfterSane(t0, c, before);
    AfterTold(t0, c, before);
    DuringTurn(t0, c, before, id, during);
    AfterSane(t0, c, before + [Begin(id)] + during);
    AcquireMakes(t.pool, c, t.turn.value.remote, ok);
    var ch := AcquireResult(t.pool, c, ok).ch;
    if Hit(t.pool, c) {
      assert Kept(t, c, ch);
      if ch < |s.pool.made| {
        assert Kept(s, c, ch);
        BegunTurn(s, c, id, ch);
      }
    }
  }

  /** While a turn is in flight it alone opens channels for the conversation, all of
      its own remote session, and what is out of the pool stays out. */
  lemma {:induction false} DuringTurn(t0: Talk, c: Conv, before: seq<Act>, id: string, during: seq<Act>)
    requires Sane(t0, c) && forall a | a in during :: !a.EndTurn?
    requires After(t0, c, before).turn.None? && After(t0, c, before + [Begin(id)]).turn.Some?
    ensures var s, b := After(t0, c, before), After(t0, c, before + [Begin(id)]);
            var t := After(t0, c, before + [Begin(id)] + during);
            && t.turn == b.turn && s.pool.made <= t.pool.made
            && (forall ch: Chan | Kept(t, c, ch) ::
                  if ch < |s.pool.made| then Kept(s, c, ch) else t.pool.made[ch].remote == b.turn.value.remote)
    decreases |during|
  {
    var s, b := After(t0, c, before), After(t0, c, before + [Begin(id)]);
    assert (before + [Begin(id)])[..|before|] == before;
    assert b.pool == s.pool;
    if during == [] {
      assert before + [Begin(id)] + during == before + [Begin(id)];
    } else {
      var init, a := during[..|during| - 1], during[|during| - 1];
      var all := before + [Begin(id)] + during;
      assert all[..|all| - 1] == before + [Begin(id)] + init && all[|all| - 1] == a;
      DuringTurn(t0, c, before, id, init);
      var v := After(t0, c, before + [Begin(id)] + init);
      AfterSane(t0, c, before + [Begin(id)] + init);
      forall ch: Chan | Kept(After(t0, c, all), c, ch)
        ensures if ch < |s.pool.made| then Kept(s, c, ch)
                else After(t0, c, all).pool.made[ch].remote == b.turn.value.remote
      {
        OneDuring(v, c, a, ch);
      }
      GrowsOnly(v, c, a);
    }
  }

  lemma OneDuring(v: Talk, c: Conv, a: Act, ch: Chan)
    requires Sane(v, c) && v.turn.Some? && !a.EndTurn? && Kept(StepTalk(v, c, a), c, ch)
    ensures if ch < |v.pool.made| then Kept(v, c, ch) && StepTalk(v, c, a).pool.made[ch] == v.pool.made[ch]
            else StepTalk(v, c, a).pool.made[ch].remote == v.turn.value.remote
  {
    match a
    case Begin(_) =>
    case Connect(ok) => AcquireMakes(v.pool, c, v.turn.value.remote, ok);
    case Retire =>
    case Beside(action) => BesideMakes(v.pool, action);
  }

  lemma GrowsOnly(v: Talk, c: Conv, a: Act)
    requires v.turn.Some? && !a.EndTurn?
    ensures v.pool.made <= StepTalk(v, c, a).pool.made && StepTalk(v, c, a).turn == v.turn
  {
    match a
    case Begin(_) =>
    case Connect(ok) => AcquireMakes(v.pool, c, v.turn.value.remote, ok);
    case Retire =>
    case Beside(action) => BesideMakes(v.pool, action);
  }

  lemma BegunTurn(s: Talk, c: Conv, id: string, ch: Chan)
    requires Sane(s, c) && s.turn.None? && StepTalk(s, c, Begin(id)).turn.Some? && Kept(s, c, ch)
    ensures StepTalk(s, c, Begin(id)).turn.value.remote == s.pool.made[ch].remote <==> Belongs(s, s.pool.made[ch].remote)
  {
  }

  /** What keeps every turn on its own session: each turn that generates one is
      answered and lands, and no retirement leaves a channel of the conversation
      pooled or catches a turn in flight. */
  lemma {:induction false} TidyRunsMatch(max: int, idle: Time, now: Time, c: Conv, acts: seq<Act>, ch: Chan)
    requires forall i | 0 <= i < |acts| :: Tidy(After(Start(max, idle, now), c, acts[..i]), c, acts[i])
    ensures !Spoilt(Start(max, idle, now), c, acts, ch)
  {
    if acts != [] {
      var t0, n := Start(max, idle, now), |acts| - 1;
      var init := acts[..n];
      forall i | 0 <= i < |init| ensures Tidy(After(t0, c, init[..i]), c, init[i]) {
        assert init[..i] == acts[..i];
      }
      TidyRunsMatch(max, idle, now, c, init, ch);
      TidyLands(t0, c, init);
      assert Tidy(After(t0, c, init), c, acts[n]);
    }
  }

  ghost predicate Tidy(t: Talk, c: Conv, a: Act) {
    && (a.Retire? ==> t.turn.None? && c !in t.pool.chans)
    && (a.EndTurn? && t.turn.Some? && t.turn.value.generated ==> a.answered)
  }

  lemma {:induction false} TidyLands(t0: Talk, c: Conv, acts: seq<Act>)
    requires t0.turn.None? && forall i | 0 <= i < |acts| :: Tidy(After(t0, c, acts[..i]), c, acts[i])
    ensures After(t0, c, acts).turn.Some? ==> Lands(After(t0, c, acts))
    decreases |acts|
  {
    if acts != [] {
      var n := |acts| - 1;
      var init := acts[..n];
      forall i | 0 <= i < |init| ensures Tidy(After(t0, c, init[..i]), c, init[i]) {
        assert init[..i] == acts[..i];
      }
      TidyLands(t0, c, init);
      assert Tidy(After(t0, c, init), c, acts[n]);
    }
  }

  // --------------------------------------------------------------- two runs

  lemma Snoc(t: Talk, c: Conv, acts: seq<Act>, a: Act)
    ensures After(t, c, acts + [a]) == StepTalk(After(t, c, acts), c, a)
  {
    assert (acts + [a])[..|acts|] == acts;
  }

  /** A first turn times out: its session is forgotten and its channel is not.  The
      next turn generates another session and is handed the first one's channel. */
  lemma TimeoutRun(c: Conv, first: string, second: string)
    requires first != second
    ensures var acts := [Begin(first), Connect(true), EndTurn(false), Begin(second)];
            HandedForeign(After(Start(1, 60, 0), c, acts), c, first, second)
  {
    var t0 := Start(1, 60, 0);
    FirstTurn(c, first);
    var two: seq<Act> := [Begin(first), Connect(true)];
    Snoc(t0, c, two, EndTurn(false));
    Snoc(t0, c, two + [EndTurn(false)], Begin(second));
    assert two + [EndTurn(false)] + [Begin(second)] == [Begin(first), Connect(true), EndTurn(false), Begin(second)];
  }

  /** An answered turn, then an exit: the row is retired and the channel stays. */
  lemma ExitRun(c: Conv, first: string, second: string)
    requires first != second
    ensures var acts := [Begin(first), Connect(true), EndTurn(true), Retire, Begin(second)];
            HandedForeign(After(Start(1, 60, 0), c, acts), c, first, second)
  {
    var t0 := Start(1, 60, 0);
    FirstTurn(c, first);
    var two: seq<Act> := [Begin(first), Connect(true)];
    Snoc(t0, c, two, EndTurn(true));
    Snoc(t0, c, two + [EndTurn(true)], Retire);
    Snoc(t0, c, two + [EndTurn(true)] + [Retire], Begin(second));
    assert two + [EndTurn(true)] + [Retire] + [Begin(second)]
        == [Begin(first), Connect(true), EndTurn(true), Retire, Begin(second)];
  }

  /** A turn for `second` that the pool would hand a channel opened for `first`. */
  predicate HandedForeign(t: Talk, c: Conv, first: string, second: string) {
    && Lands(t) && t.turn.value.remote == second
    && AcquireResult(t.pool, c, true) == Got(0) && 0 < |t.pool.made| && t.pool.made[0] == Made(c, first)
  }

  lemma FirstTurn(c: Conv, first: string)
    ensures var t := After(Start(1, 60, 0), c, [Begin(first), Connect(true)]);
            && t.row == Some(Row(0, None)) && t.turn == Some(Turn(0, first, true)) && t.sids == 1 && t.ids == {first}
            && t.pool.made == [Made(c, first)] && Hit(t.pool, c) && t.pool.chans[c] == 0
  {
    var t0 := Start(1, 60, 0);
    assert [Begin(first), Connect(true)][..1] == [Begin(first)] && [Begin(first)][..0] == [];
    var t1 := StepTalk(After(t0, c, []), c, Begin(first));
    assert After(t0, c, [Begin(first)]) == t1 && t1.pool == Empty(1, 60, 0);
    assert MadeRoom(t1.pool, c).chans == map[] && MadeRoom(t1.pool, c).made == [];
    AcquireMakes(t1.pool, c, first, true);
  }
}
