/** The handler of a remote interview on the shared channel pool, and the recovery
    of a turn that timed out: what each may send and to which remote session, and
    that what they hand back is what the turn protocol takes an answer to be. */
module RemoteFlow {
  import opened Prelude
  import opened SessionLifecycle
  import opened TurnProtocol
  import MitraTurn
  import TurnRecovery
  import Pool = ChannelPool
  import Turns = RemoteTurns

  /** What the outside does during one call of the handler: Mitra's answers, what
      comes of each send, whether a channel opens where one has to, and what other
      threads do to the pool while the first send is awaited and between the
      discarding of a dead channel and its replacement. */
  datatype Answers = Answers(
    profile: Option<string>,
    generated: Option<string>,
    opensFirst: bool,
    first: MitraTurn.Outcome,
    meanwhile: seq<Pool.Action>,
    between: seq<Pool.Action>,
    opensSecond: bool,
    second: MitraTurn.Outcome,
    pollEveryTurn: bool,
    completed: Option<bool>)

  datatype AgentTurn = AgentTurn(text: string, delta: Delta, terminal: bool)

  datatype HandlerError = NoSession | RestFailed | ChannelFailed | Outstanding(why: MitraTurn.Outcome)

  /** A message put on a channel, and the remote session that channel was opened for. */
  datatype Sent = Sent(ch: Pool.Chan, remote: string, text: string)

  function AwaitingDelta(remote: string, profile: Option<string>, step: Option<int>): Delta {
    Delta(AwaitingUser, Some(remote), profile, step, None, None, None)
  }

  // ------------------------------------------------------------ one attempt

  datatype Attempt = Attempt(pool: Pool.Pool, outcome: Option<MitraTurn.Outcome>, sent: seq<Sent>)

  function RemoteOf(p: Pool.Pool, ch: Pool.Chan): string {
    if ch < |p.made| then p.made[ch].remote else ""
  }

  /** Acquire a channel and send.  A channel in use by another turn refuses before
      anything is sent. */
  function Try(p: Pool.Pool, c: Pool.Conv, remote: string, text: string, opens: bool, outcome: MitraTurn.Outcome): Attempt {
    var q := Pool.AfterAcquire(p, c, remote, opens);
    match Pool.AcquireResult(p, c, opens)
    case Got(ch) =>
      Attempt(q, Some(outcome), if outcome.ConcurrentTurn? then [] else [Sent(ch, RemoteOf(q, ch), text)])
    case _ => Attempt(q, None, [])
  }

  /** The pool when the second acquire runs: the dead channel taken out and closed,
      and other threads at work before and after. */
  function Rejoined(p: Pool.Pool, c: Pool.Conv, env: Answers): Pool.Pool {
    Pool.Run(Pool.RemoveAndClose(Pool.Run(p, env.meanwhile), {c}), env.between)
  }

  /** One send, and one more only if the channel turned out dead. */
  function Sending(p: Pool.Pool, c: Pool.Conv, remote: string, text: string, env: Answers): Attempt {
    var one := Try(p, c, remote, text, env.opensFirst, env.first);
    if one.outcome != Some(MitraTurn.ChannelClosed) then one.(pool := Pool.Run(one.pool, env.meanwhile))
    else
      var two := Try(Rejoined(one.pool, c, env), c, remote, text, env.opensSecond, env.second);
      two.(sent := one.sent + two.sent)
  }

  /** The remote session of the turn: the row's, or one generated for a first turn. */
  function RemoteFor(row: Session, env: Answers): Option<string> {
    if row.remoteId.Some? then row.remoteId else if env.profile.Some? then env.generated else None
  }

  // -------------------------------------------------------------- the handler

  datatype Handling = Handling(result: Result<AgentTurn, HandlerError>, sent: seq<Sent>, pool: Pool.Pool)

  function Handled(p: Pool.Pool, c: Pool.Conv, row: Option<Session>, text: string, env: Answers): Handling {
    if row.None? then Handling(Err(NoSession), [], p)
    else if RemoteFor(row.value, env).None? then Handling(Err(RestFailed), [], p)
    else
      var remote := RemoteFor(row.value, env).value;
      var s := Sending(p, c, remote, text, env);
      Handling(Concluded(s.outcome, remote, if row.value.remoteId.Some? then row.value.remoteProfile else env.profile, env),
               s.sent, s.pool)
  }

  function Concluded(outcome: Option<MitraTurn.Outcome>, remote: string, profile: Option<string>, env: Answers)
    : Result<AgentTurn, HandlerError>
  {
    if outcome.None? then Err(ChannelFailed)
    else if !outcome.value.Reply? then Err(Outstanding(outcome.value))
    else if env.pollEveryTurn && env.completed.None? then Err(RestFailed)
    else
      Ok(AgentTurn(outcome.value.turn.text, AwaitingDelta(remote, profile, outcome.value.turn.step),
                   env.pollEveryTurn && env.completed.value))
  }

  method Handle(p: Pool.Pool, c: Pool.Conv, row: Option<Session>, text: string, env: Answers)
      returns (r: Result<AgentTurn, HandlerError>, sent: seq<Sent>, pool: Pool.Pool)
    ensures Handling(r, sent, pool) == Handled(p, c, row, text, env)
    ensures ResultIs(p, c, row, env, r)
  {
    HandledAnswers(p, c, row, text, env);
    sent, pool := [], p;
    if row.None? {
      return Err(NoSession), sent, pool;
    }
    var remote, profile := row.value.remoteId, row.value.remoteProfile;
    if remote.None? {
      if env.profile.None? || env.generated.None? {
        return Err(RestFailed), sent, pool;
      }
      remote, profile := env.generated, env.profile;
    }
    var outcome: Option<MitraTurn.Outcome>;
    pool, outcome, sent := AcquireAndSend(pool, c, remote.value, text, env.opensFirst, env.first);
    pool := Pool.Run(pool, env.meanwhile);
    if outcome == Some(MitraTurn.ChannelClosed) {
      // Exactly one re-establishment: discard, reconnect, send again.
      pool := Pool.RemoveAndClose(pool, {c});
      pool := Pool.Run(pool, env.between);
      var again: seq<Sent>;
      pool, outcome, again := AcquireAndSend(pool, c, remote.value, text, env.opensSecond, env.second);
      sent := sent + again;
    }
    if outcome.None? {
      return Err(ChannelFailed), sent, pool;
    }
    if !outcome.value.Reply? {
      return Err(Outstanding(outcome.value)), sent, pool;
    }
    var done := false;
    if env.pollEveryTurn {
      if env.completed.None? {
        return Err(RestFailed), sent, pool;
      }
      done := env.completed.value;
    }
    var turn := outcome.value.turn;
    return Ok(AgentTurn(turn.text, AwaitingDelta(remote.value, profile, turn.step), done)), sent, pool;
  }

  method AcquireAndSend(p: Pool.Pool, c: Pool.Conv, remote: string, text: string, opens: bool, outcome: MitraTurn.Outcome)
      returns (pool: Pool.Pool, got: Option<MitraTurn.Outcome>, sent: seq<Sent>)
    ensures Attempt(pool, got, sent) == Try(p, c, remote, text, opens, outcome)
  {
    var acquired := Pool.AcquireResult(p, c, opens);
    pool, got, sent := Pool.AfterAcquire(p, c, remote, opens), None, [];
    if acquired.Got? {
      got := Some(outcome);
      if !outcome.ConcurrentTurn? {
        sent := [Sent(acquired.ch, RemoteOf(pool, acquired.ch), text)];
      }
    }
  }

  // ------------------------------------------------------ what comes back

  /** What the turn comes to on the channels: the first send's outcome, or the
      second's after a dead channel; none if a channel could not be had. */
  function LastOutcome(p: Pool.Pool, c: Pool.Conv, remote: string, env: Answers): Option<MitraTurn.Outcome> {
    if !Pool.AcquireResult(p, c, env.opensFirst).Got? then None
    else if !env.first.ChannelClosed? then Some(env.first)
    else if !Pool.AcquireResult(Rejoined(Pool.AfterAcquire(p, c, remote, env.opensFirst), c, env), c, env.opensSecond).Got? then None
    else Some(env.second)
  }

  /** The handler's result, case by case: the errors, and for an answered turn its
      text, a delta that awaits the user with the turn's own remote identity and
      step, and terminal exactly when the poll says that the interview is complete. */
  ghost predicate ResultIs(p: Pool.Pool, c: Pool.Conv, row: Option<Session>, env: Answers, r: Result<AgentTurn, HandlerError>) {
    match row
    case None => r == Err(NoSession)
    case Some(x) =>
      if x.remoteId.None? && (env.profile.None? || env.generated.None?) then r == Err(RestFailed)
      else
        var remote := if x.remoteId.Some? then x.remoteId else env.generated;
        match LastOutcome(p, c, remote.value, env)
        case None => r == Err(ChannelFailed)
        case Some(Reply(turn)) =>
          if env.pollEveryTurn && env.completed.None? then r == Err(RestFailed)
          else
            && r.Ok? && r.value.text == turn.text
            && r.value.delta.state == AwaitingUser && r.value.delta.remoteId == remote
            && r.value.delta.remoteProfile == (if x.remoteId.Some? then x.remoteProfile else env.profile)
            && r.value.delta.step == turn.step
            && r.value.delta.resultRef.None? && r.value.delta.reportUrl.None? && r.value.delta.error.None?
            && (r.value.terminal <==> env.pollEveryTurn && env.completed == Some(true))
        case Some(o) => r == Err(Outstanding(o))
  }

  lemma HandledAnswers(p: Pool.Pool, c: Pool.Conv, row: Option<Session>, text: string, env: Answers)
    ensures ResultIs(p, c, row, env, Handled(p, c, row, text, env).result)
  {
    if row.Some? && RemoteFor(row.value, env).Some? {
      SendingOutcome(p, c, RemoteFor(row.value, env).value, text, env);
    }
  }

  lemma SendingOutcome(p: Pool.Pool, c: Pool.Conv, remote: string, text: string, env: Answers)
    ensures Sending(p, c, remote, text, env).outcome == LastOutcome(p, c, remote, env)
  {
  }

  // ------------------------------------------------------------ main results

  /** An answer fits the turn protocol, whatever session the handler was called
      with; it is sent at most twice, the second time only after a dead channel;
      and a turn that timed out is not sent again. */
  lemma HandleFitsProtocol(p: Pool.Pool, c: Pool.Conv, row: Option<Session>, text: string, env: Answers)
    ensures var h := Handled(p, c, row, text, env);
            && (h.result.Ok? ==>
                  && row.Some? && h.sent != []
                  && forall sid :: HandlerContract(Some(Ref(sid, row.value)), Some(h.result.value.delta), h.result.value.terminal))
            && |h.sent| <= 2 && (|h.sent| == 2 ==> env.first.ChannelClosed?)
            && (env.first.TimedOut? ==> h.result.Err? && |h.sent| <= 1)
            && forall m | m in h.sent :: m.text == text
  {
  }

  /** The pool hands the turn a channel of its own remote session: one has to be
      opened, or the pooled one was opened for it. */
  predicate PoolMatches(p: Pool.Pool, c: Pool.Conv, remote: string) {
    !Pool.Hit(p, c) || RemoteOf(p, p.chans[c]) == remote
  }

  /** No other thread acquires a channel for the conversation. */
  ghost predicate NotRepooled(acts: seq<Pool.Action>, c: Pool.Conv) {
    forall a | a in acts :: !(a.DoAcquire? && a.conv == c)
  }

  /** Which remote session each send goes to. */
  lemma SendsMatchIff(p: Pool.Pool, c: Pool.Conv, remote: string, text: string, env: Answers)
    requires Pool.Inv(p)
    ensures var s := Sending(p, c, remote, text, env);
            && (s.sent != [] && !env.first.ConcurrentTurn? ==> (s.sent[0].remote == remote <==> PoolMatches(p, c, remote)))
            && (|s.sent| == 2 && NotRepooled(env.between, c) ==>
                  s.sent[1].remote == remote)
            && (s.sent == [] ==> s.outcome.None? || s.outcome.value.ConcurrentTurn?)
            && (|s.sent| == 1 && s.outcome.Some? && s.outcome.value.Reply? ==> !env.first.ConcurrentTurn?)
  {
    var one := Try(p, c, remote, text, env.opensFirst, env.first);
    TryMatchesIff(p, c, remote, text, env.opensFirst, env.first);
    if one.outcome == Some(MitraTurn.ChannelClosed) {
      RejoinedIsSound(p, c, remote, env);
      SentTwice(p, c, remote, text, env);
      SecondSend(Rejoined(one.pool, c, env), c, remote, text, env, one.sent, Sending(p, c, remote, text, env));
    } else {
      assert Sending(p, c, remote, text, env).sent == one.sent;
    }
  }

  /** The second send, on the pool as it is by then. */
  lemma SecondSend(q: Pool.Pool, c: Pool.Conv, remote: string, text: string, env: Answers, first: seq<Sent>, s: Attempt)
    requires Pool.Inv(q) && (NotRepooled(env.between, c) ==> !Pool.Hit(q, c)) && |first| == 1
    requires var two := Try(q, c, remote, text, env.opensSecond, env.second);
             s.outcome == two.outcome && s.sent == first + two.sent
    ensures first <= s.sent && |s.sent| <= 2
    ensures |s.sent| == 1 ==> s.outcome.None? || s.outcome.value.ConcurrentTurn?
    ensures |s.sent| == 2 && NotRepooled(env.between, c) ==> s.sent[1].remote == remote
  {
    TryMatchesIff(q, c, remote, text, env.opensSecond, env.second);
  }

  lemma SentTwice(p: Pool.Pool, c: Pool.Conv, remote: string, text: string, env: Answers)
    requires Try(p, c, remote, text, env.opensFirst, env.first).outcome == Some(MitraTurn.ChannelClosed)
    ensures var one := Try(p, c, remote, text, env.opensFirst, env.first);
            var two := Try(Rejoined(one.pool, c, env), c, remote, text, env.opensSecond, env.second);
            Sending(p, c, remote, text, env) == two.(sent := one.sent + two.sent)
  {
  }

  /** The first send goes to the turn's own remote session exactly when the pool
      matches it; after a dead channel the second send does, unless another thread
      pooled a channel of the conversation in between; and the delta, which always
      carries the turn's own session, names the one that answered exactly then. */
  lemma AnswerNamesItsSessionIff(p: Pool.Pool, c: Pool.Conv, row: Session, text: string, env: Answers)
    requires Pool.Inv(p) && RemoteFor(row, env).Some?
    requires NotRepooled(env.between, c)
    ensures var h, remote := Handled(p, c, Some(row), text, env), RemoteFor(row, env).value;
            h.result.Ok? ==>
              && h.result.value.delta.remoteId == Some(remote) && h.sent != []
              && (h.result.value.delta.remoteId == Some(h.sent[|h.sent| - 1].remote)
                  <==> |h.sent| == 2 || PoolMatches(p, c, remote))
  {
    SendsMatchIff(p, c, RemoteFor(row, env).value, text, env);
    HandleFitsProtocol(p, c, Some(row), text, env);
  }

  lemma TryMatchesIff(p: Pool.Pool, c: Pool.Conv, remote: string, text: string, opens: bool, outcome: MitraTurn.Outcome)
    requires Pool.Inv(p)
    ensures var t := Try(p, c, remote, text, opens, outcome);
            && |t.sent| <= 1 && (t.sent != [] <==> t.outcome.Some? && !outcome.ConcurrentTurn?)
            && (t.sent != [] ==>
                  && t.sent[0].ch < |t.pool.made| && t.sent[0].remote == t.pool.made[t.sent[0].ch].remote
                  && (t.sent[0].remote == remote <==> PoolMatches(p, c, remote)))
  {
    Turns.AcquireMakes(p, c, remote, opens);
  }

  /** Between the discarding and the second acquire the conversation has no channel
      pooled, unless another thread pooled one. */
  lemma RejoinedIsSound(p: Pool.Pool, c: Pool.Conv, remote: string, env: Answers)
    requires Pool.Inv(p)
    ensures var q := Rejoined(Pool.AfterAcquire(p, c, remote, env.opensFirst), c, env);
            && Pool.Inv(q)
            && (NotRepooled(env.between, c) ==> !Pool.Hit(q, c))
  {
    var p1 := Pool.AfterAcquire(p, c, remote, env.opensFirst);
    Pool.StepKeeps(p, Pool.DoAcquire(c, remote, env.opensFirst));
    Pool.RunKeeps(p1, env.meanwhile);
    var p2 := Pool.Run(p1, env.meanwhile);
    Pool.TakenThenClosed(p2, {c});
    Pool.RunKeeps(Pool.RemoveAndClose(p2, {c}), env.between);
    if NotRepooled(env.between, c) {
      StaysUnpooled(Pool.RemoveAndClose(p2, {c}), env.between, c);
    }
  }

  lemma {:induction false} StaysUnpooled(p: Pool.Pool, acts: seq<Pool.Action>, c: Pool.Conv)
    requires c !in p.chans && NotRepooled(acts, c)
    ensures c !in Pool.Run(p, acts).chans
    decreases |acts|
  {
    if acts != [] {
      assert acts[0] in acts && forall a | a in acts[1..] :: a in acts;
      StepUnpooled(p, acts[0], c);
      StaysUnpooled(Pool.Step(p, acts[0]), acts[1..], c);
    }
  }

  lemma StepUnpooled(p: Pool.Pool, a: Pool.Action, c: Pool.Conv)
    requires c !in p.chans && !(a.DoAcquire? && a.conv == c)
    ensures c !in Pool.Step(p, a).chans
  {
  }

  /** Over runs: called for the next turn of a conversation after any run of turns
      and everything beside them, the handler's first send goes to the turn's own
      remote session exactly when the channel it goes on is unspoilt. */
  lemma FirstSendIsOwnIff(max: int, idle: Pool.Time, now: Pool.Time, c: Pool.Conv, before: seq<Turns.Act>,
                          row: Session, text: string, env: Answers)
    requires var t := Turns.After(Turns.Start(max, idle, now), c, before);
             && t.turn.None?
             && row.remoteId == (if t.row.Some? then t.row.value.remote else None)
             && RemoteFor(row, env).Some?
             && (row.remoteId.None? ==> RemoteFor(row, env).value !in t.ids)
    requires !env.first.ConcurrentTurn?
    ensures var t0 := Turns.Start(max, idle, now);
            var h := Handled(Turns.After(t0, c, before).pool, c, Some(row), text, env);
            h.sent != [] ==>
              (h.sent[0].remote == RemoteFor(row, env).value <==> !Turns.Spoilt(t0, c, before, h.sent[0].ch))
  {
    var t0 := Turns.Start(max, idle, now);
    var t := Turns.After(t0, c, before);
    Turns.StartOk(max, idle, now, c);
    Turns.AfterSane(t0, c, before);
    Turns.AfterTold(t0, c, before);
    SendsMatchIff(t.pool, c, RemoteFor(row, env).value, text, env);
    var h := Handled(t.pool, c, Some(row), text, env);
    if h.sent != [] {
      FirstSendChannel(t.pool, c, row, text, env);
      var ch := h.sent[0].ch;
      if Pool.Hit(t.pool, c) {
        assert Turns.Kept(t, c, ch);
        assert !Turns.Spoilt(t0, c, before, ch) <==> Turns.Belongs(t, t.pool.made[ch].remote);
      } else if Turns.Spoilt(t0, c, before, ch) {
        Turns.SpoiltWasMade(t0, c, before, ch);
      }
    }
  }

  lemma FirstSendChannel(p: Pool.Pool, c: Pool.Conv, row: Session, text: string, env: Answers)
    requires RemoteFor(row, env).Some? && !env.first.ConcurrentTurn?
    requires Handled(p, c, Some(row), text, env).sent != []
    ensures Handled(p, c, Some(row), text, env).sent[0].ch == if Pool.Hit(p, c) then p.chans[c] else |p.made|
  {
  }

  /** Two first turns of one row through the handler.  The first generates a session
      and times out, so the row learns nothing.  The second generates another; its
      message goes to the first session all the same.  If that answers, the delta
      names the other one; if that socket dies, the two sends differ. */
  lemma TimeoutThenForeignAnswer(c: Pool.Conv, agent: AgentId, said: MitraTurn.BotTurn)
    ensures var row := FreshSession(agent, 0);
            var h1 := Handled(Pool.Empty(1, 60, 0), c, Some(row), "hi", Env("first", MitraTurn.TimedOut(None)));
            var h2 := Handled(h1.pool, c, Some(row), "hi", Env("second", MitraTurn.Reply(said)));
            var h3 := Handled(h1.pool, c, Some(row), "hi", Env("second", MitraTurn.ChannelClosed).(second := MitraTurn.Reply(said)));
            && h1.result == Err(Outstanding(MitraTurn.TimedOut(None))) && h1.sent == [Sent(0, "first", "hi")]
            && h2.result.Ok? && h2.result.value.delta.remoteId == Some("second") && h2.sent == [Sent(0, "first", "hi")]
            && h3.result.Ok? && h3.sent == [Sent(0, "first", "hi"), Sent(1, "second", "hi")]
  {
    var e, env1 := Pool.Empty(1, 60, 0), Env("first", MitraTurn.TimedOut(None));
    var p1 := Pool.AfterAcquire(e, c, "first", true);
    assert Pool.MadeRoom(e, c).chans == map[] && Pool.MadeRoom(e, c).made == [];
    Turns.AcquireMakes(e, c, "first", true);
    assert p1.made == [Pool.Made(c, "first")] && Pool.Hit(p1, c) && p1.chans[c] == 0;
    Turns.AcquireMakes(p1, c, "second", true);
    var p2 := Pool.RemoveAndClose(Pool.AfterAcquire(p1, c, "second", true), {c});
    assert c !in p2.chans;
    Turns.AcquireMakes(p2, c, "second", true);
  }

  /** A first turn alone on the pool, every channel opening. */
  function Env(generated: string, first: MitraTurn.Outcome): Answers {
    Answers(Some("profile"), Some(generated), true, first, [], [], true, first, false, None)
  }

  // -------------------------------------------------------------- the recovery

  /** Recovering a turn that timed out reads Mitra's record and sends nothing.  It
      yields a turn exactly when the record shows an answer; a completion poll that
      fails only means that the interview is not finalised now. */
  method Recover(row: Option<Session>, verdict: Option<TurnRecovery.Verdict>, env: Answers) returns (r: Option<AgentTurn>)
    ensures r.Some? <==>
            && row.Some? && row.value.remoteId.Some? && row.value.remoteProfile.Some?
            && verdict.Some? && verdict.value.outcome.Answered?
    ensures r.Some? ==>
              && r.value.text == verdict.value.botText
              && r.value.delta == Delta(AwaitingUser, row.value.remoteId, row.value.remoteProfile, None, None, None, None)
              && (r.value.terminal <==> env.pollEveryTurn && env.completed == Some(true))
              && forall sid :: HandlerContract(Some(Ref(sid, row.value)), Some(r.value.delta), r.value.terminal)
  {
    if row.None? || row.value.remoteId.None? || row.value.remoteProfile.None? {
      return None;
    }
    if verdict.None? || !verdict.value.outcome.Answered? {
      return None;
    }
    var done := env.pollEveryTurn && env.completed == Some(true);
    return Some(AgentTurn(verdict.value.botText,
                          AwaitingDelta(row.value.remoteId.value, row.value.remoteProfile, None), done));
  }
}
