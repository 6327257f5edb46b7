/** One Mitra socket: the settle loop that follows `authenticate`, and the
    send-and-await loop of a turn, over the frame queue that the reader fills. */
module MitraChannel {
  import opened Prelude
  import opened MitraTurn

  const POLL_SLICE := 50

  /** What is still queued or to arrive once everything up to `now` is dropped. */
  function After(fs: seq<Arrival>, now: Time): seq<Arrival> {
    if fs != [] && fs[0].at <= now then After(fs[1..], now) else fs
  }

  lemma {:induction false} AfterIsSuffix(fs: seq<Arrival>, now: Time)
    requires forall i, j | 0 <= i < j < |fs| :: fs[i].at <= fs[j].at
    ensures Timed(After(fs, now), now)
    ensures |After(fs, now)| <= |fs| && After(fs, now) == fs[|fs| - |After(fs, now)|..]
    ensures forall i | 0 <= i < |fs| - |After(fs, now)| :: fs[i].at <= now
  {
    if fs != [] && fs[0].at <= now {
      AfterIsSuffix(fs[1..], now);
      assert After(fs, now) == fs[1..][|fs| - 1 - |After(fs, now)|..];
    }
  }

  lemma SuffixTimed(fs: seq<Arrival>, n: nat, now: Time)
    requires n <= |fs| && (forall i, j | 0 <= i < j < |fs| :: fs[i].at <= fs[j].at)
    requires n < |fs| ==> now <= fs[n].at
    ensures Timed(fs[n..], now)
  {
  }

  lemma SuffixOrdered(fs: seq<Arrival>, n: nat, pending: Option<Frame>, queue: seq<Arrival>, start: Time)
    requires n <= |fs| && (forall i, j | 0 <= i < j < |fs| :: fs[i].at <= fs[j].at)
    requires WithPending(pending, queue, start) == fs[n..]
    ensures forall i, j | 0 <= i < j < |queue| :: queue[i].at <= queue[j].at
  {
    var m := if pending.Some? then n + 1 else n;
    assert queue == WithPending(pending, queue, start)[m - n..] == fs[m..];
  }

  /** A frame pushed back while settling is read first, at once. */
  function WithPending(pending: Option<Frame>, fs: seq<Arrival>, now: Time): seq<Arrival> {
    if pending.Some? then [Arrival(now, pending.value)] + fs else fs
  }

  lemma PendingTimed(pending: Option<Frame>, fs: seq<Arrival>, now: Time)
    requires Timed(fs, now)
    ensures Timed(WithPending(pending, fs, now), now)
  {
  }

  datatype Handshake = Settled(pending: Option<Frame>) | Died

  /** The settle window: it ends at the first acknowledgement or bot frame, the
      latter kept for the turn; otherwise when the window closes, if the socket lives. */
  function Settle(fs: seq<Arrival>, deadline: Time, closeAt: Option<Time>, acks: set<Source>): Handshake
    decreases |fs|
  {
    if fs != [] && fs[0].at < deadline then
      if IsAck(fs[0].frame, acks) then Settled(None)
      else if fs[0].frame.source.Bot? then Settled(Some(fs[0].frame))
      else Settle(fs[1..], deadline, closeAt, acks)
    else if closeAt.Some? && closeAt.value <= deadline then Died
    else Settled(None)
  }

  /** Mitra never acknowledges today; a frame whose source is a configured ack type would. */
  predicate IsAck(f: Frame, acks: set<Source>) {
    f.source in acks
  }

  class Channel {
    // Frames in the queue, then those the reader has yet to put there.
    var queue: seq<Arrival>
    var pending: Option<Frame>
    var turnLocked: bool
    var sent: seq<string>
    var clock: Time
    const closeAt: Option<Time>

    ghost predicate Ordered()
      reads this
    {
      forall i, j | 0 <= i < j < |queue| :: queue[i].at <= queue[j].at
    }

    predicate IsClosed()
      reads this
    {
      closeAt.Some? && closeAt.value <= clock
    }

    /** Open the socket at `now`; the reader will deliver `script` and die at `closeAt`. */
    constructor (script: seq<Arrival>, now: Time, closeAt: Option<Time>)
      requires Timed(script, now)
      ensures queue == script && pending.None? && !turnLocked && sent == [] && clock == now
      ensures this.closeAt == closeAt && Ordered()
    {
      queue, pending, turnLocked, sent, clock := script, None, false, [], now;
      this.closeAt := closeAt;
    }

    /** Blocking read with a timeout; the clock advances to whatever ends the wait.
        A frame pushed back is returned at once, whatever the timeout. */
    method TryGet(timeout: Time) returns (f: Option<Frame>)
      modifies this`queue, this`pending, this`clock
      ensures pending.None?
      ensures old(pending).Some? ==> f == old(pending) && queue == old(queue) && clock == old(clock)
      ensures old(pending).None? && f.Some? ==>
                && timeout > 0 && old(queue) != [] && old(queue)[0].at < old(clock) + timeout
                && f == Some(old(queue)[0].frame) && queue == old(queue)[1..]
                && clock == Max(old(clock), old(queue)[0].at)
      ensures old(pending).None? && f.None? ==>
                && (timeout <= 0 || old(queue) == [] || old(clock) + timeout <= old(queue)[0].at)
                && queue == old(queue) && clock == old(clock) + Max(0, timeout)
    {
      if pending.Some? {
        f, pending := pending, None;
        return;
      }
      if timeout <= 0 {
        return None;
      }
      if queue != [] && queue[0].at < clock + timeout {
        f := Some(queue[0].frame);
        clock := Max(clock, queue[0].at);
        queue := queue[1..];
      } else {
        f := None;
        clock := clock + timeout;
      }
    }

    /** Drop the stale frames in the queue, never the one pushed back. */
    method DrainStale()
      requires Ordered()
      modifies this`queue
      ensures queue == After(old(queue), clock) && Timed(queue, clock)
    {
      AfterIsSuffix(queue, clock);
      while queue != [] && queue[0].at <= clock
        invariant After(queue, clock) == After(old(queue), clock)
        decreases |queue|
      {
        queue := queue[1..];
      }
    }

    /** Settle after `authenticate`, polling in slices so that a socket dying
        mid-handshake is noticed early.  The reader delivers every frame before it dies. */
    method Authenticate(settle: Time, acks: set<Source>) returns (alive: bool)
      requires Timed(queue, clock) && pending.None? && settle >= 0
      requires closeAt.Some? ==> forall i | 0 <= i < |queue| :: queue[i].at < closeAt.value
      modifies this`queue, this`pending, this`clock
      ensures Timed(queue, clock) && clock <= old(clock) + settle
      ensures var h := Settle(old(queue), old(clock) + settle, closeAt, acks);
              alive == h.Settled? && pending == (if h.Settled? then h.pending else None)
      ensures exists n :: 0 <= n <= |old(queue)| && queue == old(queue)[n..]
    {
      var deadline := clock + settle;
      ghost var script := queue;
      ghost var n := 0;
      while true
        invariant n <= |script| && queue == script[n..] && clock <= deadline && pending.None?
        invariant old(clock) <= clock && (n < |script| ==> clock <= script[n].at)
        invariant Settle(queue, deadline, closeAt, acks) == Settle(script, deadline, closeAt, acks)
        decreases deadline - clock, |queue|
      {
        SuffixTimed(script, n, clock);
        var remaining := deadline - clock;
        if remaining <= 0 {
          return !IsClosed();
        }
        if IsClosed() {
          return false;
        }
        var f := TryGet(Min(remaining, POLL_SLICE));
        if f.None? {
          continue;
        }
        n := n + 1;
        SuffixTimed(script, n, clock);
        if IsAck(f.value, acks) {
          return true;
        }
        if f.value.source.Bot? {
          pending := f;
          return true;
        }
      }
    }

    /** One turn: claim the channel without blocking, drop stale frames, send once,
        accumulate.  The claim is released on every exit. */
    method SendAndAwaitTurn(text: string, timeout: Time, gap: Time) returns (out: Outcome)
      requires Ordered()
      modifies this`queue, this`pending, this`turnLocked, this`sent, this`clock
      ensures Ordered()
      ensures old(turnLocked) ==>
                out == ConcurrentTurn && turnLocked && sent == old(sent) && queue == old(queue)
                && pending == old(pending) && clock == old(clock)
      ensures !old(turnLocked) ==>
                var k := Clocks(old(clock) + timeout, gap, closeAt);
                var fs := WithPending(old(pending), After(old(queue), old(clock)), old(clock));
                var r := Scan(fs, old(clock), k, Silent(old(clock)));
                && out == r.outcome && clock == r.at && r.used <= |fs|
                && WithPending(pending, queue, old(clock)) == fs[r.used..]
                && (out.ChannelClosed? || Says(out, fs[..r.used]))
                && sent == old(sent) + [text] && !turnLocked
    {
      if turnLocked {
        return ConcurrentTurn;
      }
      turnLocked := true;
      DrainStale();
      sent := sent + [text];
      ghost var start := clock;
      ghost var fs := WithPending(pending, queue, start);
      var k := Clocks(clock + timeout, gap, closeAt);
      out := Accumulate(k);
      PendingTimed(old(pending), After(old(queue), start), start);
      OutcomeSays(fs, k, start);
      SuffixOrdered(fs, Scan(fs, start, k, Silent(start)).used, pending, queue, start);
      turnLocked := false;
    }

    ghost function Incoming(start: Time): seq<Arrival>
      reads this
    {
      WithPending(pending, queue, start)
    }

    /** The same read, seen as a step along what a turn begun at `start` has to hear. */
    method Await(timeout: Time, ghost start: Time) returns (f: Option<Frame>)
      requires timeout > 0 && (pending.Some? ==> clock == start)
      modifies this`queue, this`pending, this`clock
      ensures pending.None?
      ensures f.Some? ==>
                var before := old(Incoming(start));
                && before != [] && before[0].at < old(clock) + timeout && f.value == before[0].frame
                && Incoming(start) == before[1..] && clock == Max(old(clock), before[0].at)
      ensures f.None? ==>
                var before := old(Incoming(start));
                && (before == [] || old(clock) + timeout <= before[0].at)
                && Incoming(start) == before && clock == old(clock) + timeout
    {
      f := TryGet(timeout);
    }

    method Accumulate(k: Clocks) returns (out: Outcome)
      requires k.closeAt == closeAt
      modifies this`queue, this`pending, this`clock
      ensures var fs := WithPending(old(pending), old(queue), old(clock));
              var r := Scan(fs, old(clock), k, Silent(old(clock)));
              && out == r.outcome && clock == r.at && r.used <= |fs|
              && WithPending(pending, queue, old(clock)) == fs[r.used..]
    {
      ghost var fs := WithPending(pending, queue, clock);
      ghost var whole := Scan(fs, clock, k, Silent(clock));
      ghost var n: nat := 0;
      ghost var start := clock;
      var chunks: seq<string>, options: seq<Choice>, step: Option<int> := [], [], None;
      var control, spoken, lastRx := false, false, clock;
      while true
        invariant n <= |fs| && Incoming(start) == fs[n..]
        invariant pending.Some? ==> clock == start
        invariant Resumes(whole, n, Incoming(start), clock, k, Heard(chunks, options, step, control, spoken, lastRx))
        decreases |fs| - n
      {
        ghost var h := Heard(chunks, options, step, control, spoken, lastRx);
        ghost var rest, before := Incoming(start), clock;
        if IsClosed() {
          return ChannelClosed;
        }
        var remaining := k.deadline - clock;
        if spoken {
          remaining := Min(remaining, lastRx + k.gap - clock);
        }
        if remaining <= 0 {
          return Gone(chunks, options, step, control);
        }
        var f := Await(remaining, start);
        if f.None? {
          // The wait ended at the limit: the loop's own checks now decide.
          WaitEnds(whole, n, rest, before, k, h);
          return if IsClosed() then ChannelClosed else Gone(chunks, options, step, control);
        }
        n := n + 1;
        assert fs[n..] == rest[1..];
        ReadOne(whole, n - 1, rest, before, k, h);
        if f.value.source.User? {
          continue;
        }
        if f.value.source.System? && f.value.error != "" {
          return RemoteError(if f.value.msg != "" then f.value.msg else f.value.error);
        }
        if !f.value.source.Bot? {
          continue;
        }
        lastRx, spoken := clock, true;
        chunks, options, step, control := AddFragment(f.value, h, chunks, options, step, control);
        if f.value.final {
          return Reply(Finish(chunks, options, step, control));
        }
      }
    }
  }

  /** What one bot frame adds to the reply. */
  method AddFragment(f: Frame, ghost h: Heard, chunks: seq<string>, options: seq<Choice>, step: Option<int>, control: bool)
      returns (chunks': seq<string>, options': seq<Choice>, step': Option<int>, control': bool)
    requires h.chunks == chunks && h.options == options && h.step == step && h.control == control
    ensures forall now :: Heard(chunks', options', step', control', true, now) == Hear(h, f, now)
  {
    chunks', options', step', control' := chunks, options, step, control;
    if f.control {
      control' := true;
    }
    if f.msg != "" {
      chunks' := chunks' + [f.msg];
    }
    step' := Some(f.step);
    if f.options != [] {
      options' := f.options;
    }
  }

  /** The whole turn is what the loop makes of `rest`, `n` frames later. */
  ghost predicate Resumes(whole: Scanned, n: nat, rest: seq<Arrival>, now: Time, k: Clocks, h: Heard) {
    var r := Scan(rest, now, k, h);
    whole == r.(used := r.used + n)
  }

  /** Waiting until the limit in vain. */
  lemma WaitEnds(whole: Scanned, n: nat, rest: seq<Arrival>, now: Time, k: Clocks, h: Heard)
    requires Resumes(whole, n, rest, now, k, h)
    requires !Closed(k, now) && now < Limit(k, h) && (rest == [] || Limit(k, h) <= rest[0].at)
    ensures whole == Scanned(if Closed(k, Limit(k, h)) then ChannelClosed else Flush(h), Limit(k, h), n)
  {
  }

  /** One frame read in time, by its kind. */
  lemma ReadOne(whole: Scanned, n: nat, rest: seq<Arrival>, now: Time, k: Clocks, h: Heard)
    requires Resumes(whole, n, rest, now, k, h)
    requires !Closed(k, now) && now < Limit(k, h) && rest != [] && rest[0].at < Limit(k, h)
    ensures var f, t := rest[0].frame, Max(now, rest[0].at);
            if f.source.Bot? then
              if f.final then whole == Scanned(Reply(TurnOf(Hear(h, f, t))), t, n + 1)
              else Resumes(whole, n + 1, rest[1..], t, k, Hear(h, f, t))
            else if IsRemoteError(f) then
              whole == Scanned(RemoteError(if f.msg != "" then f.msg else f.error), t, n + 1)
            else Resumes(whole, n + 1, rest[1..], t, k, h)
  {
  }

  function Gone(chunks: seq<string>, options: seq<Choice>, step: Option<int>, control: bool): Outcome {
    if chunks != [] || control then Reply(Finish(chunks, options, step, control)) else TimedOut(step)
  }

  /** Join the chunks; a turn that held nothing but a leaked payload re-prompts. */
  function Finish(chunks: seq<string>, options: seq<Choice>, step: Option<int>, control: bool): BotTurn {
    var text := Concat(chunks);
    BotTurn(if text == "" && control then UNREADABLE else text, options, step)
  }

  /** The end of one turn and the start of the next.  What Mitra still says to a turn
      that was given up on is dropped when it is queued before the next send, which
      then hears only what comes later; if it arrives after that send and in time,
      and is a whole reply, it becomes the next turn's answer. */
  lemma LateReplyIsAnswerIff(late: Arrival, later: seq<Arrival>, next: Time, k: Clocks)
    requires Timed([late] + later, late.at) && StaysOpen(k, next)
    requires late.frame.source.Bot? && late.frame.final && late.at < k.deadline
    ensures var fs := WithPending(None, After([late] + later, next), next);
            var r := Scan(fs, next, k, Silent(next));
            if late.at <= next then fs == After(later, next)
            else r == Scanned(Reply(TurnOf(Hear(Silent(next), late.frame, late.at))), late.at, 1)
  {
    assert ([late] + later)[1..] == later;
  }

  /** A bot that opens the conversation while the handshake settles is not lost:
      its first frame is part of the next turn, which then cannot end in silence. */
  lemma OpeningFrameReachesTheTurn(f: Frame, later: seq<Arrival>, k: Clocks, start: Time)
    requires f.source.Bot? && Timed(later, start) && StaysOpen(k, start) && start < k.deadline
    ensures var fs := WithPending(Some(f), later, start);
            var r := Scan(fs, start, k, Silent(start));
            && 1 <= r.used <= |fs| && f.msg <= BotText(fs[..r.used])
            && (f.msg != "" ==> !r.outcome.TimedOut?)
  {
    var fs := WithPending(Some(f), later, start);
    TurnIsDecidedByPrefix(fs, k, start);
    var n := Scan(fs, start, k, Silent(start)).used;
    assert InTime(fs, 0, k, start);
    assert fs[..n][0] == fs[0];
    TimeoutIff(fs, k, start);
  }

  /** Settling keeps the first bot frame of the window unless an acknowledgement
      came first, and reports a dead socket exactly when neither came and it died. */
  lemma {:induction false} SettleKeepsFirstBotFrame(fs: seq<Arrival>, n: nat, deadline: Time, closeAt: Option<Time>, acks: set<Source>)
    requires n <= |fs|
    requires forall i | 0 <= i < n :: fs[i].at < deadline && !IsAck(fs[i].frame, acks) && !fs[i].frame.source.Bot?
    ensures n < |fs| && fs[n].at < deadline && fs[n].frame.source.Bot? && !IsAck(fs[n].frame, acks) ==>
              Settle(fs, deadline, closeAt, acks) == Settled(Some(fs[n].frame))
    ensures n < |fs| && fs[n].at < deadline && IsAck(fs[n].frame, acks) ==>
              Settle(fs, deadline, closeAt, acks) == Settled(None)
    ensures n == |fs| || deadline <= fs[n].at ==>
              Settle(fs, deadline, closeAt, acks) ==
              if closeAt.Some? && closeAt.value <= deadline then Died else Settled(None)
    decreases n
  {
    if n > 0 {
      SettleKeepsFirstBotFrame(fs[1..], n - 1, deadline, closeAt, acks);
    }
  }
}
