/** One turn on a Mitra socket, as a function of the frames that arrive and when:
    the pure fold behind the channel's accumulation loop, and what it yields. */
module MitraTurn {
  import opened Prelude

  type Time = int

  datatype Source = Bot | User | System | Other(name: string)

  datatype Choice = Choice(id: string, caption: string, value: string)

  datatype Frame = Frame(source: Source, msg: string, error: string, step: int,
                         options: seq<Choice>, final: bool, control: bool)

  datatype Arrival = Arrival(at: Time, frame: Frame)

  datatype BotTurn = BotTurn(text: string, options: seq<Choice>, step: Option<int>)

  datatype Outcome =
    | Reply(turn: BotTurn)
    | TimedOut(step: Option<int>)
    | RemoteError(why: string)
    | ChannelClosed
    | ConcurrentTurn

  const UNREADABLE := "Sorry, I didn't quite catch that. Could you say it again?"

  /** What the loop has accumulated from bot frames. */
  datatype Heard = Heard(chunks: seq<string>, options: seq<Choice>, step: Option<int>, control: bool,
                         spoken: bool, lastRx: Time)

  /** The clocks of one turn: the turn deadline, the idle gap, and the moment the
      socket dies, if it does. */
  datatype Clocks = Clocks(deadline: Time, gap: Time, closeAt: Option<Time>)

  datatype Scanned = Scanned(outcome: Outcome, at: Time, used: nat)

  predicate Closed(k: Clocks, now: Time) {
    k.closeAt.Some? && k.closeAt.value <= now
  }

  function Min(a: int, b: int): int {
    if a <= b then a else b
  }

  function Max(a: int, b: int): int {
    if a <= b then b else a
  }

  /** The idle gap only counts once the bot has started speaking. */
  function Limit(k: Clocks, h: Heard): Time {
    if h.spoken then Min(k.deadline, h.lastRx + k.gap) else k.deadline
  }

  function Concat(ss: seq<string>): string {
    if ss == [] then "" else ss[0] + Concat(ss[1..])
  }

  function TurnOf(h: Heard): BotTurn {
    var text := Concat(h.chunks);
    BotTurn(if text == "" && h.control then UNREADABLE else text, h.options, h.step)
  }

  function Flush(h: Heard): Outcome {
    if h.chunks != [] || h.control then Reply(TurnOf(h)) else TimedOut(h.step)
  }

  function Hear(h: Heard, f: Frame, now: Time): Heard {
    Heard(if f.msg != "" then h.chunks + [f.msg] else h.chunks,
          if f.options != [] then f.options else h.options,
          Some(f.step),
          h.control || f.control,
          true,
          now)
  }

  predicate IsRemoteError(f: Frame) {
    f.source.System? && f.error != ""
  }

  /** Frames the loop discards: echoes of the user, and anything that is neither
      the bot nor a system error. */
  predicate Ignored(f: Frame) {
    !f.source.Bot? && !IsRemoteError(f)
  }

  /** The accumulation loop as a fold over the frames still to arrive. */
  function Scan(fs: seq<Arrival>, now: Time, k: Clocks, h: Heard): Scanned
    decreases |fs|
  {
    var limit := Limit(k, h);
    if Closed(k, now) then Scanned(ChannelClosed, now, 0)
    else if limit <= now then Scanned(Flush(h), now, 0)
    else if fs == [] || limit <= fs[0].at then
      Scanned(if Closed(k, limit) then ChannelClosed else Flush(h), limit, 0)
    else
      var f, t := fs[0].frame, Max(now, fs[0].at);
      if f.source.Bot? then
        var h' := Hear(h, f, t);
        if f.final then Scanned(Reply(TurnOf(h')), t, 1) else Later(Scan(fs[1..], t, k, h'))
      else if IsRemoteError(f) then Scanned(RemoteError(if f.msg != "" then f.msg else f.error), t, 1)
      else Later(Scan(fs[1..], t, k, h))
  }

  function Later(s: Scanned): Scanned {
    s.(used := s.used + 1)
  }

  function Silent(now: Time): Heard {
    Heard([], [], None, false, false, now)
  }

  // -------------------------------------------------- timing of the frames

  /** Frames arrive in order, none before `now`. */
  ghost predicate Timed(fs: seq<Arrival>, now: Time) {
    && (forall i | 0 <= i < |fs| :: now <= fs[i].at)
    && (forall i, j | 0 <= i < j < |fs| :: fs[i].at <= fs[j].at)
  }

  /** What the bot has said in the first `n` frames. */
  function HeardIn(fs: seq<Arrival>, n: nat, start: Time): Heard
    requires n <= |fs|
  {
    if n == 0 then Silent(start)
    else
      var h, a := HeardIn(fs, n - 1, start), fs[n - 1];
      if a.frame.source.Bot? then Hear(h, a.frame, a.at) else h
  }

  /** Frame `i` arrives before the loop would have given up waiting for it. */
  predicate InTime(fs: seq<Arrival>, i: nat, k: Clocks, start: Time)
    requires i < |fs|
  {
    fs[i].at < Limit(k, HeardIn(fs, i, start))
  }

  predicate Ends(f: Frame) {
    (f.source.Bot? && f.final) || IsRemoteError(f)
  }

  /** The loop consumes exactly the first `n` frames. */
  ghost predicate Consumes(fs: seq<Arrival>, n: nat, k: Clocks, start: Time) {
    && n <= |fs|
    && (forall i | 0 <= i < n :: InTime(fs, i, k, start))
    && (forall i | 0 <= i < n - 1 :: !Ends(fs[i].frame))
    && (n == 0 || !Ends(fs[n - 1].frame) ==> n == |fs| || !InTime(fs, n, k, start))
  }

  predicate StaysOpen(k: Clocks, start: Time) {
    k.closeAt.None? || (k.deadline < k.closeAt.value && start < k.closeAt.value)
  }

  function LastAt(fs: seq<Arrival>, n: nat, start: Time): Time
    requires n <= |fs|
  {
    if n == 0 then start else fs[n - 1].at
  }

  /** What a turn that consumes `n` frames comes to. */
  function Decided(fs: seq<Arrival>, n: nat, start: Time): Outcome
    requires n <= |fs|
  {
    if n > 0 && IsRemoteError(fs[n - 1].frame) then
      RemoteError(if fs[n - 1].frame.msg != "" then fs[n - 1].frame.msg else fs[n - 1].frame.error)
    else if n > 0 && Ends(fs[n - 1].frame) then Reply(TurnOf(HeardIn(fs, n, start)))
    else Flush(HeardIn(fs, n, start))
  }

  function DecidedAt(fs: seq<Arrival>, n: nat, k: Clocks, start: Time): Time
    requires n <= |fs|
  {
    if n > 0 && Ends(fs[n - 1].frame) then fs[n - 1].at
    else Max(LastAt(fs, n, start), Limit(k, HeardIn(fs, n, start)))
  }

  /** Having read `i` frames, the loop continues as a fold over the rest. */
  lemma {:induction false} ScanFrom(fs: seq<Arrival>, i: nat, n: nat, k: Clocks, start: Time)
    requires Timed(fs, start) && Consumes(fs, n, k, start) && i <= n && !Closed(k, LastLook(fs, n, k, start))
    requires i == n && n > 0 ==> !Ends(fs[n - 1].frame)
    ensures Scan(fs[i..], LastAt(fs, i, start), k, HeardIn(fs, i, start))
            == Scanned(Decided(fs, n, start), DecidedAt(fs, n, k, start), n - i)
    decreases n - i
  {
    LooksInOrder(fs, i, n, k, start);
    if i == n {
      ScanStops(fs, n, k, start);
    } else if Ends(fs[i].frame) {
      ScanEnds(fs, i, k, start);
    } else {
      ScanGoesOn(fs, i, k, start);
      ScanFrom(fs, i + 1, n, k, start);
    }
  }

  /** A frame in time that ends the turn. */
  lemma ScanEnds(fs: seq<Arrival>, i: nat, k: Clocks, start: Time)
    requires Timed(fs, start) && i < |fs| && InTime(fs, i, k, start) && Ends(fs[i].frame)
    requires !Closed(k, LastAt(fs, i, start)) && LastAt(fs, i, start) <= fs[i].at
    ensures Scan(fs[i..], LastAt(fs, i, start), k, HeardIn(fs, i, start))
            == Scanned(Decided(fs, i + 1, start), DecidedAt(fs, i + 1, k, start), 1)
  {
    assert fs[i..][0] == fs[i];
  }

  /** A frame in time that does not. */
  lemma ScanGoesOn(fs: seq<Arrival>, i: nat, k: Clocks, start: Time)
    requires Timed(fs, start) && i < |fs| && InTime(fs, i, k, start) && !Ends(fs[i].frame)
    requires !Closed(k, LastAt(fs, i, start)) && LastAt(fs, i, start) <= fs[i].at
    ensures Scan(fs[i..], LastAt(fs, i, start), k, HeardIn(fs, i, start))
            == Later(Scan(fs[i + 1..], LastAt(fs, i + 1, start), k, HeardIn(fs, i + 1, start)))
  {
    assert fs[i..][0] == fs[i] && fs[i..][1..] == fs[i + 1..];
  }

  /** No frame is in time any more: flush. */
  lemma ScanStops(fs: seq<Arrival>, n: nat, k: Clocks, start: Time)
    requires n <= |fs| && (n == |fs| || !InTime(fs, n, k, start))
    requires !Closed(k, LastLook(fs, n, k, start))
    requires n > 0 ==> !Ends(fs[n - 1].frame)
    ensures Scan(fs[n..], LastAt(fs, n, start), k, HeardIn(fs, n, start))
            == Scanned(Decided(fs, n, start), DecidedAt(fs, n, k, start), 0)
  {
    if n < |fs| {
      assert fs[n..][0] == fs[n];
    }
  }

  /** The last moment at which the loop looks whether the socket is dead. */
  function LastLook(fs: seq<Arrival>, n: nat, k: Clocks, start: Time): Time
    requires n <= |fs|
  {
    if n > 0 && Ends(fs[n - 1].frame) then LastAt(fs, n - 1, start) else DecidedAt(fs, n, k, start)
  }

  lemma LooksInOrder(fs: seq<Arrival>, i: nat, n: nat, k: Clocks, start: Time)
    requires Timed(fs, start) && n <= |fs| && i <= n
    requires i == n && n > 0 ==> !Ends(fs[n - 1].frame)
    ensures LastAt(fs, i, start) <= LastLook(fs, n, k, start)
    ensures i < n ==> LastAt(fs, i, start) <= fs[i].at
  {
  }

  /** A socket dead by then: the turn comes to nothing. */
  lemma {:induction false} ScanDies(fs: seq<Arrival>, i: nat, n: nat, k: Clocks, start: Time)
    requires Timed(fs, start) && Consumes(fs, n, k, start) && i <= n && Closed(k, LastLook(fs, n, k, start))
    requires i == n && n > 0 ==> !Ends(fs[n - 1].frame)
    ensures Scan(fs[i..], LastAt(fs, i, start), k, HeardIn(fs, i, start)).outcome == ChannelClosed
    decreases n - i
  {
    LooksInOrder(fs, i, n, k, start);
    if !Closed(k, LastAt(fs, i, start)) {
      if i == n {
        if n < |fs| {
          assert fs[n..][0] == fs[n];
        }
      } else {
        assert !Ends(fs[i].frame);
        ScanGoesOn(fs, i, k, start);
        ScanDies(fs, i + 1, n, k, start);
      }
    }
  }

  /** There is always a point up to which the frames are consumed. */
  lemma CutExists(fs: seq<Arrival>, k: Clocks, start: Time) returns (n: nat)
    ensures Consumes(fs, n, k, start)
  {
    n := 0;
    while n < |fs| && InTime(fs, n, k, start) && (n == 0 || !Ends(fs[n - 1].frame))
      invariant n <= |fs|
      invariant forall i | 0 <= i < n :: InTime(fs, i, k, start)
      invariant forall i | 0 <= i < n - 1 :: !Ends(fs[i].frame)
    {
      n := n + 1;
    }
  }

  /** Every turn, on any socket.  There is one cut: the frames up to the first that
      ends the turn, or up to the first that comes too late.  If the socket is dead
      at the loop's last look the turn is lost with everything heard; otherwise it
      is decided by exactly the frames of the cut, at the time they determine. */
  lemma TurnIsDecided(fs: seq<Arrival>, k: Clocks, start: Time) returns (n: nat)
    requires Timed(fs, start)
    ensures Consumes(fs, n, k, start)
    ensures var r := Scan(fs, start, k, Silent(start));
            if Closed(k, LastLook(fs, n, k, start)) then r.outcome == ChannelClosed
            else r == Scanned(Decided(fs, n, start), DecidedAt(fs, n, k, start), n)
  {
    n := CutExists(fs, k, start);
    assert fs[0..] == fs;
    if Closed(k, LastLook(fs, n, k, start)) {
      ScanDies(fs, 0, n, k, start);
    } else {
      ScanFrom(fs, 0, n, k, start);
    }
  }

  /** On a socket that outlives the deadline the turn is the concatenation of what
      the bot said up to the cut, its last choices and its last step, flushed if no
      frame ended the turn. */
  lemma TurnIsDecidedByPrefix(fs: seq<Arrival>, k: Clocks, start: Time)
    requires Timed(fs, start) && StaysOpen(k, start)
    ensures var r := Scan(fs, start, k, Silent(start));
            && Consumes(fs, r.used, k, start)
            && r.outcome == Decided(fs, r.used, start)
            && r.at == DecidedAt(fs, r.used, k, start)
  {
    var n := TurnIsDecided(fs, k, start);
    OpenThroughout(fs, n, k, start);
  }

  lemma OpenThroughout(fs: seq<Arrival>, n: nat, k: Clocks, start: Time)
    requires Timed(fs, start) && Consumes(fs, n, k, start) && StaysOpen(k, start)
    ensures !Closed(k, LastLook(fs, n, k, start))
  {
    if n > 0 {
      assert InTime(fs, n - 1, k, start);
      if n > 1 {
        assert InTime(fs, n - 2, k, start);
      }
    }
  }

  // ------------------------------------------------------- what was said

  function BotText(fs: seq<Arrival>): string {
    if fs == [] then ""
    else (if fs[0].frame.source.Bot? then fs[0].frame.msg else "") + BotText(fs[1..])
  }

  lemma {:induction false} ConcatAppend(a: seq<string>, s: string)
    ensures Concat(a + [s]) == Concat(a) + s
  {
    if a == [] {
      assert [] + [s] == [s];
    } else {
      assert (a + [s])[0] == a[0] && (a + [s])[1..] == a[1..] + [s];
      ConcatAppend(a[1..], s);
    }
  }

  lemma {:induction false} BotTextAppend(fs: seq<Arrival>, a: Arrival)
    ensures BotText(fs + [a]) == BotText(fs) + if a.frame.source.Bot? then a.frame.msg else ""
  {
    if fs == [] {
      assert [] + [a] == [a] && [a][1..] == [];
    } else {
      assert (fs + [a])[0] == fs[0] && (fs + [a])[1..] == fs[1..] + [a];
      BotTextAppend(fs[1..], a);
    }
  }

  /** The text of a turn is the in-order concatenation of the bot's messages;
      nothing the user or the system said contributes. */
  lemma {:induction false} HeardText(fs: seq<Arrival>, n: nat, start: Time)
    requires n <= |fs|
    ensures Concat(HeardIn(fs, n, start).chunks) == BotText(fs[..n])
    ensures HeardIn(fs, n, start).chunks == [] <==> BotText(fs[..n]) == ""
    ensures HeardIn(fs, n, start).spoken <==> exists i | 0 <= i < n :: fs[i].frame.source.Bot?
    ensures HeardIn(fs, n, start).control <==> exists i | 0 <= i < n :: fs[i].frame.source.Bot? && fs[i].frame.control
    ensures HeardIn(fs, n, start).step.Some? <==> HeardIn(fs, n, start).spoken
  {
    if n > 0 {
      HeardText(fs, n - 1, start);
      assert fs[..n] == fs[..n - 1] + [fs[n - 1]];
      BotTextAppend(fs[..n - 1], fs[n - 1]);
      var h := HeardIn(fs, n - 1, start);
      if fs[n - 1].frame.source.Bot? && fs[n - 1].frame.msg != "" {
        ConcatAppend(h.chunks, fs[n - 1].frame.msg);
      }
    }
  }

  // ---------------------------------------------- what an outcome has to say

  ghost predicate Leaked(fs: seq<Arrival>) {
    exists i | 0 <= i < |fs| :: fs[i].frame.source.Bot? && fs[i].frame.control
  }

  /** The choices of the last bot frame that carries any. */
  ghost predicate LastChoices(choices: seq<Choice>, fs: seq<Arrival>) {
    if choices == [] then forall i | 0 <= i < |fs| && fs[i].frame.source.Bot? :: fs[i].frame.options == []
    else
      exists i | 0 <= i < |fs| ::
        && fs[i].frame.source.Bot? && fs[i].frame.options == choices
        && forall j | i < j < |fs| && fs[j].frame.source.Bot? :: fs[j].frame.options == []
  }

  /** The step of the last bot frame. */
  ghost predicate LastStep(step: Option<int>, fs: seq<Arrival>) {
    match step
    case None => forall i | 0 <= i < |fs| :: !fs[i].frame.source.Bot?
    case Some(x) =>
      exists i | 0 <= i < |fs| ::
        && fs[i].frame.source.Bot? && fs[i].frame.step == x
        && forall j | i < j < |fs| :: !fs[j].frame.source.Bot?
  }

  /** What an outcome says of the frames consumed, and what it may not leave out. */
  ghost predicate Says(o: Outcome, fs: seq<Arrival>) {
    match o
    case Reply(turn) =>
      && turn.text == (if BotText(fs) == "" && Leaked(fs)
                       then "Sorry, I didn't quite catch that. Could you say it again?" else BotText(fs))
      && LastChoices(turn.options, fs) && LastStep(turn.step, fs)
    case TimedOut(step) => BotText(fs) == "" && !Leaked(fs) && LastStep(step, fs)
    case RemoteError(why) =>
      && fs != [] && fs[|fs| - 1].frame.source.System? && fs[|fs| - 1].frame.error != ""
      && why == (if fs[|fs| - 1].frame.msg != "" then fs[|fs| - 1].frame.msg else fs[|fs| - 1].frame.error)
    case ChannelClosed => true
    case ConcurrentTurn => false
  }

  lemma {:induction false} HeardChoices(fs: seq<Arrival>, n: nat, start: Time)
    requires n <= |fs|
    ensures LastChoices(HeardIn(fs, n, start).options, fs[..n])
    ensures LastStep(HeardIn(fs, n, start).step, fs[..n])
  {
    if n > 0 {
      HeardChoices(fs, n - 1, start);
      ChoicesNext(HeardIn(fs, n - 1, start).options, fs[..n - 1], fs[n - 1]);
      StepNext(HeardIn(fs, n - 1, start).step, fs[..n - 1], fs[n - 1]);
      assert fs[..n] == fs[..n - 1] + [fs[n - 1]];
    }
  }

  lemma ChoicesNext(choices: seq<Choice>, fs: seq<Arrival>, a: Arrival)
    requires LastChoices(choices, fs)
    ensures LastChoices(if a.frame.source.Bot? && a.frame.options != [] then a.frame.options else choices, fs + [a])
  {
    var all := fs + [a];
    if a.frame.source.Bot? && a.frame.options != [] {
      assert all[|fs|] == a;
    } else if choices != [] {
      var i :| 0 <= i < |fs| && fs[i].frame.source.Bot? && fs[i].frame.options == choices
               && forall j | i < j < |fs| && fs[j].frame.source.Bot? :: fs[j].frame.options == [];
      assert all[i] == fs[i];
    }
  }

  lemma StepNext(step: Option<int>, fs: seq<Arrival>, a: Arrival)
    requires LastStep(step, fs)
    ensures LastStep(if a.frame.source.Bot? then Some(a.frame.step) else step, fs + [a])
  {
    var all := fs + [a];
    if a.frame.source.Bot? {
      assert all[|fs|] == a;
    } else if step.Some? {
      var i :| 0 <= i < |fs| && fs[i].frame.source.Bot? && fs[i].frame.step == step.value
               && forall j | i < j < |fs| :: !fs[j].frame.source.Bot?;
      assert all[i] == fs[i];
    }
  }

  /** Of any turn, on any socket: its outcome says exactly what the bot said in the
      frames it consumed.  A reply is their whole text, or the re-prompt when that is
      empty and a payload leaked; a timeout has nothing to leave out. */
  lemma OutcomeSays(fs: seq<Arrival>, k: Clocks, start: Time)
    requires Timed(fs, start)
    ensures var r := Scan(fs, start, k, Silent(start));
            r.outcome.ChannelClosed? || (r.used <= |fs| && Says(r.outcome, fs[..r.used]))
  {
    var n := TurnIsDecided(fs, k, start);
    if !Scan(fs, start, k, Silent(start)).outcome.ChannelClosed? {
      DecidedSays(fs, n, start);
    }
  }

  lemma DecidedSays(fs: seq<Arrival>, n: nat, start: Time)
    requires n <= |fs|
    ensures Says(Decided(fs, n, start), fs[..n])
  {
    HeardText(fs, n, start);
    HeardChoices(fs, n, start);
    LeakedIs(fs, n);
  }

  lemma LeakedIs(fs: seq<Arrival>, n: nat)
    requires n <= |fs|
    ensures Leaked(fs[..n]) <==> exists i | 0 <= i < n :: fs[i].frame.source.Bot? && fs[i].frame.control
  {
    assert forall i | 0 <= i < n :: fs[..n][i] == fs[i];
  }

  /** When a frame is in time: before the deadline, and within the gap after the last
      bot frame before it, if there is one. */
  lemma InTimeIff(fs: seq<Arrival>, i: nat, k: Clocks, start: Time)
    requires i < |fs|
    ensures InTime(fs, i, k, start) <==>
            && fs[i].at < k.deadline
            && forall j | 0 <= j < i && fs[j].frame.source.Bot? && (forall m | j < m < i :: !fs[m].frame.source.Bot?) ::
                 fs[i].at < fs[j].at + k.gap
  {
    LastHeard(fs, i, start);
  }

  lemma {:induction false} LastHeard(fs: seq<Arrival>, n: nat, start: Time)
    requires n <= |fs|
    ensures var h := HeardIn(fs, n, start);
            if h.spoken then
              exists j | 0 <= j < n :: fs[j].frame.source.Bot? && h.lastRx == fs[j].at && forall m | j < m < n :: !fs[m].frame.source.Bot?
            else forall j | 0 <= j < n :: !fs[j].frame.source.Bot?
  {
    if n > 0 {
      LastHeard(fs, n - 1, start);
    }
  }

  /** The turn times out exactly when the frames in time carry no bot text and no
      leaked payload; it then reports the last step. */
  lemma TimeoutIff(fs: seq<Arrival>, k: Clocks, start: Time)
    requires Timed(fs, start) && StaysOpen(k, start)
    ensures var r := Scan(fs, start, k, Silent(start));
            && r.used <= |fs|
            && (r.outcome.TimedOut? <==>
                  && (r.used == 0 || !Ends(fs[r.used - 1].frame))
                  && BotText(fs[..r.used]) == ""
                  && forall i | 0 <= i < r.used :: !(fs[i].frame.source.Bot? && fs[i].frame.control))
  {
    TurnIsDecidedByPrefix(fs, k, start);
    HeardText(fs, Scan(fs, start, k, Silent(start)).used, start);
  }

  /** Before the first bot frame only the turn deadline counts: a turn that heard
      no bot gives up at the deadline and not before. */
  lemma SilenceWaitsForDeadline(fs: seq<Arrival>, k: Clocks, start: Time)
    requires Timed(fs, start) && StaysOpen(k, start) && start <= k.deadline
    requires forall i | 0 <= i < |fs| && fs[i].at < k.deadline :: Ignored(fs[i].frame)
    ensures var r := Scan(fs, start, k, Silent(start)); r.outcome == TimedOut(None) && r.at == k.deadline
  {
    TurnIsDecidedByPrefix(fs, k, start);
    SilentCut(fs, Scan(fs, start, k, Silent(start)).used, k, start);
  }

  lemma SilentCut(fs: seq<Arrival>, n: nat, k: Clocks, start: Time)
    requires Timed(fs, start) && Consumes(fs, n, k, start) && start <= k.deadline
    requires forall i | 0 <= i < |fs| && fs[i].at < k.deadline :: Ignored(fs[i].frame)
    ensures Decided(fs, n, start) == TimedOut(None) && DecidedAt(fs, n, k, start) == k.deadline
  {
    Unspoken(fs, n, k, start);
    if n > 0 {
      Unspoken(fs, n - 1, k, start);
      assert InTime(fs, n - 1, k, start);
    }
  }

  lemma {:induction false} Unspoken(fs: seq<Arrival>, n: nat, k: Clocks, start: Time)
    requires n <= |fs| && forall i | 0 <= i < n :: InTime(fs, i, k, start)
    requires forall i | 0 <= i < |fs| && fs[i].at < k.deadline :: Ignored(fs[i].frame)
    ensures HeardIn(fs, n, start) == Silent(start)
  {
    if n > 0 {
      Unspoken(fs, n - 1, k, start);
      assert InTime(fs, n - 1, k, start);
    }
  }

  /** The bot spoke in the first `n` frames, gave nothing to show and did not end
      the turn, and its idle gap runs out before the deadline. */
  ghost predicate EmptyThenSilent(fs: seq<Arrival>, n: nat, k: Clocks, start: Time) {
    && n <= |fs|
    && (n == 0 || !Ends(fs[n - 1].frame))
    && (exists i | 0 <= i < n :: fs[i].frame.source.Bot?)
    && (forall i | 0 <= i < n && fs[i].frame.source.Bot? :: fs[i].frame.msg == "" && !fs[i].frame.control)
    && HeardIn(fs, n, start).lastRx + k.gap < k.deadline
  }

  /** A timeout before the deadline happens exactly when the bot has spoken, has
      said nothing showable, and then stayed silent for the idle gap: an empty
      chunk starts the gap clock with nothing to flush. */
  lemma EarlyTimeoutIff(fs: seq<Arrival>, k: Clocks, start: Time)
    requires Timed(fs, start) && StaysOpen(k, start) && start < k.deadline && k.gap >= 0
    ensures var r := Scan(fs, start, k, Silent(start));
            r.outcome.TimedOut? && r.at < k.deadline <==> EmptyThenSilent(fs, r.used, k, start)
  {
    TurnIsDecidedByPrefix(fs, k, start);
    EarlyCut(fs, Scan(fs, start, k, Silent(start)).used, k, start);
  }

  lemma EarlyCut(fs: seq<Arrival>, n: nat, k: Clocks, start: Time)
    requires Timed(fs, start) && Consumes(fs, n, k, start) && start < k.deadline && k.gap >= 0
    ensures Decided(fs, n, start).TimedOut? && DecidedAt(fs, n, k, start) < k.deadline
            <==> EmptyThenSilent(fs, n, k, start)
  {
    HeardText(fs, n, start);
    BotTextEmptyIff(fs[..n]);
    if n == 0 || !Ends(fs[n - 1].frame) {
      FlushTime(fs, n, k, start);
    }
    assert forall i | 0 <= i < n :: fs[..n][i] == fs[i];
  }

  lemma {:induction false} BotTextEmptyIff(fs: seq<Arrival>)
    ensures BotText(fs) == "" <==> forall i | 0 <= i < |fs| && fs[i].frame.source.Bot? :: fs[i].frame.msg == ""
  {
    if fs != [] {
      BotTextEmptyIff(fs[1..]);
      assert forall i | 1 <= i < |fs| :: fs[i] == fs[1..][i - 1];
    }
  }

  /** A flush comes at the deadline, or earlier when the gap after the last bot frame runs out. */
  lemma FlushTime(fs: seq<Arrival>, n: nat, k: Clocks, start: Time)
    requires Timed(fs, start) && Consumes(fs, n, k, start) && start < k.deadline && k.gap >= 0
    requires n > 0 ==> !Ends(fs[n - 1].frame)
    ensures var h := HeardIn(fs, n, start);
            DecidedAt(fs, n, k, start) < k.deadline <==> h.spoken && h.lastRx + k.gap < k.deadline
  {
    if n > 0 {
      assert InTime(fs, n - 1, k, start);
    }
  }

  /** Whatever happens on the socket, the turn is over by its deadline. */
  lemma {:induction false} OverByDeadline(fs: seq<Arrival>, now: Time, k: Clocks, h: Heard)
    requires now <= k.deadline
    ensures now <= Scan(fs, now, k, h).at <= k.deadline
    decreases |fs|
  {
    var limit := Limit(k, h);
    if Closed(k, now) || limit <= now || fs == [] || limit <= fs[0].at {
    } else {
      var f, t := fs[0].frame, Max(now, fs[0].at);
      if f.source.Bot? {
        if !f.final {
          OverByDeadline(fs[1..], t, k, Hear(h, f, t));
        }
      } else if !IsRemoteError(f) {
        OverByDeadline(fs[1..], t, k, h);
      }
    }
  }

  // --------------------------------------------------------- echo immunity

  /** The frames without the ignored ones. */
  function Relevant(fs: seq<Arrival>): seq<Arrival> {
    if fs == [] then []
    else (if Ignored(fs[0].frame) then [] else [fs[0]]) + Relevant(fs[1..])
  }

  lemma {:induction false} RelevantLater(fs: seq<Arrival>, t: Time)
    requires forall i | 0 <= i < |fs| :: t <= fs[i].at
    ensures Relevant(fs) == [] || t <= Relevant(fs)[0].at
  {
    if fs != [] {
      RelevantLater(fs[1..], t);
    }
  }

  /** The reader delivers every frame before the socket dies. */
  ghost predicate DeliveredAlive(fs: seq<Arrival>, now: Time, k: Clocks) {
    k.closeAt.Some? ==> now < k.closeAt.value && forall i | 0 <= i < |fs| :: fs[i].at < k.closeAt.value
  }

  lemma AliveTail(fs: seq<Arrival>, now: Time, k: Clocks)
    requires fs != [] && Timed(fs, now) && DeliveredAlive(fs, now, k)
    ensures Timed(fs[1..], fs[0].at) && DeliveredAlive(fs[1..], fs[0].at, k)
  {
  }

  /** Echoes and chatter never change a turn, on any socket: dropping every ignored
      frame gives the same outcome at the same moment. */
  lemma {:induction false} EchoesAreInvisible(fs: seq<Arrival>, now: Time, now': Time, k: Clocks, h: Heard)
    requires Timed(fs, now) && now' <= now
    requires now < Limit(k, h) && DeliveredAlive(fs, now, k)
    ensures Scan(fs, now, k, h).outcome == Scan(Relevant(fs), now', k, h).outcome
    ensures Scan(fs, now, k, h).at == Scan(Relevant(fs), now', k, h).at
    decreases |fs|
  {
    var limit := Limit(k, h);
    if fs == [] {
    } else if limit <= fs[0].at {
      RelevantLater(fs, fs[0].at);
    } else {
      var f, t := fs[0].frame, fs[0].at;
      AliveTail(fs, now, k);
      if Ignored(f) {
        assert Relevant(fs) == Relevant(fs[1..]);
        EchoesAreInvisible(fs[1..], t, now', k, h);
      } else {
        assert Relevant(fs)[0] == fs[0] && Relevant(fs)[1..] == Relevant(fs[1..]);
        if f.source.Bot? && !f.final {
          var h' := Hear(h, f, t);
          if t < Limit(k, h') {
            EchoesAreInvisible(fs[1..], t, t, k, h');
          }
        }
      }
    }
  }
}
