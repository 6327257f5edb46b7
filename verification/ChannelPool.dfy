/** The pool of Mitra channels: least-recently-used, bounded, held in an ordered
    map and a last-use map that must agree.  Each action is one critical section
    of the pool's lock, so a run is any interleaving of request threads and the
    reaper; a channel that a thread has taken out but not yet closed is in hand. */
module ChannelPool {
  import opened Prelude

  type Conv = nat
  type Chan = nat
  type Time = int

  /** What a channel was opened for. */
  datatype Made = Made(conv: Conv, remote: string)

  datatype Pool = Pool(
    max: int,
    idle: Time,
    order: seq<Conv>,
    chans: map<Conv, Chan>,
    lastUsed: map<Conv, Time>,
    made: seq<Made>,
    closed: set<Chan>,
    inHand: set<Chan>,
    dead: set<Chan>,
    now: Time)

  datatype Acquired = Got(ch: Chan) | Refused | NoRoom

  // ------------------------------------------------------------ the actions

  /** The sequence without the elements of `gone`. */
  function Except(s: seq<Conv>, gone: set<Conv>): seq<Conv> {
    if s == [] then []
    else (if s[0] in gone then [] else [s[0]]) + Except(s[1..], gone)
  }

  function Elements(s: seq<Conv>): set<Conv> {
    set c | c in s
  }

  /** Both maps without `gone`. */
  function Remove(p: Pool, gone: set<Conv>): Pool {
    p.(order := Except(p.order, gone), chans := p.chans - gone, lastUsed := p.lastUsed - gone)
  }

  /** The channels pooled for `gone`. */
  function Held(p: Pool, gone: set<Conv>): set<Chan> {
    set c | c in gone && c in p.chans :: p.chans[c]
  }

  function RemoveAndClose(p: Pool, gone: set<Conv>): Pool {
    Remove(p, gone).(closed := p.closed + Held(p, gone))
  }

  function Take(p: Pool, gone: set<Conv>): Pool {
    Remove(p, gone).(inHand := p.inHand + Held(p, gone))
  }

  predicate Alive(p: Pool, ch: Chan) {
    ch !in p.closed && ch !in p.dead
  }

  predicate Hit(p: Pool, c: Conv) {
    c in p.chans && Alive(p, p.chans[c])
  }

  /** The least recently used conversations that must go before one is added. */
  function Surplus(p: Pool): set<Conv> {
    SurplusOf(p.order, p.max)
  }

  function SurplusOf(order: seq<Conv>, max: int): set<Conv> {
    var n := |order| - max + 1;
    if n <= 0 then {} else if n <= |order| then Elements(order[..n]) else Elements(order)
  }

  function WithRoom(p: Pool): Pool {
    RemoveAndClose(p, Surplus(p))
  }

  function Touch(p: Pool, c: Conv): Pool {
    p.(order := Except(p.order, {c}) + [c], lastUsed := p.lastUsed[c := p.now])
  }

  function Open(p: Pool, c: Conv, remote: string): Pool {
    p.(made := p.made + [Made(c, remote)], order := p.order + [c],
       chans := p.chans[c := |p.made|], lastUsed := p.lastUsed[c := p.now])
  }

  /** Before a miss opens a channel: the dead one goes, then the surplus. */
  function MadeRoom(p: Pool, c: Conv): Pool {
    WithRoom(RemoveAndClose(p, {c}))
  }

  /** `ok` tells whether opening and authenticating a new channel succeeds. */
  function AfterAcquire(p: Pool, c: Conv, remote: string, ok: bool): Pool {
    if Hit(p, c) then Touch(p, c)
    else
      var q := MadeRoom(p, c);
      if p.max >= 1 && ok then Open(q, c, remote) else q
  }

  function AcquireResult(p: Pool, c: Conv, ok: bool): Acquired {
    if Hit(p, c) then Got(p.chans[c])
    else if p.max < 1 then NoRoom
    else if ok then Got(|p.made|)
    else Refused
  }

  /** What the reaper finds dead or idle, by a clock it read before taking the lock. */
  function Stale(p: Pool, at: Time): set<Conv> {
    set c | c in p.chans &&
      (!Alive(p, p.chans[c]) || at - (if c in p.lastUsed then p.lastUsed[c] else at) >= p.idle)
  }

  datatype Action =
    | DoAcquire(conv: Conv, remote: string, ok: bool)
    | DoTake(conv: Conv)
    | DoTakeAll
    | DoReap(at: Time)
    | CloseOne(ch: Chan)
    | Die(ch: Chan)
    | Wait(time: nat)

  function Step(p: Pool, a: Action): Pool {
    match a
    case DoAcquire(c, remote, ok) => AfterAcquire(p, c, remote, ok)
    case DoTake(c) => Take(p, {c})
    case DoTakeAll => Take(p, p.chans.Keys)
    case DoReap(at) => Take(p, Stale(p, at))
    case CloseOne(ch) =>
      if ch in p.inHand then p.(inHand := p.inHand - {ch}, closed := p.closed + {ch}) else p
    case Die(ch) => p.(dead := p.dead + {ch})
    case Wait(time) => p.(now := p.now + time)
  }

  function Run(p: Pool, acts: seq<Action>): Pool
    decreases |acts|
  {
    if acts == [] then p else Run(Step(p, acts[0]), acts[1..])
  }

  function Empty(max: int, idle: Time, now: Time): Pool {
    Pool(max, idle, [], map[], map[], [], {}, {}, {}, now)
  }

  // ---------------------------------------------------------- the invariant

  ghost predicate Distinct(s: seq<Conv>) {
    forall i, j | 0 <= i < j < |s| :: s[i] != s[j]
  }

  /** Oldest use first. */
  ghost predicate ByUse(s: seq<Conv>, used: map<Conv, Time>) {
    && (forall c | c in s :: c in used)
    && (forall i, j | 0 <= i < j < |s| :: used[s[i]] <= used[s[j]])
  }

  predicate Pooled(p: Pool, ch: Chan) {
    ch < |p.made| && p.made[ch].conv in p.chans && p.chans[p.made[ch].conv] == ch
  }

  /** Exactly one of: pooled, in some thread's hand, closed. */
  ghost predicate Accounted(p: Pool, ch: Chan) {
    && (Pooled(p, ch) || ch in p.inHand || ch in p.closed)
    && !(Pooled(p, ch) && ch in p.inHand)
    && !(Pooled(p, ch) && ch in p.closed)
    && !(ch in p.inHand && ch in p.closed)
  }

  /** The two maps and the order agree, and the order is that of last use. */
  ghost predicate Agrees(p: Pool) {
    && Distinct(p.order)
    && Elements(p.order) == p.chans.Keys == p.lastUsed.Keys
    && ByUse(p.order, p.lastUsed)
    && (forall c | c in p.lastUsed :: p.lastUsed[c] <= p.now)
  }

  /** Every channel ever made is accounted for, under its own conversation. */
  ghost predicate Conserved(p: Pool) {
    && (forall c | c in p.chans :: p.chans[c] < |p.made| && p.made[p.chans[c]].conv == c)
    && (forall ch | 0 <= ch < |p.made| :: Accounted(p, ch))
    && (forall ch | ch in p.inHand || ch in p.closed :: ch < |p.made|)
  }

  ghost predicate Inv(p: Pool) {
    Agrees(p) && Conserved(p) && |p.order| <= (if p.max < 0 then 0 else p.max)
  }

  // ------------------------------------------------------------ small facts

  lemma {:induction false} ExceptIs(s: seq<Conv>, gone: set<Conv>)
    ensures Elements(Except(s, gone)) == Elements(s) - gone
    ensures |Except(s, gone)| <= |s|
  {
    if s != [] {
      ExceptIs(s[1..], gone);
      assert Elements(s) == {s[0]} + Elements(s[1..]);
      var head := if s[0] in gone then [] else [s[0]];
      assert Elements(head + Except(s[1..], gone)) == Elements(head) + Elements(Except(s[1..], gone));
    }
  }

  lemma {:induction false} ExceptDistinct(s: seq<Conv>, gone: set<Conv>)
    requires Distinct(s)
    ensures Distinct(Except(s, gone))
  {
    if s != [] {
      ExceptDistinct(s[1..], gone);
      ExceptIs(s[1..], gone);
      assert s[0] !in s[1..];
      assert s[0] !in Elements(Except(s[1..], gone));
    }
  }

  lemma {:induction false} ExceptByUse(s: seq<Conv>, gone: set<Conv>, used: map<Conv, Time>)
    requires ByUse(s, used)
    ensures ByUse(Except(s, gone), used)
  {
    if s != [] {
      assert forall c | c in s[1..] :: c in s;
      ExceptByUse(s[1..], gone, used);
      ExceptIs(s[1..], gone);
      var rest := Except(s[1..], gone);
      forall c | c in rest ensures used[s[0]] <= used[c] {
        assert c in Elements(rest);
        var j :| 0 <= j < |s[1..]| && s[1..][j] == c;
        assert s[j + 1] == c;
      }
    }
  }

  lemma {:induction false} ExceptNone(s: seq<Conv>, gone: set<Conv>)
    requires Elements(s) !! gone
    ensures Except(s, gone) == s
  {
    if s != [] {
      assert s[0] in Elements(s);
      assert Elements(s[1..]) <= Elements(s);
      ExceptNone(s[1..], gone);
    }
  }

  /** Dropping a prefix of distinct elements leaves the suffix. */
  lemma {:induction false} ExceptPrefix(s: seq<Conv>, n: nat)
    requires Distinct(s) && n <= |s|
    ensures Except(s, Elements(s[..n])) == s[n..]
  {
    if n == 0 {
      ExceptNone(s, Elements(s[..0]));
    } else {
      var gone := Elements(s[..n]);
      assert s[..n][0] == s[0];
      ExceptPrefix(s[1..], n - 1);
      assert s[1..][..n - 1] == s[1..n];
      assert gone == {s[0]} + Elements(s[1..n]) by {
        assert s[..n] == [s[0]] + s[1..n];
      }
      ExceptMore(s[1..], Elements(s[1..n]), s[0]);
      assert s[1..][n - 1..] == s[n..];
    }
  }

  lemma {:induction false} ExceptMore(s: seq<Conv>, gone: set<Conv>, c: Conv)
    requires c !in s
    ensures Except(s, {c} + gone) == Except(s, gone)
  {
    if s != [] {
      ExceptMore(s[1..], gone, c);
    }
  }

  lemma DistinctCount(s: seq<Conv>)
    requires Distinct(s)
    ensures |Elements(s)| == |s|
  {
    if s != [] {
      DistinctCount(s[1..]);
      assert Elements(s) == {s[0]} + Elements(s[1..]);
      assert s[0] !in s[1..];
    }
  }

  // ------------------------------------------------- every action keeps it

  lemma RemoveAgrees(p: Pool, gone: set<Conv>)
    requires Agrees(p)
    ensures Agrees(Remove(p, gone)) && |Remove(p, gone).order| <= |p.order|
  {
    ExceptIs(p.order, gone);
    ExceptDistinct(p.order, gone);
    ExceptByUse(p.order, gone, p.lastUsed);
    assert forall c | c in Except(p.order, gone) :: c in Elements(Except(p.order, gone));
  }

  /** Taking or closing what is removed keeps every channel accounted for. */
  lemma RemoveConserves(p: Pool, gone: set<Conv>, close: bool)
    requires Conserved(p)
    ensures Conserved(if close then RemoveAndClose(p, gone) else Take(p, gone))
  {
    var q := if close then RemoveAndClose(p, gone) else Take(p, gone);
    forall ch | 0 <= ch < |q.made| ensures Accounted(q, ch) {
      assert Accounted(p, ch);
      var c := p.made[ch].conv;
      assert ch in Held(p, gone) <==> Pooled(p, ch) && c in gone by {
        if ch in Held(p, gone) {
          var d :| d in gone && d in p.chans && p.chans[d] == ch;
        }
      }
    }
  }

  lemma TouchKeeps(p: Pool, c: Conv)
    requires Inv(p) && c in p.chans
    ensures Inv(Touch(p, c))
  {
    var q := Touch(p, c);
    TouchAgrees(p, c);
    forall ch | 0 <= ch < |q.made| ensures Accounted(q, ch) {
      assert Accounted(p, ch);
    }
  }

  lemma TouchAgrees(p: Pool, c: Conv)
    requires Agrees(p) && c in p.chans
    ensures Agrees(Touch(p, c)) && |Touch(p, c).order| == |p.order|
  {
    RemoveAgrees(p, {c});
    ExceptIs(p.order, {c});
    AddLastAgrees(Remove(p, {c}), c, p.chans[c]);
    assert (p.chans - {c})[c := p.chans[c]] == p.chans;
    assert (p.lastUsed - {c})[c := p.now] == p.lastUsed[c := p.now];
    ExceptOne(p.order, c);
  }

  function AddLast(p: Pool, c: Conv, ch: Chan): Pool {
    p.(order := p.order + [c], chans := p.chans[c := ch], lastUsed := p.lastUsed[c := p.now])
  }

  lemma AddLastAgrees(p: Pool, c: Conv, ch: Chan)
    requires Agrees(p) && c !in p.chans
    ensures Agrees(AddLast(p, c, ch))
  {
    assert c !in Elements(p.order);
    AppendIs(p.order, c);
    AppendByUse(p.order, c, p.lastUsed, p.now);
  }

  lemma ExceptOne(s: seq<Conv>, c: Conv)
    requires Distinct(s) && c in Elements(s)
    ensures |Except(s, {c})| == |s| - 1
  {
    ExceptIs(s, {c});
    ExceptDistinct(s, {c});
    DistinctCount(s);
    DistinctCount(Except(s, {c}));
  }

  lemma AppendIs(s: seq<Conv>, c: Conv)
    ensures Elements(s + [c]) == Elements(s) + {c}
    ensures Distinct(s) && c !in Elements(s) ==> Distinct(s + [c])
  {
  }

  lemma AppendByUse(s: seq<Conv>, c: Conv, used: map<Conv, Time>, now: Time)
    requires ByUse(s, used) && c !in s && forall d | d in used :: used[d] <= now
    ensures ByUse(s + [c], used[c := now])
  {
  }

  lemma OpenKeeps(p: Pool, c: Conv, remote: string)
    requires Inv(p) && c !in p.chans && |p.order| < p.max
    ensures Inv(Open(p, c, remote))
  {
    var q := Open(p, c, remote);
    AddLastAgrees(p, c, |p.made|);
    forall ch | 0 <= ch < |q.made| ensures Accounted(q, ch) {
      if ch < |p.made| {
        assert Accounted(p, ch) && q.made[ch] == p.made[ch];
      }
    }
  }

  /** Making room removes the least recently used conversations, and no more than needed. */
  lemma SurplusLeaves(p: Pool)
    requires Agrees(p)
    ensures var q := RemoveAndClose(p, Surplus(p));
            && Agrees(q)
            && q.order == (if |p.order| < p.max then p.order
                           else if p.max < 1 then []
                           else p.order[|p.order| - p.max + 1..])
  {
    RemoveAgrees(p, Surplus(p));
    var n := |p.order| - p.max + 1;
    if n <= 0 {
      ExceptNone(p.order, {});
    } else if n <= |p.order| {
      ExceptPrefix(p.order, n);
    } else {
      assert p.order[..|p.order|] == p.order;
      ExceptPrefix(p.order, |p.order|);
    }
  }

  lemma MadeRoomKeeps(p: Pool, c: Conv)
    requires Inv(p)
    ensures var q := MadeRoom(p, c);
            Inv(q) && c !in q.chans && (p.max >= 1 ==> |q.order| < p.max) && q.max == p.max
  {
    var q := RemoveAndClose(p, {c});
    RemoveAgrees(p, {c});
    RemoveConserves(p, {c}, true);
    SurplusLeaves(q);
    RemoveConserves(q, Surplus(q), true);
  }

  lemma StepKeeps(p: Pool, a: Action)
    requires Inv(p)
    ensures Inv(Step(p, a))
  {
    match a
    case DoAcquire(c, remote, ok) =>
      if Hit(p, c) {
        TouchKeeps(p, c);
      } else {
        MadeRoomKeeps(p, c);
        if p.max >= 1 && ok {
          OpenKeeps(MadeRoom(p, c), c, remote);
        }
      }
    case DoTake(c) => TakeKeeps(p, {c});
    case DoTakeAll => TakeKeeps(p, p.chans.Keys);
    case DoReap(at) => TakeKeeps(p, Stale(p, at));
    case CloseOne(ch) => CloseKeeps(p, ch);
    case Die(ch) => SameBooks(p, Step(p, a));
    case Wait(_) => SameBooks(p, Step(p, a));
  }

  lemma TakeKeeps(p: Pool, gone: set<Conv>)
    requires Inv(p)
    ensures Inv(Take(p, gone))
  {
    RemoveAgrees(p, gone);
    RemoveConserves(p, gone, false);
  }

  lemma CloseKeeps(p: Pool, ch: Chan)
    requires Inv(p)
    ensures Inv(Step(p, CloseOne(ch)))
  {
    var q := Step(p, CloseOne(ch));
    forall x | 0 <= x < |q.made| ensures Accounted(q, x) {
      assert Accounted(p, x);
    }
  }

  lemma SameBooks(p: Pool, q: Pool)
    requires Inv(p) && p.now <= q.now && q == p.(dead := q.dead, now := q.now)
    ensures Inv(q)
  {
    forall ch | 0 <= ch < |q.made| ensures Accounted(q, ch) {
      assert Accounted(p, ch);
    }
  }

  /** Over every interleaving: the order, the channel map and the last-use map
      have the same keys, the order is that of last use, the pool stays within its
      limit, and every channel ever opened is pooled, in hand or closed, and only one of these. */
  lemma {:induction false} RunKeeps(p: Pool, acts: seq<Action>)
    requires Inv(p)
    ensures Inv(Run(p, acts))
    decreases |acts|
  {
    if acts != [] {
      StepKeeps(p, acts[0]);
      RunKeeps(Step(p, acts[0]), acts[1..]);
    }
  }

  // ---------------------------------------------------------- main theorems

  /** No channel leaks: once no thread holds one in hand, each channel ever
      opened and not closed is the pooled channel of its own conversation, so a
      conversation has at most one. */
  lemma NothingLeaks(max: int, idle: Time, now: Time, acts: seq<Action>, a: Chan, b: Chan)
    requires var p := Run(Empty(max, idle, now), acts);
             && p.inHand == {}
             && a < |p.made| && a !in p.closed
             && b < |p.made| && b !in p.closed && p.made[b].conv == p.made[a].conv
    ensures a == b && Pooled(Run(Empty(max, idle, now), acts), a)
  {
    RunKeeps(Empty(max, idle, now), acts);
    var p := Run(Empty(max, idle, now), acts);
    assert Accounted(p, a) && Accounted(p, b);
  }

  /** With threads in the middle of closing, the surplus channels of a
      conversation are exactly those in their hands. */
  lemma ExtraChannelsAreInHand(max: int, idle: Time, now: Time, acts: seq<Action>, a: Chan, b: Chan)
    requires var p := Run(Empty(max, idle, now), acts);
             && a != b && a < |p.made| && b < |p.made| && p.made[b].conv == p.made[a].conv
             && a !in p.closed && b !in p.closed
    ensures var p := Run(Empty(max, idle, now), acts); a in p.inHand || b in p.inHand
  {
    RunKeeps(Empty(max, idle, now), acts);
    var p := Run(Empty(max, idle, now), acts);
    assert Accounted(p, a) && Accounted(p, b);
  }

  /** A hit returns the pooled channel; a miss opens one, provided there can be
      room; either way the channel is the caller's conversation's, is alive, and
      becomes the most recently used.  A pool without room never opens anything. */
  lemma AcquireGives(p: Pool, c: Conv, remote: string, ok: bool)
    requires Inv(p) && forall ch | ch in p.dead :: ch < |p.made|
    ensures var q := AfterAcquire(p, c, remote, ok);
            match AcquireResult(p, c, ok)
            case Got(ch) =>
              && q.max >= 1 && c in q.chans && q.chans[c] == ch && ch !in q.closed && ch !in q.dead
              && q.made[ch].conv == c && q.order != [] && q.order[|q.order| - 1] == c && q.lastUsed[c] == p.now
              && (Hit(p, c) ==> q.made == p.made && q.chans == p.chans && q.closed == p.closed)
              && (!Hit(p, c) ==> q.made == p.made + [Made(c, remote)] && ch == |p.made|)
            case Refused => c !in q.chans && q.made == p.made
            case NoRoom => p.max < 1 && q.made == p.made
  {
    if Hit(p, c) {
      assert p.chans[c] < |p.made| && c in Elements(p.order);
    } else {
      MadeRoomKeeps(p, c);
      var q := MadeRoom(p, c);
      assert |p.made| !in q.closed;
    }
  }

  /** A miss closes the conversation's dead channel and evicts only when the pool
      is full; whoever is evicted was used no later than everyone who stays. */
  lemma EvictsLeastRecentlyUsed(p: Pool, c: Conv, gone: Conv, kept: Conv)
    requires Inv(p) && !Hit(p, c) && gone != c && kept != c
    requires gone in p.chans && gone !in MadeRoom(p, c).chans
    requires kept in MadeRoom(p, c).chans
    ensures p.lastUsed[gone] <= p.lastUsed[kept]
    ensures p.max <= |p.order| && |MadeRoom(p, c).order| == p.max - 1
    ensures p.chans[gone] in MadeRoom(p, c).closed
    ensures MadeRoom(p, c).chans[kept] == p.chans[kept]
  {
    var q := RemoveAndClose(p, {c});
    RemoveAgrees(p, {c});
    SurplusLeaves(q);
    assert gone in q.chans && q.chans[gone] == p.chans[gone];
    assert gone in Surplus(q) && kept !in Surplus(q);
    assert kept in Elements(q.order) && gone in Elements(q.order);
    SurplusIsOldest(q, gone, kept);
  }

  lemma SurplusIsOldest(q: Pool, gone: Conv, kept: Conv)
    requires Agrees(q) && gone in Surplus(q) && kept in q.order && kept !in Surplus(q)
    ensures gone in q.order && q.lastUsed[gone] <= q.lastUsed[kept]
  {
    var n := |q.order| - q.max + 1;
    var j :| 0 <= j < |q.order| && q.order[j] == kept;
    if n <= |q.order| {
      var i :| 0 <= i < n && q.order[i] == gone;
      assert forall m | 0 <= m < n :: q.order[m] in q.order[..n];
    }
  }

  /** Nothing is evicted while there is room. */
  lemma NoEvictionWithRoom(p: Pool, c: Conv, other: Conv)
    requires Inv(p) && !Hit(p, c) && other != c && |p.order| < p.max
    ensures other in MadeRoom(p, c).chans <==> other in p.chans
  {
    var q := RemoveAndClose(p, {c});
    RemoveAgrees(p, {c});
  }

  /** One acquire: the pool keys on the conversation alone, so only what it has to
      open is sure to be for the remote session asked for. */
  lemma RemoteMatchesIff(p: Pool, c: Conv, remote: string)
    requires Inv(p) && p.max >= 1
    ensures var q, ch := AfterAcquire(p, c, remote, true), AcquireResult(p, c, true).ch;
            ch < |q.made| && (q.made[ch].remote == remote <==> !Hit(p, c) || p.made[p.chans[c]].remote == remote)
  {
    if !Hit(p, c) {
      MadeRoomKeeps(p, c);
    }
  }

  /** The two differ in a run of two turns, the second for a new remote session. */
  lemma StaleRemoteReturned()
    ensures var p := Run(Empty(1, 60, 0), [DoAcquire(7, "first", true)]);
            && Inv(p) && AcquireResult(p, 7, true) == Got(0)
            && AfterAcquire(p, 7, "second", true).made[0].remote == "first"
  {
    var acts := [DoAcquire(7, "first", true)];
    var p := Step(Empty(1, 60, 0), acts[0]);
    assert acts[1..] == [] && Run(Empty(1, 60, 0), acts) == p;
    RunKeeps(Empty(1, 60, 0), acts);
    FirstPooled();
  }

  lemma FirstPooled()
    ensures var p := AfterAcquire(Empty(1, 60, 0), 7, "first", true);
            p.made == [Made(7, "first")] && Hit(p, 7) && p.chans[7] == 0
  {
  }

  /** A channel out of the pool never comes back, whatever other threads do: a
      caller that discards a channel it no longer trusts is never handed it again. */
  lemma {:induction false} NeverReturns(p: Pool, acts: seq<Action>, ch: Chan)
    requires Inv(p) && ch < |p.made| && !Pooled(p, ch)
    ensures !Pooled(Run(p, acts), ch) && ch < |Run(p, acts).made|
    decreases |acts|
  {
    if acts != [] {
      StepKeeps(p, acts[0]);
      OutStaysOut(p, acts[0], ch);
      NeverReturns(Step(p, acts[0]), acts[1..], ch);
    }
  }

  lemma OutStaysOut(p: Pool, a: Action, ch: Chan)
    requires Inv(p) && ch < |p.made| && !Pooled(p, ch)
    ensures ch < |Step(p, a).made| && !Pooled(Step(p, a), ch)
  {
    var c := p.made[ch].conv;
    match a
    case DoAcquire(d, remote, ok) =>
      var q := AfterAcquire(p, d, remote, ok);
      assert q.made[ch] == p.made[ch];
    case DoTake(_) =>
    case DoTakeAll =>
    case DoReap(_) =>
    case CloseOne(_) =>
    case Die(_) =>
    case Wait(_) =>
  }

  // --------------------------------------- how long a conversation survives

  /** The conversations used since `c` was. */
  function Newer(s: seq<Conv>, c: Conv): set<Conv> {
    if s == [] then {} else if s[0] == c then Elements(s[1..]) else Newer(s[1..], c)
  }

  lemma {:induction false} NewerExcept(s: seq<Conv>, c: Conv, gone: set<Conv>)
    requires c in s && c !in gone
    ensures c in Except(s, gone) && Newer(Except(s, gone), c) == Newer(s, c) - gone
  {
    ExceptIs(s[1..], gone);
    var t := Except(s[1..], gone);
    assert ([s[0]] + t)[1..] == t && [] + t == t;
    if s[0] != c {
      NewerExcept(s[1..], c, gone);
    }
  }

  lemma {:induction false} NewerAppend(s: seq<Conv>, c: Conv, d: Conv)
    requires c in s
    ensures Newer(s + [d], c) == Newer(s, c) + {d}
  {
    assert (s + [d])[1..] == s[1..] + [d];
    if s[0] == c {
      AppendIs(s[1..], d);
    } else {
      NewerAppend(s[1..], c, d);
    }
  }

  lemma {:induction false} NewerSuffix(s: seq<Conv>, n: nat, c: Conv)
    requires Distinct(s) && n <= |s| && c in s[n..]
    ensures Newer(s[n..], c) == Newer(s, c)
  {
    if n > 0 {
      assert s[1..][n - 1..] == s[n..];
      NewerSuffix(s[1..], n - 1, c);
      assert s[0] != c by {
        var j :| 0 <= j < |s[n..]| && s[n..][j] == c;
        assert s[n + j] == c;
      }
    }
  }

  /** How many are newer tells the position. */
  lemma {:induction false} NewerCount(s: seq<Conv>, c: Conv, n: nat)
    requires Distinct(s) && c in s && n <= |s|
    ensures |Newer(s, c)| < |s|
    ensures c in s[n..] <==> |Newer(s, c)| < |s| - n
  {
    DistinctCount(s[1..]);
    if s[0] == c {
      assert n > 0 ==> c !in s[n..] by {
        assert c !in s[1..];
        if n > 0 { assert s[n..] == s[1..][n - 1..]; }
      }
    } else {
      NewerCount(s[1..], c, if n > 0 then n - 1 else 0);
      assert n > 0 ==> s[n..] == s[1..][n - 1..];
    }
  }

  function NewerWith(p: Pool, c: Conv, d: Conv, used: bool): set<Conv> {
    if used then Newer(p.order, c) + {d} else Newer(p.order, c) - {d}
  }

  /** What acquiring `d` does to another conversation `c`: a hit spares it; a miss
      spares it exactly when fewer than `max - 1` others are newer; and if spared it
      keeps its channel and finds `d` among the newer ones. */
  lemma AcquireOther(p: Pool, c: Conv, d: Conv, remote: string, ok: bool)
    requires Inv(p) && c != d && c in p.chans
    ensures var q := AfterAcquire(p, d, remote, ok);
            && (c in q.chans <==> Hit(p, d) || |Newer(p.order, c) - {d}| < p.max - 1)
            && (c in q.chans ==> q.chans[c] == p.chans[c] && Newer(q.order, c) == NewerWith(p, c, d, Hit(p, d) || ok))
  {
    assert c in Elements(p.order);
    NewerExcept(p.order, c, {d});
    if Hit(p, d) {
      NewerAppend(Except(p.order, {d}), c, d);
    } else {
      AcquireMissOther(p, c, d, remote, ok);
    }
  }

  lemma AcquireMissOther(p: Pool, c: Conv, d: Conv, remote: string, ok: bool)
    requires Inv(p) && c != d && c in p.chans && !Hit(p, d)
    requires c in Except(p.order, {d}) && Newer(Except(p.order, {d}), c) == Newer(p.order, c) - {d}
    ensures var q := AfterAcquire(p, d, remote, ok);
            && (c in q.chans <==> |Newer(p.order, c) - {d}| < p.max - 1)
            && (c in q.chans ==> q.chans[c] == p.chans[c] && Newer(q.order, c) == NewerWith(p, c, d, ok))
  {
    var r, m := RemoveAndClose(p, {d}), MadeRoom(p, d);
    RemoveAgrees(p, {d});
    MadeRoomSpares(r, c);
    assert m == RemoveAndClose(r, Surplus(r)) && r.chans[c] == p.chans[c];
    OpenNewer(p, m, c, d, remote);
  }

  lemma OpenNewer(p: Pool, m: Pool, c: Conv, d: Conv, remote: string)
    requires c != d && (c in m.chans ==> c in m.order && Newer(m.order, c) == Newer(p.order, c) - {d})
    ensures c in Open(m, d, remote).chans <==> c in m.chans
    ensures c in m.chans ==> Open(m, d, remote).chans[c] == m.chans[c]
    ensures c in m.chans ==> Newer(Open(m, d, remote).order, c) == Newer(p.order, c) + {d}
  {
    if c in m.chans {
      NewerAppend(m.order, c, d);
      assert Newer(p.order, c) - {d} + {d} == Newer(p.order, c) + {d};
    }
  }

  lemma MadeRoomSpares(q: Pool, c: Conv)
    requires Agrees(q) && c in q.chans && q.max >= 1
    ensures var r := RemoveAndClose(q, Surplus(q));
            && (c in r.chans <==> |Newer(q.order, c)| < q.max - 1)
            && (c in r.chans ==> c in r.order && Newer(r.order, c) == Newer(q.order, c))
  {
    SurplusLeaves(q);
    var r := RemoveAndClose(q, Surplus(q));
    assert c in Elements(q.order);
    assert c in r.chans <==> c in Elements(r.order);
    var n := if |q.order| < q.max then 0 else |q.order| - q.max + 1;
    assert r.order == q.order[n..];
    NewerCount(q.order, c, n);
    if c in r.order {
      NewerSuffix(q.order, n, c);
    }
  }

  /** Requests of other conversations, or hits of `c`'s own. */
  predicate Spares(a: Action, c: Conv, ch: Chan) {
    match a
    case DoAcquire(_, _, _) => true
    case DoTake(d) => d != c
    case CloseOne(x) => x != ch
    case Die(x) => x != ch
    case Wait(_) => true
    case DoTakeAll => false
    case DoReap(_) => false
  }

  /** The conversations that acquire a channel during a run. */
  function Acquirers(acts: seq<Action>): set<Conv> {
    set a | a in acts && a.DoAcquire? :: a.conv
  }

  lemma AcquirersNext(acts: seq<Action>)
    requires acts != []
    ensures Acquirers(acts) == Acquirers([acts[0]]) + Acquirers(acts[1..])
    ensures Acquirers([acts[0]]) == if acts[0].DoAcquire? then {acts[0].conv} else {}
    ensures forall a | a in acts[1..] :: a in acts
  {
    assert acts == [acts[0]] + acts[1..];
    assert acts[0].DoAcquire? ==> acts[0] in [acts[0]];
  }

  /** A pooled channel survives as long as fewer than `max` other conversations
      acquire channels after its last use, unless it dies, is reaped or is closed. */
  lemma {:induction false} SurvivesBelowLimit(p: Pool, acts: seq<Action>, c: Conv, since: set<Conv>)
    requires Inv(p) && Hit(p, c) && Newer(p.order, c) <= since
    requires c !in since && Acquirers(acts) <= since + {c} && |since| < p.max
    requires forall a | a in acts :: Spares(a, c, p.chans[c])
    ensures Hit(Run(p, acts), c) && Run(p, acts).chans[c] == p.chans[c]
    decreases |acts|
  {
    if acts != [] {
      AcquirersNext(acts);
      StepKeeps(p, acts[0]);
      SurvivesStep(p, acts[0], c, since);
      SurvivesBelowLimit(Step(p, acts[0]), acts[1..], c, since);
    }
  }

  lemma SurvivesStep(p: Pool, a: Action, c: Conv, since: set<Conv>)
    requires Inv(p) && Hit(p, c) && Newer(p.order, c) <= since
    requires c !in since && Acquirers([a]) <= since + {c} && |since| < p.max
    requires Spares(a, c, p.chans[c])
    ensures var q := Step(p, a);
            Hit(q, c) && q.chans[c] == p.chans[c] && Newer(q.order, c) <= since && q.max == p.max
  {
    assert c in Elements(p.order) && Accounted(p, p.chans[c]);
    match a
    case DoAcquire(d, remote, ok) =>
      AcquirersNext([a]);
      if d == c {
        ExceptIs(p.order, {c});
        NewestIsLast(Except(p.order, {c}), c);
      } else {
        SurvivesAcquire(p, c, d, remote, ok, since);
      }
    case DoTake(d) => NewerExcept(p.order, c, {d});
    case CloseOne(_) =>
    case Die(_) =>
    case Wait(_) =>
  }

  lemma SurvivesAcquire(p: Pool, c: Conv, d: Conv, remote: string, ok: bool, since: set<Conv>)
    requires Inv(p) && Hit(p, c) && Newer(p.order, c) <= since
    requires d != c && d in since && |since| < p.max
    ensures var q := AfterAcquire(p, d, remote, ok);
            Hit(q, c) && q.chans[c] == p.chans[c] && Newer(q.order, c) <= since && q.max == p.max
  {
    StepKeeps(p, DoAcquire(d, remote, ok));
    Subset(Newer(p.order, c) - {d}, since - {d});
    AcquireOther(p, c, d, remote, ok);
    StillAlive(p, c, d, remote, ok);
  }

  lemma StillAlive(p: Pool, c: Conv, d: Conv, remote: string, ok: bool)
    requires Inv(p) && Hit(p, c) && c in AfterAcquire(p, d, remote, ok).chans
    requires Inv(AfterAcquire(p, d, remote, ok)) && AfterAcquire(p, d, remote, ok).chans[c] == p.chans[c]
    ensures Hit(AfterAcquire(p, d, remote, ok), c)
  {
    assert Accounted(AfterAcquire(p, d, remote, ok), p.chans[c]);
  }

  lemma {:induction false} NewestIsLast(s: seq<Conv>, c: Conv)
    requires c !in s
    ensures Newer(s + [c], c) == {}
  {
    if s != [] {
      assert (s + [c])[1..] == s[1..] + [c];
      NewestIsLast(s[1..], c);
    }
  }

  lemma {:induction false} Subset(a: set<Conv>, b: set<Conv>)
    requires a <= b
    ensures |a| <= |b|
  {
    if a != {} {
      var x :| x in a;
      Subset(a - {x}, b - {x});
    }
  }

  /** The bound is exact: once `max` other conversations have been acquired, a
      conversation that was not used meanwhile has lost its channel. */
  lemma {:induction false} LostAtLimit(p: Pool, acts: seq<Action>, c: Conv, since: set<Conv>)
    requires Inv(p) && p.max >= 1 && (c in p.chans ==> since <= Newer(p.order, c))
    requires forall a | a in acts :: a.DoAcquire? && a.ok && a.conv != c
    requires |since + Acquirers(acts)| >= p.max
    ensures c !in Run(p, acts).chans
    decreases |acts|
  {
    if acts == [] {
      assert since + Acquirers(acts) == since;
      if c in p.chans {
        assert c in Elements(p.order);
        NewerCount(p.order, c, 0);
        Subset(since, Newer(p.order, c));
        assert false;
      }
    } else {
      AcquirersNext(acts);
      assert acts[0] in acts;
      var d := acts[0].conv;
      StepKeeps(p, acts[0]);
      StaysLost(p, c, d, acts[0].remote);
      assert since + Acquirers(acts) == (since + {d}) + Acquirers(acts[1..]);
      LostAtLimit(Step(p, acts[0]), acts[1..], c, since + {d});
    }
  }

  lemma StaysLost(p: Pool, c: Conv, d: Conv, remote: string)
    requires Inv(p) && c != d
    ensures var q := AfterAcquire(p, d, remote, true);
            && q.max == p.max
            && (c in q.chans ==> c in p.chans && Newer(q.order, c) == Newer(p.order, c) + {d})
  {
    if c in p.chans {
      AcquireOther(p, c, d, remote, true);
    }
  }

  // ------------------------------------------------------------ the manager

  lemma {:induction false} ExceptTwice(s: seq<Conv>, a: set<Conv>, b: set<Conv>)
    ensures Except(Except(s, a), b) == Except(s, a + b)
  {
    if s != [] {
      ExceptTwice(s[1..], a, b);
      var t := Except(s[1..], a);
      assert ([s[0]] + t)[1..] == t && [] + t == t && [] + Except(t, b) == Except(t, b);
    }
  }

  lemma TakeTwice(p: Pool, a: set<Conv>, b: set<Conv>)
    ensures Take(Take(p, a), b) == Take(p, a + b)
  {
    ExceptTwice(p.order, a, b);
    assert p.chans - a - b == p.chans - (a + b) && p.lastUsed - a - b == p.lastUsed - (a + b);
    HeldTwice(p, a, b);
  }

  lemma TakeNothing(p: Pool, none: seq<Conv>)
    requires none == []
    ensures Take(p, Elements(none)) == p && Held(p, Elements(none)) == {}
  {
    assert Elements(none) == {};
    ExceptNone(p.order, {});
    assert p.chans - {} == p.chans && p.lastUsed - {} == p.lastUsed;
  }

  lemma TakeNext(p: Pool, ids: seq<Conv>, i: nat)
    requires i < |ids|
    ensures var q, c := Take(p, Elements(ids[..i])), ids[i];
            && Take(p, Elements(ids[..i + 1])) == Take(q, {c})
            && Held(p, Elements(ids[..i + 1])) == Held(p, Elements(ids[..i])) + (if c in q.chans then {q.chans[c]} else {})
  {
    var q, c := Take(p, Elements(ids[..i])), ids[i];
    TakeTwice(p, Elements(ids[..i]), {c});
    HeldTwice(p, Elements(ids[..i]), {c});
    assert ids[..i + 1] == ids[..i] + [c];
    AppendIs(ids[..i], c);
    assert Held(Remove(p, Elements(ids[..i])), {c}) == if c in q.chans then {q.chans[c]} else {};
  }

  lemma CloseTwice(p: Pool, a: set<Conv>, b: set<Conv>)
    ensures RemoveAndClose(RemoveAndClose(p, a), b) == RemoveAndClose(p, a + b)
  {
    ExceptTwice(p.order, a, b);
    assert p.chans - a - b == p.chans - (a + b) && p.lastUsed - a - b == p.lastUsed - (a + b);
    HeldTwice(p, a, b);
  }

  lemma HeldTwice(p: Pool, a: set<Conv>, b: set<Conv>)
    ensures Held(p, a) + Held(Remove(p, a), b) == Held(p, a + b)
  {
  }

  /** Removing what is not there changes nothing. */
  lemma RemoveAbsent(p: Pool, gone: set<Conv>)
    requires Agrees(p) && p.chans.Keys !! gone
    ensures Take(p, gone) == p && RemoveAndClose(p, gone) == p
  {
    ExceptNone(p.order, gone);
    assert p.chans - gone == p.chans && p.lastUsed - gone == p.lastUsed && Held(p, gone) == {};
  }

  class Manager {
    const max: int
    const idle: Time
    var order: seq<Conv>
    var chans: map<Conv, Chan>
    var lastUsed: map<Conv, Time>
    var made: seq<Made>
    var closed: set<Chan>
    var inHand: set<Chan>
    var dead: set<Chan>
    var now: Time

    function View(): Pool
      reads this
    {
      Pool(max, idle, order, chans, lastUsed, made, closed, inHand, dead, now)
    }

    constructor (max: int, idle: Time, now: Time)
      ensures View() == Empty(max, idle, now) && Inv(View())
    {
      this.max, this.idle, this.now := max, idle, now;
      order, chans, lastUsed, made, closed, inHand, dead := [], map[], map[], [], {}, {}, {};
    }

    /** Evict from the front until there is room for one more; with a limit below
        one the pool empties and the next eviction has nothing to take. */
    method EvictIfNeeded() returns (room: bool)
      requires Agrees(View())
      modifies this`order, this`chans, this`lastUsed, this`closed
      ensures View() == WithRoom(old(View()))
      ensures room == (max >= 1)
    {
      ghost var goal := WithRoom(View());
      while |order| >= max
        invariant Agrees(View()) && WithRoom(View()) == goal
        decreases |order|
      {
        if order == [] {
          NoSurplus(View());
          return false;
        }
        PopOldest(View());
        EvictOldest();
      }
      NoSurplus(View());
      return true;
    }

    /** Take the least recently used channel out of both maps and close it. */
    method EvictOldest()
      requires order != [] && order[0] in chans
      modifies this`order, this`chans, this`lastUsed, this`closed
      ensures View() == PopFront(old(View()))
    {
      var oldest := order[0];
      closed := closed + {chans[oldest]};
      order, chans, lastUsed := order[1..], chans - {oldest}, lastUsed - {oldest};
    }

    method Acquire(conv: Conv, remote: string, ok: bool) returns (r: Acquired)
      requires Agrees(View())
      modifies this`order, this`chans, this`lastUsed, this`closed, this`made
      ensures View() == AfterAcquire(old(View()), conv, remote, ok)
      ensures r == AcquireResult(old(View()), conv, ok)
    {
      ghost var p := View();
      if conv in chans && chans[conv] !in closed && chans[conv] !in dead {
        order := Except(order, {conv}) + [conv];
        lastUsed := lastUsed[conv := now];
        return Got(chans[conv]);
      }
      if conv in chans {
        var ch := chans[conv];
        assert Held(p, {conv}) == {ch};
        order, chans, lastUsed := Except(order, {conv}), chans - {conv}, lastUsed - {conv};
        closed := closed + {ch};
      } else {
        RemoveAbsent(p, {conv});
      }
      assert View() == RemoveAndClose(p, {conv});
      RemoveAgrees(p, {conv});
      var room := EvictIfNeeded();
      assert View() == MadeRoom(p, conv);
      if !room {
        return NoRoom;
      }
      if !ok {
        return Refused;
      }
      r := Got(|made|);
      chans, lastUsed := chans[conv := |made|], lastUsed[conv := now];
      made, order := made + [Made(conv, remote)], order + [conv];
    }

    /** Pop one conversation's channel, leaving it in the caller's hand. */
    method Pop(c: Conv) returns (ch: Option<Chan>)
      modifies this`order, this`chans, this`lastUsed, this`inHand
      ensures View() == Take(old(View()), {c})
      ensures ch == if c in old(chans) then Some(old(chans)[c]) else None
    {
      ghost var before := View();
      assert Held(before, {c}) == if c in chans then {chans[c]} else {};
      ch := None;
      if c in chans {
        ch := Some(chans[c]);
        inHand := inHand + {chans[c]};
      }
      order, chans, lastUsed := Except(order, {c}), chans - {c}, lastUsed - {c};
    }

    /** The locked part of `close`, `reacquire`, `close_all` and the reaper. */
    method TakeOut(ids: seq<Conv>) returns (taken: seq<Chan>)
      modifies this`order, this`chans, this`lastUsed, this`inHand
      ensures View() == Take(old(View()), Elements(ids))
      ensures (set ch | ch in taken) == Held(old(View()), Elements(ids))
    {
      ghost var p := View();
      taken := [];
      TakeNothing(p, ids[..0]);
      for i := 0 to |ids|
        invariant View() == Take(p, Elements(ids[..i]))
        invariant (set ch | ch in taken) == Held(p, Elements(ids[..i]))
      {
        TakeNext(p, ids, i);
        var ch := Pop(ids[i]);
        if ch.Some? {
          taken := taken + [ch.value];
        }
      }
      assert ids[..|ids|] == ids;
    }

    /** Close what the caller holds, outside the lock. */
    method CloseTaken(taken: seq<Chan>)
      modifies this`inHand, this`closed
      ensures View() == old(View()).(inHand := old(inHand) - (set ch | ch in taken),
                                     closed := old(closed) + (set ch | ch in taken))
    {
      for i := 0 to |taken|
        invariant inHand == old(inHand) - (set ch | ch in taken[..i])
        invariant closed == old(closed) + (set ch | ch in taken[..i])
      {
        inHand, closed := inHand - {taken[i]}, closed + {taken[i]};
      }
      assert taken[..|taken|] == taken;
    }

    /** Undisturbed by other threads, taking out and then closing leaves nothing in hand. */
    method Close(conv: Conv)
      requires Inv(View())
      modifies this`order, this`chans, this`lastUsed, this`inHand, this`closed
      ensures View() == RemoveAndClose(old(View()), {conv}) && Inv(View()) && conv !in chans
    {
      ghost var p := View();
      var taken := TakeOut([conv]);
      CloseTaken(taken);
      assert Elements([conv]) == {conv};
      TakenThenClosed(p, {conv});
    }

    /** Discard and reconnect: undisturbed, the caller gets a channel opened for
        the session it asked for, never the one that was pooled. */
    method Reacquire(conv: Conv, remote: string, ok: bool) returns (r: Acquired)
      requires Inv(View())
      modifies this`order, this`chans, this`lastUsed, this`inHand, this`closed, this`made
      ensures Inv(View()) && View() == AfterAcquire(RemoveAndClose(old(View()), {conv}), conv, remote, ok)
      ensures max >= 1 && ok ==> r == Got(|old(made)|) && made == old(made) + [Made(conv, remote)]
      ensures conv in old(chans) ==> old(chans)[conv] in closed
    {
      Close(conv);
      ghost var q := View();
      r := Acquire(conv, remote, ok);
      StepKeeps(q, DoAcquire(conv, remote, ok));
    }

    method CloseAll()
      requires Inv(View())
      modifies this`order, this`chans, this`lastUsed, this`inHand, this`closed
      ensures Inv(View()) && chans == map[] && made == old(made)
      ensures forall ch | 0 <= ch < |made| :: ch in closed || ch in old(inHand)
    {
      ghost var p := View();
      var taken := TakeOut(order);
      CloseTaken(taken);
      TakenThenClosed(p, Elements(p.order));
      assert View() == RemoveAndClose(p, Elements(p.order));
      assert chans.Keys == {};
      forall ch | 0 <= ch < |made| ensures ch in closed || ch in p.inHand {
        assert Accounted(View(), ch);
      }
    }

    /** One pass of the reaper: everything dead or idle goes, everything else
        stays as it was, and no row anywhere is touched. */
    method ReapOnce(at: Time)
      requires Inv(View())
      modifies this`order, this`chans, this`lastUsed, this`inHand, this`closed
      ensures Inv(View()) && View() == RemoveAndClose(old(View()), Stale(old(View()), at))
      ensures forall c | c in old(chans) ::
                c in chans <==>
                  old(chans)[c] !in old(closed) && old(chans)[c] !in old(dead)
                  && (c in old(lastUsed) ==> at - old(lastUsed)[c] < idle)
    {
      ghost var p := View();
      var ids := StaleIds(at);
      var taken := TakeOut(ids);
      CloseTaken(taken);
      TakenThenClosed(p, Stale(p, at));
      assert View() == RemoveAndClose(p, Stale(p, at));
    }

    method StaleIds(at: Time) returns (ids: seq<Conv>)
      requires Agrees(View())
      ensures Elements(ids) == Stale(View(), at)
    {
      ids := [];
      for i := 0 to |order|
        invariant Elements(ids) == Stale(View(), at) * Elements(order[..i])
      {
        var c := order[i];
        assert Elements(order[..i + 1]) == Elements(order[..i]) + {c};
        if c in chans && (!(chans[c] !in closed && chans[c] !in dead)
                          || at - (if c in lastUsed then lastUsed[c] else at) >= idle) {
          AppendIs(ids, c);
          ids := ids + [c];
        }
      }
      assert order[..|order|] == order;
    }
  }

  function PopFront(p: Pool): Pool
    requires p.order != [] && p.order[0] in p.chans
  {
    var c := p.order[0];
    p.(order := p.order[1..], chans := p.chans - {c}, lastUsed := p.lastUsed - {c}, closed := p.closed + {p.chans[c]})
  }

  lemma PopIsRemove(p: Pool)
    requires Agrees(p) && p.order != []
    ensures p.order[0] in p.chans && PopFront(p) == RemoveAndClose(p, {p.order[0]})
    ensures Agrees(PopFront(p))
  {
    var c := p.order[0];
    assert c in Elements(p.order);
    ExceptPrefix(p.order, 1);
    assert Elements(p.order[..1]) == {c};
    RemoveAgrees(p, {c});
    assert Held(p, {c}) == {p.chans[c]};
  }

  /** Evicting one by one from the front removes the surplus. */
  lemma PopOldest(p: Pool)
    requires Agrees(p) && p.order != [] && |p.order| >= p.max
    ensures p.order[0] in p.chans && Agrees(PopFront(p)) && WithRoom(PopFront(p)) == WithRoom(p)
  {
    PopIsRemove(p);
    SurplusFirst(p.order, p.max);
    CloseTwice(p, {p.order[0]}, Surplus(PopFront(p)));
  }

  lemma NoSurplus(p: Pool)
    requires Agrees(p) && (|p.order| < p.max || p.order == [])
    ensures WithRoom(p) == p
  {
    RemoveAbsent(p, {});
  }

  lemma SurplusFirst(s: seq<Conv>, max: int)
    requires s != [] && |s| >= max
    ensures SurplusOf(s, max) == {s[0]} + SurplusOf(s[1..], max)
  {
    var n := |s| - max + 1;
    assert s == [s[0]] + s[1..];
    if n <= |s| {
      assert s[..n] == [s[0]] + s[1..][..n - 1];
    }
  }

  lemma TakenThenClosed(p: Pool, gone: set<Conv>)
    requires Inv(p)
    ensures var q := Take(p, gone);
            q.(inHand := q.inHand - Held(p, gone), closed := q.closed + Held(p, gone)) == RemoveAndClose(p, gone)
    ensures Inv(RemoveAndClose(p, gone))
  {
    RemoveAgrees(p, gone);
    RemoveConserves(p, gone, true);
    forall ch | ch in Held(p, gone) ensures ch !in p.inHand {
      var c :| c in gone && c in p.chans && p.chans[c] == ch;
      assert Accounted(p, ch);
    }
    assert p.inHand + Held(p, gone) - Held(p, gone) == p.inHand;
  }
}
