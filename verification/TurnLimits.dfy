/** The per-conversation rate limit: a count over the user messages of the last
    minute, taken after the turn's own message is in. */
module TurnLimits {
  import opened Prelude

  type Time = int

  const MINUTE := 60

  /** A turn: the time its transaction began, which both dates its message and is
      the check's own clock, and whether the transaction was kept up to the check's
      outcome.  Turns are listed in the order in which they held the turn lock; the
      times need not be in that order. */
  datatype Turn = Turn(at: Time, kept: bool)

  /** Messages of the first `n` turns dated after `since`. */
  function Recent(turns: seq<Turn>, n: nat, since: Time): nat
    requires n <= |turns|
  {
    if n == 0 then 0
    else Recent(turns, n - 1, since) + (if turns[n - 1].kept && turns[n - 1].at > since then 1 else 0)
  }

  /** Whether turn `i` gets past the check: its own message counts, and so do those
      of turns that were refused.  A limit of zero, like none, limits nothing. */
  predicate Passes(turns: seq<Turn>, i: nat, limit: nat)
    requires i < |turns|
  {
    limit == 0 || Recent(turns, i, turns[i].at - MINUTE) + 1 <= limit
  }

  predicate Admitted(turns: seq<Turn>, i: nat, limit: nat)
    requires i < |turns|
  {
    turns[i].kept && Passes(turns, i, limit)
  }

  /** Admitted turns among the first `n` dated in the minute from `start`. */
  function AdmittedIn(turns: seq<Turn>, n: nat, limit: nat, start: Time): nat
    requires n <= |turns|
  {
    if n == 0 then 0
    else AdmittedIn(turns, n - 1, limit, start)
         + (if Admitted(turns, n - 1, limit) && start <= turns[n - 1].at < start + MINUTE then 1 else 0)
  }

  lemma {:induction false} AdmittedWereRecent(turns: seq<Turn>, n: nat, limit: nat, start: Time, since: Time)
    requires n <= |turns| && since < start
    ensures AdmittedIn(turns, n, limit, start) <= Recent(turns, n, since)
  {
    if n > 0 {
      AdmittedWereRecent(turns, n - 1, limit, start, since);
    }
  }

  /** However turns arrive, and whatever order their transactions began in, no
      minute admits more of them than the limit. */
  lemma {:induction false} WindowNeverExceedsLimit(turns: seq<Turn>, n: nat, limit: nat, start: Time)
    requires n <= |turns| && limit >= 1
    ensures AdmittedIn(turns, n, limit, start) <= limit
  {
    if n > 0 {
      WindowNeverExceedsLimit(turns, n - 1, limit, start);
      if Admitted(turns, n - 1, limit) && start <= turns[n - 1].at < start + MINUTE {
        AdmittedWereRecent(turns, n - 1, limit, start, turns[n - 1].at - MINUTE);
      }
    }
  }

  /** Turn `i` passes exactly when, with its own, at most `limit` messages of the turns
      so far that were kept are dated within the sixty seconds before it. */
  lemma PassesIff(turns: seq<Turn>, i: nat, limit: nat)
    requires i < |turns|
    ensures Passes(turns, i, limit) <==>
            limit == 0 || |set j | 0 <= j < i && turns[j].kept && turns[j].at > turns[i].at - 60| + 1 <= limit
  {
    RecentIs(turns, i, turns[i].at - 60);
  }

  lemma {:induction false} RecentIs(turns: seq<Turn>, n: nat, since: Time)
    requires n <= |turns|
    ensures Recent(turns, n, since) == |set j | 0 <= j < n && turns[j].kept && turns[j].at > since|
  {
    if n > 0 {
      RecentIs(turns, n - 1, since);
      var before := set j | 0 <= j < n - 1 && turns[j].kept && turns[j].at > since;
      assert (set j | 0 <= j < n && turns[j].kept && turns[j].at > since)
          == before + (if turns[n - 1].kept && turns[n - 1].at > since then {n - 1} else {});
    }
  }

  /** The bound in so many words: any sixty seconds hold at most `limit` admitted turns. */
  lemma SixtySecondsHoldAtMost(turns: seq<Turn>, limit: nat, start: Time)
    requires limit >= 1
    ensures |set i | 0 <= i < |turns| && Admitted(turns, i, limit) && start <= turns[i].at < start + 60| <= limit
  {
    WindowNeverExceedsLimit(turns, |turns|, limit, start);
    AdmittedInIs(turns, |turns|, limit, start);
  }

  lemma {:induction false} AdmittedInIs(turns: seq<Turn>, n: nat, limit: nat, start: Time)
    requires n <= |turns|
    ensures AdmittedIn(turns, n, limit, start)
            == |set i | 0 <= i < n && Admitted(turns, i, limit) && start <= turns[i].at < start + 60|
  {
    if n > 0 {
      AdmittedInIs(turns, n - 1, limit, start);
      var before := set i | 0 <= i < n - 1 && Admitted(turns, i, limit) && start <= turns[i].at < start + 60;
      assert (set i | 0 <= i < n && Admitted(turns, i, limit) && start <= turns[i].at < start + 60)
          == before + (if Admitted(turns, n - 1, limit) && start <= turns[n - 1].at < start + 60 then {n - 1} else {});
    }
  }

  /** The window cannot be closed at both ends: turns exactly a minute apart do not
      count against each other. */
  lemma MinuteApartBothPass(at: Time)
    ensures var turns := [Turn(at, true), Turn(at + 60, true)];
            Admitted(turns, 0, 1) && Admitted(turns, 1, 1)
  {
    var turns := [Turn(at, true), Turn(at + MINUTE, true)];
    assert Recent(turns, 1, at) == Recent(turns, 0, at);
  }

  /** The check as the turn runs it, over the messages in the table. */
  method Check(messages: seq<Time>, now: Time, limit: nat) returns (pass: bool)
    ensures pass <==> limit == 0 || |set i | 0 <= i < |messages| && messages[i] > now - 60| <= limit
  {
    if limit == 0 {
      return true;
    }
    var recent := 0;
    for i := 0 to |messages|
      invariant recent == Since(messages[..i], now - MINUTE)
    {
      assert messages[..i + 1][..i] == messages[..i];
      if messages[i] > now - MINUTE {
        recent := recent + 1;
      }
    }
    assert messages[..|messages|] == messages;
    SinceIs(messages, now - MINUTE);
    return recent <= limit;
  }

  function Since(messages: seq<Time>, since: Time): nat {
    if messages == [] then 0
    else Since(messages[..|messages| - 1], since) + (if messages[|messages| - 1] > since then 1 else 0)
  }

  lemma {:induction false} SinceIs(messages: seq<Time>, since: Time)
    ensures Since(messages, since) == |set i | 0 <= i < |messages| && messages[i] > since|
  {
    if messages != [] {
      var n := |messages| - 1;
      SinceIs(messages[..n], since);
      var before := set i | 0 <= i < n && messages[..n][i] > since;
      assert (set i | 0 <= i < |messages| && messages[i] > since)
          == before + (if messages[n] > since then {n} else {});
    }
  }

  /** The messages in the table when turn `i` runs the check. */
  function MessagesOf(turns: seq<Turn>, n: nat): seq<Time>
    requires n <= |turns|
  {
    if n == 0 then [] else MessagesOf(turns, n - 1) + (if turns[n - 1].kept then [turns[n - 1].at] else [])
  }

  lemma {:induction false} SinceIsRecent(turns: seq<Turn>, n: nat, since: Time)
    requires n <= |turns|
    ensures Since(MessagesOf(turns, n), since) == Recent(turns, n, since)
  {
    if n > 0 {
      SinceIsRecent(turns, n - 1, since);
      var m := MessagesOf(turns, n - 1);
      assert (m + [turns[n - 1].at])[..|m|] == m && m + [] == m;
    }
  }

  /** The table holds the messages of the earlier turns and the turn's own. */
  lemma CheckDecidesPasses(turns: seq<Turn>, i: nat, limit: nat)
    requires i < |turns| && turns[i].kept
    ensures Passes(turns, i, limit) <==>
            limit == 0 || Since(MessagesOf(turns, i) + [turns[i].at], turns[i].at - MINUTE) <= limit
  {
    SinceIsRecent(turns, i, turns[i].at - MINUTE);
    var m := MessagesOf(turns, i);
    assert (m + [turns[i].at])[..|m|] == m;
  }
}
