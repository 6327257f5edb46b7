/** The session service inside one transaction: attach or create a session, apply
    a delta, claim finalisation, abandon, and the periodic idle sweep. */
module SessionStore {
  import opened Prelude
  import opened SessionLifecycle

  type ConvId = nat
  type Sid = nat

  datatype Stored = Stored(conv: ConvId, row: Session)

  /** One `session_abandon` audit row. */
  datatype Audit = Audit(entity: Sid, note: string)

  predicate IsOpen(sessions: map<Sid, Stored>, s: Sid) {
    s in sessions && sessions[s].row.Open()
  }

  predicate OpenIn(sessions: map<Sid, Stored>, s: Sid, conv: ConvId) {
    IsOpen(sessions, s) && sessions[s].conv == conv
  }

  ghost predicate NoneOpenIn(sessions: map<Sid, Stored>, conv: ConvId) {
    forall s :: !OpenIn(sessions, s, conv)
  }

  /** At most one open session per conversation, and its agent is the pinned one. */
  ghost predicate Consistent(sessions: map<Sid, Stored>, pins: map<ConvId, AgentId>) {
    && (forall s | s in sessions :: sessions[s].row.Holds())
    && (forall s, t, c :: OpenIn(sessions, s, c) && OpenIn(sessions, t, c) ==> s == t)
    && (forall s :: IsOpen(sessions, s) ==> sessions[s].conv in pins && pins[sessions[s].conv] == sessions[s].row.agent)
  }

  /** The sweep's own predicate: any non-terminal state, idle since before the cutoff. */
  predicate Idle(r: Stored, cutoff: Time) {
    r.row.Open() && r.row.lastActivity < cutoff
  }

  function Sweep(sessions: map<Sid, Stored>, cutoff: Time, now: Time): map<Sid, Stored> {
    map s | s in sessions ::
      if Idle(sessions[s], cutoff) then sessions[s].(row := Retired(sessions[s].row, "idle sweep", now)) else sessions[s]
  }

  function SweptConvs(sessions: map<Sid, Stored>, cutoff: Time): set<ConvId> {
    set s | s in sessions && Idle(sessions[s], cutoff) :: sessions[s].conv
  }

  /** Sweeping and unpinning exactly the swept conversations keeps every remaining
      open session pinned: a swept conversation has no other open session. */
  lemma SweepConsistent(sessions: map<Sid, Stored>, pins: map<ConvId, AgentId>, cutoff: Time, now: Time)
    requires Consistent(sessions, pins)
    ensures Consistent(Sweep(sessions, cutoff, now), pins - SweptConvs(sessions, cutoff))
    ensures forall s :: IsOpen(Sweep(sessions, cutoff, now), s) <==>
                        IsOpen(sessions, s) && sessions[s].row.lastActivity >= cutoff
  {
    var after := Sweep(sessions, cutoff, now);
    forall s ensures IsOpen(after, s) <==> IsOpen(sessions, s) && sessions[s].row.lastActivity >= cutoff {
    }
    forall s, t, c | OpenIn(after, s, c) && OpenIn(after, t, c) ensures s == t {
      assert OpenIn(sessions, s, c) && OpenIn(sessions, t, c);
    }
    forall s | IsOpen(after, s) ensures after[s].conv !in SweptConvs(sessions, cutoff) {
      if after[s].conv in SweptConvs(sessions, cutoff) {
        var t :| t in sessions && Idle(sessions[t], cutoff) && sessions[t].conv == after[s].conv;
        assert OpenIn(sessions, t, sessions[s].conv) && OpenIn(sessions, s, sessions[s].conv);
      }
    }
    forall s | s in after ensures after[s].row.Holds() {
      assert sessions[s].row.Holds();
    }
  }

  /** Creating and pinning a session where none is open. */
  lemma CreateConsistent(sessions: map<Sid, Stored>, pins: map<ConvId, AgentId>, s: Sid, conv: ConvId, agent: AgentId, now: Time)
    requires Consistent(sessions, pins) && NoneOpenIn(sessions, conv) && s !in sessions
    ensures var after := sessions[s := Stored(conv, FreshSession(agent, now))];
            && Consistent(after, pins[conv := agent])
            && forall t, c :: OpenIn(after, t, c) <==> OpenIn(sessions, t, c) || (t == s && c == conv)
  {
    var after := sessions[s := Stored(conv, FreshSession(agent, now))];
    forall t, c ensures OpenIn(after, t, c) <==> OpenIn(sessions, t, c) || (t == s && c == conv) {
    }
    forall t | IsOpen(after, t) && t != s ensures after[t].conv != conv {
      assert !OpenIn(sessions, t, conv);
    }
  }

  class Service {
    var sessions: map<Sid, Stored>
    var pins: map<ConvId, AgentId>
    var audit: seq<Audit>

    ghost predicate Valid()
      reads this
    {
      Consistent(sessions, pins)
    }

    constructor ()
      ensures Valid() && sessions == map[] && pins == map[] && audit == []
    {
      sessions, pins, audit := map[], map[], [];
    }

    method GetOpen(conv: ConvId) returns (found: Option<Sid>)
      ensures found.Some? ==> OpenIn(sessions, found.value, conv)
      ensures found.None? ==> NoneOpenIn(sessions, conv)
    {
      if s :| s in sessions && OpenIn(sessions, s, conv) {
        return Some(s);
      }
      return None;
    }

    /** Retire the open session, unpin, audit. */
    method Abandon(conv: ConvId, reason: string, now: Time) returns (gone: Option<Sid>)
      requires Valid()
      modifies this
      ensures Valid() && NoneOpenIn(sessions, conv)
      ensures gone.Some? <==> exists s :: OpenIn(old(sessions), s, conv)
      ensures gone.None? ==> sessions == old(sessions) && pins == old(pins) && audit == old(audit)
      ensures gone.Some? ==>
                var s := gone.value;
                && OpenIn(old(sessions), s, conv)
                && sessions == old(sessions)[s := old(sessions)[s].(row := Retired(old(sessions)[s].row, reason, now))]
                && pins == old(pins) - {conv}
                && audit == old(audit) + [Audit(s, reason)]
    {
      gone := GetOpen(conv);
      if gone.Some? {
        var s := gone.value;
        RetireKeepsRow(sessions[s].row, reason, now);
        sessions := sessions[s := sessions[s].(row := Retired(sessions[s].row, reason, now))];
        pins := pins - {conv};
        audit := audit + [Audit(s, reason)];
        assert forall t, c :: OpenIn(sessions, t, c) ==> OpenIn(old(sessions), t, c) && t != s;
        forall t | IsOpen(sessions, t) ensures sessions[t].conv in pins {
          assert OpenIn(old(sessions), t, sessions[t].conv);
          assert OpenIn(old(sessions), s, conv);
        }
      }
    }

    /** `open_for` followed by the turn's pin.  The agent's own open session is handed
        back and nothing is written; another agent's is retired with one audit row, and
        the caller is told to close its channel; a new session is created only then, or
        where none was open, and only for an agent that pins. */
    method OpenFor(conv: ConvId, agent: AgentId, pinSession: bool, fresh0: Sid, now: Time)
      returns (sess: Option<Sid>, displaced: bool)
      requires Valid() && fresh0 !in sessions
      modifies this
      ensures Valid()
      ensures forall s: Sid :: OpenIn(sessions, s, conv) <==> sess == Some(s)
      ensures sess.Some? ==> OpenIn(sessions, sess.value, conv) && sessions[sess.value].row.agent == agent
      ensures displaced <==> exists s :: OpenIn(old(sessions), s, conv) && old(sessions)[s].row.agent != agent
      ensures sess.Some? <==> pinSession || exists s :: OpenIn(old(sessions), s, conv) && old(sessions)[s].row.agent == agent
      ensures forall s: Sid | OpenIn(old(sessions), s, conv) && old(sessions)[s].row.agent == agent ::
                sess == Some(s) && sessions == old(sessions) && pins == old(pins) && audit == old(audit)
      ensures forall s: Sid | OpenIn(old(sessions), s, conv) && old(sessions)[s].row.agent != agent ::
                && s in sessions && sessions[s] == old(sessions)[s].(row := Retired(old(sessions)[s].row, "agent_switch", now))
                && audit == old(audit) + [Audit(s, "agent_switch")]
                && sessions.Keys == old(sessions).Keys + (if pinSession then {fresh0} else {})
                && (if pinSession then sess == Some(fresh0) && sessions[fresh0] == Stored(conv, FreshSession(agent, now))
                    else sess == None && conv !in pins)
      ensures (forall s: Sid :: !OpenIn(old(sessions), s, conv)) ==>
                && audit == old(audit)
                && (if pinSession then
                      sess == Some(fresh0) && sessions == old(sessions)[fresh0 := Stored(conv, FreshSession(agent, now))]
                    else sess == None && sessions == old(sessions) && pins == old(pins))
      ensures forall s | s in old(sessions) && !OpenIn(old(sessions), s, conv) ::
                s in sessions && sessions[s] == old(sessions)[s]
      ensures forall c | c != conv :: c in pins <==> c in old(pins)
      ensures forall c | c != conv && c in pins :: pins[c] == old(pins)[c]
      ensures pinSession ==> conv in pins && pins[conv] == agent
    {
      displaced := false;
      sess := GetOpen(conv);
      if sess.Some? && sessions[sess.value].row.agent == agent {
        assert OpenIn(old(sessions), sess.value, conv);
        if pinSession {
          pins := pins[conv := agent];
          assert pins == old(pins);
        }
        return;
      }
      if sess.Some? {
        assert OpenIn(old(sessions), sess.value, conv);
        var gone := Abandon(conv, "agent_switch", now);
        displaced := true;
      }
      assert NoneOpenIn(sessions, conv);
      sess := None;
      if pinSession {
        CreateConsistent(sessions, pins, fresh0, conv, agent, now);
        sessions := sessions[fresh0 := Stored(conv, FreshSession(agent, now))];
        pins := pins[conv := agent];
        sess := Some(fresh0);
      }
    }

    /** The guarded update behind every delta.  It keeps the store consistent for
        any delta, and ages the row unless the delta renames its remote identity. */
    method Apply(s: Sid, read: Session, d: Delta, now: Time) returns (r: Result<Session, ApplyError>)
      requires Valid() && s in sessions
      modifies this`sessions
      ensures Valid()
      ensures r == SessionLifecycle.Apply(old(sessions)[s].row, read.state, d, now)
      ensures sessions == if r.Ok? then old(sessions)[s := old(sessions)[s].(row := r.value)] else old(sessions)
      ensures r.Ok? ==> (Older(old(sessions)[s].row, sessions[s].row) <==> !Renames(old(sessions)[s].row, d))
    {
      r := SessionLifecycle.Apply(sessions[s].row, read.state, d, now);
      if r.Ok? {
        ApplyKeepsRow(sessions[s].row, read.state, d, now);
        sessions := sessions[s := sessions[s].(row := r.value)];
        assert forall t, c :: OpenIn(sessions, t, c) ==> OpenIn(old(sessions), t, c);
      }
    }

    /** The finalisation claim: at most one caller wins it. */
    method ClaimFinalizing(s: Sid) returns (won: bool)
      requires Valid() && s in sessions
      modifies this`sessions
      ensures Valid()
      ensures won <==> Claimable(old(sessions)[s].row.state)
      ensures sessions == if won then old(sessions)[s := old(sessions)[s].(row := old(sessions)[s].row.(state := Finalizing))]
                          else old(sessions)
    {
      var claimed := Claim(sessions[s].row);
      won := claimed.Some?;
      if won {
        ClaimKeepsRow(sessions[s].row);
        sessions := sessions[s := sessions[s].(row := claimed.value)];
        assert forall t, c :: OpenIn(sessions, t, c) ==> OpenIn(old(sessions), t, c);
      }
    }

    /** The periodic job: one bulk update, then an unpin and an audit row for each
        swept session in turn. */
    method SweepAbandoned(cutoff: Time, now: Time) returns (swept: set<Sid>)
      requires Valid()
      modifies this
      ensures Valid()
      ensures forall s :: s in swept <==>
                s in old(sessions) && old(sessions)[s].row.Open() && old(sessions)[s].row.lastActivity < cutoff
      ensures sessions.Keys == old(sessions).Keys
      ensures forall s | s in old(sessions) ::
                sessions[s] == if s in swept then old(sessions)[s].(row := Retired(old(sessions)[s].row, "idle sweep", now))
                               else old(sessions)[s]
      ensures pins == old(pins) - SweptConvs(old(sessions), cutoff)
      ensures exists notes :: audit == old(audit) + notes && NotesFor(notes, swept)
    {
      swept := set s | s in sessions && Idle(sessions[s], cutoff);
      SweepConsistent(sessions, pins, cutoff, now);
      assert SweptConvs(sessions, cutoff) == ConvsOf(sessions, swept);
      sessions := Sweep(sessions, cutoff, now);
      assert ConvsOf(sessions, swept) == ConvsOf(old(sessions), swept);
      UnpinSwept(swept);
    }

    method UnpinSwept(swept: set<Sid>)
      requires swept <= sessions.Keys
      modifies this`pins, this`audit
      ensures pins == old(pins) - ConvsOf(sessions, swept)
      ensures exists notes :: audit == old(audit) + notes && NotesFor(notes, swept)
    {
      var rows, todo := sessions, swept;
      var notes := [];
      while todo != {}
        invariant todo <= swept && audit == old(audit)
        invariant pins == old(pins) - ConvsOf(rows, swept - todo)
        invariant NotesFor(notes, swept - todo)
        decreases todo
      {
        var s :| s in todo;
        UnpinNext(rows, old(pins), swept, todo, s);
        NoteNext(notes, swept, todo, s);
        pins := pins - {rows[s].conv};
        notes := notes + [Audit(s, "idle sweep")];
        todo := todo - {s};
      }
      assert swept - todo == swept;
      audit := audit + notes;
    }
  }

  lemma NoteNext(notes: seq<Audit>, swept: set<Sid>, todo: set<Sid>, s: Sid)
    requires todo <= swept && s in todo && NotesFor(notes, swept - todo)
    ensures NotesFor(notes + [Audit(s, "idle sweep")], swept - (todo - {s}))
  {
    assert swept - (todo - {s}) == (swept - todo) + {s};
  }

  /** One audit row per swept session. */
  ghost predicate NotesFor(notes: seq<Audit>, swept: set<Sid>) {
    |notes| == |swept| && forall s :: s in swept <==> Audit(s, "idle sweep") in notes
  }

  ghost function ConvsOf(rows: map<Sid, Stored>, some: set<Sid>): set<ConvId>
    requires some <= rows.Keys
  {
    set s | s in some :: rows[s].conv
  }

  lemma UnpinNext(rows: map<Sid, Stored>, pins: map<ConvId, AgentId>, swept: set<Sid>, todo: set<Sid>, s: Sid)
    requires swept <= rows.Keys && todo <= swept && s in todo
    ensures pins - ConvsOf(rows, swept - todo) - {rows[s].conv} == pins - ConvsOf(rows, swept - (todo - {s}))
  {
    assert swept - (todo - {s}) == (swept - todo) + {s};
    assert ConvsOf(rows, (swept - todo) + {s}) == ConvsOf(rows, swept - todo) + {rows[s].conv};
  }
}
