/** A concrete run of the turn protocol in which one story is submitted twice.

    Connection 0 alone takes a first turn: it locks, records the user's message,
    is routed to agent 7, creates and pins session 1, commits, gets an answer
    that leaves the session awaiting the user, records the reply, commits and
    unlocks.  Then two forced finalisations each store the story remotely and
    raise before they commit, so that each rolls its claim back.

    The worlds of the first turn are written out, one for each statement. */
module TurnWitness {
  import opened Prelude
  import opened SessionLifecycle
  import opened TurnProtocol
  import opened TurnInvariant
  import opened TurnSafety
  import TurnOutcomes

  const USER := UserMessage("hi")
  const AGENT := AgentMessage(Some(1))

  function NewRow(): Session {
    FreshSession(7, 0)
  }

  function Answer(): Delta {
    OnlyState(AwaitingUser).(remoteId := Some("remote"))
  }

  function AnsweredRow(): Session {
    Applied(NewRow(), Answer(), 0)
  }

  function Answered(): Cell {
    Cell(Some(Version(AnsweredRow(), false)), None)
  }

  function At(conv: Conv, dirty: Option<Dirty<Conv>>, cells: map<Sid, Cell>, log: map<nat, Message>,
              lock: Option<Hold>, pc: Pc, mine: map<nat, Message>): World
  {
    World(conv, dirty, cells, log, lock, map[0 := Worker(pc, mine, 0)], multiset{}, multiset{})
  }

  // The first turn of a conversation, alone on connection 0: its worlds ...

  function Opening(k: nat): World
    requires k <= 8
  {
    var none := Conv(0, None);
    var held := Some(Hold(0, 1));
    var one := Some(Dirty(0, Conv(1, None)));
    match k
    case 0 => At(none, None, map[], map[], None, Idle, map[])
    case 1 => At(none, None, map[], map[], None, ChatOpened("hi"), map[])
    case 2 => At(none, None, map[], map[], held, Locked("hi"), map[])
    case 3 => At(none, one, map[], map[], held, Numbered("hi", 1), map[])
    case 4 => At(none, one, map[], map[], held, Recorded, map[1 := USER])
    case 5 => At(none, one, map[], map[], held, Routed(7, true), map[1 := USER])
    case 6 => At(none, one, map[], map[], held, Vacant(7, true), map[1 := USER])
    case 7 => At(none, one, map[1 := Cell(None, Some(Dirty(0, Version(NewRow(), false))))], map[], held,
                 Attached(7, true, Some(Ref(1, NewRow()))), map[1 := USER])
    case _ => At(none, Some(Dirty(0, Conv(1, Some(7)))), map[1 := Cell(None, Some(Dirty(0, Version(NewRow(), false))))],
                 map[], held, ReadyToCommit(7, Some(Ref(1, NewRow()))), map[1 := USER])
  }

  function Replied(k: nat): World
    requires k <= 8
  {
    var one := Conv(1, Some(7));
    var two := Some(Dirty(0, Conv(2, Some(7))));
    var held := Some(Hold(0, 1));
    var fresh1 := Cell(Some(Version(NewRow(), false)), None);
    var dirty1 := Cell(Some(Version(NewRow(), false)), Some(Dirty(0, Version(AnsweredRow(), false))));
    match k
    case 0 => At(one, None, map[1 := fresh1], map[1 := USER], held, InHandler(Some(Ref(1, NewRow()))), map[])
    case 1 => At(one, None, map[1 := fresh1], map[1 := USER], held,
                 Handled(Some(Ref(1, NewRow())), Some(Answer()), false), map[])
    case 2 => At(one, None, map[1 := dirty1], map[1 := USER], held, Replying(Some(1)), map[])
    case 3 => At(one, two, map[1 := dirty1], map[1 := USER], held, ReplyNumbered(Some(1), 2), map[])
    case 4 => At(one, two, map[1 := dirty1], map[1 := USER], held, ReplyRecorded, map[2 := AGENT])
    case 5 => At(Conv(2, Some(7)), None, map[1 := Answered()], map[1 := USER, 2 := AGENT], held, Unlocking, map[])
    case 6 => At(Conv(2, Some(7)), None, map[1 := Answered()], map[1 := USER, 2 := AGENT], None, Ending(false), map[])
    case _ => At(Conv(2, Some(7)), None, map[1 := Answered()], map[1 := USER, 2 := AGENT], None, Idle, map[])
  }

  // ... and its actions.

  function Do(e: Event): Action {
    Action(0, 0, e)
  }

  function MessageActs(): seq<Action> {
    [Do(Chat("hi")), Do(Next), Do(Next), Do(Next)]
  }

  function OpenActs(): seq<Action> {
    [Do(Route(7, true)), Do(Next), Do(Hit(1)), Do(Next), Do(Next)]
  }

  function ReplyActs(): seq<Action> {
    [Do(Reply(Some(Answer()), false)), Do(Next), Do(Next), Do(Next)] + [Do(Next), Do(Next), Do(Next)]
  }

  lemma {:induction false} Follows(ws: seq<World>, acts: seq<Action>)
    requires |ws| == |acts| + 1
    requires forall i | 0 <= i < |acts| :: Step(ws[i], acts[i]) == ws[i + 1]
    ensures Run(ws[0], acts) == ws[|acts|]
  {
    if acts != [] {
      Follows(ws[1..], acts[1..]);
    }
  }

  lemma MessageSteps()
    ensures Step(Opening(0), Do(Chat("hi"))) == Opening(1)
    ensures Step(Opening(1), Do(Next)) == Opening(2)
    ensures Step(Opening(2), Do(Next)) == Opening(3)
    ensures Step(Opening(3), Do(Next)) == Opening(4)
  {
  }

  lemma RouteSteps()
    ensures Step(Opening(4), Do(Route(7, true))) == Opening(5)
    ensures Step(Opening(5), Do(Next)) == Opening(6)
  {
  }

  lemma Creates()
    ensures Step(Opening(6), Do(Hit(1))) == Opening(7)
  {
  }

  lemma Pins()
    ensures Step(Opening(7), Do(Next)) == Opening(8)
  {
  }

  lemma OpenCommits()
    ensures Step(Opening(8), Do(Next)) == Replied(0)
  {
    var w := Commit(Opening(8), 0);
    assert w.sessions == Replied(0).sessions;
    assert w.log == map[1 := USER];
  }

  lemma ReplyStarts()
    ensures Step(Replied(0), Do(Reply(Some(Answer()), false))) == Replied(1)
  {
  }

  lemma ReplyNumbers()
    ensures Step(Replied(2), Do(Next)) == Replied(3)
  {
  }

  lemma ReplyInserts()
    ensures Step(Replied(3), Do(Next)) == Replied(4)
  {
  }

  lemma Unlocks()
    ensures Step(Replied(5), Do(Next)) == Replied(6)
  {
  }

  lemma ReplyApplies()
    ensures Step(Replied(1), Do(Next)) == Replied(2)
  {
    var r := Apply(NewRow(), Pending, Answer(), 0);
    assert r == Ok(AnsweredRow());
    assert Sees(Replied(1), 0, 1) == Some(Version(NewRow(), false));
    assert ApplyTo(Replied(1), 0, 0, Ref(1, NewRow()), Answer(), Replying(Some(1)), Unlocking)
        == WriteApplied(Replied(1), 0, 1, Version(NewRow(), false), r, Replying(Some(1)), Unlocking);
  }

  lemma ReplyCommits()
    ensures Step(Replied(4), Do(Next)) == Replied(5)
  {
    var w := Commit(Replied(4), 0);
    assert w.sessions == Replied(5).sessions;
    assert w.log == map[1 := USER, 2 := AGENT];
  }

  lemma TurnEnds()
    ensures Step(Replied(6), Do(Next)) == Replied(7)
  {
    var w := Commit(Replied(6), 0);
    assert w.sessions == Replied(6).sessions && w.log == Replied(6).log;
  }

  lemma MessageRuns()
    ensures Run(Opening(0), MessageActs()) == Opening(4)
  {
    MessageSteps();
    Follows([Opening(0), Opening(1), Opening(2), Opening(3), Opening(4)], MessageActs());
  }

  lemma OpenRuns()
    ensures Run(Opening(4), OpenActs()) == Replied(0)
  {
    RouteSteps();
    Creates();
    Pins();
    OpenCommits();
    Follows([Opening(4), Opening(5), Opening(6), Opening(7), Opening(8), Replied(0)], OpenActs());
  }

  lemma AnswerRuns()
    ensures Run(Replied(0), [Do(Reply(Some(Answer()), false)), Do(Next), Do(Next), Do(Next)]) == Replied(4)
  {
    ReplyStarts();
    ReplyApplies();
    ReplyNumbers();
    ReplyInserts();
    Follows([Replied(0), Replied(1), Replied(2), Replied(3), Replied(4)],
            [Do(Reply(Some(Answer()), false)), Do(Next), Do(Next), Do(Next)]);
  }

  lemma EndRuns()
    ensures Run(Replied(4), [Do(Next), Do(Next), Do(Next)]) == Replied(7)
  {
    ReplyCommits();
    Unlocks();
    TurnEnds();
    Follows([Replied(4), Replied(5), Replied(6), Replied(7)], [Do(Next), Do(Next), Do(Next)]);
  }

  lemma ReplyRuns()
    ensures Run(Replied(0), ReplyActs()) == Replied(7)
  {
    AnswerRuns();
    EndRuns();
    TurnOutcomes.RunAppend(Replied(0), [Do(Reply(Some(Answer()), false)), Do(Next), Do(Next), Do(Next)], [Do(Next), Do(Next), Do(Next)]);
  }

  function FirstTurn(): seq<Action> {
    MessageActs() + OpenActs() + ReplyActs()
  }

  lemma StartsIdle()
    ensures Initial({0}) == Opening(0)
  {
    assert Initial({0}).workers == map[0 := Worker(Idle, map[], 0)];
  }

  lemma FirstTurnRuns()
    ensures Run(Initial({0}), FirstTurn()) == Replied(7)
  {
    StartsIdle();
    TurnOutcomes.RunAppend(Initial({0}), MessageActs(), OpenActs());
    TurnOutcomes.RunAppend(Initial({0}), MessageActs() + OpenActs(), ReplyActs());
    MessageRuns();
    OpenRuns();
    ReplyRuns();
  }

  /** Anything the protocol can reach with the first turn's session idle and awaiting. */
  lemma Resubmits(acts: seq<Action>)
    requires var w := Run(Initial({0}), acts);
             IdleOn(w, 0) && Undisturbed(w, 1) && Claimable(w.sessions[1].base.value.row.state)
    ensures var w, w' := Run(Initial({0}), acts), Run(Initial({0}), acts + RolledBackFinalize(0, 1, 0));
            IdleOn(w', 0) && w'.sessions == w.sessions && w'.calls[1] == w.calls[1] + 1
  {
    var w := Run(Initial({0}), acts);
    Reached({0}, acts);
    RolledBackFinalizeRepeats(w, 0, 1, 0);
    TurnOutcomes.RunAppend(Initial({0}), acts, RolledBackFinalize(0, 1, 0));
  }

  /** The first turn leaves an awaiting session that nothing has submitted. */
  lemma AwaitingReachable()
    ensures var w := Run(Initial({0}), FirstTurn());
            && IdleOn(w, 0) && Undisturbed(w, 1) && Claimable(w.sessions[1].base.value.row.state)
            && w.calls[1] == 0
  {
    FirstTurnRuns();
    AwaitingAtEnd();
  }

  lemma AwaitingAtEnd()
    ensures var w := Replied(7);
            && IdleOn(w, 0) && Undisturbed(w, 1) && Claimable(w.sessions[1].base.value.row.state)
            && w.calls[1] == 0
  {
  }

  /** A first turn, then two forced finalisations that each roll back after the
      remote call: the same story is submitted twice. */
  lemma SecondSubmissionReachable()
    ensures exists acts :: Run(Initial({0}), acts).calls[1] == 2
  {
    var again := RolledBackFinalize(0, 1, 0);
    var once := FirstTurn() + again;
    AwaitingReachable();
    Resubmits(FirstTurn());
    Resubmits(once);
    assert Run(Initial({0}), once + again).calls[1] == 2;
  }
}
