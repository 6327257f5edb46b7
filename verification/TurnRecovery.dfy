/** Deciding, from Mitra's own message log, what became of a turn that was given
    up on: the backward scan, the window of the log it is given, and how far the
    verdict on the window is the verdict on the log. */
module TurnRecovery {
  import opened Prelude
  import opened Text

  datatype ChatRow = ChatRow(id: int, fromUser: bool, message: string, translated: string, stage: string)

  datatype Outcome = Answered | Pending | NotDelivered

  datatype Verdict = Verdict(outcome: Outcome, botText: string, stage: string, lastRow: Option<int>)

  // ---------------------------------------------------------------- matching

  predicate Matches(row: ChatRow, text: string) {
    var needle := Strip(text);
    needle != "" && (needle == Strip(row.message) || needle == Strip(row.translated))
  }

  /** A user row that could be the sent message. */
  predicate Ours(row: ChatRow, text: string) {
    row.fromUser && Matches(row, text)
  }

  /** What a match is, apart from how it is computed: a user row whose message, or
      its translation, is the text up to white space around it, the text not being blank. */
  ghost predicate Carries(row: ChatRow, text: string) {
    row.fromUser && !AllBlank(text) && (SameText(text, row.message) || SameText(text, row.translated))
  }

  lemma OursIff(row: ChatRow, text: string)
    ensures Ours(row, text) <==> Carries(row, text)
  {
    BlankIffStripsToNothing(text);
    StripsAlikeIff(text, row.message);
    StripsAlikeIff(text, row.translated);
  }

  ghost predicate NoneCarries(rows: seq<ChatRow>, text: string) {
    forall i | 0 <= i < |rows| :: !Carries(rows[i], text)
  }

  lemma NoneOursIff(rows: seq<ChatRow>, text: string)
    ensures NoneOurs(rows, text) <==> NoneCarries(rows, text)
  {
    forall i | 0 <= i < |rows| ensures Ours(rows[i], text) <==> Carries(rows[i], text) {
      OursIff(rows[i], text);
    }
  }

  // -------------------------------------------------------------- the verdict

  /** The most recent row that could be ours. */
  function LastOurs(rows: seq<ChatRow>, text: string): (r: Option<nat>)
    ensures r.Some? ==> r.value < |rows|
  {
    if rows == [] then None
    else if Ours(rows[|rows| - 1], text) then Some(|rows| - 1)
    else LastOurs(rows[..|rows| - 1], text)
  }

  /** The first bot row at or after `i`. */
  function FirstBot(rows: seq<ChatRow>, i: nat): (r: Option<nat>)
    ensures r.Some? ==> i <= r.value < |rows|
    decreases |rows| - i
  {
    if i >= |rows| then None else if !rows[i].fromUser then Some(i) else FirstBot(rows, i + 1)
  }

  function LastId(rows: seq<ChatRow>): Option<int> {
    if rows == [] then None else Some(rows[|rows| - 1].id)
  }

  /** What the record says: the reply is the first bot row after the last match. */
  function Reconciled(rows: seq<ChatRow>, text: string): Verdict {
    var u := LastOurs(rows, text);
    if u.None? then Verdict(NotDelivered, "", "", LastId(rows))
    else
      var b := FirstBot(rows, u.value + 1);
      if b.None? then Verdict(Pending, "", "", LastId(rows)) else Reply(rows[b.value])
  }

  function Reply(row: ChatRow): Verdict {
    Verdict(Answered, Strip(row.message), row.stage, Some(row.id))
  }

  method Reconcile(rows: seq<ChatRow>, sent: string) returns (r: Verdict)
    ensures r == Reconciled(rows, sent)
  {
    var userIndex: Option<nat> := None;
    var i := |rows|;
    assert rows[..i] == rows;
    while i > 0
      invariant 0 <= i <= |rows| && userIndex.None?
      invariant LastOurs(rows, sent) == LastOurs(rows[..i], sent)
    {
      i := i - 1;
      assert rows[..i + 1][..i] == rows[..i];
      if rows[i].fromUser && Matches(rows[i], sent) {
        userIndex := Some(i);
        break;
      }
    }
    if userIndex.None? {
      return if rows == [] then Verdict(NotDelivered, "", "", None)
             else Verdict(NotDelivered, "", "", Some(rows[|rows| - 1].id));
    }
    var j := userIndex.value + 1;
    while j < |rows|
      invariant userIndex.value < j <= |rows|
      invariant FirstBot(rows, userIndex.value + 1) == FirstBot(rows, j)
    {
      if !rows[j].fromUser {
        return Verdict(Answered, Strip(rows[j].message), rows[j].stage, Some(rows[j].id));
      }
      j := j + 1;
    }
    return Verdict(Pending, "", "", Some(rows[|rows| - 1].id));
  }

  // ------------------------------------------------------ what the scans find

  ghost predicate NoneOurs(rows: seq<ChatRow>, text: string) {
    forall i | 0 <= i < |rows| :: !Ours(rows[i], text)
  }

  ghost predicate AllFromUser(rows: seq<ChatRow>) {
    forall i | 0 <= i < |rows| :: rows[i].fromUser
  }

  lemma {:induction false} LastOursFinds(rows: seq<ChatRow>, text: string)
    ensures match LastOurs(rows, text)
            case Some(u) => Ours(rows[u], text) && NoneOurs(rows[u + 1..], text)
            case None => NoneOurs(rows, text)
  {
    if rows != [] && !Ours(rows[|rows| - 1], text) {
      LastOursFinds(rows[..|rows| - 1], text);
    }
  }

  lemma {:induction false} FirstBotFinds(rows: seq<ChatRow>, i: nat)
    requires i <= |rows|
    ensures match FirstBot(rows, i)
            case Some(b) => !rows[b].fromUser && AllFromUser(rows[i..b])
            case None => AllFromUser(rows[i..])
    decreases |rows| - i
  {
    if i < |rows| && rows[i].fromUser {
      FirstBotFinds(rows, i + 1);
    }
  }

  /** Rows in front of our last row, and rows after it that are not ours, do not move it. */
  lemma {:induction false} LastOursAt(before: seq<ChatRow>, mine: ChatRow, later: seq<ChatRow>, text: string)
    requires Ours(mine, text) && NoneOurs(later, text)
    ensures LastOurs(before + [mine] + later, text) == Some(|before|)
    decreases |later|
  {
    var rows := before + [mine] + later;
    if later != [] {
      assert rows[|rows| - 1] == later[|later| - 1];
      assert rows[..|rows| - 1] == before + [mine] + later[..|later| - 1];
      LastOursAt(before, mine, later[..|later| - 1], text);
    }
  }

  lemma {:induction false} LastOursNone(rows: seq<ChatRow>, text: string)
    requires NoneOurs(rows, text)
    ensures LastOurs(rows, text).None?
  {
    if rows != [] {
      LastOursNone(rows[..|rows| - 1], text);
    }
  }

  function Shift(b: Option<nat>, n: nat): Option<nat> {
    if b.Some? then Some(b.value + n) else None
  }

  lemma {:induction false} FirstBotShift(before: seq<ChatRow>, later: seq<ChatRow>, i: nat)
    ensures FirstBot(before + later, |before| + i) == Shift(FirstBot(later, i), |before|)
    decreases |later| - i
  {
    if i < |later| {
      assert (before + later)[|before| + i] == later[i];
      FirstBotShift(before, later, i + 1);
    }
  }

  // ----------------------------------------------------------- main results

  /** A delivered turn is judged by what followed it alone, whatever the log held
      before, identical earlier answers included: answered exactly when the bot
      spoke after it, by the first thing it said. */
  lemma DeliveredIsJudgedByWhatFollows(before: seq<ChatRow>, mine: ChatRow, later: seq<ChatRow>, text: string)
    requires Ours(mine, text) && NoneOurs(later, text)
    ensures var rows := before + [mine] + later;
            Reconciled(rows, text) ==
            match FirstBot(later, 0)
            case Some(b) => Reply(later[b])
            case None => Verdict(Pending, "", "", LastId(rows))
  {
    var rows := before + [mine] + later;
    LastOursAt(before, mine, later, text);
    FirstBotShift(before + [mine], later, 0);
    var b := FirstBot(later, 0);
    assert b.Some? ==> rows[|before| + 1 + b.value] == later[b.value];
  }

  /** The verdict never wrongly invites a re-send: it is "not delivered" exactly
      when no user row carries the text, and then names the last row there is. */
  lemma NotDeliveredIff(rows: seq<ChatRow>, text: string)
    ensures Reconciled(rows, text).outcome.NotDelivered? <==> NoneCarries(rows, text)
    ensures NoneOurs(rows, text) <==> NoneCarries(rows, text)
    ensures var v := Reconciled(rows, text);
            !v.outcome.Answered? ==>
              v.botText == "" && v.stage == "" && v.lastRow == if rows == [] then None else Some(rows[|rows| - 1].id)
  {
    LastOursFinds(rows, text);
    NoneOursIff(rows, text);
  }

  /** The two scans find what they should: a turn is answered exactly when a bot row
      follows the last user row that carries the text, and the first such row is the
      reply, with its message trimmed, its stage and its id. */
  lemma AnsweredIff(rows: seq<ChatRow>, text: string)
    ensures Reconciled(rows, text).outcome.Answered? <==>
            exists u: nat, b: nat :: LastExchange(rows, text, u, b)
    ensures forall u: nat, b: nat | LastExchange(rows, text, u, b) :: IsReply(Reconciled(rows, text), rows[b])
  {
    if Reconciled(rows, text).outcome.Answered? {
      var u, b := ExchangeFound(rows, text);
    }
    forall u: nat, b: nat | LastExchange(rows, text, u, b) ensures IsReply(Reconciled(rows, text), rows[b]) {
      ExchangeDecides(rows, text, u, b);
    }
  }

  lemma ExchangeFound(rows: seq<ChatRow>, text: string) returns (u: nat, b: nat)
    requires Reconciled(rows, text).outcome.Answered?
    ensures LastExchange(rows, text, u, b)
  {
    u := LastOurs(rows, text).value;
    b := FirstBot(rows, u + 1).value;
    LastOursFinds(rows, text);
    FirstBotFinds(rows, u + 1);
    OursIff(rows[u], text);
    NoneOursIff(rows[u + 1..], text);
  }

  lemma ExchangeDecides(rows: seq<ChatRow>, text: string, u: nat, b: nat)
    requires LastExchange(rows, text, u, b)
    ensures IsReply(Reconciled(rows, text), rows[b])
  {
    OursIff(rows[u], text);
    NoneOursIff(rows[u + 1..], text);
    LastOursAt(rows[..u], rows[u], rows[u + 1..], text);
    assert rows == rows[..u] + [rows[u]] + rows[u + 1..];
    FirstBotUnique(rows, u + 1, b);
    StripIsTheTrim(rows[b].message, Strip(rows[b].message));
  }

  /** The verdict that row `b` of Mitra's is the answer. */
  ghost predicate IsReply(v: Verdict, b: ChatRow) {
    v.outcome.Answered? && TrimOf(v.botText, b.message) && v.stage == b.stage && v.lastRow == Some(b.id)
  }

  /** Row `u` is the last that carries the text and `b` the first bot row after it. */
  ghost predicate LastExchange(rows: seq<ChatRow>, text: string, u: nat, b: nat) {
    && u < b < |rows| && Carries(rows[u], text) && !rows[b].fromUser
    && NoneCarries(rows[u + 1..], text) && AllFromUser(rows[u + 1..b])
  }

  lemma {:induction false} FirstBotUnique(rows: seq<ChatRow>, i: nat, b: nat)
    requires i <= b < |rows| && !rows[b].fromUser && AllFromUser(rows[i..b])
    ensures FirstBot(rows, i) == Some(b)
    decreases b - i
  {
    if i < b {
      assert rows[i..b][0] == rows[i];
      assert rows[i..b][1..] == rows[i + 1..b];
      FirstBotUnique(rows, i + 1, b);
    }
  }

  /** The verdict on the last rows of the log is the verdict on the whole log
      exactly when the last match is among them, or there is none at all. */
  lemma TailVerdictIff(log: seq<ChatRow>, n: nat, text: string)
    requires n <= |log|
    ensures Reconciled(log[n..], text).outcome == Reconciled(log, text).outcome
            <==> LastOurs(log, text).None? || n <= LastOurs(log, text).value
    ensures LastOurs(log, text).Some? && n <= LastOurs(log, text).value ==>
              Reconciled(log[n..], text) == Reconciled(log, text)
  {
    LastOursFinds(log, text);
    var u := LastOurs(log, text);
    if u.Some? && n <= u.value {
      assert log == log[..u.value] + [log[u.value]] + log[u.value + 1..];
      assert log[n..] == log[n..u.value] + [log[u.value]] + log[u.value + 1..];
      SameEnding(log[..u.value], log[n..u.value], log[u.value], log[u.value + 1..], text);
    } else {
      CutOff(log, n, text);
      NotDeliveredIff(log[n..], text);
    }
  }

  lemma SameEnding(a: seq<ChatRow>, b: seq<ChatRow>, mine: ChatRow, later: seq<ChatRow>, text: string)
    requires Ours(mine, text) && NoneOurs(later, text)
    ensures Reconciled(a + [mine] + later, text) == Reconciled(b + [mine] + later, text)
    ensures !Reconciled(a + [mine] + later, text).outcome.NotDelivered?
  {
    DeliveredIsJudgedByWhatFollows(a, mine, later, text);
    DeliveredIsJudgedByWhatFollows(b, mine, later, text);
  }

  lemma CutOff(log: seq<ChatRow>, n: nat, text: string)
    requires n <= |log| && (LastOurs(log, text).None? || LastOurs(log, text).value < n)
    ensures NoneOurs(log[n..], text)
  {
    LastOursFinds(log, text);
    var u := LastOurs(log, text);
    if u.Some? {
      var after := log[u.value + 1..];
      assert log[n..] == after[n - u.value - 1..];
    }
  }

  /** Of a turn that was never delivered the record says so exactly when no
      earlier user row carries the same text: an undelivered repeat of an
      earlier answer is taken for that earlier one. */
  lemma UndeliveredRepeatIsMisread(before: seq<ChatRow>, later: seq<ChatRow>, text: string)
    requires NoneOurs(later, text)
    ensures Reconciled(before + later, text).outcome.NotDelivered? <==> NoneOurs(before, text)
  {
    NotDeliveredIff(before + later, text);
    assert forall i | 0 <= i < |before| :: (before + later)[i] == before[i];
  }

  /** Rows that are not ours never change an answer once given, and move a pending
      turn only to answered, by the first bot row among them. */
  lemma VerdictIsStable(rows: seq<ChatRow>, more: seq<ChatRow>, text: string)
    requires NoneOurs(more, text)
    ensures var v, w := Reconciled(rows, text), Reconciled(rows + more, text);
            match v.outcome
            case Answered => w == v
            case NotDelivered => w.outcome.NotDelivered?
            case Pending =>
              match FirstBot(more, 0)
              case Some(b) => w == Reply(more[b])
              case None => w.outcome.Pending?
  {
    LastOursFinds(rows, text);
    var u := LastOurs(rows, text);
    if u.Some? {
      var before, mine, later := rows[..u.value], rows[u.value], rows[u.value + 1..];
      assert rows == before + [mine] + later;
      assert rows + more == before + [mine] + (later + more);
      DeliveredIsJudgedByWhatFollows(before, mine, later, text);
      DeliveredIsJudgedByWhatFollows(before, mine, later + more, text);
      FirstBotAppend(later, more, 0);
    } else {
      UndeliveredRepeatIsMisread(rows, more, text);
    }
  }

  lemma {:induction false} FirstBotAppend(later: seq<ChatRow>, more: seq<ChatRow>, i: nat)
    requires i <= |later|
    ensures FirstBot(later + more, i) ==
            if FirstBot(later, i).Some? then FirstBot(later, i) else Shift(FirstBot(more, 0), |later|)
    decreases |later| - i
  {
    if i < |later| {
      FirstBotAppend(later, more, i + 1);
    } else {
      FirstBotShift(later, more, 0);
    }
  }

  // ------------------------------------------------------------- the window

  /** Rows `offset..offset + limit` of the log as the server holds it. */
  function Page(log: seq<ChatRow>, offset: nat, limit: nat): seq<ChatRow> {
    if |log| <= offset then [] else if |log| <= offset + limit then log[offset..] else log[offset..offset + limit]
  }

  predicate Ascending(rows: seq<ChatRow>) {
    forall i, j | 0 <= i < j < |rows| :: rows[i].id < rows[j].id
  }

  function Insert(rows: seq<ChatRow>, row: ChatRow): seq<ChatRow> {
    if rows == [] || rows[|rows| - 1].id <= row.id then rows + [row]
    else Insert(rows[..|rows| - 1], row) + [rows[|rows| - 1]]
  }

  /** A stable sort by id. */
  function SortById(rows: seq<ChatRow>): seq<ChatRow> {
    if rows == [] then [] else Insert(SortById(rows[..|rows| - 1]), rows[|rows| - 1])
  }

  /** The true tail: one request for the number of rows, one for the page that
      ends there.  The log may grow between the two. */
  function RecentChat(first: seq<ChatRow>, second: seq<ChatRow>, tail: nat): seq<ChatRow> {
    if first == [] then []
    else SortById(Page(second, if |first| <= tail then 0 else |first| - tail, tail))
  }

  lemma {:induction false} InsertLast(rows: seq<ChatRow>, row: ChatRow)
    requires forall i | 0 <= i < |rows| :: rows[i].id < row.id
    ensures Insert(rows, row) == rows + [row]
  {
  }

  lemma {:induction false} SortedAlready(rows: seq<ChatRow>)
    requires Ascending(rows)
    ensures SortById(rows) == rows
  {
    if rows != [] {
      SortedAlready(rows[..|rows| - 1]);
      InsertLast(rows[..|rows| - 1], rows[|rows| - 1]);
      assert rows[..|rows| - 1] + [rows[|rows| - 1]] == rows;
    }
  }

  /** With an id-ordered log that grows at the end, the rows fetched are exactly
      the last `tail` of the log as it was at the first request, followed by
      newer rows only where those left space. */
  lemma WindowIs(first: seq<ChatRow>, more: seq<ChatRow>, tail: nat)
    requires Ascending(first + more)
    ensures var n := if |first| <= tail then 0 else |first| - tail;
            var room := if |first| <= tail then tail - |first| else 0;
            RecentChat(first, first + more, tail) ==
            if first == [] then [] else first[n..] + (if |more| <= room then more else more[..room])
  {
    if first != [] {
      var n := if |first| <= tail then 0 else |first| - tail;
      SortedAlready(Page(first + more, n, tail));
    }
  }

  /** The verdict on the window is wrong about delivery exactly when our last row
      is older than the rows fetched; an answer it gives is the right one; and a
      turn it calls pending has been delivered. */
  lemma WindowVerdict(first: seq<ChatRow>, more: seq<ChatRow>, tail: nat, text: string)
    requires Ascending(first + more) && tail >= 1 && NoneOurs(more, text)
    ensures var u := LastOurs(first, text);
            var seen := Reconciled(RecentChat(first, first + more, tail), text);
            var truth := Reconciled(first + more, text);
            && (seen.outcome.NotDelivered? && !truth.outcome.NotDelivered?
                <==> u.Some? && u.value + tail < |first|)
            && (seen.outcome.Answered? ==> seen == truth)
            && (seen.outcome.Pending? ==> !truth.outcome.NotDelivered?)
  {
    WindowIs(first, more, tail);
    if first == [] {
      assert first + more == more;
      NotDeliveredIff(more, text);
    } else {
      var n := if |first| <= tail then 0 else |first| - tail;
      var room := if |first| <= tail then tail - |first| else 0;
      CutVerdict(first, n, more, if |more| <= room then more else more[..room], text);
    }
  }

  /** Cutting `n` rows off the front and some rows that are not ours off the end. */
  lemma CutVerdict(first: seq<ChatRow>, n: nat, more: seq<ChatRow>, shown: seq<ChatRow>, text: string)
    requires n <= |first| && shown <= more && NoneOurs(more, text)
    ensures var u := LastOurs(first, text);
            var seen, truth := Reconciled(first[n..] + shown, text), Reconciled(first + more, text);
            && (seen.outcome.NotDelivered? && !truth.outcome.NotDelivered? <==> u.Some? && u.value < n)
            && (seen.outcome.Answered? ==> seen == truth)
            && (seen.outcome.Pending? ==> !truth.outcome.NotDelivered?)
  {
    VerdictIsStable(first, more, text);
    VerdictIsStable(first[n..], shown, text);
    TailVerdictIff(first, n, text);
    ShownAnswer(more, shown);
    NotDeliveredIff(first, text);
    LastOursFinds(first, text);
    if LastOurs(first, text).None? || LastOurs(first, text).value < n {
      CutOff(first, n, text);
      NotDeliveredIff(first[n..], text);
    }
  }

  lemma ShownAnswer(more: seq<ChatRow>, shown: seq<ChatRow>)
    requires shown <= more
    ensures FirstBot(shown, 0).Some? ==> FirstBot(more, 0) == FirstBot(shown, 0)
  {
    FirstBotAppend(shown, more[|shown|..], 0);
    assert shown + more[|shown|..] == more;
  }

  /** A message recorded between the two requests can be missed altogether: with a
      full first count the page ends before it, and re-sending is wrongly allowed. */
  lemma RaceMissesFreshRow(first: seq<ChatRow>, mine: ChatRow, tail: nat, text: string)
    requires Ascending(first + [mine]) && Ours(mine, text) && NoneOurs(first, text)
    ensures var seen := Reconciled(RecentChat(first, first + [mine], tail), text);
            && Reconciled(first + [mine], text).outcome.Pending?
            && (seen.outcome.NotDelivered? <==> first == [] || tail <= |first|)
  {
    WindowIs(first, [mine], tail);
    DeliveredIsJudgedByWhatFollows(first, mine, [], text);
    assert first + [mine] + [] == first + [mine];
    var window := RecentChat(first, first + [mine], tail);
    if first != [] && |first| < tail {
      assert window == first + [mine];
    } else {
      assert NoneOurs(window, text);
      NotDeliveredIff(window, text);
    }
  }

  // --------------------------------------------------------------- whitespace

  /** Whitespace around the sent text never matters; a blank text matches nothing. */
  lemma MatchingIgnoresPadding(row: ChatRow, left: string, text: string, right: string)
    requires forall i | 0 <= i < |left| :: Blank(left[i])
    requires forall i | 0 <= i < |right| :: Blank(right[i])
    ensures Matches(row, left + text + right) <==> Matches(row, text)
    ensures !Matches(row, left + right)
  {
    StripLeftPads(left, text + right);
    assert left + text + right == left + (text + right);
    StripLeftBefore(text, right);
    StripRightPads(StripLeft(text), right);
    StripLeftPads(left, right);
    StripLeftPads(right, "");
    assert right + "" == right;
  }
}
