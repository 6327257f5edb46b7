/** Reading a conversation's messages page by page while it may still be growing. */
module Transcript {
  import opened Prelude

  datatype Message = Message(num: nat, content: string)

  datatype Page = Page(messages: seq<Message>, next: Option<nat>)

  ghost predicate Ascending(log: seq<Message>) {
    forall i, j | 0 <= i < j < |log| :: log[i].num < log[j].num
  }

  /** The rows after `after`, in order. */
  function Later(log: seq<Message>, after: nat): seq<Message> {
    if log == [] then [] else (if log[0].num > after then [log[0]] else []) + Later(log[1..], after)
  }

  function Take(s: seq<Message>, n: nat): seq<Message> {
    if |s| <= n then s else s[..n]
  }

  /** One row more than asked for is fetched, to see whether there is a next page. */
  function ListPage(log: seq<Message>, after: nat, limit: nat): Page {
    var rows := Take(Later(log, after), limit + 1);
    var page := Take(rows, limit);
    Page(page, if |rows| > limit && page != [] then Some(page[|page| - 1].num) else None)
  }

  lemma {:induction false} LaterAll(log: seq<Message>, after: nat)
    requires forall i | 0 <= i < |log| :: log[i].num > after
    ensures Later(log, after) == log
  {
    if log != [] {
      LaterAll(log[1..], after);
    }
  }

  /** In an ascending log, the rows after the number of row `k - 1` are those from `k`. */
  lemma {:induction false} LaterIsSuffix(log: seq<Message>, k: nat, after: nat)
    requires Ascending(log) && k <= |log|
    requires (forall i | 0 <= i < k :: log[i].num <= after) && (forall i | k <= i < |log| :: after < log[i].num)
    ensures Later(log, after) == log[k..]
  {
    if k == 0 {
      LaterAll(log, after);
    } else {
      LaterIsSuffix(log[1..], k - 1, after);
      assert log[1..][k - 1..] == log[k..];
    }
  }

  lemma LaterFrom(log: seq<Message>, k: nat)
    requires Ascending(log) && Positive(log) && k <= |log|
    ensures Later(log, if k == 0 then 0 else log[k - 1].num) == log[k..]
  {
    LaterIsSuffix(log, k, if k == 0 then 0 else log[k - 1].num);
  }

  /** The pages got by following `next`, the `i`-th read from the log as it was then. */
  ghost predicate Follows(logs: seq<seq<Message>>, pages: seq<Page>, limit: nat) {
    && |pages| == |logs|
    && (forall i {:trigger ReadAt(logs, pages, limit, i)} | 0 <= i < |pages| :: ReadAt(logs, pages, limit, i))
  }

  /** Page `i` exists because the one before offered it, and is what the log held then. */
  ghost predicate ReadAt(logs: seq<seq<Message>>, pages: seq<Page>, limit: nat, i: nat)
    requires i < |pages| == |logs|
  {
    && (i > 0 ==> pages[i - 1].next.Some?)
    && pages[i] == ListPage(logs[i], AfterPage(pages, i), limit)
  }

  function AfterPage(pages: seq<Page>, i: nat): nat
    requires i <= |pages|
  {
    if i == 0 || pages[i - 1].next.None? then 0 else pages[i - 1].next.value
  }

  /** What the first `n` pages held. */
  function Joined(pages: seq<Page>, n: nat): seq<Message>
    requires n <= |pages|
  {
    if n == 0 then [] else Joined(pages, n - 1) + pages[n - 1].messages
  }

  /** Messages are only ever added at the end. */
  ghost predicate Growing(logs: seq<seq<Message>>) {
    forall i {:trigger GrownAt(logs, i)} | 0 <= i < |logs| :: GrownAt(logs, i)
  }

  ghost predicate GrownAt(logs: seq<seq<Message>>, i: nat)
    requires i < |logs|
  {
    Ascending(logs[i]) && Positive(logs[i]) && (i > 0 ==> logs[i - 1] <= logs[i])
  }

  ghost predicate Positive(log: seq<Message>) {
    forall j | 0 <= j < |log| :: log[j].num > 0
  }

  /** Following `next` from the start, whatever arrives meanwhile: the pages so far
      are the beginning of the log as last read, each message once and in order;
      when there is no next page they are all of it; and until then every page
      brings `limit` messages, so following ends. */
  lemma {:induction false} PagesAreThePrefix(logs: seq<seq<Message>>, pages: seq<Page>, limit: nat, n: nat)
    requires limit >= 1 && Growing(logs) && Follows(logs, pages, limit) && 1 <= n <= |pages|
    ensures PageCount(Joined(pages, n), logs[n - 1], pages[n - 1].next, n, limit)
  {
    var log := logs[n - 1];
    assert ReadAt(logs, pages, limit, n - 1) && GrownAt(logs, n - 1);
    if n == 1 {
      assert Joined(pages, 1) == Joined(pages, 0) + pages[0].messages;
      FirstPage(log, limit);
    } else {
      PagesAreThePrefix(logs, pages, limit, n - 1);
      AnotherPage(Joined(pages, n - 1), log, n - 1, limit);
    }
  }

  lemma FirstPage(log: seq<Message>, limit: nat)
    requires limit >= 1 && Ascending(log) && Positive(log)
    ensures var page := ListPage(log, 0, limit);
            PageCount([] + page.messages, log, page.next, 1, limit)
  {
    LaterFrom(log, 0);
    assert log[0..] == log && log[..0] == [];
    NextPage(log, 0, 0, limit);
  }

  /** The messages got by `n` pages, the last offering `next`. */
  ghost predicate PageCount(got: seq<Message>, log: seq<Message>, next: Option<nat>, n: nat, limit: nat) {
    && got <= log
    && (next.None? <==> got == log)
    && (next.Some? ==> got != [] && |got| == n * limit && next.value == got[|got| - 1].num)
  }

  lemma AnotherPage(got: seq<Message>, log: seq<Message>, n: nat, limit: nat)
    requires limit >= 1 && got != [] && got <= log && |got| == n * limit && Ascending(log)
    ensures var page := ListPage(log, got[|got| - 1].num, limit);
            PageCount(got + page.messages, log, page.next, n + 1, limit)
  {
    var k := |got|;
    assert log[..k] == got;
    LaterIsSuffix(log, k, log[k - 1].num);
    NextPage(log, k, log[k - 1].num, limit);
    assert (n + 1) * limit == n * limit + limit;
  }

  lemma NextPage(log: seq<Message>, k: nat, after: nat, limit: nat)
    requires k <= |log| && Later(log, after) == log[k..] && limit >= 1
    ensures var p := ListPage(log, after, limit);
            && log[..k] + p.messages <= log
            && (p.next.None? <==> log[..k] + p.messages == log)
            && (p.next.Some? ==>
                  && |p.messages| == limit && k + limit <= |log| && p.next.value == log[k + limit - 1].num
                  && log[..k] + p.messages == log[..k + limit])
  {
    var p := ListPage(log, after, limit);
    assert p.messages == Take(log[k..], limit);
    if |log| - k <= limit {
      assert log[..k] + log[k..] == log;
    } else {
      assert log[..k] + log[k..][..limit] == log[..k + limit];
    }
  }

  // ------------------------------------------------------------ the breadcrumb

  /** The agents in order, consecutive duplicates collapsed. */
  method DistinctAgents(ids: seq<nat>) returns (stops: seq<nat>)
    ensures forall i | 0 <= i < |stops| - 1 :: stops[i] != stops[i + 1]
    ensures Expands(stops, ids)
  {
    stops := [];
    for n := 0 to |ids|
      invariant forall i | 0 <= i < |stops| - 1 :: stops[i] != stops[i + 1]
      invariant Expands(stops, ids[..n])
      invariant n > 0 ==> stops != [] && stops[|stops| - 1] == ids[n - 1]
    {
      assert ids[..n + 1][..n] == ids[..n];
      if stops == [] || stops[|stops| - 1] != ids[n] {
        stops := stops + [ids[n]];
        assert stops[..|stops| - 1] + [ids[n]] == stops;
      }
    }
    assert ids[..|ids|] == ids;
  }

  /** `ids` is each of `stops` in turn, one or more times over. */
  ghost predicate Expands(stops: seq<nat>, ids: seq<nat>) {
    if ids == [] then stops == []
    else
      && stops != [] && stops[|stops| - 1] == ids[|ids| - 1]
      && (Expands(stops, ids[..|ids| - 1]) || Expands(stops[..|stops| - 1], ids[..|ids| - 1]))
  }
}
