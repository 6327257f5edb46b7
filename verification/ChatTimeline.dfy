/** The chat pane's reducer: where a completion notice goes in the timeline. */
module ChatTimeline {
  import opened Prelude

  datatype Item = Item(id: nat, session: Option<string>, kind: string)

  type Items = seq<Item>

  /** One past the last item of `session`, or zero if it has none. */
  function EndOf(items: Items, session: string): nat
    ensures EndOf(items, session) <= |items|
  {
    if items == [] then 0
    else if items[|items| - 1].session == Some(session) then |items|
    else EndOf(items[..|items| - 1], session)
  }

  function InsertAfterSession(items: Items, session: string, item: Item): Items {
    var n := EndOf(items, session);
    if n == 0 then items + [item] else InsertAt(items, n, item)
  }

  function InsertAt(items: Items, n: nat, item: Item): Items
    requires n <= |items|
  {
    items[..n] + [item] + items[n..]
  }

  function RemoveId(items: Items, id: nat): Items {
    if items == [] then [] else (if items[0].id == id then [] else [items[0]]) + RemoveId(items[1..], id)
  }

  ghost predicate Has(items: Items, session: string) {
    exists i | 0 <= i < |items| :: items[i].session == Some(session)
  }

  lemma {:induction false} EndOfIs(items: Items, session: string)
    ensures EndOf(items, session) == 0 <==> !Has(items, session)
    ensures EndOf(items, session) > 0 ==> items[EndOf(items, session) - 1].session == Some(session)
    ensures forall i | EndOf(items, session) <= i < |items| :: items[i].session != Some(session)
  {
    if items != [] && items[|items| - 1].session != Some(session) {
      var rest := items[..|items| - 1];
      EndOfIs(rest, session);
      if Has(items, session) {
        var i :| 0 <= i < |items| && items[i].session == Some(session);
        assert rest[i].session == Some(session);
      }
    }
  }

  lemma EndOfUnique(items: Items, session: string, n: nat)
    requires n <= |items| && (n > 0 ==> items[n - 1].session == Some(session))
    requires forall i | n <= i < |items| :: items[i].session != Some(session)
    ensures EndOf(items, session) == n
  {
    EndOfIs(items, session);
  }

  /** The array loop that finds the place. */
  method FindEnd(items: array<Item>, session: string) returns (index: int)
    ensures index == EndOf(items[..], session) - 1
  {
    index := -1;
    var i := items.Length - 1;
    while i >= 0
      invariant -1 <= i < items.Length && index == -1
      invariant forall j | i < j < items.Length :: items[j].session != Some(session)
    {
      if items[i].session == Some(session) {
        EndOfUnique(items[..], session, i + 1);
        return i;
      }
      i := i - 1;
    }
    EndOfUnique(items[..], session, 0);
  }

  /** The notice stands right after its session's last item, or at the very end if
      the session has none in view; nothing else moves. */
  lemma NoticeStandsAfter(items: Items, session: string, item: Item)
    ensures var after := InsertAfterSession(items, session, item);
            if Has(items, session) then
              exists n :: 0 < n <= |items| && after == items[..n] + [item] + items[n..]
                          && items[n - 1].session == Some(session)
                          && forall i | n <= i < |items| :: items[i].session != Some(session)
            else after == items + [item]
  {
    EndOfIs(items, session);
    var n := EndOf(items, session);
    if n > 0 {
      assert InsertAfterSession(items, session, item) == items[..n] + [item] + items[n..];
    }
  }

  /** Inserting a notice leaves the other items in their order: taking it out again
      gives back the timeline. */
  lemma InsertThenRemove(items: Items, session: string, item: Item)
    requires forall i | 0 <= i < |items| :: items[i].id != item.id
    ensures RemoveId(InsertAfterSession(items, session, item), item.id) == items
  {
    var n := EndOf(items, session);
    var k := if n == 0 then |items| else n;
    assert InsertAfterSession(items, session, item) == items[..k] + [item] + items[k..];
    RemoveMiddle(items[..k], item, items[k..]);
    assert items[..k] + items[k..] == items;
  }

  lemma RemoveMiddle(a: Items, x: Item, b: Items)
    requires (forall i | 0 <= i < |a| :: a[i].id != x.id) && (forall i | 0 <= i < |b| :: b[i].id != x.id)
    ensures RemoveId(a + [x] + b, x.id) == a + b
  {
    RemoveAppend(a + [x], b, x.id);
    RemoveAppend(a, [x], x.id);
    RemoveNone(a, x.id);
    RemoveNone(b, x.id);
    assert RemoveId([x], x.id) == [] && a + [] == a;
  }

  lemma {:induction false} RemoveAppend(a: Items, b: Items, id: nat)
    ensures RemoveId(a + b, id) == RemoveId(a, id) + RemoveId(b, id)
  {
    if a == [] {
      assert a + b == b;
    } else {
      assert (a + b)[1..] == a[1..] + b;
      RemoveAppend(a[1..], b, id);
    }
  }

  lemma {:induction false} RemoveNone(a: Items, id: nat)
    requires forall i | 0 <= i < |a| :: a[i].id != id
    ensures RemoveId(a, id) == a
  {
    if a != [] {
      RemoveNone(a[1..], id);
    }
  }

  /** Where a session's items end after a notice of another session went in. */
  lemma EndAfterInsert(items: Items, s: string, x: Item, t: string)
    requires s != t && x.session == Some(s)
    ensures var n, m := EndOf(items, s), EndOf(items, t);
            EndOf(InsertAfterSession(items, s, x), t) == if 0 < n < m then m + 1 else m
  {
    EndOfIs(items, s);
    EndOfIs(items, t);
    var n, m := EndOf(items, s), EndOf(items, t);
    var after := InsertAfterSession(items, s, x);
    var p := if 0 < n < m then m + 1 else m;
    if n == 0 {
      forall i | p <= i < |after| ensures after[i].session != Some(t) {
        assert i < |items| ==> after[i] == items[i];
      }
    } else {
      forall i | p <= i < |after| ensures after[i].session != Some(t) {
        assert after[i] == if i < n then items[i] else if i == n then x else items[i - 1];
      }
    }
    EndOfUnique(after, t, p);
  }

  /** Notices for two sessions can arrive in either order: the timeline comes out
      the same exactly when at least one of the two sessions has items in view. */
  lemma InsertionsCommuteIff(items: Items, s: string, x: Item, t: string, y: Item)
    requires s != t && x.session == Some(s) && y.session == Some(t)
    ensures InsertAfterSession(InsertAfterSession(items, s, x), t, y)
            == InsertAfterSession(InsertAfterSession(items, t, y), s, x)
            <==> Has(items, s) || Has(items, t)
  {
    EndOfIs(items, s);
    EndOfIs(items, t);
    var n, m := EndOf(items, s), EndOf(items, t);
    if n == 0 && m == 0 {
      NeitherInView(items, s, x, t, y);
    } else if n == 0 {
      OneInView(items, t, y, s, x);
    } else if m == 0 {
      OneInView(items, s, x, t, y);
    } else if n < m {
      BothInView(items, s, x, t, y);
    } else {
      BothInView(items, t, y, s, x);
    }
  }

  lemma NeitherInView(items: Items, s: string, x: Item, t: string, y: Item)
    requires s != t && x.session == Some(s) && y.session == Some(t)
    requires EndOf(items, s) == 0 && EndOf(items, t) == 0
    ensures InsertAfterSession(InsertAfterSession(items, s, x), t, y)[|items|] == x
    ensures InsertAfterSession(InsertAfterSession(items, t, y), s, x)[|items|] == y
  {
    EndAfterInsert(items, s, x, t);
    EndAfterInsert(items, t, y, s);
  }

  lemma OneInView(items: Items, s: string, x: Item, t: string, y: Item)
    requires s != t && x.session == Some(s) && y.session == Some(t)
    requires EndOf(items, s) > 0 && EndOf(items, t) == 0
    ensures InsertAfterSession(InsertAfterSession(items, s, x), t, y)
            == InsertAfterSession(InsertAfterSession(items, t, y), s, x)
  {
    EndAfterInsert(items, s, x, t);
    EndAfterInsert(items, t, y, s);
    var n := EndOf(items, s);
    var both := items[..n] + [x] + items[n..] + [y];
    assert InsertAfterSession(InsertAfterSession(items, s, x), t, y) == both;
    assert (items + [y])[..n] == items[..n] && (items + [y])[n..] == items[n..] + [y];
    assert InsertAfterSession(items + [y], s, x) == both;
  }

  lemma BothInView(items: Items, s: string, x: Item, t: string, y: Item)
    requires s != t && x.session == Some(s) && y.session == Some(t)
    requires 0 < EndOf(items, s) < EndOf(items, t)
    ensures InsertAfterSession(InsertAfterSession(items, s, x), t, y)
            == InsertAfterSession(InsertAfterSession(items, t, y), s, x)
  {
    EndAfterInsert(items, s, x, t);
    EndAfterInsert(items, t, y, s);
    var n, m := EndOf(items, s), EndOf(items, t);
    assert InsertAfterSession(InsertAfterSession(items, s, x), t, y) == InsertAt(InsertAt(items, n, x), m + 1, y);
    assert InsertAfterSession(InsertAfterSession(items, t, y), s, x) == InsertAt(InsertAt(items, m, y), n, x);
    InsertAtTwice(items, n, m, x, y);
  }

  lemma InsertAtTwice(items: Items, n: nat, m: nat, x: Item, y: Item)
    requires n < m <= |items|
    ensures InsertAt(InsertAt(items, n, x), m + 1, y) == InsertAt(InsertAt(items, m, y), n, x)
  {
    var one, two := InsertAt(InsertAt(items, n, x), m + 1, y), InsertAt(InsertAt(items, m, y), n, x);
    forall i | 0 <= i < |items| + 2 ensures one[i] == two[i] {
    }
  }
}
