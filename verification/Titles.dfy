/** How a conversation gets its title: from the first thing the user types, or a
    placeholder until then when an agent opened it. */
module Titles {
  import opened Prelude

  const TITLE_MAX_LEN := 60
  const TITLE_TRUNCATE_AT := 57

  function Truncated(text: string): (t: string)
    ensures |text| <= 60 ==> t == text
    ensures |text| > 60 ==> |t| == 60 && t[..57] == text[..57] && t[57..] == "..."
  {
    if |text| <= TITLE_MAX_LEN then text else text[..TITLE_TRUNCATE_AT] + "..."
  }

  /** The title columns of a conversation. */
  datatype Heading = Heading(title: Option<string>, placeholder: bool)

  /** How far a turn got: refused or rolled back before its own writes were
      committed, committed but failing later, or carried through. */
  datatype Fate = Lost | Kept | Completed

  /** A turn the user typed, and one the UI opens on an agent's behalf, with the
      generated name it would leave. */
  datatype Turn = Typed(text: string, fate: Fate) | Autostart(name: string, fate: Fate)

  // -------------------------------------------------------------- statements

  function Touch(h: Heading, from: string): Heading {
    if from == "" then h else h.(title := if h.title.Some? then h.title else Some(from))
  }

  function SetPlaceholder(h: Heading, title: string): Heading {
    if h.title.None? then Heading(Some(title), true) else h
  }

  function ReplacePlaceholder(h: Heading, title: string): Heading {
    if h.placeholder then Heading(Some(title), false) else h
  }

  /** One turn: the writes made with the user's message, then those at its end. */
  function AfterTurn(h: Heading, t: Turn): Heading {
    match t
    case Typed(text, fate) =>
      if fate.Lost? then h
      else
        var kept := ReplacePlaceholder(Touch(h, Truncated(text)), Truncated(text));
        if fate.Completed? then Touch(kept, Truncated(text)) else kept
    case Autostart(name, fate) =>
      if fate.Completed? then SetPlaceholder(h, Truncated(name)) else h
  }

  function After(turns: seq<Turn>): Heading {
    if turns == [] then Heading(None, false)
    else AfterTurn(After(turns[..|turns| - 1]), turns[|turns| - 1])
  }

  // -------------------------------------------------- the rule, independently

  predicate Says(t: Turn) {
    t.Typed? && !t.fate.Lost? && t.text != ""
  }

  predicate Opens(t: Turn) {
    t.Autostart? && t.fate.Completed?
  }

  function FirstSaid(turns: seq<Turn>): Option<string> {
    if turns == [] then None else if Says(turns[0]) then Some(turns[0].text) else FirstSaid(turns[1..])
  }

  function FirstOpened(turns: seq<Turn>): Option<string> {
    if turns == [] then None else if Opens(turns[0]) then Some(turns[0].name) else FirstOpened(turns[1..])
  }

  /** The user's own first words, else the first name an agent left, else nothing. */
  function Expected(turns: seq<Turn>): Option<string> {
    if FirstSaid(turns).Some? then Some(Truncated(FirstSaid(turns).value))
    else if FirstOpened(turns).Some? then Some(Truncated(FirstOpened(turns).value))
    else None
  }

  /** An empty message was typed while nothing but a placeholder named the conversation. */
  ghost predicate BlankOverPlaceholder(turns: seq<Turn>) {
    exists i | 0 <= i < |turns| :: BlankAt(turns, i)
  }

  ghost predicate BlankAt(turns: seq<Turn>, i: nat)
    requires i < |turns|
  {
    && turns[i].Typed? && !turns[i].fate.Lost? && turns[i].text == ""
    && FirstSaid(turns[..i]).None? && FirstOpened(turns[..i]).Some?
  }

  lemma {:induction false} FirstSaidNext(turns: seq<Turn>, t: Turn)
    ensures FirstSaid(turns + [t]) ==
            if FirstSaid(turns).Some? then FirstSaid(turns) else if Says(t) then Some(t.text) else None
  {
    if turns == [] {
      assert turns + [t] == [t] && [t][1..] == [];
    } else {
      assert (turns + [t])[1..] == turns[1..] + [t];
      FirstSaidNext(turns[1..], t);
    }
  }

  lemma {:induction false} FirstOpenedNext(turns: seq<Turn>, t: Turn)
    ensures FirstOpened(turns + [t]) ==
            if FirstOpened(turns).Some? then FirstOpened(turns) else if Opens(t) then Some(t.name) else None
  {
    if turns == [] {
      assert turns + [t] == [t] && [t][1..] == [];
    } else {
      assert (turns + [t])[1..] == turns[1..] + [t];
      FirstOpenedNext(turns[1..], t);
    }
  }

  lemma {:induction false} SaidIsNotEmpty(turns: seq<Turn>)
    ensures FirstSaid(turns).Some? ==> FirstSaid(turns).value != ""
  {
    if turns != [] {
      SaidIsNotEmpty(turns[1..]);
    }
  }

  /** What the writes leave, in every case. */
  lemma {:induction false} HeadingIs(turns: seq<Turn>)
    ensures if BlankOverPlaceholder(turns) then After(turns) == Heading(Some(""), false)
            else After(turns) == Heading(Expected(turns), FirstSaid(turns).None? && FirstOpened(turns).Some?)
  {
    if turns != [] {
      var n := |turns| - 1;
      var before, t := turns[..n], turns[n];
      HeadingIs(before);
      assert turns == before + [t];
      FirstSaidNext(before, t);
      FirstOpenedNext(before, t);
      BlankNext(before, t);
      SaidIsNotEmpty(before);
    } else {
      assert !BlankOverPlaceholder(turns);
    }
  }

  lemma BlankNext(before: seq<Turn>, t: Turn)
    ensures BlankOverPlaceholder(before + [t]) <==>
            || BlankOverPlaceholder(before)
            || (t.Typed? && !t.fate.Lost? && t.text == "" && FirstSaid(before).None? && FirstOpened(before).Some?)
  {
    var turns := before + [t];
    assert turns[..|before|] == before;
    forall i | 0 <= i < |before| ensures BlankAt(turns, i) <==> BlankAt(before, i) {
      assert turns[..i] == before[..i];
    }
    if BlankOverPlaceholder(turns) {
      var i :| 0 <= i < |turns| && BlankAt(turns, i);
      assert i < |before| ==> BlankAt(before, i);
    }
    if BlankOverPlaceholder(before) {
      var i :| 0 <= i < |before| && BlankAt(before, i);
      assert BlankAt(turns, i);
    }
    assert BlankAt(turns, |before|) <==>
           (t.Typed? && !t.fate.Lost? && t.text == "" && FirstSaid(before).None? && FirstOpened(before).Some?);
  }

  /** The title is the user's first words, truncated, else the first generated name,
      else null: exactly for the runs in which no empty message was typed while
      only a placeholder named the conversation. */
  lemma TitleRuleIff(turns: seq<Turn>)
    requires forall t | t in turns && t.Autostart? :: t.name != ""
    ensures After(turns).title == Expected(turns) <==> !BlankOverPlaceholder(turns)
  {
    HeadingIs(turns);
    SaidIsNotEmpty(turns);
    OpenedIsNamed(turns);
  }

  lemma {:induction false} OpenedIsNamed(turns: seq<Turn>)
    requires forall t | t in turns && t.Autostart? :: t.name != ""
    ensures FirstOpened(turns).Some? ==> FirstOpened(turns).value != ""
  {
    if turns != [] {
      assert turns[0] in turns && forall t | t in turns[1..] :: t in turns;
      OpenedIsNamed(turns[1..]);
    }
  }

  /** An empty message is accepted, and one typed over a placeholder leaves the
      conversation with an empty title for good. */
  lemma BlankIsForever(name: string, later: seq<Turn>)
    ensures After([Autostart(name, Completed), Typed("", Kept)] + later).title == Some("")
  {
    var turns := [Autostart(name, Completed), Typed("", Kept)] + later;
    assert turns[..1] == [Autostart(name, Completed)] && [Autostart(name, Completed)][1..] == [];
    assert FirstSaid(turns[..1]) == FirstSaid([]) && FirstOpened(turns[..1]) == Some(name);
    assert BlankAt(turns, 1);
    HeadingIs(turns);
  }

  /** A title that is not a placeholder never changes again. */
  lemma {:induction false} TitleIsFinal(turns: seq<Turn>, more: seq<Turn>)
    requires After(turns).title.Some? && !After(turns).placeholder
    ensures After(turns + more) == After(turns)
    decreases |more|
  {
    if more == [] {
      assert turns + more == turns;
    } else {
      var n := |more| - 1;
      assert (turns + more)[..|turns| + n] == turns + more[..n];
      TitleIsFinal(turns, more[..n]);
    }
  }

  // ------------------------------------------------------- the conversation

  class Conversation {
    var title: Option<string>
    var placeholder: bool

    function View(): Heading
      reads this
    {
      Heading(title, placeholder)
    }

    constructor ()
      ensures View() == After([])
    {
      title, placeholder := None, false;
    }

    method TouchWith(from: string)
      modifies this
      ensures View() == Touch(old(View()), from)
    {
      if from != "" && title.None? {
        title := Some(from);
      }
    }

    method Placehold(name: string)
      modifies this
      ensures View() == SetPlaceholder(old(View()), name)
    {
      if title.None? {
        title, placeholder := Some(name), true;
      }
    }

    method Promote(text: string)
      modifies this
      ensures View() == ReplacePlaceholder(old(View()), text)
    {
      if placeholder {
        title, placeholder := Some(text), false;
      }
    }

    /** The title writes of one turn; `history` is every turn before it. */
    method TakeTurn(t: Turn, ghost history: seq<Turn>)
      requires View() == After(history)
      modifies this
      ensures View() == After(history + [t])
    {
      assert (history + [t])[..|history|] == history;
      if t.fate.Lost? {
        return;
      }
      if t.Typed? {
        TouchWith(Truncated(t.text));
        Promote(Truncated(t.text));
      }
      if t.fate.Kept? {
        return;
      }
      if t.Autostart? {
        Placehold(Truncated(t.name));
      } else {
        TouchWith(Truncated(t.text));
      }
    }
  }
}
