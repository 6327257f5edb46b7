/** The frontend's normaliser of the capability document: which entries survive,
    in what order, and that normalising twice changes nothing. */
module CapabilityDocument {
  import opened Prelude
  import opened Text

  const IMPLICIT_ORDER_STEP := 10.0

  // -------------------------------------------------------- entries in order

  /** A normalised entry: its declaration index, its order, and the rest. */
  datatype Entry<T> = Entry(index: nat, order: real, body: T)

  /** By order, ties by declaration. */
  predicate Before<T>(a: Entry<T>, b: Entry<T>) {
    a.order < b.order || (a.order == b.order && a.index <= b.index)
  }

  ghost predicate Sorted<T>(s: seq<Entry<T>>) {
    forall i, j | 0 <= i < j < |s| :: Before(s[i], s[j])
  }

  function Insert<T>(s: seq<Entry<T>>, e: Entry<T>): seq<Entry<T>> {
    if s == [] || Before(s[|s| - 1], e) then s + [e] else Insert(s[..|s| - 1], e) + [s[|s| - 1]]
  }

  function Sort<T>(s: seq<Entry<T>>): seq<Entry<T>> {
    if s == [] then [] else Insert(Sort(s[..|s| - 1]), s[|s| - 1])
  }

  lemma {:induction false} InsertSorts<T>(s: seq<Entry<T>>, e: Entry<T>)
    requires Sorted(s)
    ensures Sorted(Insert(s, e)) && multiset(Insert(s, e)) == multiset(s) + multiset{e}
  {
    if s != [] && !Before(s[|s| - 1], e) {
      var init, last := s[..|s| - 1], s[|s| - 1];
      InsertSorts(init, e);
      assert s == init + [last];
      var t := Insert(init, e);
      forall i | 0 <= i < |t| ensures Before(t[i], last) {
        assert t[i] in multiset(t);
        assert t[i] == e || t[i] in multiset(init);
      }
    }
  }

  lemma {:induction false} SortSorts<T>(s: seq<Entry<T>>)
    ensures Sorted(Sort(s)) && multiset(Sort(s)) == multiset(s)
  {
    if s != [] {
      SortSorts(s[..|s| - 1]);
      InsertSorts(Sort(s[..|s| - 1]), s[|s| - 1]);
      assert s == s[..|s| - 1] + [s[|s| - 1]];
    }
  }

  /** Entries have distinct indices. */
  ghost predicate DistinctIndices<T>(s: seq<Entry<T>>) {
    forall i, j | 0 <= i < j < |s| :: s[i].index != s[j].index
  }

  ghost predicate IndicesSeparate<T(!new)>(m: multiset<Entry<T>>) {
    forall a, b | a in m && b in m && a.index == b.index :: a == b
  }

  lemma Separate<T(!new)>(s: seq<Entry<T>>)
    requires DistinctIndices(s)
    ensures IndicesSeparate(multiset(s))
  {
    forall a, b | a in multiset(s) && b in multiset(s) && a.index == b.index ensures a == b {
      var i :| 0 <= i < |s| && s[i] == a;
      var j :| 0 <= j < |s| && s[j] == b;
      assert !(i < j) && !(j < i);
    }
  }

  /** Whatever sort the engine uses, there is one ordered arrangement only. */
  lemma {:induction false} SortedIsUnique<T(!new)>(s: seq<Entry<T>>, t: seq<Entry<T>>)
    requires Sorted(s) && Sorted(t) && multiset(s) == multiset(t) && IndicesSeparate(multiset(s))
    ensures s == t
  {
    if s == [] {
      assert |multiset(t)| == 0;
    } else {
      var a, b := s[|s| - 1], t[|t| - 1];
      assert |multiset(s)| == |s| == |t|;
      SplitLast(s);
      SplitLast(t);
      LastIsGreatest(t, a);
      LastIsGreatest(s, b);
      assert a == b;
      SortedIsUnique(s[..|s| - 1], t[..|t| - 1]);
    }
  }

  lemma SplitLast<T>(s: seq<T>)
    requires s != []
    ensures s == s[..|s| - 1] + [s[|s| - 1]] && s[|s| - 1] in multiset(s)
    ensures multiset(s[..|s| - 1]) == multiset(s) - multiset{s[|s| - 1]}
  {
    assert s == s[..|s| - 1] + [s[|s| - 1]];
  }

  lemma LastIsGreatest<T>(t: seq<Entry<T>>, a: Entry<T>)
    requires Sorted(t) && t != [] && a in multiset(t)
    ensures Before(a, t[|t| - 1])
  {
    var i :| 0 <= i < |t| && t[i] == a;
  }

  /** Sorting what is sorted changes nothing. */
  lemma {:induction false} SortFixed<T>(s: seq<Entry<T>>)
    requires Sorted(s)
    ensures Sort(s) == s
  {
    if s != [] {
      SortFixed(s[..|s| - 1]);
      assert s == s[..|s| - 1] + [s[|s| - 1]];
      InsertLast(s[..|s| - 1], s[|s| - 1]);
    }
  }

  lemma InsertLast<T>(s: seq<Entry<T>>, e: Entry<T>)
    requires s == [] || Before(s[|s| - 1], e)
    ensures Insert(s, e) == s + [e]
  {
  }

  // ----------------------------------------------------------- the raw forms

  datatype RawAction = NotAction | ActionOf(kind: string, agentKey: Option<string>, rest: string)

  datatype Action = Action(kind: string, agentKey: Option<string>, rest: string)

  /** An agent button as it came; `order` is None unless it is a finite number. */
  datatype RawAgent =
    | NotAgent
    | RawAgent(id: Option<string>, caption: Option<string>, visible: Option<bool>, status: string,
               order: Option<real>, action: RawAction)

  datatype RawCapability =
    | NotCapability
    | RawCapability(id: Option<string>, title: Option<string>, visible: Option<bool>, description: Option<string>,
                    badge: Option<string>, status: string, order: Option<real>, action: RawAction,
                    agents: seq<RawAgent>)

  datatype Agent = Agent(id: string, caption: string, status: string, action: Action)

  datatype Capability = Capability(id: string, title: string, description: string, badge: Option<string>,
                                   status: string, action: Action, agents: seq<Entry<Agent>>)

  /** What the server may send in place of the list. */
  datatype Document = Bare(list: seq<RawCapability>) | Wrapped(capabilities: seq<RawCapability>) | Unusable

  // --------------------------------------------------------------- normalise

  function NonEmpty(s: Option<string>): Option<string> {
    if s.Some? && Strip(s.value) != "" then Some(Strip(s.value)) else None
  }

  function StatusOf(raw: string): string {
    if raw == "enabled" || raw == "disabled" || raw == "coming_soon" then raw else "enabled"
  }

  predicate KnownAction(kind: string) {
    kind == "start_agent" || kind == "display_card" || kind == "coming_soon" || kind == "none"
  }

  /** Unknown actions, and one that would start no agent, become inert. */
  function ActionFrom(raw: RawAction): Action {
    match raw
    case NotAction => Action("none", None, "")
    case ActionOf(kind, agentKey, rest) =>
      var known := if KnownAction(kind) then kind else "none";
      if known == "start_agent" && NonEmpty(agentKey).None? then Action("none", None, "")
      else Action(known, agentKey, rest)
  }

  function OrderOf(order: Option<real>, index: nat): real {
    if order.Some? then order.value else index as real * IMPLICIT_ORDER_STEP
  }

  function AgentFrom(raw: RawAgent, index: nat): Option<Entry<Agent>> {
    if raw.NotAgent? || NonEmpty(raw.id).None? || NonEmpty(raw.caption).None? || raw.visible == Some(false) then None
    else Some(Entry(index, OrderOf(raw.order, index),
                    Agent(NonEmpty(raw.id).value, NonEmpty(raw.caption).value, StatusOf(raw.status), ActionFrom(raw.action))))
  }

  /** The well-formed visible agents among the first `n`, in declaration order. */
  function KeptAgents(raws: seq<RawAgent>, n: nat): seq<Entry<Agent>>
    requires n <= |raws|
  {
    if n == 0 then []
    else KeptAgents(raws, n - 1) + (var e := AgentFrom(raws[n - 1], n - 1); if e.Some? then [e.value] else [])
  }

  function AgentsFrom(raws: seq<RawAgent>): seq<Entry<Agent>> {
    Sort(KeptAgents(raws, |raws|))
  }

  function CapabilityFrom(raw: RawCapability, index: nat): Option<Entry<Capability>> {
    if raw.NotCapability? || NonEmpty(raw.id).None? || NonEmpty(raw.title).None? || raw.visible == Some(false) then None
    else Some(Entry(index, OrderOf(raw.order, index),
                    Capability(NonEmpty(raw.id).value, NonEmpty(raw.title).value,
                               if NonEmpty(raw.description).Some? then NonEmpty(raw.description).value else "",
                               NonEmpty(raw.badge), StatusOf(raw.status), ActionFrom(raw.action), AgentsFrom(raw.agents))))
  }

  function Kept(raws: seq<RawCapability>, n: nat): seq<Entry<Capability>>
    requires n <= |raws|
  {
    if n == 0 then []
    else Kept(raws, n - 1) + (var e := CapabilityFrom(raws[n - 1], n - 1); if e.Some? then [e.value] else [])
  }

  function CapabilitiesFrom(raws: seq<RawCapability>): seq<Entry<Capability>> {
    Sort(Kept(raws, |raws|))
  }

  /** None is a document of no use at all; an empty list is a document that says so. */
  function Normalize(doc: Document): Option<seq<Entry<Capability>>> {
    match doc
    case Bare(list) => Some(CapabilitiesFrom(list))
    case Wrapped(capabilities) => Some(CapabilitiesFrom(capabilities))
    case Unusable => None
  }

  // ------------------------------------------------- exactly the good entries

  lemma {:induction false} KeptAgentsAre(raws: seq<RawAgent>, n: nat)
    requires n <= |raws|
    ensures DistinctIndices(KeptAgents(raws, n))
    ensures forall e :: e in KeptAgents(raws, n) <==> e.index < n && AgentFrom(raws[e.index], e.index) == Some(e)
  {
    if n > 0 {
      KeptAgentsAre(raws, n - 1);
      var init, e := KeptAgents(raws, n - 1), AgentFrom(raws[n - 1], n - 1);
      forall i | 0 <= i < |init| ensures init[i].index < n - 1 {
        assert init[i] in init;
      }
    }
  }

  lemma {:induction false} KeptAre(raws: seq<RawCapability>, n: nat)
    requires n <= |raws|
    ensures DistinctIndices(Kept(raws, n))
    ensures forall e :: e in Kept(raws, n) <==> e.index < n && CapabilityFrom(raws[e.index], e.index) == Some(e)
  {
    if n > 0 {
      KeptAre(raws, n - 1);
      var init, e := Kept(raws, n - 1), CapabilityFrom(raws[n - 1], n - 1);
      forall i | 0 <= i < |init| ensures init[i].index < n - 1 {
        assert init[i] in init;
      }
    }
  }

  lemma SameElements<T>(s: seq<T>, t: seq<T>, e: T)
    requires multiset(s) == multiset(t)
    ensures e in s <==> e in t
  {
    assert e in s <==> e in multiset(s);
    assert e in t <==> e in multiset(t);
  }

  /** A sorted arrangement of entries with distinct indices is strictly so. */
  lemma StrictlySorted<T(!new)>(s: seq<Entry<T>>, kept: seq<Entry<T>>)
    requires Sorted(s) && multiset(s) == multiset(kept) && DistinctIndices(kept)
    ensures forall i, j | 0 <= i < j < |s| :: s[i].order < s[j].order || (s[i].order == s[j].order && s[i].index < s[j].index)
  {
    forall i, j | 0 <= i < j < |s| ensures s[i].index != s[j].index {
      if s[i].index == s[j].index {
        Separate(kept);
        assert s[i] in multiset(s) && s[j] in multiset(s);
        Twice(s, i, j);
        Once(kept, s[i]);
        assert false;
      }
    }
  }

  lemma Twice<T>(s: seq<T>, i: nat, j: nat)
    requires i < j < |s| && s[i] == s[j]
    ensures multiset(s)[s[i]] >= 2
  {
    assert s == s[..i] + [s[i]] + s[i + 1..j] + [s[j]] + s[j + 1..];
  }

  lemma {:induction false} Once<T>(s: seq<Entry<T>>, e: Entry<T>)
    requires DistinctIndices(s)
    ensures multiset(s)[e] <= 1
  {
    if s != [] {
      var init, last := s[..|s| - 1], s[|s| - 1];
      Once(init, e);
      assert s == init + [last];
      if e == last {
        assert e !in init;
        assert multiset(init)[e] == 0;
      }
    }
  }

  /** At both levels the result holds exactly the well-formed visible entries, each
      once, and is the only ordering of them by order and declaration. */
  lemma ExactlyTheGoodOnes(raws: seq<RawCapability>, other: seq<Entry<Capability>>, e: Entry<Capability>)
    ensures e in CapabilitiesFrom(raws) <==>
            e.index < |raws| && CapabilityFrom(raws[e.index], e.index) == Some(e)
    ensures forall i, j | 0 <= i < j < |CapabilitiesFrom(raws)| ::
              var a, b := CapabilitiesFrom(raws)[i], CapabilitiesFrom(raws)[j];
              a.order < b.order || (a.order == b.order && a.index < b.index)
    ensures Sorted(other) && multiset(other) == multiset(Kept(raws, |raws|)) ==> other == CapabilitiesFrom(raws)
  {
    var kept := Kept(raws, |raws|);
    KeptAre(raws, |raws|);
    SortSorts(kept);
    SameElements(CapabilitiesFrom(raws), kept, e);
    Separate(kept);
    StrictlySorted(CapabilitiesFrom(raws), kept);
    if Sorted(other) && multiset(other) == multiset(kept) {
      SortedIsUnique(other, CapabilitiesFrom(raws));
    }
  }

  lemma ExactlyTheGoodAgents(raws: seq<RawAgent>, other: seq<Entry<Agent>>, e: Entry<Agent>)
    ensures e in AgentsFrom(raws) <==> e.index < |raws| && AgentFrom(raws[e.index], e.index) == Some(e)
    ensures forall i, j | 0 <= i < j < |AgentsFrom(raws)| ::
              var a, b := AgentsFrom(raws)[i], AgentsFrom(raws)[j];
              a.order < b.order || (a.order == b.order && a.index < b.index)
    ensures Sorted(other) && multiset(other) == multiset(KeptAgents(raws, |raws|)) ==> other == AgentsFrom(raws)
  {
    var kept := KeptAgents(raws, |raws|);
    KeptAgentsAre(raws, |raws|);
    SortSorts(kept);
    SameElements(AgentsFrom(raws), kept, e);
    Separate(kept);
    StrictlySorted(AgentsFrom(raws), kept);
    if Sorted(other) && multiset(other) == multiset(kept) {
      SortedIsUnique(other, AgentsFrom(raws));
    }
  }

  /** A field with something in it, and what it says. */
  ghost predicate Filled(field: Option<string>, says: string) {
    field.Some? && !AllBlank(field.value) && TrimOf(says, field.value)
  }

  ghost predicate Unfilled(field: Option<string>) {
    field.None? || AllBlank(field.value)
  }

  lemma NonEmptyIff(field: Option<string>)
    ensures match NonEmpty(field)
            case Some(says) => Filled(field, says)
            case None => Unfilled(field)
  {
    if field.Some? {
      BlankIffStripsToNothing(field.value);
      StripIsTheTrim(field.value, Strip(field.value));
    }
  }

  /** What is made of an action: an unknown type is inert, and so, stripped of all
      else, is one that would start no agent. */
  ghost predicate ActionIs(a: Action, raw: RawAction) {
    match raw
    case NotAction => a == Action("none", None, "")
    case ActionOf(kind, agentKey, rest) =>
      if kind == "start_agent" && Unfilled(agentKey) then a == Action("none", None, "")
      else
        && a.agentKey == agentKey && a.rest == rest
        && a.kind == (if kind in {"start_agent", "display_card", "coming_soon"} then kind else "none")
  }

  /** Which agents of a document are kept, and as what, from their raw fields. */
  lemma AgentKeptIff(raw: RawAgent, index: nat)
    ensures match AgentFrom(raw, index)
            case Some(e) =>
              && raw.RawAgent? && raw.visible != Some(false)
              && Filled(raw.id, e.body.id) && Filled(raw.caption, e.body.caption)
              && e.index == index && e.order == (if raw.order.Some? then raw.order.value else index as real * 10.0)
              && e.body.status == (if raw.status in {"disabled", "coming_soon"} then raw.status else "enabled")
              && ActionIs(e.body.action, raw.action)
            case None => raw.NotAgent? || raw.visible == Some(false) || Unfilled(raw.id) || Unfilled(raw.caption)
  {
    if raw.RawAgent? {
      NonEmptyIff(raw.id);
      NonEmptyIff(raw.caption);
      if raw.action.ActionOf? {
        NonEmptyIff(raw.action.agentKey);
      }
    }
  }

  /** The same of the capabilities; a blank description is none, and so is a badge. */
  lemma CapabilityKeptIff(raw: RawCapability, index: nat)
    ensures match CapabilityFrom(raw, index)
            case Some(e) =>
              && raw.RawCapability? && raw.visible != Some(false)
              && Filled(raw.id, e.body.id) && Filled(raw.title, e.body.title)
              && e.index == index && e.order == (if raw.order.Some? then raw.order.value else index as real * 10.0)
              && e.body.status == (if raw.status in {"disabled", "coming_soon"} then raw.status else "enabled")
              && ActionIs(e.body.action, raw.action)
              && (if e.body.description == "" then Unfilled(raw.description) else Filled(raw.description, e.body.description))
              && (if e.body.badge.None? then Unfilled(raw.badge) else Filled(raw.badge, e.body.badge.value))
              && e.body.agents == AgentsFrom(raw.agents)
            case None => raw.NotCapability? || raw.visible == Some(false) || Unfilled(raw.id) || Unfilled(raw.title)
  {
    if raw.RawCapability? {
      NonEmptyIff(raw.id);
      NonEmptyIff(raw.title);
      NonEmptyIff(raw.description);
      NonEmptyIff(raw.badge);
      if raw.action.ActionOf? {
        NonEmptyIff(raw.action.agentKey);
      }
    }
  }

  // -------------------------------------------------------------- idempotence

  /** A normalised entry as it would be read again. */
  function AgentAgain(e: Entry<Agent>): RawAgent {
    RawAgent(Some(e.body.id), Some(e.body.caption), None, e.body.status, Some(e.order),
             ActionOf(e.body.action.kind, e.body.action.agentKey, e.body.action.rest))
  }

  function AgentsAgain(s: seq<Entry<Agent>>): seq<RawAgent> {
    seq(|s|, i requires 0 <= i < |s| => AgentAgain(s[i]))
  }

  function CapabilityAgain(e: Entry<Capability>): RawCapability {
    var b := e.body;
    RawCapability(Some(b.id), Some(b.title), None, Some(b.description), b.badge, b.status, Some(e.order),
                  ActionOf(b.action.kind, b.action.agentKey, b.action.rest), AgentsAgain(b.agents))
  }

  function Again(s: seq<Entry<Capability>>): seq<RawCapability> {
    seq(|s|, i requires 0 <= i < |s| => CapabilityAgain(s[i]))
  }

  /** The same entries numbered afresh by position. */
  function Renumbered<T>(s: seq<Entry<T>>): seq<Entry<T>> {
    seq(|s|, i requires 0 <= i < |s| => s[i].(index := i))
  }

  function FreshIndices(s: seq<Entry<Capability>>): seq<Entry<Capability>> {
    seq(|s|, i requires 0 <= i < |s| =>
      s[i].(index := i, body := s[i].body.(agents := Renumbered(s[i].body.agents))))
  }

  lemma {:induction false} StripLeftFixed(s: string)
    ensures StripLeft(StripLeft(s)) == StripLeft(s)
    ensures StripLeft(s) == "" || !Blank(StripLeft(s)[0])
  {
    if s != "" && Blank(s[0]) {
      StripLeftFixed(s[1..]);
    }
  }

  lemma {:induction false} StripRightFixed(s: string)
    ensures StripRight(StripRight(s)) == StripRight(s)
    ensures StripRight(s) <= s
  {
    if s != "" && Blank(s[|s| - 1]) {
      StripRightFixed(s[..|s| - 1]);
    }
  }

  lemma StripFixed(s: string)
    ensures Strip(Strip(s)) == Strip(s)
  {
    StripLeftFixed(s);
    StripRightFixed(StripLeft(s));
    var t := Strip(s);
    assert t == "" || !Blank(t[0]);
    assert StripLeft(t) == t;
  }

  lemma NonEmptyFixed(s: Option<string>)
    ensures NonEmpty(NonEmpty(s)) == NonEmpty(s)
  {
    if s.Some? {
      StripFixed(s.value);
    }
  }

  lemma ActionFixed(raw: RawAction)
    ensures var a := ActionFrom(raw); ActionFrom(ActionOf(a.kind, a.agentKey, a.rest)) == a
  {
  }

  lemma AgentFixed(raw: RawAgent, index: nat, at: nat)
    requires AgentFrom(raw, index).Some?
    ensures var e := AgentFrom(raw, index).value; AgentFrom(AgentAgain(e), at) == Some(e.(index := at))
  {
    NonEmptyFixed(raw.id);
    NonEmptyFixed(raw.caption);
    ActionFixed(raw.action);
  }

  /** Entries that all survive a second reading come out as they went in. */
  lemma {:induction false} KeptAgentsAgain(raws: seq<RawAgent>, read: seq<Entry<Agent>>, n: nat)
    requires n <= |raws| == |read| && forall i | 0 <= i < |raws| :: AgentFrom(raws[i], i) == Some(read[i])
    ensures KeptAgents(raws, n) == read[..n]
  {
    if n > 0 {
      KeptAgentsAgain(raws, read, n - 1);
      assert read[..n] == read[..n - 1] + [read[n - 1]];
    }
  }

  lemma RenumberedSorted<T>(s: seq<Entry<T>>)
    requires Sorted(s)
    ensures Sorted(Renumbered(s))
  {
    forall i, j | 0 <= i < j < |s| ensures Before(Renumbered(s)[i], Renumbered(s)[j]) {
      assert Before(s[i], s[j]);
    }
  }

  lemma AgentsFixed(raws: seq<RawAgent>)
    ensures var s := AgentsFrom(raws); AgentsFrom(AgentsAgain(s)) == Renumbered(s)
  {
    var s := AgentsFrom(raws);
    forall i | 0 <= i < |s| ensures AgentFrom(AgentAgain(s[i]), i) == Some(s[i].(index := i)) {
      ExactlyTheGoodAgents(raws, s, s[i]);
      assert s[i] in s;
      AgentFixed(raws[s[i].index], s[i].index, i);
    }
    KeptAgentsAgain(AgentsAgain(s), Renumbered(s), |s|);
    assert Renumbered(s)[..|s|] == Renumbered(s);
    SortSorts(KeptAgents(raws, |raws|));
    RenumberedSorted(s);
    SortFixed(Renumbered(s));
  }

  lemma CapabilityFixed(raw: RawCapability, index: nat, at: nat)
    requires CapabilityFrom(raw, index).Some?
    ensures var e := CapabilityFrom(raw, index).value;
            CapabilityFrom(CapabilityAgain(e), at)
            == Some(e.(index := at, body := e.body.(agents := Renumbered(e.body.agents))))
  {
    NonEmptyFixed(raw.id);
    NonEmptyFixed(raw.title);
    NonEmptyFixed(raw.description);
    NonEmptyFixed(raw.badge);
    NonEmptyFixed(Some(""));
    ActionFixed(raw.action);
    AgentsFixed(raw.agents);
  }

  lemma {:induction false} KeptAgain(raws: seq<RawCapability>, read: seq<Entry<Capability>>, n: nat)
    requires n <= |raws| == |read| && forall i | 0 <= i < |raws| :: CapabilityFrom(raws[i], i) == Some(read[i])
    ensures Kept(raws, n) == read[..n]
  {
    if n > 0 {
      KeptAgain(raws, read, n - 1);
      assert read[..n] == read[..n - 1] + [read[n - 1]];
    }
  }

  /** Normalising a normalised document gives the same entries with the same
      contents in the same order, at both levels; only the declaration indices are
      counted afresh. */
  lemma NormalizeIsIdempotent(raws: seq<RawCapability>)
    ensures var s := CapabilitiesFrom(raws);
            Normalize(Bare(Again(s))) == Some(FreshIndices(s)) && Normalize(Wrapped(Again(s))) == Some(FreshIndices(s))
  {
    var s := CapabilitiesFrom(raws);
    forall i | 0 <= i < |s| ensures CapabilityFrom(CapabilityAgain(s[i]), i) == Some(FreshIndices(s)[i]) {
      ExactlyTheGoodOnes(raws, s, s[i]);
      assert s[i] in s;
      CapabilityFixed(raws[s[i].index], s[i].index, i);
    }
    KeptAgain(Again(s), FreshIndices(s), |s|);
    assert FreshIndices(s)[..|s|] == FreshIndices(s);
    SortSorts(Kept(raws, |raws|));
    forall i, j | 0 <= i < j < |s| ensures Before(FreshIndices(s)[i], FreshIndices(s)[j]) {
      assert Before(s[i], s[j]);
    }
    SortFixed(FreshIndices(s));
  }
}
