/** What is shown of an internal payload that Mitra leaks in place of a message:
    the non-blank `response` strings, in document order, down to a fixed depth. */
module LeakedPayload {
  import opened Prelude
  import opened Text

  const MAX_DEPTH := 6

  datatype Json =
    | Null
    | Flag(b: bool)
    | Number(n: int)
    | Str(s: string)
    | List(items: seq<Json>)
    | Object(members: map<string, Json>)

  /** Where a value sits in a payload. */
  datatype Hop = Item(i: nat) | Response

  type Path = seq<Hop>

  function Enter(v: Json, hop: Hop): Option<Json> {
    match hop
    case Item(i) => if v.List? && i < |v.items| then Some(v.items[i]) else None
    case Response => if v.Object? && "response" in v.members then Some(v.members["response"]) else None
  }

  function Follow(v: Json, path: Path): Option<Json> {
    if path == [] then Some(v)
    else
      var next := Enter(v, path[0]);
      if next.None? then None else Follow(next.value, path[1..])
  }

  /** A string under a `response` key with something in it. */
  predicate Shown(v: Json, path: Path) {
    && path != [] && path[|path| - 1].Response?
    && Follow(v, path).Some? && Follow(v, path).value.Str?
    && Strip(Follow(v, path).value.s) != ""
  }

  // ------------------------------------------- the places, in document order

  function Under(hop: Hop, paths: seq<Path>): seq<Path> {
    seq(|paths|, i requires 0 <= i < |paths| => [hop] + paths[i])
  }

  function Places(v: Json, depth: nat): seq<Path>
    decreases MAX_DEPTH + 1 - depth, 1, 0
  {
    if depth > MAX_DEPTH then []
    else match v
      case Object(members) =>
        if "response" !in members then []
        else
          var value := members["response"];
          if value.Str? then if Strip(value.s) != "" then [[Response]] else []
          else Under(Response, Places(value, depth + 1))
      case List(items) => PlacesIn(items, |items|, depth)
      case _ => []
  }

  /** The places in the first `n` items. */
  function PlacesIn(items: seq<Json>, n: nat, depth: nat): seq<Path>
    requires n <= |items| && depth <= MAX_DEPTH
    decreases MAX_DEPTH + 1 - depth, 0, n
  {
    if n == 0 then []
    else PlacesIn(items, n - 1, depth) + Under(Item(n - 1), Places(items[n - 1], depth + 1))
  }

  lemma UnderHas(hop: Hop, paths: seq<Path>, path: Path)
    ensures path in Under(hop, paths) <==> path != [] && path[0] == hop && path[1..] in paths
  {
    var u := Under(hop, paths);
    if path in u {
      var i :| 0 <= i < |u| && u[i] == path;
      assert path[1..] == paths[i];
    }
    if path != [] && path[0] == hop && path[1..] in paths {
      var i :| 0 <= i < |paths| && paths[i] == path[1..];
      assert u[i] == path;
    }
  }

  /** The places are exactly the shown strings no deeper than the cap: nothing
      under any other key, nothing missing. */
  lemma {:induction false} PlacesExact(v: Json, depth: nat, path: Path)
    ensures path in Places(v, depth) <==> Shown(v, path) && |path| + depth <= 7
    decreases MAX_DEPTH + 1 - depth, 1, 0
  {
    if depth <= MAX_DEPTH {
      match v
      case Object(members) =>
        ShownFirst(v, path);
        if "response" in members && !members["response"].Str? {
          var value := members["response"];
          UnderHas(Response, Places(value, depth + 1), path);
          if path != [] {
            PlacesExact(value, depth + 1, path[1..]);
          }
        }
      case List(items) => PlacesInExact(items, |items|, depth, path);
      case _ =>
    }
  }

  /** Taking the first hop. */
  lemma ShownFirst(v: Json, path: Path)
    ensures v.Object? && "response" in v.members ==>
              var value := v.members["response"];
              Shown(v, path) <==>
                if value.Str? then path == [Response] && Strip(value.s) != ""
                else path != [] && path[0].Response? && Shown(value, path[1..])
  {
    if path != [] {
      assert path == [path[0]] + path[1..];
      assert |path| > 1 ==> path[1..][|path| - 2] == path[|path| - 1];
    }
    if v.Object? && "response" in v.members {
      var value := v.members["response"];
      assert Follow(v, [Response]) == Follow(value, []) == Some(value);
      if path != [] && path[0].Response? {
        assert Follow(v, path) == Follow(value, path[1..]);
        assert path[1..] == [] ==> path == [Response];
        assert value.Str? && path[1..] != [] ==> Follow(value, path[1..]).None?;
      }
    }
  }

  lemma {:induction false} PlacesInExact(items: seq<Json>, n: nat, depth: nat, path: Path)
    requires n <= |items| && depth <= MAX_DEPTH
    ensures path in PlacesIn(items, n, depth) <==>
            && Shown(List(items), path) && |path| + depth <= MAX_DEPTH + 1
            && path[0].Item? && path[0].i < n
    decreases MAX_DEPTH + 1 - depth, 0, n
  {
    if n > 0 {
      PlacesInExact(items, n - 1, depth, path);
      UnderHas(Item(n - 1), Places(items[n - 1], depth + 1), path);
      if path != [] {
        PlacesExact(items[n - 1], depth + 1, path[1..]);
        assert |path| > 1 ==> path[1..][|path| - 2] == path[|path| - 1];
      }
    }
  }

  /** `p` comes before `q` in the document: at the first hop where they differ,
      `p` takes the earlier item. */
  predicate Precedes(p: Path, q: Path) {
    p != [] && q != [] &&
    if p[0] == q[0] then Precedes(p[1..], q[1..]) else p[0].Item? && q[0].Item? && p[0].i < q[0].i
  }

  ghost predicate InOrder(paths: seq<Path>) {
    forall i, j | 0 <= i < j < |paths| :: Precedes(paths[i], paths[j])
  }

  lemma UnderInOrder(hop: Hop, paths: seq<Path>)
    requires InOrder(paths)
    ensures InOrder(Under(hop, paths))
  {
    var u := Under(hop, paths);
    forall i, j | 0 <= i < j < |u| ensures Precedes(u[i], u[j]) {
      assert u[i][1..] == paths[i] && u[j][1..] == paths[j];
    }
  }

  /** The places are in document order, each once. */
  lemma {:induction false} PlacesInOrder(v: Json, depth: nat)
    ensures InOrder(Places(v, depth))
    decreases MAX_DEPTH + 1 - depth, 1, 0
  {
    if depth <= MAX_DEPTH {
      match v
      case Object(members) =>
        if "response" in members && !members["response"].Str? {
          PlacesInOrder(members["response"], depth + 1);
          UnderInOrder(Response, Places(members["response"], depth + 1));
        }
      case List(items) => PlacesInInOrder(items, |items|, depth);
      case _ =>
    }
  }

  lemma {:induction false} PlacesInInOrder(items: seq<Json>, n: nat, depth: nat)
    requires n <= |items| && depth <= MAX_DEPTH
    ensures InOrder(PlacesIn(items, n, depth))
    decreases MAX_DEPTH + 1 - depth, 0, n
  {
    if n > 0 {
      var a, b := PlacesIn(items, n - 1, depth), Under(Item(n - 1), Places(items[n - 1], depth + 1));
      PlacesInInOrder(items, n - 1, depth);
      PlacesInOrder(items[n - 1], depth + 1);
      UnderInOrder(Item(n - 1), Places(items[n - 1], depth + 1));
      forall i, j | 0 <= i < |a| && 0 <= j < |b| ensures Precedes(a[i], b[j]) {
        assert a[i] in a && b[j] in b;
        PlacesInExact(items, n - 1, depth, a[i]);
        UnderHas(Item(n - 1), Places(items[n - 1], depth + 1), b[j]);
      }
    }
  }

  // -------------------------------------------------------------- the text

  function TextAt(v: Json, path: Path): string {
    match Follow(v, path)
    case Some(Str(s)) => Strip(s)
    case _ => ""
  }

  function Texts(v: Json, paths: seq<Path>): seq<string> {
    seq(|paths|, i requires 0 <= i < |paths| => TextAt(v, paths[i]))
  }

  /** Words separated by single spaces. */
  function Join(words: seq<string>): string {
    if words == [] then ""
    else if |words| == 1 then words[0]
    else Join(words[..|words| - 1]) + " " + words[|words| - 1]
  }

  ghost predicate NoneEmpty(words: seq<string>) {
    forall i | 0 <= i < |words| :: words[i] != ""
  }

  function Glue(a: string, b: string): string {
    if a == "" then b else if b == "" then a else a + " " + b
  }

  lemma {:induction false} JoinAppend(a: seq<string>, b: seq<string>)
    requires NoneEmpty(a) && NoneEmpty(b)
    ensures Join(a + b) == Glue(Join(a), Join(b))
    ensures Join(b) == "" <==> b == []
    decreases |b|
  {
    JoinEmptyIff(a);
    JoinEmptyIff(b);
    if b == [] {
      assert a + b == a;
    } else {
      var c, w := b[..|b| - 1], b[|b| - 1];
      JoinAppend(a, c);
      assert (a + b)[..|a + b| - 1] == a + c;
      if c == [] {
        assert b == [w];
      }
    }
  }

  lemma JoinEmptyIff(a: seq<string>)
    requires NoneEmpty(a)
    ensures Join(a) == "" <==> a == []
  {
  }

  /** The words of the recovered text. */
  function Words(v: Json, depth: nat): seq<string> {
    Texts(v, Places(v, depth))
  }

  lemma WordsNoneEmpty(v: Json, depth: nat)
    ensures NoneEmpty(Words(v, depth))
  {
    forall i | 0 <= i < |Places(v, depth)| ensures TextAt(v, Places(v, depth)[i]) != "" {
      PlacesExact(v, depth, Places(v, depth)[i]);
    }
  }

  lemma TextsUnder(v: Json, hop: Hop, inner: Json, paths: seq<Path>)
    requires Enter(v, hop) == Some(inner)
    ensures Texts(v, Under(hop, paths)) == Texts(inner, paths)
  {
    forall i | 0 <= i < |paths| ensures TextAt(v, Under(hop, paths)[i]) == TextAt(inner, paths[i]) {
      assert Under(hop, paths)[i][1..] == paths[i];
    }
  }

  /** Recovered text: the shown strings joined in document order.  The joins made at
      each level add up to one join over the whole payload. */
  method Recover(v: Json, depth: nat) returns (text: string)
    ensures text == Join(Words(v, depth))
    decreases MAX_DEPTH + 1 - depth, 1
  {
    if depth > MAX_DEPTH {
      return "";
    }
    match v {
      case Object(members) =>
        if "response" !in members {
          return "";
        }
        var value := members["response"];
        if value.Str? {
          assert Follow(v, [Response]) == Some(value);
          if Strip(value.s) != "" {
            assert Words(v, depth) == [Strip(value.s)];
            return Strip(value.s);
          }
          return "";
        }
        TextsUnder(v, Response, value, Places(value, depth + 1));
        if value.Object? || value.List? {
          text := Recover(value, depth + 1);
        } else {
          text := "";
        }
      case List(items) =>
        text := RecoverItems(items, depth);
      case _ =>
        text := "";
    }
  }

  method RecoverItems(items: seq<Json>, depth: nat) returns (text: string)
    requires depth <= MAX_DEPTH
    ensures text == Join(Words(List(items), depth))
    decreases MAX_DEPTH + 1 - depth, 0
  {
    var parts: seq<string> := [];
    for i := 0 to |items|
      invariant NoneEmpty(parts) && Join(parts) == Join(WordsIn(items, i, depth))
    {
      var part := Recover(items[i], depth + 1);
      WordsNext(items, i, depth);
      JoinOne(parts, part);
      if part != "" {
        parts := parts + [part];
      }
    }
    text := Join(parts);
  }

  lemma JoinOne(parts: seq<string>, part: string)
    requires NoneEmpty(parts)
    ensures Glue(Join(parts), part) == Join(if part == "" then parts else parts + [part])
  {
    JoinAppend(parts, if part == "" then [] else [part]);
    assert Join([part]) == part;
  }

  /** The words of the first `n` items. */
  function WordsIn(items: seq<Json>, n: nat, depth: nat): seq<string>
    requires n <= |items| && depth <= MAX_DEPTH
  {
    Texts(List(items), PlacesIn(items, n, depth))
  }

  lemma WordsNext(items: seq<Json>, n: nat, depth: nat)
    requires n < |items| && depth <= MAX_DEPTH
    ensures Join(WordsIn(items, n + 1, depth)) == Glue(Join(WordsIn(items, n, depth)), Join(Words(items[n], depth + 1)))
  {
    var v := List(items);
    var before, under := PlacesIn(items, n, depth), Under(Item(n), Places(items[n], depth + 1));
    TextsUnder(v, Item(n), items[n], Places(items[n], depth + 1));
    WordsNoneEmpty(items[n], depth + 1);
    assert Texts(v, before + under) == Texts(v, before) + Texts(v, under);
    forall i | 0 <= i < |before| ensures TextAt(v, before[i]) != "" {
      PlacesInExact(items, n, depth, before[i]);
    }
    JoinAppend(Texts(v, before), Texts(v, under));
  }

  /** A raw `msg` and whether it was a leaked payload; only objects and lists are. */
  method CoerceMessage(v: Json, scalar: string) returns (text: string, control: bool)
    ensures control <==> v.Object? || v.List?
    ensures control ==> text == Join(Words(v, 0))
    ensures v.Str? ==> text == v.s
    ensures v.Null? ==> text == ""
    ensures v.Flag? || v.Number? ==> text == scalar
  {
    match v {
      case Null => return "", false;
      case Str(s) => return s, false;
      case Flag(_) => return scalar, false;
      case Number(_) => return scalar, false;
      case _ =>
        text := Recover(v, 0);
        return text, true;
    }
  }

  /** The words are joined by single spaces. */
  lemma {:induction false} JoinIs(words: seq<string>, word: string)
    ensures Join([]) == "" && Join([word]) == word
    ensures words != [] ==> Join(words + [word]) == Join(words) + " " + word
  {
    assert (words + [word])[..|words|] == words;
  }

  /** One string under `response` in an object shows, trimmed, unless it is blank; under
      any other key nothing does, nor does a string of a list. */
  lemma OneString(key: string, s: string)
    ensures var v := Object(map[key := Str(s)]);
            && (key == "response" && !AllBlank(s) ==> TrimOf(Join(Words(v, 0)), s) && Join(Words(v, 0)) != "")
            && (key != "response" || AllBlank(s) ==> Join(Words(v, 0)) == "")
    ensures Join(Words(List([Str(s)]), 0)) == ""
  {
    BlankIffStripsToNothing(s);
    StripIsTheTrim(s, Strip(s));
    var v := Object(map[key := Str(s)]);
    if key == "response" {
      assert Follow(v, [Response]) == Follow(Str(s), []) == Some(Str(s));
    }
    assert Places(Str(s), 1) == [];
    assert PlacesIn([Str(s)], 1, 0) == PlacesIn([Str(s)], 0, 0) + Under(Item(0), []) == [];
  }

  /** Nothing is shown exactly when no `response` string within the cap says anything. */
  lemma NothingShownIff(v: Json)
    ensures Join(Words(v, 0)) == "" <==> forall path: Path :: !(Shown(v, path) && |path| <= 7)
  {
    WordsNoneEmpty(v, 0);
    JoinEmptyIff(Words(v, 0));
    var places := Places(v, 0);
    if places == [] {
      forall path: Path ensures !(Shown(v, path) && |path| <= 7) {
        PlacesExact(v, 0, path);
      }
    } else {
      PlacesExact(v, 0, places[0]);
    }
  }

  /** Members other than `response` never show: two payloads that agree on every
      `response` path recover to the same text. */
  lemma OnlyResponsesCount(v: Json, w: Json)
    requires forall path: Path :: Shown(v, path) <==> Shown(w, path)
    requires forall path: Path | Shown(v, path) :: TextAt(v, path) == TextAt(w, path)
    ensures Words(v, 0) == Words(w, 0)
  {
    var a, b := Places(v, 0), Places(w, 0);
    forall path: Path ensures path in a <==> path in b {
      PlacesExact(v, 0, path);
      PlacesExact(w, 0, path);
    }
    PlacesInOrder(v, 0);
    PlacesInOrder(w, 0);
    OrderUnique(a, b);
    forall i | 0 <= i < |a| ensures Shown(v, a[i]) {
      PlacesExact(v, 0, a[i]);
    }
  }

  lemma {:induction false} Irreflexive(p: Path)
    ensures !Precedes(p, p)
  {
    if p != [] {
      Irreflexive(p[1..]);
    }
  }

  lemma {:induction false} Transitive(p: Path, q: Path, r: Path)
    requires Precedes(p, q) && Precedes(q, r)
    ensures Precedes(p, r)
  {
    if p[0] == q[0] && q[0] == r[0] {
      Transitive(p[1..], q[1..], r[1..]);
    }
  }

  /** Two ordered listings of the same places are the same listing. */
  lemma {:induction false} OrderUnique(a: seq<Path>, b: seq<Path>)
    requires InOrder(a) && InOrder(b) && forall path: Path :: path in a <==> path in b
    ensures a == b
    decreases |a|
  {
    if a == [] {
      SomethingIn(b);
    } else {
      assert a[0] in b;
      SameFirst(a, b);
      forall path: Path ensures path in a[1..] <==> path in b[1..] {
        Irreflexive(a[0]);
        assert a == [a[0]] + a[1..] && b == [b[0]] + b[1..];
        assert path in a[1..] ==> path in a && path != a[0];
        assert path in b[1..] ==> path in b && path != b[0];
      }
      OrderUnique(a[1..], b[1..]);
    }
  }

  lemma SomethingIn(b: seq<Path>)
    ensures b != [] ==> exists path :: path in b
  {
    if b != [] {
      assert b[0] in b;
    }
  }

  lemma SameFirst(a: seq<Path>, b: seq<Path>)
    requires InOrder(a) && InOrder(b) && a != [] && a[0] in b && b[0] in a
    ensures a[0] == b[0]
  {
    if a[0] != b[0] {
      var i :| 0 <= i < |b| && b[i] == a[0];
      var j :| 0 <= j < |a| && a[j] == b[0];
      Transitive(a[0], b[0], a[0]);
      Irreflexive(a[0]);
    }
  }
}
