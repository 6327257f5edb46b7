/** Trimming whitespace off both ends of a string. */
module Text {

  predicate Blank(c: char) {
    c == ' ' || '\t' <= c <= '\r'
  }

  function StripLeft(s: string): string {
    if s != [] && Blank(s[0]) then StripLeft(s[1..]) else s
  }

  function StripRight(s: string): string {
    if s != [] && Blank(s[|s| - 1]) then StripRight(s[..|s| - 1]) else s
  }

  function Strip(s: string): string {
    StripRight(StripLeft(s))
  }

  lemma {:induction false} StripLeftPads(pad: string, s: string)
    requires forall i | 0 <= i < |pad| :: Blank(pad[i])
    ensures StripLeft(pad + s) == StripLeft(s)
  {
    if pad != [] {
      assert (pad + s)[1..] == pad[1..] + s;
      StripLeftPads(pad[1..], s);
    } else {
      assert pad + s == s;
    }
  }

  lemma {:induction false} StripRightPads(s: string, pad: string)
    requires forall i | 0 <= i < |pad| :: Blank(pad[i])
    ensures StripRight(s + pad) == StripRight(s)
  {
    if pad != [] {
      assert (s + pad)[..|s + pad| - 1] == s + pad[..|pad| - 1];
      StripRightPads(s, pad[..|pad| - 1]);
    } else {
      assert s + pad == s;
    }
  }

  /** Trimming from the left and from the right commute with padding. */
  lemma {:induction false} StripLeftBefore(s: string, pad: string)
    requires forall i | 0 <= i < |pad| :: Blank(pad[i])
    ensures StripLeft(s + pad) == if StripLeft(s) == "" then "" else StripLeft(s) + pad
  {
    if s == "" {
      StripLeftPads(pad, "");
      assert pad + "" == pad == s + pad;
    } else if Blank(s[0]) {
      assert (s + pad)[1..] == s[1..] + pad;
      StripLeftBefore(s[1..], pad);
    }
  }

  // ---------------------------------------------------- what trimming means

  /** Nothing but white space: the six ASCII characters that are. */
  ghost predicate AllBlank(s: string) {
    forall i | 0 <= i < |s| :: s[i] in " \t\n\r\U{b}\U{c}"
  }

  /** `s` is `core` with white space around it, on either side or both or neither. */
  ghost predicate Padded(s: string, core: string) {
    exists l: string, r: string :: AllBlank(l) && AllBlank(r) && s == l + core + r
  }

  /** The same text up to white space at both ends. */
  ghost predicate SameText(a: string, b: string) {
    exists core: string :: Padded(a, core) && Padded(b, core)
  }

  /** `t` is `s` without the white space around it. */
  ghost predicate TrimOf(t: string, s: string) {
    Padded(s, t) && (t != "" ==> !AllBlank(t[..1]) && !AllBlank(t[|t| - 1..]))
  }

  lemma BlankIs(c: char)
    ensures Blank(c) <==> c in " \t\n\r\U{b}\U{c}"
    ensures Blank(c) <==> AllBlank([c])
  {
    assert [c][0] == c;
  }

  lemma AllBlankIs(s: string)
    ensures AllBlank(s) <==> forall i | 0 <= i < |s| :: Blank(s[i])
  {
    forall i | 0 <= i < |s| ensures Blank(s[i]) <==> s[i] in " \t\n\r\U{b}\U{c}" {
      BlankIs(s[i]);
    }
  }

  lemma {:induction false} StripLeftIs(s: string) returns (l: string)
    ensures s == l + StripLeft(s) && AllBlank(l)
    ensures StripLeft(s) != "" ==> !Blank(StripLeft(s)[0])
  {
    if s != "" && Blank(s[0]) {
      var k := StripLeftIs(s[1..]);
      l := [s[0]] + k;
      AllBlankIs(k);
      AllBlankIs(l);
      assert s == [s[0]] + s[1..];
    } else {
      l := "";
    }
  }

  lemma {:induction false} StripRightIs(s: string) returns (r: string)
    ensures s == StripRight(s) + r && AllBlank(r)
    ensures StripRight(s) != "" ==> !Blank(StripRight(s)[|StripRight(s)| - 1])
  {
    if s != "" && Blank(s[|s| - 1]) {
      var init, c := s[..|s| - 1], s[|s| - 1];
      var k := StripRightIs(init);
      r := k + [c];
      AllBlankIs(k);
      AllBlankIs(r);
      assert s == init + [c] == StripRight(init) + (k + [c]);
    } else {
      r := "";
    }
  }

  lemma PadsStrip(l: string, core: string, r: string)
    requires AllBlank(l) && AllBlank(r)
    ensures Strip(l + core + r) == Strip(core)
  {
    AllBlankIs(l);
    AllBlankIs(r);
    assert l + core + r == l + (core + r);
    StripLeftPads(l, core + r);
    StripLeftBefore(core, r);
    if StripLeft(core) != "" {
      StripRightPads(StripLeft(core), r);
    }
  }

  /** Stripping is trimming, and nothing else is. */
  lemma StripIsTheTrim(s: string, t: string)
    ensures TrimOf(t, s) <==> t == Strip(s)
  {
    var l := StripLeftIs(s);
    var r := StripRightIs(StripLeft(s));
    var u := Strip(s);
    assert s == l + u + r;
    if u != "" {
      assert u[0] == StripLeft(s)[0];
      BlankIs(u[0]);
      BlankIs(u[|u| - 1]);
      assert u[..1] == [u[0]] && u[|u| - 1..] == [u[|u| - 1]];
    }
    if TrimOf(t, s) {
      var l2, r2 :| AllBlank(l2) && AllBlank(r2) && s == l2 + t + r2;
      PadsStrip(l2, t, r2);
      if t != "" {
        BlankIs(t[0]);
        BlankIs(t[|t| - 1]);
        assert t[..1] == [t[0]] && t[|t| - 1..] == [t[|t| - 1]];
        assert Strip(t) == t;
      }
    }
  }

  lemma PaddedStrips(a: string, core: string)
    requires Padded(a, core)
    ensures Strip(a) == Strip(core)
  {
    var l, r :| AllBlank(l) && AllBlank(r) && a == l + core + r;
    PadsStrip(l, core, r);
  }

  lemma BlankIffStripsToNothing(a: string)
    ensures Strip(a) == "" <==> AllBlank(a)
  {
    StripIsTheTrim(a, Strip(a));
    if AllBlank(a) {
      assert AllBlank("") && a + "" + "" == a;
      PadsStrip(a, "", "");
    }
  }

  /** Two texts strip alike exactly when they are the same up to white space around. */
  lemma StripsAlikeIff(a: string, b: string)
    ensures Strip(a) == Strip(b) <==> SameText(a, b)
  {
    StripIsTheTrim(a, Strip(a));
    StripIsTheTrim(b, Strip(b));
    if SameText(a, b) {
      var core: string :| Padded(a, core) && Padded(b, core);
      PaddedStrips(a, core);
      PaddedStrips(b, core);
    }
  }
}
