/** What the validator accepts and what the two sanitisers write, character by character. */
module Sanitisers {
  import opened Wrappers
  import opened Text
  import opened Labels

  predicate LetterOrDigit(c: char) {
    'a' <= c <= 'z' || '0' <= c <= '9'
  }

  /** The validator accepts exactly 1 to 63 lower-case letters, digits and dashes with no dash at either end. */
  lemma ValidLabelExactly(s: string)
    ensures ValidLabel(s) <==>
            && 1 <= |s| <= 63
            && s[0] != '-' && s[|s| - 1] != '-'
            && forall i :: 0 <= i < |s| ==> 'a' <= s[i] <= 'z' || '0' <= s[i] <= '9' || s[i] == '-'
  {}

  // ---------------------------------------------------------------- what an add checks

  /** The characters with the Unicode property White_Space. */
  lemma WhitespaceExactly(c: char)
    ensures IsWhitespace(c) <==>
            || c in {'\t', '\n', '\U{B}', '\U{C}', '\r', ' ', '\U{85}', '\U{A0}', '\U{1680}'}
            || '\U{2000}' <= c <= '\U{200A}'
            || c in {'\U{2028}', '\U{2029}', '\U{202F}', '\U{205F}', '\U{3000}'}
  {}

  ghost predicate AllSpace(s: string) {
    forall i :: 0 <= i < |s| ==> IsWhitespace(s[i])
  }

  predicate Taken(s: string) {
    s == "status" || s == "__adj_verify__"
  }

  predicate NameOk(name: string) {
    ValidLabel(name) && !Taken(name)
  }

  /** What each refusal is for, and that nothing the code checks before it was wrong. */
  ghost predicate RefusedFor(name: string, tag: Option<string>, e: KeyError) {
    match e
    case EmptyName => AllSpace(name)
    case DottedName => !AllSpace(name) && '.' in name
    case BadName => !AllSpace(name) && '.' !in name && !ValidLabel(name)
    case ReservedName => ValidLabel(name) && Taken(name)
    case BadLabel => NameOk(name) && tag.Some? && !ValidLabel(tag.value)
    case ReservedLabel => NameOk(name) && tag.Some? && ValidLabel(tag.value) && Taken(tag.value)
  }

  lemma AddKeyExactly(name: string, tag: Option<string>, e: KeyError)
    ensures AddKey(name, tag) == Err(e) <==> RefusedFor(name, tag, e)
    ensures AddKey(name, tag).Ok? ==>
              AddKey(name, tag).value == if tag.Some? then tag.value + "." + name else name
  {
    if ValidLabel(name) {
      assert LabelChar(name[0]) && !IsWhitespace(name[0]);
      assert '.' !in name;
    }
  }

  // ---------------------------------------------------------------- the branch sanitiser

  /** Character by character: a slash or an underscore gives a dash, what a label may hold stays, the rest goes. */
  lemma LabelCharsOne(c: char)
    ensures LabelChars([c]) == if c == '/' || c == '_' then "-" else if LetterOrDigit(c) || c == '-' then [c] else ""
  {
    assert [c][1..] == "";
  }

  lemma {:induction false} LabelCharsConcat(a: string, b: string)
    ensures LabelChars(a + b) == LabelChars(a) + LabelChars(b)
  {
    if a == "" {
      assert a + b == b;
    } else {
      assert (a + b)[1..] == a[1..] + b;
      LabelCharsConcat(a[1..], b);
      LabelCharsOne(a[0]);
      var one := LabelChars([a[0]]);
      assert one + (LabelChars(a[1..]) + LabelChars(b)) == (one + LabelChars(a[1..])) + LabelChars(b);
    }
  }

  // ---------------------------------------------------------------- the directory-name sanitiser

  ghost predicate Word(w: string) {
    forall i :: 0 <= i < |w| ==> LetterOrDigit(w[i])
  }

  ghost predicate Gap(g: string) {
    g != "" && forall i :: 0 <= i < |g| ==> !LetterOrDigit(g[i])
  }

  /** Letters and digits stay as they are. */
  lemma {:induction false} CollapseWord(w: string, rest: string, prevDash: bool)
    requires Word(w) && w != ""
    ensures Collapse(w + rest, prevDash) == w + Collapse(rest, false)
  {
    assert (w + rest)[1..] == w[1..] + rest;
    if |w| > 1 {
      CollapseWord(w[1..], rest, false);
      assert [w[0]] + (w[1..] + Collapse(rest, false)) == w + Collapse(rest, false);
    } else {
      assert w[1..] + rest == rest;
    }
  }

  lemma {:induction false} DashOnce(g: string, rest: string)
    requires forall i :: 0 <= i < |g| ==> !LetterOrDigit(g[i])
    ensures Collapse(g + rest, true) == Collapse(rest, true)
  {
    if g == "" {
      assert g + rest == rest;
    } else {
      assert (g + rest)[1..] == g[1..] + rest;
      DashOnce(g[1..], rest);
    }
  }

  /** A gap gives one dash, however long it is, and what comes next is read as from the start. */
  lemma CollapseGap(g: string, rest: string)
    requires Gap(g) && (rest == "" || LetterOrDigit(rest[0]))
    ensures Collapse(g + rest, false) == "-" + Collapse(rest, false)
  {
    assert (g + rest)[1..] == g[1..] + rest;
    DashOnce(g[1..], rest);
  }

  // ---------------------------------------------------------------- tidying

  /** `raw[a..b]` is `raw` without the dashes at its ends. */
  ghost predicate Core(raw: string, a: nat, b: nat) {
    && a <= b <= |raw|
    && (forall i :: 0 <= i < a ==> raw[i] == '-')
    && (forall i :: b <= i < |raw| ==> raw[i] == '-')
    && (a < b ==> raw[a] != '-' && raw[b - 1] != '-')
  }

  /** `r` is what stands in `raw` from `a` on, up to `end` less the dashes just before it. */
  ghost predicate UpTo(r: string, raw: string, a: nat, end: nat) {
    && a + |r| <= end <= |raw| && r == raw[a..a + |r|]
    && (forall i :: a + |r| <= i < end ==> raw[i] == '-')
    && (r != "" ==> r[|r| - 1] != '-')
  }

  lemma StartCut(raw: string) returns (a: nat)
    ensures a <= |raw| && TrimStart(raw, IsDash) == raw[a..]
    ensures forall i :: 0 <= i < a ==> raw[i] == '-'
    ensures a < |raw| ==> raw[a] != '-'
  {
    a := |raw| - |TrimStart(raw, IsDash)|;
  }

  lemma EndCut(s: string)
    ensures UpTo(TrimEnd(s, IsDash), s, 0, |s|)
  {}

  /** What is up to the end of a stretch of `raw` is so in `raw`. */
  lemma Shift(r: string, s: string, raw: string, a: nat)
    requires UpTo(r, s, 0, |s|) && a + |s| <= |raw| && s == raw[a..a + |s|]
    ensures UpTo(r, raw, a, a + |s|)
  {
    assert forall i :: 0 <= i < |s| ==> s[i] == raw[a + i];
    forall i | a + |r| <= i < a + |s| ensures raw[i] == '-' {
      assert s[i - a] == raw[i];
    }
    assert r == raw[a..a + |r|];
  }

  /** Of the core at most 63 characters are kept, and if the cut left dashes at the end they go too. */
  lemma TidyExactly(raw: string) returns (a: nat, b: nat)
    ensures Core(raw, a, b) && UpTo(Tidy(raw), raw, a, if b - a <= 63 then b else a + 63)
  {
    var core;
    a, core := Untrimmed(raw);
    b := a + |core|;
    Tidied(raw, core);
    CapKept(raw, core, a, Tidy(raw));
  }

  lemma Tidied(raw: string, core: string)
    requires core == Trim(raw, IsDash)
    ensures Tidy(raw) == TrimEnd(Cap(core), IsDash)
  {}

  lemma Untrimmed(raw: string) returns (a: nat, core: string)
    ensures core == Trim(raw, IsDash) && Core(raw, a, a + |core|) && core == raw[a..a + |core|]
  {
    a := StartCut(raw);
    core := Trim(raw, IsDash);
    EndCut(TrimStart(raw, IsDash));
    CoreCut(raw, a, TrimStart(raw, IsDash), core);
  }

  lemma CoreCut(raw: string, a: nat, lead: string, core: string)
    requires a <= |raw| && lead == raw[a..] && UpTo(core, lead, 0, |lead|)
    requires (forall i :: 0 <= i < a ==> raw[i] == '-') && (a < |raw| ==> raw[a] != '-')
    ensures Core(raw, a, a + |core|) && core == raw[a..a + |core|]
  {
    Shift(core, lead, raw, a);
    CoreEnds(raw, core, a);
  }

  lemma CoreEnds(raw: string, core: string, a: nat)
    requires UpTo(core, raw, a, |raw|) && (forall i :: 0 <= i < a ==> raw[i] == '-')
    requires a < |raw| ==> raw[a] != '-'
    ensures Core(raw, a, a + |core|)
  {
    if core != "" {
      assert core[|core| - 1] == raw[a + |core| - 1];
    }
  }

  lemma CapKept(raw: string, core: string, a: nat, r: string)
    requires a + |core| <= |raw| && core == raw[a..a + |core|] && r == TrimEnd(Cap(core), IsDash)
    ensures UpTo(r, raw, a, if |core| <= 63 then a + |core| else a + 63)
  {
    var cap := Cap(core);
    EndCut(cap);
    assert cap == raw[a..a + |cap|];
    Shift(r, cap, raw, a);
  }
}
