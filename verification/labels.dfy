/** DNS labels: the validator, the two sanitisers that feed it, and registry keys built from labels. */
module Labels {
  import opened Wrappers
  import opened Text

  const MAX_LABEL: nat := 63

  predicate IsDash(c: char) { c == '-' }

  predicate IsAlnum(c: char) { IsLower(c) || IsDigit(c) }

  predicate LabelChar(c: char) { IsAlnum(c) || IsDash(c) }

  /** Byte length equals character count here, because only ASCII passes. */
  predicate ValidLabel(s: string) {
    && s != "" && |s| <= MAX_LABEL
    && s[0] != '-' && s[|s| - 1] != '-'
    && forall i :: 0 <= i < |s| ==> LabelChar(s[i])
  }

  // ---------------------------------------------------------------- sanitisers

  function Cap(s: string): string {
    if |s| <= MAX_LABEL then s else s[..MAX_LABEL]
  }

  /** Trim edge dashes, cap at 63, and trim the end again. */
  function Tidy(raw: string): string {
    TrimEnd(Cap(Trim(raw, IsDash)), IsDash)
  }

  function LabelChars(s: string): string {
    if s == "" then ""
    else
      var c := if s[0] == '/' || s[0] == '_' then '-' else s[0];
      (if LabelChar(c) then [c] else "") + LabelChars(s[1..])
  }

  function SanitizeLabel(branch: string): string {
    Tidy(LabelChars(Lower(branch)))
  }

  function Collapse(s: string, prevDash: bool): string {
    if s == "" then ""
    else if IsAlnum(s[0]) then [s[0]] + Collapse(s[1..], false)
    else (if prevDash then "" else "-") + Collapse(s[1..], true)
  }

  function NameFrom(raw: string): string {
    Tidy(Collapse(Lower(raw), false))
  }

  method CollapseRuns(text: string) returns (out: string)
    ensures out == Collapse(text, false)
  {
    out := "";
    var prevDash := false;
    var i := 0;
    while i < |text|
      invariant 0 <= i <= |text|
      invariant out + Collapse(text[i..], prevDash) == Collapse(text, false)
    {
      CollapseAppend(out, text[i..], prevDash);
      ghost var before := out;
      ghost var piece := Piece(text[i], prevDash);
      if IsAlnum(text[i]) {
        out, prevDash := out + [text[i]], false;
      } else if !prevDash {
        out, prevDash := out + "-", true;
      }
      assert out == before + piece;
      i := i + 1;
    }
  }

  method SanitizeName(raw: string) returns (r: string)
    ensures r == NameFrom(raw)
  {
    var out := CollapseRuns(Lower(raw));
    r := Tidy(out);
  }

  /** What one more character adds to the output. */
  function Piece(c: char, prevDash: bool): string {
    if IsAlnum(c) then [c] else if prevDash then "" else "-"
  }

  lemma CollapseAppend(out: string, s: string, prevDash: bool)
    requires s != ""
    ensures Collapse(s, prevDash) == Piece(s[0], prevDash) + Collapse(s[1..], !IsAlnum(s[0]))
    ensures out + Collapse(s, prevDash) == out + Piece(s[0], prevDash) + Collapse(s[1..], !IsAlnum(s[0]))
  {}

  // ---------------------------------------------------------------- what the sanitisers keep

  /** The letters and digits of a string, in order. */
  function Alnums(s: string): string {
    if s == "" then "" else (if IsAlnum(s[0]) then [s[0]] else "") + Alnums(s[1..])
  }

  ghost predicate AllLabel(s: string) {
    forall i :: 0 <= i < |s| ==> LabelChar(s[i])
  }

  ghost predicate AllDash(s: string) {
    forall i :: 0 <= i < |s| ==> IsDash(s[i])
  }

  predicate DashPair(s: string, i: nat)
    requires i < |s| - 1
  {
    s[i] == '-' && s[i + 1] == '-'
  }

  predicate NoDoubleDash(s: string) {
    forall i :: 0 <= i < |s| - 1 ==> !DashPair(s, i)
  }

  ghost predicate HasAlnum(s: string) {
    exists i :: 0 <= i < |s| && (IsAlnum(s[i]) || IsUpper(s[i]))
  }

  lemma {:induction false} AlnumsConcat(a: string, b: string)
    ensures Alnums(a + b) == Alnums(a) + Alnums(b)
  {
    if a == "" {
      assert a + b == b;
    } else {
      assert (a + b)[1..] == a[1..] + b;
      AlnumsConcat(a[1..], b);
      var head := if IsAlnum(a[0]) then [a[0]] else "";
      assert head + (Alnums(a[1..]) + Alnums(b)) == (head + Alnums(a[1..])) + Alnums(b);
    }
  }

  lemma {:induction false} AlnumsEmpty(s: string)
    ensures AllDash(s) ==> Alnums(s) == ""
    ensures AllLabel(s) && Alnums(s) == "" ==> AllDash(s)
  {
    if s != "" {
      AlnumsEmpty(s[1..]);
      assert s == [s[0]] + s[1..];
      assert AllLabel(s) ==> LabelChar(s[0]);
      assert AllDash(s) ==> IsDash(s[0]);
    }
  }

  lemma {:induction false} AlnumsOfLower(s: string)
    ensures Alnums(Lower(s)) == "" <==> !HasAlnum(s)
  {
    if s != "" {
      AlnumsOfLower(s[1..]);
      assert Lower(s) == [LowerChar(s[0])] + Lower(s[1..]);
      assert IsAlnum(LowerChar(s[0])) <==> IsAlnum(s[0]) || IsUpper(s[0]);
      if HasAlnum(s) {
        var i :| 0 <= i < |s| && (IsAlnum(s[i]) || IsUpper(s[i]));
        assert i > 0 ==> s[1..][i - 1] == s[i];
      }
      if HasAlnum(s[1..]) {
        var i :| 0 <= i < |s[1..]| && (IsAlnum(s[1..][i]) || IsUpper(s[1..][i]));
        assert s[i + 1] == s[1..][i];
      }
    }
  }

  /** How `Tidy` cuts its input: dashes off the front, then what is kept, then a tail. */
  lemma TidyParts(raw: string) returns (lead: string, tail: string)
    ensures raw == lead + Tidy(raw) + tail && AllDash(lead)
    ensures |Trim(raw, IsDash)| <= MAX_LABEL ==> AllDash(tail)
  {
    var a := TrimStart(raw, IsDash);
    lead := TrimLead(raw);
    tail := TidyTail(a);
    Assoc(lead, Tidy(raw), tail);
  }

  lemma TrimLead(raw: string) returns (lead: string)
    ensures raw == lead + TrimStart(raw, IsDash) && AllDash(lead)
  {
    lead := raw[..|raw| - |TrimStart(raw, IsDash)|];
  }

  lemma Assoc(a: string, b: string, c: string)
    ensures a + (b + c) == a + b + c
  {}

  lemma TidyTail(a: string) returns (tail: string)
    ensures a == TrimEnd(Cap(TrimEnd(a, IsDash)), IsDash) + tail
    ensures |TrimEnd(a, IsDash)| <= MAX_LABEL ==> AllDash(tail)
  {
    var t := TrimEnd(a, IsDash);
    var c := Cap(t);
    var r := TrimEnd(c, IsDash);
    tail := a[|r|..];
    assert r == a[..|r|];
    if |t| <= MAX_LABEL {
      TrimEndTail(a, t, r);
    }
  }

  lemma TrimEndTail(a: string, t: string, r: string)
    requires t == TrimEnd(a, IsDash) && r == TrimEnd(t, IsDash)
    ensures AllDash(a[|r|..])
  {}

  lemma TidyKeeps(raw: string)
    ensures Alnums(Tidy(raw)) <= Alnums(raw)
    ensures |Trim(raw, IsDash)| <= MAX_LABEL ==> Alnums(Tidy(raw)) == Alnums(raw)
  {
    var lead, tail := TidyParts(raw);
    AlnumsConcat(lead + Tidy(raw), tail);
    AlnumsConcat(lead, Tidy(raw));
    AlnumsEmpty(lead);
    AlnumsEmpty(tail);
  }

  lemma TidySound(raw: string)
    requires AllLabel(raw)
    ensures Tidy(raw) == "" <==> AllDash(raw)
    ensures Tidy(raw) != "" ==> ValidLabel(Tidy(raw))
  {
    var lead, tail := TidyParts(raw);
    TidyEmpty(raw);
    var r := Tidy(raw);
    if r != "" { TidyEdges(raw); }
    assert forall i :: 0 <= i < |r| ==> r[i] == raw[i + |lead|];
  }

  lemma TidyEmpty(raw: string)
    ensures Tidy(raw) == "" <==> AllDash(raw)
  {
    var t := Trim(raw, IsDash);
    if t != "" {
      assert Cap(t)[0] == t[0];
      assert Tidy(raw) != "";
      assert t[0] == TrimStart(raw, IsDash)[0];
    }
  }

  lemma TidyEdges(raw: string)
    requires Tidy(raw) != ""
    ensures Tidy(raw)[0] != '-' && Tidy(raw)[|Tidy(raw)| - 1] != '-' && |Tidy(raw)| <= MAX_LABEL
  {}

  lemma TidyNoDoubleDash(raw: string)
    requires NoDoubleDash(raw)
    ensures NoDoubleDash(Tidy(raw))
  {
    var lead, tail := TidyParts(raw);
    var r := Tidy(raw);
    forall i | 0 <= i < |r| - 1 ensures !DashPair(r, i) {
      assert r[i] == raw[i + |lead|] && r[i + 1] == raw[i + |lead| + 1];
      assert !DashPair(raw, i + |lead|);
    }
  }

  lemma TidyFixed(s: string)
    requires s == "" || ValidLabel(s)
    ensures Tidy(s) == s
  {}

  lemma {:induction false} LabelCharsSound(s: string)
    ensures AllLabel(LabelChars(s)) && Alnums(LabelChars(s)) == Alnums(s) && |LabelChars(s)| <= |s|
    ensures AllLabel(s) ==> LabelChars(s) == s
  {
    if s != "" {
      LabelCharsSound(s[1..]);
      var c := if s[0] == '/' || s[0] == '_' then '-' else s[0];
      AlnumsConcat(if LabelChar(c) then [c] else "", LabelChars(s[1..]));
      assert s == [s[0]] + s[1..];
      assert AllLabel(s) ==> LabelChar(s[0]);
    }
  }

  lemma {:induction false} CollapseSound(s: string, prevDash: bool)
    ensures AllLabel(Collapse(s, prevDash)) && Alnums(Collapse(s, prevDash)) == Alnums(s)
            && |Collapse(s, prevDash)| <= |s|
  {
    if s != "" {
      CollapseSound(s[1..], !IsAlnum(s[0]));
      var piece := Piece(s[0], prevDash);
      CollapseAppend("", s, prevDash);
      AlnumsConcat(piece, Collapse(s[1..], !IsAlnum(s[0])));
    }
  }

  lemma {:induction false} CollapseDashes(s: string, prevDash: bool)
    ensures NoDoubleDash(Collapse(s, prevDash))
    ensures prevDash && Collapse(s, prevDash) != "" ==> Collapse(s, prevDash)[0] != '-'
  {
    if s != "" {
      var alnum := IsAlnum(s[0]);
      var rest := Collapse(s[1..], !alnum);
      CollapseDashes(s[1..], !alnum);
      CollapseAppend("", s, prevDash);
      PrependPiece(Piece(s[0], prevDash), rest);
    }
  }

  lemma PrependPiece(piece: string, rest: string)
    requires |piece| <= 1 && NoDoubleDash(rest)
    requires piece == "-" && rest != "" ==> rest[0] != '-'
    ensures NoDoubleDash(piece + rest)
  {
    var c := piece + rest;
    forall i | 0 <= i < |c| - 1 ensures !DashPair(c, i) {
      if i >= |piece| {
        assert c[i] == rest[i - |piece|] && c[i + 1] == rest[i + 1 - |piece|];
        assert !DashPair(rest, i - |piece|);
      }
    }
  }

  lemma {:induction false} CollapseFixed(s: string, prevDash: bool)
    requires AllLabel(s) && NoDoubleDash(s) && !(prevDash && s != "" && s[0] == '-')
    ensures Collapse(s, prevDash) == s
  {
    if s != "" {
      assert LabelChar(s[0]);
      forall i | 0 <= i < |s[1..]| - 1 ensures !DashPair(s[1..], i) {
        assert !DashPair(s, i + 1);
      }
      assert |s| > 1 ==> !DashPair(s, 0);
      CollapseFixed(s[1..], !IsAlnum(s[0]));
      assert s == [s[0]] + s[1..];
    }
  }

  /** Empty exactly when there is no ASCII letter or digit to keep; otherwise a label the daemon accepts. */
  lemma SanitizeLabelSound(s: string)
    ensures SanitizeLabel(s) == "" <==> !HasAlnum(s)
    ensures SanitizeLabel(s) != "" ==> ValidLabel(SanitizeLabel(s))
  {
    var raw := LabelChars(Lower(s));
    LabelCharsSound(Lower(s));
    AlnumsOfLower(s);
    AlnumsEmpty(raw);
    TidySound(raw);
  }

  lemma LabelFixed(s: string)
    ensures s == "" || ValidLabel(s) ==> SanitizeLabel(s) == s
  {
    if s == "" || ValidLabel(s) {
      assert Lower(s) == s;
      LabelCharsSound(s);
      TidyFixed(s);
    }
  }

  /** The fixed points are exactly the valid labels (and the empty string), so it is idempotent. */
  lemma SanitizeLabelFixed(s: string)
    ensures SanitizeLabel(s) == s <==> s == "" || ValidLabel(s)
    ensures SanitizeLabel(SanitizeLabel(s)) == SanitizeLabel(s)
  {
    SanitizeLabelSound(s);
    LabelFixed(s);
    LabelFixed(SanitizeLabel(s));
  }

  lemma NameFromSound(s: string)
    ensures NameFrom(s) == "" <==> !HasAlnum(s)
    ensures NameFrom(s) != "" ==> ValidLabel(NameFrom(s))
    ensures NoDoubleDash(NameFrom(s))
  {
    var raw := Collapse(Lower(s), false);
    CollapseSound(Lower(s), false);
    CollapseDashes(Lower(s), false);
    AlnumsOfLower(s);
    AlnumsEmpty(raw);
    TidySound(raw);
    TidyNoDoubleDash(raw);
  }

  predicate NameShaped(s: string) {
    s == "" || (ValidLabel(s) && NoDoubleDash(s))
  }

  lemma NameFixed(s: string)
    requires NameShaped(s)
    ensures NameFrom(s) == s
  {
    assert Lower(s) == s;
    CollapseFixed(s, false);
    TidyFixed(s);
  }

  lemma NameIsShaped(s: string)
    ensures NameShaped(NameFrom(s))
  {
    NameFromSound(s);
  }

  /** Unlike the label sanitiser, this one also rewrites valid labels that hold two dashes in a row. */
  lemma NameFromFixed(s: string)
    ensures NameFrom(s) == s <==> NameShaped(s)
    ensures NameFrom(NameFrom(s)) == NameFrom(s)
  {
    NameTwice(s);
    NameIsShaped(s);
    if NameShaped(s) {
      NameFixed(s);
    }
  }

  lemma NameTwice(s: string)
    ensures NameFrom(NameFrom(s)) == NameFrom(s)
  {
    NameIsShaped(s);
    NameFixed(NameFrom(s));
  }

  /**
   Both sanitisers keep the letters and digits in order, with `t` the input letter by letter in lower case;
   only the cap at 63 may drop a tail of them.
   */
  lemma SanitizersKeepOrder(s: string, t: string)
    requires Folds(s, t)
    ensures Alnums(SanitizeLabel(s)) <= Alnums(t)
    ensures Alnums(NameFrom(s)) <= Alnums(t)
    ensures |s| <= 63 ==> Alnums(SanitizeLabel(s)) == Alnums(NameFrom(s)) == Alnums(t)
  {
    FoldsExactly(s, t);
    LabelCharsSound(t);
    CollapseSound(t, false);
    TidyKeeps(LabelChars(t));
    TidyKeeps(Collapse(t, false));
  }

  // ---------------------------------------------------------------- registry keys

  const RESERVED_NAMES := {"status", "__adj_verify__"}

  function SplitKey(key: string): (r: (Option<string>, string))
    ensures r.0.None? ==> r.1 == key && '.' !in key
    ensures r.0.Some? ==> key == r.0.value + "." + r.1 && '.' !in r.0.value
  {
    match Find(key, '.')
    case None => (None, key)
    case Some(i) =>
      assert key == key[..i] + "." + key[i + 1..];
      (Some(key[..i]), key[i + 1..])
  }

  function BaseName(key: string): string {
    SplitKey(key).1
  }

  predicate OneLabel(s: string) {
    s != "" && '.' !in s
  }

  predicate NameAllowed(s: string) {
    ValidLabel(s) && s !in RESERVED_NAMES
  }

  /** One or two valid labels, none of them reserved. */
  predicate ValidKey(key: string) {
    var (tag, base) := SplitKey(key);
    NameAllowed(base) && (tag.Some? ==> NameAllowed(tag.value))
  }

  datatype KeyError = EmptyName | DottedName | BadName | ReservedName | BadLabel | ReservedLabel

  /** The checks an `add` makes on the configured name (already read) and the label, in order. */
  function AddKey(name: string, tag: Option<string>): (r: Result<string, KeyError>)
    ensures r.Ok? <==> NameAllowed(name) && (tag.Some? ==> NameAllowed(tag.value))
    ensures r.Ok? ==> ValidKey(r.value) && SplitKey(r.value) == (tag, name)
  {
    if forall i :: 0 <= i < |name| ==> IsWhitespace(name[i]) then
      assert name != "" ==> IsWhitespace(name[0]);
      Err(EmptyName)
    else if '.' in name then
      assert !ValidLabel(name);
      Err(DottedName)
    else if !ValidLabel(name) then Err(BadName)
    else if name in RESERVED_NAMES then Err(ReservedName)
    else match tag
      case None => Ok(name)
      case Some(l) =>
        if !ValidLabel(l) then Err(BadLabel)
        else if l in RESERVED_NAMES then Err(ReservedLabel)
        else
          SplitJoined(l, name);
          Ok(l + "." + name)
  }

  lemma SplitJoined(tag: string, base: string)
    requires '.' !in tag
    ensures SplitKey(tag + "." + base) == (Some(tag), base)
    ensures BaseName(tag + "." + base) == base
  {
    var key := tag + "." + base;
    assert key[..|tag|] == tag;
    FindIs(key, '.', |tag|);
    assert key[|tag| + 1..] == base;
  }

  /** The white space Rust's `trim` removes (the Unicode White_Space property). */
  predicate IsWhitespace(c: char) {
    var n := c as int;
    || 0x09 <= n <= 0x0D || n == 0x20 || n == 0x85 || n == 0xA0 || n == 0x1680
    || 0x2000 <= n <= 0x200A || n == 0x2028 || n == 0x2029 || n == 0x202F || n == 0x205F || n == 0x3000
  }
}
