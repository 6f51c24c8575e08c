/** How a dotenv file is cut into lines and how one line is read, by the shape of the text. */
module DotenvLines {
  import opened Text
  import opened Labels
  import opened Dotenv

  ghost predicate Space(s: string) {
    forall i :: 0 <= i < |s| ==> IsWhitespace(s[i])
  }

  ghost predicate Trimmed(s: string) {
    s != "" ==> !IsWhitespace(s[0]) && !IsWhitespace(s[|s| - 1])
  }

  // ---------------------------------------------------------------- lines

  /** A line feed ends a line, and takes one carriage return before it along. */
  lemma LineEnds(line: string, rest: string)
    requires '\n' !in line
    ensures line == "" || line[|line| - 1] != '\r' ==> Lines(line + "\n" + rest) == [line] + Lines(rest)
    ensures Lines(line + "\r" + "\n" + rest) == [line] + Lines(rest)
  {
    Cut(line, rest);
    Returned(line);
    Cut(line + "\r", rest);
  }

  lemma Returned(line: string)
    requires '\n' !in line
    ensures '\n' !in line + "\r" && StripCr(line + "\r") == line
  {}

  lemma Cut(line: string, rest: string)
    requires '\n' !in line
    ensures Lines(line + "\n" + rest) == [StripCr(line)] + Lines(rest)
  {
    var raw := line + "\n" + rest;
    assert raw[|line|] == '\n' && raw[..|line|] == line && raw[|line| + 1..] == rest;
    FindIs(raw, '\n', |line|);
  }

  /** The last line needs none, and nothing is no line. */
  lemma LastLine(line: string)
    requires '\n' !in line
    ensures Lines(line) == if line == "" then [] else [line]
  {}

  // ---------------------------------------------------------------- quotes

  /** One pair of equal quotes around the whole value goes, and nothing else does. */
  lemma QuotesExactly(s: string, v: string)
    ensures s == "\"" + v + "\"" || s == "'" + v + "'" ==> StripQuotes(s) == v
    ensures StripQuotes(s) == s ||
            s == "\"" + StripQuotes(s) + "\"" || s == "'" + StripQuotes(s) + "'"
  {}

  // ---------------------------------------------------------------- one line

  lemma {:induction false} TrimStartExactly(w: string, t: string)
    requires Space(w) && (t != "" ==> !IsWhitespace(t[0]))
    ensures TrimStart(w + t, IsWhitespace) == t
  {
    if w == "" {
      assert w + t == t;
    } else {
      assert (w + t)[1..] == w[1..] + t && (w + t)[0] == w[0];
      TrimStartExactly(w[1..], t);
    }
  }

  lemma {:induction false} TrimEndExactly(t: string, w: string)
    requires Space(w) && (t != "" ==> !IsWhitespace(t[|t| - 1]))
    ensures TrimEnd(t + w, IsWhitespace) == t
    decreases |w|
  {
    if w == "" {
      assert t + w == t;
    } else {
      assert (t + w)[..|t + w| - 1] == t + w[..|w| - 1] && (t + w)[|t + w| - 1] == w[|w| - 1];
      TrimEndExactly(t, w[..|w| - 1]);
    }
  }

  lemma TrimExactly(w: string, t: string, z: string)
    requires Space(w) && Trimmed(t) && Space(z)
    ensures Trim(w + t + z, IsWhitespace) == t
  {
    if t == "" {
      assert w + t + z == (w + z) + "";
      TrimStartExactly(w + z, "");
    } else {
      assert w + t + z == w + (t + z) && (t + z)[0] == t[0];
      TrimStartExactly(w, t + z);
      TrimEndExactly(t, z);
    }
  }

  /** White space alone, or a first character `#`, makes a line that says nothing. */
  lemma ReadBlank(w: string, t: string, z: string)
    requires Space(w) && Trimmed(t) && Space(z) && (t == "" || t[0] == '#')
    ensures ReadLine(w + t + z) == Blank
  {
    TrimExactly(w, t, z);
  }

  /** Any other line without `=` is an error. */
  lemma ReadNoEquals(w: string, t: string, z: string)
    requires Space(w) && Trimmed(t) && Space(z) && t != "" && t[0] != '#' && '=' !in t
    ensures ReadLine(w + t + z) == NoEquals
  {
    TrimExactly(w, t, z);
  }

  /** Otherwise the first `=` parts key and value; white space around either goes, then the quotes. */
  lemma ReadPair(w: string, k: string, x: string, y: string, v: string, z: string)
    requires Space(w) && Space(x) && Space(y) && Space(z) && Trimmed(k) && Trimmed(v)
    requires k != "" && k[0] != '#' && '=' !in k
    ensures ReadLine(w + k + x + "=" + y + v + z) == Pair(k, StripQuotes(v))
  {
    Assoc(w, k, x);
    KeySide(k, x);
    ReadSides(w, k + x, y, v, z);
  }

  /** And without a key it is an error. */
  lemma ReadNoKey(w: string, y: string, v: string, z: string)
    requires Space(w) && Space(y) && Space(z) && Trimmed(v)
    ensures ReadLine(w + "=" + y + v + z) == EmptyKey
  {
    assert w + "" == w;
    ReadSides(w, "", y, v, z);
  }

  lemma KeySide(k: string, x: string)
    requires Space(x) && Trimmed(k) && k != "" && '=' !in k
    ensures (k + x)[0] == k[0] && '=' !in k + x && Trim(k + x, IsWhitespace) == k
  {
    assert "" + k + x == k + x;
    TrimExactly("", k, x);
    SpaceNoEquals(x);
  }

  lemma SpaceNoEquals(x: string)
    requires Space(x)
    ensures '=' !in x
  {
    assert !IsWhitespace('=');
  }

  lemma Assoc(a: string, b: string, c: string)
    ensures a + b + c == a + (b + c)
  {}

  /** The same once white space before the first character is set apart: `left` is all that stands before `=`. */
  lemma ReadSides(lead: string, left: string, y: string, v: string, z: string)
    requires Space(lead) && Space(y) && Space(z) && Trimmed(v) && '=' !in left
    requires left != "" ==> !IsWhitespace(left[0]) && left[0] != '#'
    ensures var key := Trim(left, IsWhitespace);
            ReadLine(lead + left + "=" + y + v + z) == if key == "" then EmptyKey else Pair(key, StripQuotes(v))
  {
    var right := if v == "" then "" else y + v;
    var tail := if v == "" then y + z else z;
    Regrouped(lead, left, y, v, z, right, tail);
    TrimExactly(lead, left + "=" + right, tail);
    RightSide(y, v, right);
    ReadParted(lead + left + "=" + y + v + z, left, right);
  }

  lemma ReadParted(line: string, left: string, right: string)
    requires Trim(line, IsWhitespace) == left + "=" + right && '=' !in left && (left != "" ==> left[0] != '#')
    ensures var key := Trim(left, IsWhitespace);
            ReadLine(line) == if key == "" then EmptyKey else Pair(key, StripQuotes(Trim(right, IsWhitespace)))
  {
    var t := left + "=" + right;
    assert t[|left|] == '=' && t[..|left|] == left && t[|left| + 1..] == right;
    FindIs(t, '=', |left|);
  }

  lemma Regrouped(lead: string, left: string, y: string, v: string, z: string, right: string, tail: string)
    requires right == (if v == "" then "" else y + v) && tail == (if v == "" then y + z else z)
    ensures lead + left + "=" + y + v + z == lead + (left + "=" + right) + tail
  {}

  lemma RightSide(y: string, v: string, right: string)
    requires Space(y) && Trimmed(v) && right == (if v == "" then "" else y + v)
    ensures Trim(right, IsWhitespace) == v
  {
    if v != "" {
      assert y + v + "" == right;
      TrimExactly(y, v, "");
    }
  }
}
