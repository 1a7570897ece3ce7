/** The PHP string functions the core relies on, restated over `seq<char>`:
    `trim`, `empty`, `mb_substr($s, 0, 1)`, `str_replace` of single
    characters, the umlaut table, `strtolower`/`strtoupper` (ASCII),
    `preg_replace('/\s+/', ' ', …)` and the `(int)` cast of a numeric string. */
module Strings {

  // ---------------------------------------------------------------------------
  // trim
  // ---------------------------------------------------------------------------

  /** The characters PHP's `trim` strips by default: space, tab, line feed,
      carriage return, NUL and vertical tab. */
  predicate IsTrimChar(c: char) {
    c == ' ' || c == '\t' || c == '\n' || c == '\r' || c == '\0' || c == '\U{000B}'
  }

  /** `ltrim`: drops the leading trim characters; what is left is a suffix. */
  function TrimStart(s: string): (r: string)
    ensures |r| <= |s| && r == s[|s| - |r|..]
    ensures r == [] || !IsTrimChar(r[0])
  {
    if s != [] && IsTrimChar(s[0]) then TrimStart(s[1..]) else s
  }

  /** `rtrim`: drops the trailing trim characters; what is left is a prefix. */
  function TrimEnd(s: string): (r: string)
    ensures |r| <= |s| && r == s[..|r|]
    ensures r == [] || !IsTrimChar(r[|r| - 1])
  {
    if s != [] && IsTrimChar(s[|s| - 1]) then TrimEnd(s[..|s| - 1]) else s
  }

  /** `ltrim` drops only trim characters. */
  lemma {:induction false} TrimStartDropsTrimChars(s: string)
    ensures forall i :: 0 <= i < |s| - |TrimStart(s)| ==> IsTrimChar(s[i])
  {
    if s != [] && IsTrimChar(s[0]) {
      var t := s[1..];
      TrimStartDropsTrimChars(t);
      forall i | 0 < i < |s| - |TrimStart(t)| ensures IsTrimChar(s[i]) {
        assert s[i] == t[i - 1];
      }
    }
  }

  /** `rtrim` drops only trim characters. */
  lemma {:induction false} TrimEndDropsTrimChars(s: string)
    ensures forall i :: |TrimEnd(s)| <= i < |s| ==> IsTrimChar(s[i])
  {
    if s != [] && IsTrimChar(s[|s| - 1]) {
      var t := s[..|s| - 1];
      TrimEndDropsTrimChars(t);
      forall i | |TrimEnd(t)| <= i < |s| - 1 ensures IsTrimChar(s[i]) {
        assert s[i] == t[i];
      }
    }
  }

  lemma SliceOfSuffix(s: string, i: nat, n: nat)
    requires i + n <= |s|
    ensures s[i..][..n] == s[i..i + n]
  {
  }

  /** `r` is the slice of `s` that starts at `i`, and everything of `s`
      before and after that slice is a trim character. */
  predicate IsTrimmedSlice(s: string, i: int, r: string) {
    0 <= i && i + |r| <= |s| && r == s[i..i + |r|] &&
    (forall k :: 0 <= k < i ==> IsTrimChar(s[k])) &&
    (forall k :: i + |r| <= k < |s| ==> IsTrimChar(s[k]))
  }

  /** A prefix `e` of a suffix `t` of `s` is the slice of `s` between them,
      when what both cuts drop are trim characters. */
  lemma {:induction false} SliceBetween(s: string, t: string, e: string)
    requires |t| <= |s| && t == s[|s| - |t|..]
    requires |e| <= |t| && e == t[..|e|]
    requires forall k :: 0 <= k < |s| - |t| ==> IsTrimChar(s[k])
    requires forall k :: |e| <= k < |t| ==> IsTrimChar(t[k])
    ensures IsTrimmedSlice(s, |s| - |t|, e)
  {
    var i := |s| - |t|;
    SliceOfSuffix(s, i, |e|);
    forall k | i + |e| <= k < |s| ensures IsTrimChar(s[k]) {
      assert s[k] == t[k - i];
    }
  }

  /** PHP `trim($s)`: a slice of `s` that neither starts nor ends with a trim
      character, with only trim characters dropped before and after it. */
  function Trim(s: string): (r: string)
    ensures |r| <= |s|
    ensures r == [] || (!IsTrimChar(r[0]) && !IsTrimChar(r[|r| - 1]))
    ensures IsTrimmedSlice(s, |s| - |TrimStart(s)|, r)
  {
    var t := TrimStart(s);
    TrimStartDropsTrimChars(s);
    TrimEndDropsTrimChars(t);
    SliceBetween(s, t, TrimEnd(t));
    TrimEnd(t)
  }

  /** A string that neither starts nor ends with a trim character is its own trim. */
  lemma TrimUnchanged(s: string)
    requires s == [] || (!IsTrimChar(s[0]) && !IsTrimChar(s[|s| - 1]))
    ensures Trim(s) == s
  {
  }

  /** Trimming twice is trimming once. */
  lemma TrimIdempotent(s: string)
    ensures Trim(Trim(s)) == Trim(s)
  {
    TrimUnchanged(Trim(s));
  }

  // ---------------------------------------------------------------------------
  // empty, first character, character replacement, case
  // ---------------------------------------------------------------------------

  /** PHP `empty($s)` on a string: true for "" and for "0". */
  predicate IsEmpty(s: string) {
    s == "" || s == "0"
  }

  /** PHP `mb_substr($s, 0, 1)`: the first character, or "" for "". */
  function FirstChar(s: string): (r: string)
    ensures |r| == (if s == [] then 0 else 1)
    ensures r == s[..|r|]
  {
    if s == [] then [] else [s[0]]
  }

  /** PHP `str_replace('.', ' ', $s)`. */
  function DotsToSpaces(s: string): (r: string)
    ensures |r| == |s|
    ensures '.' !in r
  {
    if s == [] then [] else [if s[0] == '.' then ' ' else s[0]] + DotsToSpaces(s[1..])
  }

  /** Each dot becomes a space and every other character stays. */
  lemma {:induction false} DotsToSpacesAt(s: string, i: nat)
    requires i < |s|
    ensures DotsToSpaces(s)[i] == (if s[i] == '.' then ' ' else s[i])
  {
    if i > 0 {
      DotsToSpacesAt(s[1..], i - 1);
    }
  }

  predicate IsAsciiUpper(c: char) { 'A' <= c <= 'Z' }
  predicate IsAsciiLower(c: char) { 'a' <= c <= 'z' }
  predicate IsAsciiDigit(c: char) { '0' <= c <= '9' }
  predicate IsAsciiAlnum(c: char) { IsAsciiUpper(c) || IsAsciiLower(c) || IsAsciiDigit(c) }

  function UpperChar(c: char): (r: char)
    ensures IsAsciiLower(c) ==> IsAsciiUpper(r)
    ensures !IsAsciiLower(c) ==> r == c
  {
    if IsAsciiLower(c) then (c as int - 32) as char else c
  }

  function LowerChar(c: char): (r: char)
    ensures IsAsciiUpper(c) ==> IsAsciiLower(r)
    ensures !IsAsciiUpper(c) ==> r == c
  {
    if IsAsciiUpper(c) then (c as int + 32) as char else c
  }

  /** PHP `strtolower($s)` (ASCII letters only). */
  function ToLower(s: string): (r: string)
    ensures |r| == |s|
    ensures forall i :: 0 <= i < |s| ==> r[i] == LowerChar(s[i])
  {
    if s == [] then [] else [LowerChar(s[0])] + ToLower(s[1..])
  }

  /** PHP `strtoupper($s)` (ASCII letters only). */
  function ToUpper(s: string): (r: string)
    ensures |r| == |s|
    ensures forall i :: 0 <= i < |s| ==> r[i] == UpperChar(s[i])
  {
    if s == [] then [] else [UpperChar(s[0])] + ToUpper(s[1..])
  }

  // ---------------------------------------------------------------------------
  // German umlaut transliteration
  // ---------------------------------------------------------------------------

  predicate IsUmlaut(c: char) {
    c == 'ä' || c == 'ö' || c == 'ü' || c == 'Ä' || c == 'Ö' || c == 'Ü'
  }

  /** The table ä ö ü Ä Ö Ü -> ae oe ue Ae Oe Ue; every other character stays. */
  function TransliterateChar(c: char): (r: string)
    ensures IsUmlaut(c) ==> |r| == 2 && r[1] == 'e' && !IsUmlaut(r[0])
    ensures !IsUmlaut(c) ==> r == [c]
  {
    match c
    case 'ä' => "ae"
    case 'ö' => "oe"
    case 'ü' => "ue"
    case 'Ä' => "Ae"
    case 'Ö' => "Oe"
    case 'Ü' => "Ue"
    case _ => [c]
  }

  /** The strings `f` gives for the characters of `s`, joined in order. */
  function MapChars(f: char -> string, s: string): string {
    if s == [] then [] else f(s[0]) + MapChars(f, s[1..])
  }

  lemma {:induction false} MapCharsConcat(f: char -> string, a: string, b: string)
    ensures MapChars(f, a + b) == MapChars(f, a) + MapChars(f, b)
  {
    if a == [] {
      assert a + b == b;
    } else {
      assert (a + b)[1..] == a[1..] + b;
      MapCharsConcat(f, a[1..], b);
    }
  }

  lemma {:induction false} MapCharsLonger(f: char -> string, s: string)
    requires forall c :: |f(c)| >= 1
    ensures |MapChars(f, s)| >= |s|
  {
    if s != [] {
      MapCharsLonger(f, s[1..]);
    }
  }

  /** `str_replace(["ä","ö","ü","Ä","Ö","Ü"], ["ae","oe","ue","Ae","Oe","Ue"], $s)`.
      The replacements contain no umlaut, so replacing one table entry after
      the other is the same as mapping every character at once. */
  function Transliterate(s: string): (r: string)
    ensures |r| >= |s|
    ensures s != [] ==> r != [] && r[0] == TransliterateChar(s[0])[0]
  {
    MapCharsLonger(TransliterateChar, s);
    MapChars(TransliterateChar, s)
  }

  /** No umlaut is left after transliteration. */
  lemma {:induction false} TransliterateRemovesUmlauts(s: string)
    ensures forall i :: 0 <= i < |Transliterate(s)| ==> !IsUmlaut(Transliterate(s)[i])
  {
    if s != [] {
      TransliterateRemovesUmlauts(s[1..]);
      var r := Transliterate(s);
      var h := TransliterateChar(s[0]);
      assert r == h + Transliterate(s[1..]);
      forall i | 0 <= i < |r| ensures !IsUmlaut(r[i]) {
        if i >= |h| {
          assert r[i] == Transliterate(s[1..])[i - |h|];
        }
      }
    }
  }

  /** A string without umlauts is its own transliteration. */
  lemma {:induction false} TransliterateIdentity(s: string)
    requires forall i :: 0 <= i < |s| ==> !IsUmlaut(s[i])
    ensures Transliterate(s) == s
  {
    if s != [] {
      TransliterateIdentity(s[1..]);
      assert [s[0]] + s[1..] == s;
    }
  }

  /** Transliteration works character by character, so it distributes over
      concatenation. */
  lemma TransliterateConcat(a: string, b: string)
    ensures Transliterate(a + b) == Transliterate(a) + Transliterate(b)
  {
    MapCharsConcat(TransliterateChar, a, b);
  }

  // ---------------------------------------------------------------------------
  // preg_replace('/\s+/', ' ', $s)
  // ---------------------------------------------------------------------------

  /** The characters PCRE's `\s` matches: space, tab, line feed, vertical
      tab, form feed and carriage return. */
  predicate IsSpace(c: char) {
    c == ' ' || c == '\t' || c == '\n' || c == '\U{000B}' || c == '\U{000C}' || c == '\r'
  }

  function SkipSpaces(s: string): (r: string)
    ensures |r| <= |s| && r == s[|s| - |r|..]
    ensures r == [] || !IsSpace(r[0])
    ensures forall i :: 0 <= i < |s| - |r| ==> IsSpace(s[i])
  {
    if s != [] && IsSpace(s[0]) then SkipSpaces(s[1..]) else s
  }

  /** Every run of whitespace becomes one plain space. */
  function CollapseWhitespace(s: string): (r: string)
    ensures s == [] <==> r == []
    ensures s != [] ==> r[0] == (if IsSpace(s[0]) then ' ' else s[0])
    decreases |s|
  {
    if s == [] then []
    else if IsSpace(s[0]) then " " + CollapseWhitespace(SkipSpaces(s[1..]))
    else [s[0]] + CollapseWhitespace(s[1..])
  }

  /** Skipping the leading whitespace of `x + y`, where `x` ends with other
      text, skips only inside `x`. */
  lemma {:induction false} SkipSpacesConcat(x: string, y: string)
    requires x != [] && !IsSpace(x[|x| - 1])
    ensures SkipSpaces(x + y) == SkipSpaces(x) + y
  {
    if IsSpace(x[0]) {
      assert x[1..][|x| - 2] == x[|x| - 1];
      assert (x + y)[1..] == x[1..] + y;
      SkipSpacesConcat(x[1..], y);
    }
  }

  /** Skipping a run of whitespace followed by a string that does not start
      with whitespace leaves that string. */
  lemma {:induction false} SkipSpacesRun(w: string, b: string)
    requires forall k :: 0 <= k < |w| ==> IsSpace(w[k])
    requires b == [] || !IsSpace(b[0])
    ensures SkipSpaces(w + b) == b
  {
    if w == [] {
      assert w + b == b;
    } else {
      assert (w + b)[1..] == w[1..] + b;
      SkipSpacesRun(w[1..], b);
    }
  }

  /** A leading whitespace run collapses to one space before the rest. */
  lemma {:induction false} CollapseLeadingRun(w: string, b: string)
    requires w != [] && forall k :: 0 <= k < |w| ==> IsSpace(w[k])
    requires b == [] || !IsSpace(b[0])
    ensures CollapseWhitespace(w + b) == " " + CollapseWhitespace(b)
  {
    assert (w + b)[0] == w[0];
    assert (w + b)[1..] == w[1..] + b;
    SkipSpacesRun(w[1..], b);
  }

  /** Collapsing a string that starts with whitespace and goes on to other
      text: one space, then the collapsed text after the run. */
  lemma {:induction false} CollapseFromSpace(a: string, rest: string)
    requires a != [] && IsSpace(a[0]) && !IsSpace(a[|a| - 1])
    ensures CollapseWhitespace(a + rest) == " " + CollapseWhitespace(SkipSpaces(a[1..]) + rest)
  {
    assert a[1..][|a| - 2] == a[|a| - 1];
    assert (a + rest)[0] == a[0];
    assert (a + rest)[1..] == a[1..] + rest;
    SkipSpacesConcat(a[1..], rest);
  }

  /** Collapsing a string that starts with other text keeps that character. */
  lemma {:induction false} CollapseFromText(a: string, rest: string)
    requires a != [] && !IsSpace(a[0])
    ensures CollapseWhitespace(a + rest) == [a[0]] + CollapseWhitespace(a[1..] + rest)
  {
    assert (a + rest)[0] == a[0];
    assert (a + rest)[1..] == a[1..] + rest;
  }

  /** Skipping leading whitespace keeps a last character that is not
      whitespace. */
  lemma SkipSpacesKeepsLast(x: string)
    requires x != [] && !IsSpace(x[|x| - 1])
    ensures SkipSpaces(x) != [] && SkipSpaces(x)[|SkipSpaces(x)| - 1] == x[|x| - 1]
  {
  }

  lemma Regroup(x: string, h: string, u: string, v: string, z: string)
    requires x == h + u && u == v + z
    ensures x == (h + v) + z
  {
  }

  /** The step of `CollapseConcat` for a string that starts with whitespace:
      the claim for the text after the leading run gives it for `a`. */
  lemma {:induction false} CollapseConcatFromSpace(a: string, rest: string)
    requires a != [] && IsSpace(a[0]) && !IsSpace(a[|a| - 1])
    requires var t := SkipSpaces(a[1..]);
      CollapseWhitespace(t + rest) == CollapseWhitespace(t) + CollapseWhitespace(rest)
    ensures CollapseWhitespace(a + rest) == CollapseWhitespace(a) + CollapseWhitespace(rest)
  {
    var t := SkipSpaces(a[1..]);
    CollapseFromSpace(a, rest);
    assert CollapseWhitespace(a) == " " + CollapseWhitespace(t);
    Regroup(CollapseWhitespace(a + rest), " ", CollapseWhitespace(t + rest),
            CollapseWhitespace(t), CollapseWhitespace(rest));
  }

  /** The step of `CollapseConcat` for a string that starts with other text. */
  lemma {:induction false} CollapseConcatFromText(a: string, rest: string)
    requires a != [] && !IsSpace(a[0])
    requires CollapseWhitespace(a[1..] + rest) == CollapseWhitespace(a[1..]) + CollapseWhitespace(rest)
    ensures CollapseWhitespace(a + rest) == CollapseWhitespace(a) + CollapseWhitespace(rest)
  {
    var t := a[1..];
    CollapseFromText(a, rest);
    assert CollapseWhitespace(a) == [a[0]] + CollapseWhitespace(t);
    Regroup(CollapseWhitespace(a + rest), [a[0]], CollapseWhitespace(t + rest),
            CollapseWhitespace(t), CollapseWhitespace(rest));
  }

  /** No whitespace run crosses the end of a string that ends with other
      text, so such a string collapses on its own. */
  lemma {:induction false} CollapseConcat(a: string, rest: string)
    requires a == [] || !IsSpace(a[|a| - 1])
    ensures CollapseWhitespace(a + rest) == CollapseWhitespace(a) + CollapseWhitespace(rest)
    decreases |a|
  {
    if a == [] {
      assert a + rest == rest;
    } else if IsSpace(a[0]) {
      SkipSpacesKeepsLast(a[1..]);
      CollapseConcat(SkipSpaces(a[1..]), rest);
      CollapseConcatFromSpace(a, rest);
    } else {
      var t := a[1..];
      if t != [] {
        assert t[|t| - 1] == a[|a| - 1];
      }
      CollapseConcat(t, rest);
      CollapseConcatFromText(a, rest);
    }
  }

  /** Each maximal whitespace run becomes exactly one space: a run `w`
      between a string that does not end with whitespace and one that does
      not start with it collapses to `" "`, and the text on either side is
      collapsed on its own. */
  lemma {:induction false} CollapseRun(a: string, w: string, b: string)
    requires a == [] || !IsSpace(a[|a| - 1])
    requires w != [] && forall k :: 0 <= k < |w| ==> IsSpace(w[k])
    requires b == [] || !IsSpace(b[0])
    ensures CollapseWhitespace(a + w + b) == CollapseWhitespace(a) + " " + CollapseWhitespace(b)
  {
    var wb := w + b;
    assert a + w + b == a + wb;
    CollapseConcat(a, wb);
    CollapseLeadingRun(w, b);
    Regroup(CollapseWhitespace(a + wb), CollapseWhitespace(a), CollapseWhitespace(wb),
            " ", CollapseWhitespace(b));
  }

  /** After collapsing, every whitespace character is a plain space. */
  lemma {:induction false} CollapsedSpacesArePlain(s: string)
    ensures var r := CollapseWhitespace(s);
      forall i :: 0 <= i < |r| ==> IsSpace(r[i]) ==> r[i] == ' '
    decreases |s|
  {
    if s != [] {
      var t := if IsSpace(s[0]) then SkipSpaces(s[1..]) else s[1..];
      CollapsedSpacesArePlain(t);
      var h: string := if IsSpace(s[0]) then " " else [s[0]];
      assert CollapseWhitespace(s) == h + CollapseWhitespace(t);
      var c := CollapseWhitespace(t);
      var r := CollapseWhitespace(s);
      assert r == h + c;
      forall i | 0 < i < |r| ensures IsSpace(r[i]) ==> r[i] == ' ' {
        assert r[i] == c[i - 1];
      }
    }
  }

  /** No two whitespace characters next to each other. */
  predicate SingleSpaced(r: string) {
    forall i :: 0 <= i < |r| - 1 ==> !(IsSpace(r[i]) && IsSpace(r[i + 1]))
  }

  /** Putting one character before a single-spaced string keeps it single
      spaced unless both are whitespace. */
  lemma SingleSpacedPrepend(h: string, c: string)
    requires |h| == 1 && SingleSpaced(c)
    requires IsSpace(h[0]) ==> c == [] || !IsSpace(c[0])
    ensures SingleSpaced(h + c)
  {
    var r := h + c;
    forall i | 0 <= i < |r| - 1 ensures !(IsSpace(r[i]) && IsSpace(r[i + 1])) {
      if i == 0 {
        assert r[0] == h[0] && r[1] == c[0];
      } else {
        assert r[i] == c[i - 1] && r[i + 1] == c[i];
      }
    }
  }

  /** After collapsing, no two whitespace characters are adjacent. */
  lemma {:induction false} CollapsedSpacesAreSingle(s: string)
    ensures var r := CollapseWhitespace(s);
      forall i :: 0 <= i < |r| - 1 ==> !(IsSpace(r[i]) && IsSpace(r[i + 1]))
    decreases |s|
  {
    if s != [] {
      var t := if IsSpace(s[0]) then SkipSpaces(s[1..]) else s[1..];
      CollapsedSpacesAreSingle(t);
      var h: string := if IsSpace(s[0]) then " " else [s[0]];
      assert CollapseWhitespace(s) == h + CollapseWhitespace(t);
      SingleSpacedPrepend(h, CollapseWhitespace(t));
    }
  }

  /** The non-whitespace characters of a string, in order. */
  function NonSpace(s: string): (r: string)
    ensures |r| <= |s|
    ensures forall i :: 0 <= i < |r| ==> !IsSpace(r[i])
  {
    if s == [] then [] else (if IsSpace(s[0]) then [] else [s[0]]) + NonSpace(s[1..])
  }

  lemma {:induction false} NonSpaceSkipped(s: string)
    ensures NonSpace(SkipSpaces(s)) == NonSpace(s)
  {
    if s != [] && IsSpace(s[0]) {
      NonSpaceSkipped(s[1..]);
    }
  }

  /** Collapsing whitespace keeps every other character, in order. */
  lemma {:induction false} CollapseKeepsText(s: string)
    ensures NonSpace(CollapseWhitespace(s)) == NonSpace(s)
    decreases |s|
  {
    if s == [] {
    } else if IsSpace(s[0]) {
      var rest := SkipSpaces(s[1..]);
      CollapseKeepsText(rest);
      NonSpaceSkipped(s[1..]);
      assert NonSpace(" " + CollapseWhitespace(rest)) == NonSpace(CollapseWhitespace(rest)) by {
        assert (" " + CollapseWhitespace(rest))[1..] == CollapseWhitespace(rest);
      }
    } else {
      CollapseKeepsText(s[1..]);
      assert ([s[0]] + CollapseWhitespace(s[1..]))[1..] == CollapseWhitespace(s[1..]);
    }
  }

  // ---------------------------------------------------------------------------
  // (int) cast and decimal rendering
  // ---------------------------------------------------------------------------

  function DigitValue(c: char): (d: nat)
    requires IsAsciiDigit(c)
    ensures d < 10
  {
    c as int - '0' as int
  }

  function DigitChar(d: nat): (c: char)
    requires d < 10
    ensures IsAsciiDigit(c) && DigitValue(c) == d
  {
    ('0' as int + d) as char
  }

  /** The longest prefix of `s` made of decimal digits. */
  function LeadingDigits(s: string): (r: string)
    ensures |r| <= |s| && r == s[..|r|]
    ensures forall i :: 0 <= i < |r| ==> IsAsciiDigit(r[i])
    ensures |r| < |s| ==> !IsAsciiDigit(s[|r|])
  {
    if s != [] && IsAsciiDigit(s[0]) then [s[0]] + LeadingDigits(s[1..]) else []
  }

  /** The value of a string of decimal digits, most significant first. */
  function DigitsValue(ds: string): nat
    requires forall i :: 0 <= i < |ds| ==> IsAsciiDigit(ds[i])
  {
    if ds == [] then 0 else DigitsValue(ds[..|ds| - 1]) * 10 + DigitValue(ds[|ds| - 1])
  }

  /** The whitespace PHP skips before a leading-numeric string. */
  predicate IsNumericLeadSpace(c: char) {
    c == ' ' || c == '\t' || c == '\n' || c == '\r' || c == '\U{000B}' || c == '\U{000C}'
  }

  function SkipNumericLead(s: string): (r: string)
    ensures |r| <= |s|
    ensures r == [] || !IsNumericLeadSpace(r[0])
  {
    if s != [] && IsNumericLeadSpace(s[0]) then SkipNumericLead(s[1..]) else s
  }

  /** PHP `(int) $s` for a decimal string: leading whitespace, an optional
      sign, then as many digits as there are; anything else reads as 0. */
  function IntCast(s: string): (n: int)
    ensures n < 0 ==> SkipNumericLead(s) != [] && SkipNumericLead(s)[0] == '-'
  {
    var t := SkipNumericLead(s);
    if t != [] && t[0] == '-' then -(DigitsValue(LeadingDigits(t[1..])) as int)
    else if t != [] && t[0] == '+' then DigitsValue(LeadingDigits(t[1..]))
    else DigitsValue(LeadingDigits(t))
  }

  /** PHP's rendering of a non-negative integer in a string context. */
  function DecimalString(n: nat): (r: string)
    ensures |r| > 0
    ensures forall i :: 0 <= i < |r| ==> IsAsciiDigit(r[i])
  {
    if n < 10 then [DigitChar(n)] else DecimalString(n / 10) + [DigitChar(n % 10)]
  }

  lemma {:induction false} DigitsValueOfDecimal(n: nat)
    ensures DigitsValue(DecimalString(n)) == n
  {
    var r := DecimalString(n);
    if n >= 10 {
      DigitsValueOfDecimal(n / 10);
      assert r[..|r| - 1] == DecimalString(n / 10);
    } else {
      assert r[..0] == [];
    }
  }

  lemma LeadingDigitsOfDigits(ds: string)
    requires forall i :: 0 <= i < |ds| ==> IsAsciiDigit(ds[i])
    ensures LeadingDigits(ds) == ds
  {
  }

  /** Casting the decimal rendering of a number back to int gives the number. */
  lemma IntCastOfDecimal(n: nat)
    ensures IntCast(DecimalString(n)) == n
  {
    var r := DecimalString(n);
    assert SkipNumericLead(r) == r;
    LeadingDigitsOfDigits(r);
    DigitsValueOfDecimal(n);
  }
}
