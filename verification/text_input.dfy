/**
 * Character-level rules shared by the registration and visitor forms:
 * the digit-only sanitiser applied to phone and registration-number fields
 * (`text.replace(/[^0-9]/g, "").slice(0, 10)`), JavaScript's `String.prototype.trim`
 * and the ASCII part of `toLowerCase`.
 */
module TextInput {

  /** Longest value the sanitised numeric fields can hold. */
  const MaxDigits: nat := 10

  predicate IsDigit(c: char) {
    '0' <= c <= '9'
  }

  predicate AllDigits(s: string) {
    forall i :: 0 <= i < |s| ==> IsDigit(s[i])
  }

  /** The digits of `s`, in their original order (the regex replace). */
  function KeepDigits(s: string): (r: string)
    ensures AllDigits(r)
    ensures |r| <= |s|
    ensures AllDigits(s) ==> r == s
  {
    if s == [] then []
    else (if IsDigit(s[0]) then [s[0]] else []) + KeepDigits(s[1..])
  }

  /** The sanitiser: digits only, then the first ten of them. */
  function SanitizeDigits(s: string): (r: string)
    ensures AllDigits(r)
    ensures |r| <= MaxDigits
    ensures r <= KeepDigits(s)
    ensures |r| < MaxDigits ==> r == KeepDigits(s)
  {
    var d := KeepDigits(s);
    if |d| <= MaxDigits then d else d[..MaxDigits]
  }

  /** A field value the sanitiser leaves as it is: what the numeric fields always hold. */
  predicate IsSanitized(s: string) {
    AllDigits(s) && |s| <= MaxDigits
  }

  /** Removing non-digits distributes over concatenation: order is kept. */
  lemma {:induction false} KeepDigitsAppend(a: string, b: string)
    ensures KeepDigits(a + b) == KeepDigits(a) + KeepDigits(b)
  {
    if a == [] {
      assert a + b == b;
    } else {
      assert (a + b)[0] == a[0];
      assert (a + b)[1..] == a[1..] + b;
      KeepDigitsAppend(a[1..], b);
    }
  }

  /** Each digit keeps its multiplicity and every other character disappears. */
  lemma {:induction false} KeepDigitsCounts(s: string, c: char)
    ensures multiset(KeepDigits(s))[c] == if IsDigit(c) then multiset(s)[c] else 0
  {
    if s != [] {
      KeepDigitsCounts(s[1..], c);
      assert s == [s[0]] + s[1..];
    }
  }

  /** The sanitiser's fixed points are exactly the digit strings of length at most ten. */
  lemma SanitizeFixedPoints(s: string)
    ensures SanitizeDigits(s) == s <==> IsSanitized(s)
  {
  }

  /** Sanitising an already-sanitised value changes nothing. */
  lemma SanitizeIdempotent(s: string)
    ensures SanitizeDigits(SanitizeDigits(s)) == SanitizeDigits(s)
  {
    SanitizeFixedPoints(SanitizeDigits(s));
  }

  /** Under the sanitiser, "at least ten characters" and "exactly ten" coincide. */
  lemma SanitizedLengthAtLeastTen(s: string)
    ensures |SanitizeDigits(s)| >= MaxDigits <==> |SanitizeDigits(s)| == MaxDigits
  {
  }

  /** A sanitised value has ten characters exactly when the input held ten or more digits. */
  lemma SanitizedFull(s: string)
    ensures |SanitizeDigits(s)| == MaxDigits <==> |KeepDigits(s)| >= MaxDigits
  {
  }

  // ── JavaScript string length ────────────────────────────────────────────

  /** A code point outside the Basic Multilingual Plane, which UTF-16 stores as a surrogate pair. */
  predicate IsAstral(c: char) {
    c > '\U{FFFF}'
  }

  /** `s.length`: JavaScript counts UTF-16 code units, two for each astral code point. */
  function Utf16Length(s: string): (n: nat)
    ensures |s| <= n <= 2 * |s|
    decreases |s|
  {
    if s == [] then 0 else (if IsAstral(s[0]) then 2 else 1) + Utf16Length(s[1..])
  }

  /** A single character is two code units when it lies outside the Basic Multilingual Plane, one otherwise. */
  lemma Utf16LengthChar(c: char)
    ensures Utf16Length([c]) == if IsAstral(c) then 2 else 1
  {
    assert [c][1..] == [];
  }

  /** Code units add up over concatenation. */
  lemma {:induction false} Utf16LengthAppend(a: string, b: string)
    ensures Utf16Length(a + b) == Utf16Length(a) + Utf16Length(b)
    decreases |a|
  {
    if a == [] {
      assert a + b == b;
    } else {
      assert (a + b)[0] == a[0];
      assert (a + b)[1..] == a[1..] + b;
      Utf16LengthAppend(a[1..], b);
    }
  }

  /** A slice inside another slice has no more code units. */
  lemma Utf16LengthSlice(s: string, a: nat, i: nat, j: nat, b: nat)
    requires a <= i <= j <= b <= |s|
    ensures Utf16Length(s[i..j]) <= Utf16Length(s[a..b])
  {
    assert s[a..b] == s[a..i] + (s[i..j] + s[j..b]);
    Utf16LengthAppend(s[a..i], s[i..j] + s[j..b]);
    Utf16LengthAppend(s[i..j], s[j..b]);
  }

  /** A string without astral characters is one code unit per character. */
  lemma {:induction false} BmpUtf16Length(s: string)
    requires forall i :: 0 <= i < |s| ==> !IsAstral(s[i])
    ensures Utf16Length(s) == |s|
    decreases |s|
  {
    if s != [] {
      assert forall i :: 0 <= i < |s| - 1 ==> s[1..][i] == s[i + 1];
      BmpUtf16Length(s[1..]);
    }
  }

  /** Digits are single code units, so a digit string's JavaScript length is its length. */
  lemma DigitsUtf16Length(s: string)
    requires AllDigits(s)
    ensures Utf16Length(s) == |s|
  {
    BmpUtf16Length(s);
  }

  // ── JavaScript String.prototype.trim ───────────────────────────────────────

  /**
   * ECMAScript WhiteSpace and LineTerminator code points (section 12.2 and 12.3 of
   * ECMA-262): tab, vertical tab, form feed, space, no-break space, BOM, the
   * Unicode space separators (Zs), line feed, carriage return, and the line and
   * paragraph separators.
   */
  predicate IsWhitespace(c: char) {
    || c == '\t' || c == '\U{000B}' || c == '\U{000C}' || c == ' '
    || c == '\U{00A0}' || c == '\U{FEFF}' || c == '\U{1680}'
    || ('\U{2000}' <= c <= '\U{200A}')
    || c == '\U{202F}' || c == '\U{205F}' || c == '\U{3000}'
    || c == '\n' || c == '\r' || c == '\U{2028}' || c == '\U{2029}'
  }

  /** `s` without its leading whitespace. */
  function TrimStart(s: string): (r: string)
    ensures |r| <= |s| && r == s[|s| - |r|..]
    ensures forall i :: 0 <= i < |s| - |r| ==> IsWhitespace(s[i])
    ensures r == [] || !IsWhitespace(r[0])
  {
    if s != [] && IsWhitespace(s[0]) then TrimStart(s[1..]) else s
  }

  /** `s` without its trailing whitespace. */
  function TrimEnd(s: string): (r: string)
    ensures |r| <= |s| && r == s[..|r|]
    ensures forall i :: |r| <= i < |s| ==> IsWhitespace(s[i])
    ensures r == [] || !IsWhitespace(r[|r| - 1])
  {
    if s != [] && IsWhitespace(s[|s| - 1]) then TrimEnd(s[..|s| - 1]) else s
  }

  /** `s.trim()`: the slice between the first and the last non-whitespace character. */
  function Trim(s: string): (r: string)
    ensures |r| <= |s|
    ensures r == [] || (!IsWhitespace(r[0]) && !IsWhitespace(r[|r| - 1]))
  {
    TrimEnd(TrimStart(s))
  }

  /** The trimmed value starts where the leading whitespace ends. */
  lemma TrimOffset(s: string) returns (a: nat)
    ensures a == |s| - |TrimStart(s)|
    ensures a + |Trim(s)| <= |s| && Trim(s) == s[a..a + |Trim(s)|]
  {
    var t := TrimStart(s);
    a := |s| - |t|;
    var r := TrimEnd(t);
    assert r == Trim(s);
    assert s[a..] == t && r == t[..|r|];
  }

  /** Everything after the trimmed value is whitespace. */
  lemma TrimTrailing(s: string)
    ensures forall i :: |s| - |TrimStart(s)| + |Trim(s)| <= i < |s| ==> IsWhitespace(s[i])
  {
    var t := TrimStart(s);
    var a := |s| - |t|;
    var r := TrimEnd(t);
    assert r == Trim(s);
    forall i | a + |r| <= i < |s|
      ensures IsWhitespace(s[i])
    {
      assert s[i] == t[i - a];
    }
  }

  /** The trimmed value is the slice `s[a..a + |Trim(s)|]`, with only whitespace outside it. */
  lemma TrimSlice(s: string) returns (a: nat)
    ensures a + |Trim(s)| <= |s| && Trim(s) == s[a..a + |Trim(s)|]
    ensures forall i :: 0 <= i < a ==> IsWhitespace(s[i])
    ensures forall i :: a + |Trim(s)| <= i < |s| ==> IsWhitespace(s[i])
  {
    a := TrimOffset(s);
    TrimTrailing(s);
  }

  /**
   * `s.trim().length >= n` holds exactly when `s` has two non-whitespace
   * characters (possibly the same one) whose span, from the first to the
   * second inclusive, is at least `n` UTF-16 code units long.
   */
  lemma TrimmedLengthAtLeast(s: string, n: nat)
    requires n >= 1
    ensures Utf16Length(Trim(s)) >= n <==>
      exists i, j :: 0 <= i <= j < |s| && !IsWhitespace(s[i]) && !IsWhitespace(s[j]) && Utf16Length(s[i..j + 1]) >= n
  {
    if Utf16Length(Trim(s)) >= n {
      var i, j := TrimmedEnds(s);
    }
    if exists i, j :: 0 <= i <= j < |s| && !IsWhitespace(s[i]) && !IsWhitespace(s[j]) && Utf16Length(s[i..j + 1]) >= n {
      var i, j :| 0 <= i <= j < |s| && !IsWhitespace(s[i]) && !IsWhitespace(s[j]) && Utf16Length(s[i..j + 1]) >= n;
      SpanWithinTrim(s, i, j);
    }
  }

  /** A non-empty trimmed value runs from one non-whitespace character to another. */
  lemma TrimmedEnds(s: string) returns (i: nat, j: nat)
    requires Trim(s) != []
    ensures i <= j < |s| && !IsWhitespace(s[i]) && !IsWhitespace(s[j]) && s[i..j + 1] == Trim(s)
  {
    var t := TrimStart(s);
    var r := TrimEnd(t);
    assert r == Trim(s);
    i := |s| - |t|;
    j := i + |r| - 1;
    assert s[i..] == t && r == t[..|r|];
    assert s[i..j + 1] == r;
    assert s[i] == r[0] && s[j] == r[|r| - 1];
  }

  /** The span between two non-whitespace characters lies inside the trimmed value. */
  lemma SpanWithinTrim(s: string, i: nat, j: nat)
    requires i <= j < |s| && !IsWhitespace(s[i]) && !IsWhitespace(s[j])
    ensures Utf16Length(s[i..j + 1]) <= Utf16Length(Trim(s))
  {
    var a := TrimSlice(s);
    var b := a + |Trim(s)|;
    assert a <= i;
    assert j < b;
    Utf16LengthSlice(s, a, i, j + 1, b);
    assert s[a..b] == Trim(s);
  }

  /** Trimming twice is trimming once. */
  lemma TrimIdempotent(s: string)
    ensures Trim(Trim(s)) == Trim(s)
  {
    var r := Trim(s);
    assert TrimStart(r) == r;
    assert TrimEnd(r) == r;
  }

  predicate AllWhitespace(s: string) {
    forall i :: 0 <= i < |s| ==> IsWhitespace(s[i])
  }

  lemma {:induction false} TrimStartAfterWhitespace(p: string, y: string)
    requires AllWhitespace(p)
    ensures TrimStart(p + y) == TrimStart(y)
  {
    if p != [] {
      assert (p + y)[1..] == p[1..] + y;
      TrimStartAfterWhitespace(p[1..], y);
    } else {
      assert p + y == y;
    }
  }

  lemma {:induction false} TrimEndBeforeWhitespace(y: string, p: string)
    requires AllWhitespace(p)
    ensures TrimEnd(y + p) == TrimEnd(y)
  {
    if p != [] {
      var q := p[..|p| - 1];
      assert (y + p)[..|y + p| - 1] == y + q;
      TrimEndBeforeWhitespace(y, q);
    } else {
      assert y + p == y;
    }
  }

  lemma {:induction false} TrimStartAppend(x: string, p: string)
    ensures TrimStart(x + p) == if TrimStart(x) == [] then TrimStart(p) else TrimStart(x) + p
  {
    if x == [] {
      assert x + p == p;
    } else {
      assert (x + p)[0] == x[0];
      assert (x + p)[1..] == x[1..] + p;
      TrimStartAppend(x[1..], p);
    }
  }

  /** Whitespace added on both sides is removed again by `trim`. */
  lemma TrimPadding(x: string, pad: string)
    requires AllWhitespace(pad)
    ensures Trim(pad + x + pad) == Trim(x)
  {
    assert pad + x + pad == pad + (x + pad);
    TrimStartAfterWhitespace(pad, x + pad);
    TrimStartAppend(x, pad);
    if TrimStart(x) == [] {
      TrimStartAfterWhitespace(pad, []);
      assert pad + [] == pad;
    } else {
      TrimEndBeforeWhitespace(TrimStart(x), pad);
    }
  }

  // ── ASCII toLowerCase ──────────────────────────────────────────────────────

  predicate IsUpperAscii(c: char) {
    'A' <= c <= 'Z'
  }

  function LowerChar(c: char): (d: char)
    ensures !IsUpperAscii(d)
    ensures IsUpperAscii(c) ==> d as int == c as int + 32
    ensures !IsUpperAscii(c) ==> d == c
  {
    if IsUpperAscii(c) then (c as int + 32) as char else c
  }

  /** `s.toLowerCase()` restricted to the letters A to Z. */
  function ToLower(s: string): (r: string)
    ensures |r| == |s|
    ensures forall i :: 0 <= i < |s| ==> r[i] == LowerChar(s[i])
  {
    if s == [] then [] else [LowerChar(s[0])] + ToLower(s[1..])
  }
}
