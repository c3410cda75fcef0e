/** The handful of Python string built-ins the visualiser relies on:
    str.strip, str.lower, str.isdigit, int(str), `sub in s`, str.startswith
    and the field selected by str.split(' ')[1]. */
module Text {

  datatype Option<T> = None | Some(value: T)

  /** Python's str.isspace() for one character: the whitespace that
      str.strip() removes. */
  predicate IsSpace(c: char) {
    c == ' ' || ('\t' <= c <= '\r') || ('\U{1c}' <= c <= '\U{1f}')
    || c == '\U{85}' || c == '\U{a0}' || c == '\U{1680}'
    || ('\U{2000}' <= c <= '\U{200a}') || c == '\U{2028}' || c == '\U{2029}'
    || c == '\U{202f}' || c == '\U{205f}' || c == '\U{3000}'
  }

  /** The whitespace int() skips around its literal: the same set except the
      four separators U+001C..U+001F, which CPython's number parser does not
      count as space. */
  predicate IsIntSpace(c: char) {
    IsSpace(c) && !('\U{1c}' <= c <= '\U{1f}')
  }

  /** Which of the two whitespace sets a trim removes. */
  datatype Blanks = StrBlanks | IntBlanks

  predicate IsBlank(b: Blanks, c: char) {
    match b
    case StrBlanks => IsSpace(c)
    case IntBlanks => IsIntSpace(c)
  }

  /** Leading whitespace removed (str.lstrip() for StrBlanks). */
  function TrimStart(s: string, b: Blanks): (r: string)
    ensures |r| <= |s| && r == s[|s| - |r|..]
    ensures forall i :: 0 <= i < |s| - |r| ==> IsBlank(b, s[i])
    ensures r != [] ==> !IsBlank(b, r[0])
  {
    if s != [] && IsBlank(b, s[0]) then TrimStart(s[1..], b) else s
  }

  /** Trailing whitespace removed (str.rstrip() for StrBlanks). */
  function TrimEnd(s: string, b: Blanks): (r: string)
    ensures |r| <= |s| && r == s[..|r|]
    ensures forall i :: |r| <= i < |s| ==> IsBlank(b, s[i])
    ensures r != [] ==> !IsBlank(b, r[|r| - 1])
  {
    if s != [] && IsBlank(b, s[|s| - 1]) then TrimEnd(s[..|s| - 1], b) else s
  }

  /** Whitespace of set b removed at both ends: a contiguous slice of s,
      everything cut off is whitespace, and the slice neither starts nor
      ends with whitespace. */
  function Trim(s: string, b: Blanks): (r: string)
    ensures exists a: nat :: IsStrippedAt(s, r, a, b)
    ensures r != [] ==> !IsBlank(b, r[0]) && !IsBlank(b, r[|r| - 1])
  {
    var t := TrimStart(s, b);
    var r := TrimEnd(t, b);
    assert IsStrippedAt(s, r, |s| - |t|, b);
    r
  }

  /** r is the slice of s starting at a, and only whitespace surrounds it. */
  predicate IsStrippedAt(s: string, r: string, a: nat, b: Blanks) {
    a + |r| <= |s| && r == s[a..a + |r|]
    && (forall i :: 0 <= i < a ==> IsBlank(b, s[i]))
    && (forall i :: a + |r| <= i < |s| ==> IsBlank(b, s[i]))
  }

  /** str.strip(). */
  function Strip(s: string): string {
    Trim(s, StrBlanks)
  }

  lemma {:induction false} TrimStartOfClean(s: string, b: Blanks)
    requires s == [] || !IsBlank(b, s[0])
    ensures TrimStart(s, b) == s
  {
  }

  lemma {:induction false} TrimEndOfClean(s: string, b: Blanks)
    requires s == [] || !IsBlank(b, s[|s| - 1])
    ensures TrimEnd(s, b) == s
  {
  }

  /** Stripping twice is stripping once. */
  lemma StripIdempotent(s: string)
    ensures Strip(Strip(s)) == Strip(s)
  {
    var r := Strip(s);
    TrimStartOfClean(r, StrBlanks);
    TrimEndOfClean(r, StrBlanks);
  }

  /** str.lower() on one character; only the ASCII letters are mapped. */
  function LowerChar(c: char): char {
    if 'A' <= c <= 'Z' then (c as int + 32) as char else c
  }

  /** Lower-casing leaves no upper-case ASCII letter and neither makes nor
      unmakes whitespace. */
  lemma LowerCharFacts(c: char)
    ensures !('A' <= LowerChar(c) <= 'Z')
    ensures IsSpace(LowerChar(c)) <==> IsSpace(c)
  {
  }

  /** str.lower(), ASCII letters only. */
  function Lower(s: string): (r: string)
    ensures |r| == |s|
    ensures forall i :: 0 <= i < |s| ==> r[i] == LowerChar(s[i])
  {
    if s == [] then [] else [LowerChar(s[0])] + Lower(s[1..])
  }

  lemma LowerIdempotent(s: string)
    ensures Lower(Lower(s)) == Lower(s)
  {
    var once := Lower(s);
    var twice := Lower(once);
    assert forall i :: 0 <= i < |s| ==> twice[i] == once[i];
  }

  predicate IsDigit(c: char) {
    '0' <= c <= '9'
  }

  function DigitValue(c: char): (d: nat)
    requires IsDigit(c)
    ensures d < 10
  {
    c as int - '0' as int
  }

  function DigitChar(d: nat): (c: char)
    requires d < 10
    ensures IsDigit(c) && DigitValue(c) == d
  {
    ('0' as int + d) as char
  }

  /** str.isdigit() for ASCII digits: non-empty and every character a digit. */
  predicate IsDecimal(s: string) {
    |s| > 0 && forall i :: 0 <= i < |s| ==> IsDigit(s[i])
  }

  /** The value of a string of decimal digits, most significant first. */
  function DecimalValue(s: string): nat
    requires forall i :: 0 <= i < |s| ==> IsDigit(s[i])
  {
    if s == [] then 0 else DecimalValue(s[..|s| - 1]) * 10 + DigitValue(s[|s| - 1])
  }

  /** The decimal rendering of a natural number, as str(n) gives it. */
  function NatToString(n: nat): (r: string)
    ensures IsDecimal(r)
    // no leading zero: the only rendering that starts with '0' is "0"
    ensures |r| == 1 || r[0] != '0'
    ensures |r| == 1 <==> n < 10
  {
    if n < 10 then [DigitChar(n)] else NatToString(n / 10) + [DigitChar(n % 10)]
  }

  /** str(i) for an int (f-string interpolation): a minus sign exactly for
      negatives, then the decimal digits of |i| without a leading zero. */
  function IntToString(i: int): (r: string)
    ensures r != [] && !IsSpace(r[0]) && !IsSpace(r[|r| - 1])
    ensures r[0] == '-' <==> i < 0
    ensures var digits := if i < 0 then r[1..] else r;
      && IsDecimal(digits)
      && (|digits| == 1 || digits[0] != '0')
      && DecimalValue(digits) == if i < 0 then -i else i
  {
    var n: nat := if i < 0 then -i else i;
    NatToStringValue(n);
    if i < 0 then "-" + NatToString(n) else NatToString(n)
  }

  lemma {:induction false} NatToStringValue(n: nat)
    ensures DecimalValue(NatToString(n)) == n
  {
    if n >= 10 {
      var s := NatToString(n);
      assert s[..|s| - 1] == NatToString(n / 10);
      NatToStringValue(n / 10);
    }
  }

  /** The digits of a literal of the form digit ('_'? digit)*, which is what
      int() accepts after its optional sign. */
  predicate IsDigitGroup(s: string) {
    |s| > 0 && IsDigit(s[0]) && IsDigit(s[|s| - 1])
    && (forall i :: 0 <= i < |s| ==> IsDigit(s[i]) || s[i] == '_')
    && (forall i, j :: 0 <= i < |s| && j == i + 1 < |s| ==> s[i] != '_' || s[j] != '_')
  }

  /** The digits of a digit group with its separating underscores dropped. */
  function DropUnderscores(s: string): (r: string)
    requires forall i :: 0 <= i < |s| ==> IsDigit(s[i]) || s[i] == '_'
    ensures forall i :: 0 <= i < |r| ==> IsDigit(r[i])
    ensures IsDecimal(s) ==> r == s
  {
    if s == [] then []
    else if s[0] == '_' then DropUnderscores(s[1..])
    else [s[0]] + DropUnderscores(s[1..])
  }

  /** Python's int(s) in base 10: surrounding whitespace ignored (the int()
      set, see IsIntSpace), then the literal. None stands for the ValueError
      int() raises. */
  function ParseInt(s: string): Option<int> {
    ParseLiteral(Trim(s, IntBlanks))
  }

  /** The literal int() accepts once the whitespace is gone: an optional
      sign, then digits with single underscores between them. */
  function ParseLiteral(t: string): Option<int> {
    if t == [] then None
    else
      var negative := t[0] == '-';
      var body := if t[0] == '-' || t[0] == '+' then t[1..] else t;
      if IsDigitGroup(body) then
        var magnitude: int := DecimalValue(DropUnderscores(body));
        Some(if negative then -magnitude else magnitude)
      else None
  }

  /** int() on a string for which str.isdigit() holds is its decimal value. */
  lemma ParseIntOfDecimal(s: string)
    requires IsDecimal(s)
    ensures ParseInt(s) == Some(DecimalValue(s))
  {
    TrimStartOfClean(s, IntBlanks);
    TrimEndOfClean(s, IntBlanks);
    assert Trim(s, IntBlanks) == s;
    LiteralOfDecimal(s);
  }

  lemma LiteralOfDecimal(s: string)
    requires IsDecimal(s)
    ensures ParseLiteral(s) == Some(DecimalValue(s))
  {
    assert s[0] != '-' && s[0] != '+';
    assert IsDigitGroup(s);
    assert DropUnderscores(s) == s;
  }

  /** int() raises on a string without a single digit. */
  lemma ParseIntNeedsDigit(s: string)
    requires forall i :: 0 <= i < |s| ==> !IsDigit(s[i])
    ensures ParseInt(s) == None
  {
    var t := Trim(s, IntBlanks);
    var a: nat :| IsStrippedAt(s, t, a, IntBlanks);
    assert forall i :: 0 <= i < |t| ==> t[i] == s[a + i];
    LiteralNeedsDigit(t);
  }

  lemma LiteralNeedsDigit(t: string)
    requires forall i :: 0 <= i < |t| ==> !IsDigit(t[i])
    ensures ParseLiteral(t) == None
  {
    if |t| > 1 {
      // the sign, when there is one, is followed by a non-digit
      assert !IsDigit(t[1]);
    }
  }

  /** int() raises on a string that starts with one of the separators
      U+001C..U+001F, although str.strip() would have removed it. */
  lemma ParseIntKeepsSeparator(s: string)
    requires s != [] && '\U{1c}' <= s[0] <= '\U{1f}'
    ensures IsSpace(s[0]) && Strip(s) != s
    ensures ParseInt(s) == None
  {
    TrimStartOfClean(s, IntBlanks);
    var t := TrimEnd(s, IntBlanks);
    assert t != [] && t[0] == s[0];
  }

  /** int(str(i)) == i: the rendering of an int parses back to it. */
  lemma IntToStringRoundTrip(i: int)
    ensures ParseInt(IntToString(i)) == Some(i)
  {
    var s := IntToString(i);
    TrimStartOfClean(s, IntBlanks);
    TrimEndOfClean(s, IntBlanks);
    assert Trim(s, IntBlanks) == s;
    RenderingLiteral(i);
  }

  /** The rendering of an int is an int() literal of that int. */
  lemma RenderingLiteral(i: int)
    ensures ParseLiteral(IntToString(i)) == Some(i)
  {
    var n: nat := if i < 0 then -i else i;
    NatToStringValue(n);
    LiteralOfDecimal(NatToString(n));
    if i < 0 {
      var s := "-" + NatToString(n);
      assert s[1..] == NatToString(n);
    }
  }

  /** The needle occurs in s starting at position i. */
  predicate OccursAt(s: string, needle: string, i: nat) {
    i + |needle| <= |s| && s[i..i + |needle|] == needle
  }

  /** Python's `needle in s` for strings. */
  function Contains(s: string, needle: string): (r: bool)
    ensures r <==> exists i: nat :: OccursAt(s, needle, i)
  {
    if |needle| > |s| then false
    else if s[..|needle|] == needle then (assert OccursAt(s, needle, 0); true)
    else
      var r := Contains(s[1..], needle);
      if r then
        var j: nat :| OccursAt(s[1..], needle, j);
        assert OccursAt(s, needle, j + 1);
        true
      else
        assert forall i: nat :: OccursAt(s, needle, i) ==> i > 0 && OccursAt(s[1..], needle, i - 1);
        false
  }

  /** str.startswith(prefix). */
  predicate StartsWith(s: string, prefix: string) {
    |prefix| <= |s| && s[..|prefix|] == prefix
  }

  /** The longest prefix of s free of ' ': the field that str.split(' ')
      yields first for s. */
  function UpToSpace(s: string): (r: string)
    ensures |r| <= |s| && r == s[..|r|]
    ensures forall i :: 0 <= i < |r| ==> r[i] != ' '
    ensures |r| < |s| ==> s[|r|] == ' '
  {
    if s == [] || s[0] == ' ' then [] else [s[0]] + UpToSpace(s[1..])
  }

  /** A string without a space is its own first field. */
  lemma {:induction false} UpToSpaceOfSpaceless(s: string)
    requires forall i :: 0 <= i < |s| ==> s[i] != ' '
    ensures UpToSpace(s) == s
  {
    if s != [] {
      assert forall i :: 0 <= i < |s| - 1 ==> s[1..][i] == s[i + 1];
      UpToSpaceOfSpaceless(s[1..]);
    }
  }
}
