/** The pieces of Python's str and int behaviour that both downloaders lean on:
    str(n), int(s), the ":02" format spec, str.strip(), str.startswith()
    and the extension half of posixpath.splitext. */
module PyStr {

  datatype Option<+T> = None | Some(value: T)

  /** Python truthiness of a value that may be None or a string. */
  predicate Truthy(s: Option<string>) {
    s.Some? && s.value != ""
  }

  predicate IsDigit(c: char) {
    '0' <= c <= '9'
  }

  predicate AllDigits(s: string) {
    forall i :: 0 <= i < |s| ==> IsDigit(s[i])
  }

  function DigitChar(d: nat): (c: char)
    requires d < 10
    ensures IsDigit(c) && c as int - '0' as int == d
  {
    ('0' as int + d) as char
  }

  /** str(n) for n >= 0: decimal digits, no leading zero. */
  function NatToString(n: nat): (r: string)
    ensures r != [] && AllDigits(r)
    ensures |r| > 1 ==> r[0] != '0'
  {
    if n < 10 then [DigitChar(n)] else NatToString(n / 10) + [DigitChar(n % 10)]
  }

  /** str(n) for any int. */
  function IntToString(n: int): (r: string)
    ensures r != []
  {
    if n < 0 then "-" + NatToString(-n) else NatToString(n)
  }

  /** The value of a string of decimal digits (leading zeros allowed). */
  function DigitsValue(s: string): nat
    requires AllDigits(s)
  {
    if s == [] then 0 else DigitsValue(s[..|s| - 1]) * 10 + (s[|s| - 1] as int - '0' as int)
  }

  /** The characters str.isspace() accepts. */
  predicate IsSpace(c: char) {
    var n := c as int;
    9 <= n <= 13 || 28 <= n <= 32 || n == 0x85 || n == 0xA0 || n == 0x1680
    || 0x2000 <= n <= 0x200A || n == 0x2028 || n == 0x2029 || n == 0x202F
    || n == 0x205F || n == 0x3000
  }

  /** The whitespace int() skips around a number: an ASCII character only
      when C's isspace() accepts it, any other character when str.isspace()
      does. The separators U+001C..U+001F are whitespace to str.strip()
      but not to int(). */
  predicate IsIntSpace(c: char) {
    IsSpace(c) && !(28 <= c as int <= 31)
  }

  /** Which whitespace a strip drops: str.strip()'s or int()'s. */
  datatype Blanks = StrBlanks | IntBlanks

  predicate Blank(blanks: Blanks, c: char) {
    match blanks
    case StrBlanks => IsSpace(c)
    case IntBlanks => IsIntSpace(c)
  }

  /** The longest suffix of s that does not start with a blank: s.lstrip()
      for StrBlanks. */
  function StripStart(s: string, blanks: Blanks): (r: string)
    ensures |r| <= |s| && r == s[|s| - |r|..]
    ensures forall i :: 0 <= i < |s| - |r| ==> Blank(blanks, s[i])
    ensures r == [] || !Blank(blanks, r[0])
  {
    if s != [] && Blank(blanks, s[0]) then StripStart(s[1..], blanks) else s
  }

  /** The longest prefix of s that does not end with a blank: s.rstrip()
      for StrBlanks. */
  function StripEnd(s: string, blanks: Blanks): (r: string)
    ensures |r| <= |s| && r == s[..|r|]
    ensures forall i :: |r| <= i < |s| ==> Blank(blanks, s[i])
    ensures r == [] || !Blank(blanks, r[|r| - 1])
  {
    if s != [] && Blank(blanks, s[|s| - 1]) then StripEnd(s[..|s| - 1], blanks) else s
  }

  /** s.strip() */
  function Strip(s: string): string {
    StripEnd(StripStart(s, StrBlanks), StrBlanks)
  }

  /** The whitespace int() drops before reading a number. */
  function IntStrip(s: string): string {
    StripEnd(StripStart(s, IntBlanks), IntBlanks)
  }

  /** int(s) on a string: surrounding whitespace, an optional sign, then
      at least one ASCII digit; anything else is a ValueError (None). */
  function ParseInt(s: string): Option<int> {
    var t := IntStrip(s);
    if t != [] && (t[0] == '-' || t[0] == '+') then
      if |t| > 1 && AllDigits(t[1..]) then
        var v: int := DigitsValue(t[1..]);
        Some(if t[0] == '-' then -v else v)
      else None
    else if t != [] && AllDigits(t) then Some(DigitsValue(t))
    else None
  }

  /** f"{n:02}": zero-padded to width 2; the sign of a negative number
      already fills the width. */
  function Pad2(n: int): string {
    if 0 <= n < 10 then ['0', DigitChar(n)] else IntToString(n)
  }

  predicate StartsWith(s: string, prefix: string) {
    |prefix| <= |s| && s[..|prefix|] == prefix
  }

  /** s.count(c) for a single character */
  function Count(s: string, c: char): nat {
    if s == [] then 0 else (if s[0] == c then 1 else 0) + Count(s[1..], c)
  }

  /** s[:n] for n >= 0 */
  function Take(s: string, n: nat): (r: string)
    ensures |r| == if |s| < n then |s| else n
    ensures StartsWith(s, r)
  {
    if |s| < n then s else s[..n]
  }

  /** s.rfind(c) */
  function RFind(s: string, c: char): (r: int)
    ensures -1 <= r < |s|
    ensures r >= 0 ==> s[r] == c
    ensures forall i :: r < i < |s| ==> s[i] != c
  {
    if s == [] then -1
    else if s[|s| - 1] == c then |s| - 1
    else RFind(s[..|s| - 1], c)
  }

  predicate AllDots(s: string, lo: int, hi: int)
    requires 0 <= lo && hi <= |s|
  {
    forall k :: lo <= k < hi ==> s[k] == '.'
  }

  /** posixpath.splitext(p): the extension starts at the last '.' of the
      final '/'-separated component, unless only dots precede it there. */
  function SplitExt(p: string): (r: (string, string))
    ensures r.0 + r.1 == p
    ensures r.1 == [] || (r.1[0] == '.' && '/' !in r.1 && '.' !in r.1[1..])
  {
    var sep := RFind(p, '/');
    var dot := RFind(p, '.');
    if dot > sep && !AllDots(p, sep + 1, dot) then (p[..dot], p[dot..]) else (p, "")
  }

  /** The converse: a final component that has a character other than '.'
      before its last dot splits at that dot, so "…/poster.png" gives
      ".png". */
  lemma SplitExtOfSuffix(d: string, s: string, e: string)
    requires d == [] || d[|d| - 1] == '/'
    requires '/' !in s && '/' !in e && '.' !in e
    requires exists i :: 0 <= i < |s| && s[i] != '.'
    ensures SplitExt(d + s + "." + e) == (d + s, "." + e)
  {
    var p := d + s + "." + e;
    var dot := |d| + |s|;
    assert p[dot] == '.';
    assert forall k :: dot < k < |p| ==> p[k] == e[k - dot - 1];
    assert RFind(p, '.') == dot;
    assert forall k :: |d| <= k < dot ==> p[k] == s[k - |d|];
    if d == [] {
      assert RFind(p, '/') == -1;
    } else {
      assert p[|d| - 1] == '/';
      assert RFind(p, '/') == |d| - 1;
    }
    var i :| 0 <= i < |s| && s[i] != '.';
    assert p[|d| + i] != '.';
    assert p[..dot] == d + s;
    assert p[dot..] == "." + e;
  }

  /** The other half: when the dots of the final component all lead it, as
      in ".png" or "..bashrc", there is no extension and the root is the
      whole path. */
  lemma SplitExtLeadingDots(d: string, dots: string, s: string)
    requires d == [] || d[|d| - 1] == '/'
    requires forall i :: 0 <= i < |dots| ==> dots[i] == '.'
    requires '/' !in s && '.' !in s
    ensures SplitExt(d + dots + s) == (d + dots + s, "")
  {
    var p := d + dots + s;
    var sep := |d| - 1;
    assert forall k :: |d| <= k < |d| + |dots| ==> p[k] == dots[k - |d|];
    assert forall k :: |d| + |dots| <= k < |p| ==> p[k] == s[k - |d| - |dots|];
    if d == [] {
      assert RFind(p, '/') == -1;
    } else {
      assert p[sep] == '/';
      assert RFind(p, '/') == sep;
    }
    var dot := RFind(p, '.');
    if dot > sep {
      assert AllDots(p, sep + 1, dot);
    }
  }

  // ---------------------------------------------------------------------
  // Round trips between str(), int() and the :02 format.

  lemma {:induction false} DigitsValueOfNatToString(n: nat)
    ensures DigitsValue(NatToString(n)) == n
  {
    var s := NatToString(n);
    if n >= 10 {
      var q := NatToString(n / 10);
      assert s == q + [DigitChar(n % 10)];
      assert s[..|s| - 1] == q;
      DigitsValueOfNatToString(n / 10);
    }
  }

  lemma NoSpaceInDigitsOrSign(s: string)
    requires s != [] && (IsDigit(s[0]) || s[0] == '-') && IsDigit(s[|s| - 1])
    ensures IntStrip(s) == s
  {
    assert !Blank(IntBlanks, s[0]) && !Blank(IntBlanks, s[|s| - 1]);
    assert StripStart(s, IntBlanks) == s;
    assert StripEnd(s, IntBlanks) == s;
  }

  /** int() rejects a string whose first character after the whitespace
      it skips is neither a sign nor a digit. */
  lemma ParseIntRejects(s: string)
    requires IntStrip(s) != []
    requires var h := IntStrip(s)[0]; !IsDigit(h) && h != '-' && h != '+'
    ensures ParseInt(s) == None
  {
  }

  /** int() skips less than str.strip(): a number behind an information
      separator (U+001C to U+001F) is a ValueError, though strip() would
      drop the separator. */
  lemma IntSkipsLessThanStrip(s: string)
    requires |s| >= 2 && 28 <= s[0] as int <= 31 && AllDigits(s[1..])
    ensures ParseInt(s) == None
    ensures Strip(s) == s[1..]
  {
    SeparatorStripped(s);
    assert !IsDigit(s[0]) && s[0] != '-' && s[0] != '+';
    SeparatorKept(s);
    ParseIntRejects(s);
  }

  /** int() keeps the separator and the digits. */
  lemma SeparatorKept(s: string)
    requires |s| >= 2 && 28 <= s[0] as int <= 31 && AllDigits(s[1..])
    ensures IntStrip(s) == s
  {
    assert !IsIntSpace(s[0]);
    assert IsDigit(s[1..][|s| - 2]);
  }

  /** strip() drops the separator. */
  lemma SeparatorStripped(s: string)
    requires |s| >= 2 && 28 <= s[0] as int <= 31 && AllDigits(s[1..])
    ensures Strip(s) == s[1..]
  {
    var t := s[1..];
    assert Blank(StrBlanks, s[0]);
    assert IsDigit(t[0]) && IsDigit(t[|t| - 1]);
    assert !Blank(StrBlanks, t[0]) && !Blank(StrBlanks, t[|t| - 1]);
    assert StripStart(t, StrBlanks) == t;
    assert StripStart(s, StrBlanks) == t;
    assert StripEnd(t, StrBlanks) == t;
  }

  /** int(str(n)) == n */
  lemma ParseIntOfIntToString(n: int)
    ensures ParseInt(IntToString(n)) == Some(n)
  {
    var s := IntToString(n);
    if n < 0 {
      var d := NatToString(-n);
      assert s[1..] == d && s[0] == '-';
      assert IsDigit(s[|s| - 1]) by { assert s[|s| - 1] == d[|d| - 1]; }
      NoSpaceInDigitsOrSign(s);
      DigitsValueOfNatToString(-n);
    } else {
      ParseIntOfDigits(s);
      DigitsValueOfNatToString(n);
    }
  }

  /** str() is injective on integers. */
  lemma IntToStringInjective(a: int, b: int)
    requires IntToString(a) == IntToString(b)
    ensures a == b
  {
    ParseIntOfIntToString(a);
    ParseIntOfIntToString(b);
  }

  /** str(n) == "0" exactly when n == 0. */
  lemma IntToStringZero(n: int)
    ensures IntToString(n) == "0" <==> n == 0
  {
    if IntToString(n) == "0" {
      IntToStringInjective(n, 0);
    }
  }

  lemma ParseIntOfDigits(s: string)
    requires s != [] && AllDigits(s)
    ensures ParseInt(s) == Some(DigitsValue(s))
  {
    NoSpaceInDigitsOrSign(s);
  }

  /** The :02 format reads back as the number it formats. */
  lemma Pad2RoundTrip(n: int)
    ensures ParseInt(Pad2(n)) == Some(n)
  {
    if 0 <= n < 10 {
      var s := Pad2(n);
      assert s[..1] == "0" && s[..1][..0] == [];
      assert DigitsValue(s[..1]) == 0;
      assert s[1] == DigitChar(n);
      assert DigitsValue(s) == DigitsValue(s[..1]) * 10 + (s[1] as int - '0' as int);
      ParseIntOfDigits(s);
    } else {
      ParseIntOfIntToString(n);
    }
  }

  /** The :02 format is at least two characters wide and holds only digits
      after an optional leading minus sign. */
  lemma Pad2Shape(n: int)
    ensures |Pad2(n)| >= 2
    ensures Pad2(n)[0] == '-' || IsDigit(Pad2(n)[0])
    ensures AllDigits(Pad2(n)[1..])
    ensures |Pad2(n)| == if 0 <= n < 10 then 2 else |IntToString(n)|
  {
    if n < 0 {
      assert Pad2(n)[1..] == NatToString(-n);
    } else if n >= 10 {
      assert |NatToString(n / 10)| >= 1;
    }
  }

  /** Distinct numbers give distinct :02 strings. */
  lemma Pad2Injective(a: int, b: int)
    requires Pad2(a) == Pad2(b)
    ensures a == b
  {
    Pad2RoundTrip(a);
    Pad2RoundTrip(b);
  }

  /** A string strips to "" exactly when every character is whitespace. */
  lemma StripEmptyIff(s: string)
    ensures Strip(s) == "" <==> forall i :: 0 <= i < |s| ==> IsSpace(s[i])
  {
    var t := StripStart(s, StrBlanks);
    if Strip(s) == "" {
      // a non-empty t would start with a non-space that StripEnd keeps
      assert t == [];
    }
  }
}
