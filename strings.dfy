/** The few JavaScript string and number built-ins the components rely on:
    `String.prototype.trim`, `split(',')`, `Array.prototype.join`, the decimal
    rendering of an integer and `parseInt` without a radix. */
module Strings {
  import opened Wrappers

  /** The characters `trim` and `parseInt` skip: ECMAScript WhiteSpace and
      LineTerminator (tab, VT, FF, space, NBSP, ZWNBSP, the Zs category, LF,
      CR, LS, PS). */
  predicate IsSpace(c: char) {
    || c == '\t' || c == '\n' || c == '\U{B}' || c == '\U{C}' || c == '\r'
    || c == ' ' || c == '\U{A0}' || c == '\U{1680}'
    || ('\U{2000}' <= c <= '\U{200A}')
    || c == '\U{2028}' || c == '\U{2029}' || c == '\U{202F}' || c == '\U{205F}'
    || c == '\U{3000}' || c == '\U{FEFF}'
  }

  /** `trimStart`: drops the leading white space, and only that. */
  function TrimStart(s: string): (r: string)
    ensures |r| <= |s| && r == s[|s| - |r|..]
    ensures r == [] || !IsSpace(r[0])
    ensures forall i :: 0 <= i < |s| - |r| ==> IsSpace(s[i])
  {
    if s != [] && IsSpace(s[0]) then TrimStart(s[1..]) else s
  }

  /** `trimEnd`: drops the trailing white space, and only that. */
  function TrimEnd(s: string): (r: string)
    ensures |r| <= |s| && r == s[..|r|]
    ensures r == [] || !IsSpace(r[|r| - 1])
    ensures forall i :: |r| <= i < |s| ==> IsSpace(s[i])
  {
    if s != [] && IsSpace(s[|s| - 1]) then TrimEnd(s[..|s| - 1]) else s
  }

  /** `trim`: a contiguous piece of `s` with white space at neither end. */
  function Trim(s: string): (r: string)
    ensures r == [] || (!IsSpace(r[0]) && !IsSpace(r[|r| - 1]))
    ensures |r| <= |s| - TrimOffset(s) && r == s[TrimOffset(s)..TrimOffset(s) + |r|]
  {
    TrimEnd(TrimStart(s))
  }

  /** How many leading characters `trim` drops. */
  function TrimOffset(s: string): nat {
    |s| - |TrimStart(s)|
  }

  /** `!s.trim()`, the guard every form uses to reject a name: the string is
      white space throughout, which is the same as an empty trim
      (BlankIffTrimEmpty). */
  predicate IsBlank(s: string) {
    forall i :: 0 <= i < |s| ==> IsSpace(s[i])
  }

  /** Blank means exactly that `trim` leaves nothing. */
  lemma BlankIffTrimEmpty(s: string)
    ensures IsBlank(s) <==> Trim(s) == ""
  {
    var t := TrimStart(s);
    if Trim(s) == "" {
      assert TrimEnd(t) == [];
      assert t == [];
    }
  }

  lemma TrimIsContained(s: string)
    ensures forall c :: c in Trim(s) ==> c in s
  {
    var r := Trim(s);
    var lo := |s| - |TrimStart(s)|;
    forall c | c in r ensures c in s {
      var k :| 0 <= k < |r| && r[k] == c;
      assert s[lo + k] == c;
    }
  }

  /** A string without white space at either end is its own trim. */
  lemma {:induction false} TrimOfTrimmed(s: string)
    requires s == [] || (!IsSpace(s[0]) && !IsSpace(s[|s| - 1]))
    ensures Trim(s) == s
  {
  }

  /** A leading space never survives `trim`. */
  lemma SpaceThenTrim(x: string)
    ensures Trim(" " + x) == Trim(x)
  {
    assert (" " + x)[1..] == x;
  }

  lemma TrimIdempotent(s: string)
    ensures Trim(Trim(s)) == Trim(s)
  {
    TrimOfTrimmed(Trim(s));
  }

  // ---------------------------------------------------------------------
  // split(',') and join(sep)

  /** `s.split(',')`: the pieces between commas, in order; there is always at
      least one piece (`"".split(',')` is `[""]`) and no piece holds a comma. */
  function Split(s: string): (r: seq<string>)
    ensures |r| >= 1
    ensures forall i :: 0 <= i < |r| ==> ',' !in r[i]
    ensures |r| - 1 == CommaCount(s)
  {
    if s == [] then [""]
    else
      var rest := Split(s[1..]);
      if s[0] == ',' then [""] + rest
      else [[s[0]] + rest[0]] + rest[1..]
  }

  function CommaCount(s: string): nat {
    if s == [] then 0 else (if s[0] == ',' then 1 else 0) + CommaCount(s[1..])
  }

  lemma {:induction false} SplitNoComma(a: string)
    requires ',' !in a
    ensures Split(a) == [a]
  {
    if a != [] {
      SplitNoComma(a[1..]);
      assert [a[0]] + a[1..] == a;
    }
  }

  lemma {:induction false} SplitAfterComma(a: string, b: string)
    requires ',' !in a
    ensures Split(a + "," + b) == [a] + Split(b)
  {
    if a == [] {
      assert a + "," + b == [','] + b;
      assert ([','] + b)[1..] == b;
    } else {
      var s := a + "," + b;
      assert s[0] == a[0] && s[1..] == a[1..] + "," + b;
      SplitAfterComma(a[1..], b);
      assert [a[0]] + a[1..] == a;
    }
  }

  /** `xs.join(sep)`. */
  function Join(xs: seq<string>, sep: string): (r: string)
    ensures xs == [] ==> r == ""
    ensures |xs| == 1 ==> r == xs[0]
  {
    if |xs| == 0 then ""
    else if |xs| == 1 then xs[0]
    else xs[0] + sep + Join(xs[1..], sep)
  }

  /** Each string prefixed by one space. */
  function SpacePrefixed(xs: seq<string>): (r: seq<string>)
    ensures |r| == |xs|
    ensures forall i :: 0 <= i < |xs| ==> r[i] == " " + xs[i]
  {
    if xs == [] then [] else [" " + xs[0]] + SpacePrefixed(xs[1..])
  }

  /** Splitting a `", "`-join of comma-free pieces on `,` gives the first
      piece and then every later piece with the space the separator left. */
  lemma {:induction false} SplitJoinCommaSpace(xs: seq<string>)
    requires xs != []
    requires forall i :: 0 <= i < |xs| ==> ',' !in xs[i]
    ensures Split(Join(xs, ", ")) == [xs[0]] + SpacePrefixed(xs[1..])
  {
    if |xs| == 1 {
      SplitNoComma(xs[0]);
    } else {
      var tail := Join(xs[1..], ", ");
      assert Join(xs, ", ") == xs[0] + "," + (" " + tail);
      SplitAfterComma(xs[0], " " + tail);
      SplitJoinCommaSpace(xs[1..]);
      var st := Split(tail);
      assert (" " + tail)[0] == ' ' && (" " + tail)[1..] == tail;
      assert Split(" " + tail) == [" " + st[0]] + st[1..];
      assert st[1..] == SpacePrefixed(xs[2..]);
      assert SpacePrefixed(xs[1..]) == [" " + xs[1]] + SpacePrefixed(xs[1..][1..]);
      assert xs[1..][1..] == xs[2..];
    }
  }

  // ---------------------------------------------------------------------
  // Integers: rendering and parseInt

  predicate IsDecimalDigit(c: char) {
    '0' <= c <= '9'
  }

  function DigitChar(d: nat): (c: char)
    requires d < 10
    ensures IsDecimalDigit(c) && DigitValue(c) == d
  {
    (48 + d) as char
  }

  /** The value of a digit of radix 10 or 16. */
  function DigitValue(c: char): nat {
    if '0' <= c <= '9' then c as nat - 48
    else if 'a' <= c <= 'f' then c as nat - 87
    else if 'A' <= c <= 'F' then c as nat - 55
    else 99
  }

  predicate IsRadixDigit(c: char, radix: nat) {
    DigitValue(c) < radix
  }

  /** The decimal rendering of a natural number, most significant digit
      first, without leading zeros. */
  function NatToString(n: nat): (r: string)
    ensures |r| >= 1
    ensures forall i :: 0 <= i < |r| ==> IsDecimalDigit(r[i])
    ensures |r| > 1 ==> r[0] != '0'
  {
    if n < 10 then [DigitChar(n)] else NatToString(n / 10) + [DigitChar(n % 10)]
  }

  /** `String(n)` for an integer `n`. */
  function IntToString(n: int): (r: string)
    ensures r != []
  {
    if n < 0 then "-" + NatToString(-n) else NatToString(n)
  }

  /** The longest prefix of `s` made of digits of the radix. */
  function DigitPrefix(s: string, radix: nat): (r: string)
    ensures |r| <= |s| && r == s[..|r|]
    ensures forall i :: 0 <= i < |r| ==> IsRadixDigit(r[i], radix)
    ensures |r| < |s| ==> !IsRadixDigit(s[|r|], radix)
  {
    if s != [] && IsRadixDigit(s[0], radix) then [s[0]] + DigitPrefix(s[1..], radix) else ""
  }

  /** The number a digit string denotes in the radix, read left to right. */
  function DigitsValue(ds: string, radix: nat): nat {
    if ds == [] then 0
    else DigitsValue(ds[..|ds| - 1], radix) * radix + DigitValue(ds[|ds| - 1])
  }

  /** The text after an optional `-` or `+`. */
  function Unsigned(t: string): string {
    if t != [] && (t[0] == '-' || t[0] == '+') then t[1..] else t
  }

  /** `0x` or `0X` at the start selects radix 16. */
  predicate HasHexPrefix(u: string) {
    |u| >= 2 && u[0] == '0' && (u[1] == 'x' || u[1] == 'X')
  }

  function RadixOf(u: string): nat {
    if HasHexPrefix(u) then 16 else 10
  }

  /** The text after the radix prefix. */
  function DigitText(u: string): string {
    if HasHexPrefix(u) then u[2..] else u
  }

  /** The value of the digits at the start of unsigned text, read in the
      radix its prefix selects; None when there is no such digit. */
  function ReadUnsigned(u: string): Option<nat> {
    var ds := DigitPrefix(DigitText(u), RadixOf(u));
    if ds == [] then None else Some(DigitsValue(ds, RadixOf(u)))
  }

  /** `parseInt(s)` with no radix: leading white space is skipped, an optional
      sign is read, `0x`/`0X` selects radix 16, and the longest run of digits
      that follows is the value; no digit at all gives NaN, written None. */
  function ParseInt(s: string): Option<int> {
    var t := TrimStart(s);
    match ReadUnsigned(Unsigned(t))
    case None => None
    case Some(m) => Some(if t != [] && t[0] == '-' then -(m as int) else m)
  }

  lemma {:induction false} DigitPrefixOfDigits(s: string)
    requires forall i :: 0 <= i < |s| ==> IsDecimalDigit(s[i])
    ensures DigitPrefix(s, 10) == s
  {
    if s != [] {
      DigitPrefixOfDigits(s[1..]);
      assert [s[0]] + s[1..] == s;
    }
  }

  lemma {:induction false} NatToStringValue(n: nat)
    ensures DigitsValue(NatToString(n), 10) == n
  {
    if n >= 10 {
      var r := NatToString(n);
      assert r[..|r| - 1] == NatToString(n / 10);
      NatToStringValue(n / 10);
    }
  }

  /** Decimal digits without a radix prefix are read as themselves. */
  lemma ReadDecimalDigits(digits: string)
    requires digits != [] && forall i :: 0 <= i < |digits| ==> IsDecimalDigit(digits[i])
    requires !HasHexPrefix(digits)
    ensures ReadUnsigned(digits) == Some(DigitsValue(digits, 10))
  {
    DigitPrefixOfDigits(digits);
  }

  lemma TrimStartOfNonSpace(t: string)
    requires t != [] && !IsSpace(t[0])
    ensures TrimStart(t) == t
  {
  }

  lemma UnsignedOfDigit(u: string)
    requires u != [] && IsDecimalDigit(u[0])
    ensures Unsigned(u) == u
  {
  }

  /** Text that starts with a decimal digit is parsed from its first
      character. */
  lemma ParseIntOfUnsigned(u: string)
    requires u != [] && IsDecimalDigit(u[0]) && ReadUnsigned(u).Some?
    ensures ParseInt(u) == Some(ReadUnsigned(u).value as int)
  {
    TrimStartOfNonSpace(u);
    UnsignedOfDigit(u);
  }

  /** The same text after a `-` is parsed negated. */
  lemma ParseIntOfNegated(u: string)
    requires ReadUnsigned(u).Some?
    ensures ParseInt("-" + u) == Some(-(ReadUnsigned(u).value as int))
  {
    var s := "-" + u;
    assert s[0] == '-' && s[1..] == u;
    TrimStartOfNonSpace(s);
  }

  /** Round trip: `parseInt(String(n)) === n` for every integer. */
  lemma ParseIntOfIntToString(n: int)
    ensures ParseInt(IntToString(n)) == Some(n)
  {
    var m: nat := if n < 0 then -n else n;
    var digits := NatToString(m);
    assert !HasHexPrefix(digits);
    ReadDecimalDigits(digits);
    NatToStringValue(m);
    if n < 0 {
      ParseIntOfNegated(digits);
    } else {
      ParseIntOfUnsigned(digits);
    }
  }
}
