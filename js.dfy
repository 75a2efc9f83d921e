/** The few JavaScript built-ins the client relies on, stated on Dafny values:
    `null`/`undefined` as `None`, strings as `seq<char>`, numbers as `real`
    with NaN as `None`. */
module Js {

  datatype Option<+T> = None | Some(value: T)

  function Abs(x: real): (r: real)
    ensures r >= 0.0 && (r == x || r == -x)
  {
    if x < 0.0 then -x else x
  }

  // ---------------------------------------------------------------------------
  // Whitespace and String.prototype.trim
  // ---------------------------------------------------------------------------

  /** The ECMAScript WhiteSpace and LineTerminator code points: the set that
      `trim`, `Number()` and `parseFloat` strip. */
  predicate IsWhitespace(c: char) {
    || c == '\t' || c == '\U{B}' || c == '\U{C}' || c == ' ' || c == '\U{A0}' || c == '\U{FEFF}'
    || c == '\n' || c == '\r' || c == '\U{2028}' || c == '\U{2029}'
    || c == '\U{1680}' || ('\U{2000}' <= c <= '\U{200A}') || c == '\U{202F}' || c == '\U{205F}'
    || c == '\U{3000}'
  }

  /** JavaScript truthiness of a string that may be missing (`null` or
      `undefined`): it is present and not empty. */
  function Truthy(s: Option<string>): (b: bool)
    ensures b ==> s.Some?
    ensures s == Some("") ==> !b
  {
    s.Some? && s.value != ""
  }

  /** A string that `trim` empties, i.e. whose trimmed form is falsy. */
  predicate IsBlank(s: string) {
    forall i :: 0 <= i < |s| ==> IsWhitespace(s[i])
  }

  /** The number of whitespace characters `s` starts with. */
  function LeadingBlanks(s: string): (n: nat)
    ensures n <= |s|
    ensures forall i :: 0 <= i < n ==> IsWhitespace(s[i])
    ensures n < |s| ==> !IsWhitespace(s[n])
  {
    if s != [] && IsWhitespace(s[0]) then 1 + LeadingBlanks(s[1..]) else 0
  }

  /** The number of whitespace characters `s` ends with. */
  function TrailingBlanks(s: string): (n: nat)
    ensures n <= |s|
    ensures forall i :: |s| - n <= i < |s| ==> IsWhitespace(s[i])
    ensures n < |s| ==> !IsWhitespace(s[|s| - 1 - n])
  {
    if s != [] && IsWhitespace(s[|s| - 1]) then 1 + TrailingBlanks(s[..|s| - 1]) else 0
  }

  /** `s.trimStart()`. */
  function TrimStart(s: string): (r: string)
    ensures r == [] <==> IsBlank(s)
    ensures r == [] || !IsWhitespace(r[0])
  {
    s[LeadingBlanks(s)..]
  }

  /** `s.trimEnd()`. */
  function TrimEnd(s: string): (r: string)
    ensures r == [] <==> IsBlank(s)
    ensures r == [] || !IsWhitespace(r[|r| - 1])
  {
    s[..|s| - TrailingBlanks(s)]
  }

  /** `s.trim()`. */
  function Trim(s: string): (r: string)
    ensures r == [] <==> IsBlank(s)
  {
    TrimEnd(TrimStart(s))
  }

  // ---------------------------------------------------------------------------
  // String.prototype.length
  // ---------------------------------------------------------------------------

  /** `s.length`: the number of UTF-16 code units, two for every code point
      above U+FFFF (a surrogate pair) and one for every other. */
  function Utf16Length(s: string): (n: nat)
    ensures |s| <= n <= 2 * |s|
  {
    if s == [] then 0
    else Utf16Length(s[..|s| - 1]) + (if s[|s| - 1] as int > 0xFFFF then 2 else 1)
  }

  /** On the Basic Multilingual Plane `length` counts characters. */
  lemma {:induction false} Utf16LengthOfBmp(s: string)
    requires forall i :: 0 <= i < |s| ==> s[i] as int <= 0xFFFF
    ensures Utf16Length(s) == |s|
  {
    if s != [] {
      Utf16LengthOfBmp(s[..|s| - 1]);
    }
  }

  /** Above the Basic Multilingual Plane `length` counts two per character. */
  lemma {:induction false} Utf16LengthOfAstral(s: string)
    requires forall i :: 0 <= i < |s| ==> s[i] as int > 0xFFFF
    ensures Utf16Length(s) == 2 * |s|
  {
    if s != [] {
      Utf16LengthOfAstral(s[..|s| - 1]);
    }
  }

  // ---------------------------------------------------------------------------
  // toLowerCase and includes
  // ---------------------------------------------------------------------------

  function LowerChar(c: char): char {
    if 'A' <= c <= 'Z' then (c as int + 32) as char else c
  }

  /** `s.toLowerCase()` on the ASCII letters. */
  function ToLowerCase(s: string): (r: string)
    ensures |r| == |s|
    ensures forall i :: 0 <= i < |s| ==> r[i] == LowerChar(s[i])
  {
    if s == [] then [] else [LowerChar(s[0])] + ToLowerCase(s[1..])
  }

  /** `s.includes(sub)`: `sub` starts at some position of `s`. */
  predicate Includes(s: string, sub: string)
    decreases |s|
  {
    (|sub| <= |s| && s[..|sub|] == sub) || (s != [] && Includes(s[1..], sub))
  }

  /** `sub` occurs in `s` starting at index `i`. */
  predicate OccursAt(s: string, sub: string, i: int) {
    0 <= i <= |s| - |sub| && s[i..i + |sub|] == sub
  }

  /** `includes` against its reference definition: an occurrence at some index. */
  lemma {:induction false} IncludesIffOccurrence(s: string, sub: string)
    ensures Includes(s, sub) <==> exists i :: OccursAt(s, sub, i)
    decreases |s|
  {
    if |sub| <= |s| && s[..|sub|] == sub {
      assert OccursAt(s, sub, 0);
    }
    if s != [] {
      IncludesIffOccurrence(s[1..], sub);
      if Includes(s[1..], sub) {
        var i :| OccursAt(s[1..], sub, i);
        assert s[1..][i..i + |sub|] == s[i + 1..i + 1 + |sub|];
        assert OccursAt(s, sub, i + 1);
      }
      if exists i :: OccursAt(s, sub, i) {
        var i :| OccursAt(s, sub, i);
        if i > 0 {
          assert s[1..][i - 1..i - 1 + |sub|] == s[i..i + |sub|];
          assert OccursAt(s[1..], sub, i - 1);
        }
      }
    } else if exists i :: OccursAt(s, sub, i) {
      var i :| OccursAt(s, sub, i);
      assert i == 0;
    }
  }

  /** Every string includes the empty string. */
  lemma IncludesEmpty(s: string)
    ensures Includes(s, "")
  {
    assert s[..0] == "";
  }

  // ---------------------------------------------------------------------------
  // Number() and Number.parseFloat on numeric literals
  // ---------------------------------------------------------------------------

  predicate IsDigit(c: char) {
    '0' <= c <= '9'
  }

  predicate AllDigits(s: string) {
    forall i :: 0 <= i < |s| ==> IsDigit(s[i])
  }

  /** The number of leading decimal digits of `s`. */
  function DigitRun(s: string): (n: nat)
    ensures n <= |s| && AllDigits(s[..n])
    ensures n < |s| ==> !IsDigit(s[n])
  {
    if s != [] && IsDigit(s[0]) then
      var n := 1 + DigitRun(s[1..]);
      assert s[..n] == [s[0]] + s[1..][..n - 1];
      n
    else 0
  }

  lemma {:induction false} DigitRunAppend(a: string, b: string)
    ensures DigitRun(a + b) == if DigitRun(a) < |a| then DigitRun(a) else |a| + DigitRun(b)
  {
    if a != [] {
      assert (a + b)[1..] == a[1..] + b;
      DigitRunAppend(a[1..], b);
    } else {
      assert a + b == b;
    }
  }

  /** The value of a run of decimal digits, most significant first. */
  function DigitsValue(s: string): nat
    requires AllDigits(s)
  {
    if s == [] then 0 else 10 * DigitsValue(s[..|s| - 1]) + (s[|s| - 1] as int - '0' as int)
  }

  function Pow10(k: nat): (r: nat)
    ensures r >= 1
  {
    if k == 0 then 1 else 10 * Pow10(k - 1)
  }

  /** The radix a `0x`, `0o` or `0b` prefix letter selects, in either case;
      0 for any other character. */
  function Radix(c: char): (r: nat)
    ensures r == 0 || r == 2 || r == 8 || r == 16
    ensures r != 0 ==> !IsDigit(c) && c != '.'
  {
    if c == 'x' || c == 'X' then 16
    else if c == 'o' || c == 'O' then 8
    else if c == 'b' || c == 'B' then 2
    else 0
  }

  /** The value of a hexadecimal digit in either case; 16 for any other
      character, which is a digit of no radix. */
  function DigitValue(c: char): (v: nat)
    ensures v <= 16
    ensures IsDigit(c) ==> v == c as int - '0' as int
  {
    if '0' <= c <= '9' then c as int - '0' as int
    else if 'a' <= c <= 'f' then c as int - 'a' as int + 10
    else if 'A' <= c <= 'F' then c as int - 'A' as int + 10
    else 16
  }

  predicate AllRadixDigits(s: string, radix: nat) {
    forall i :: 0 <= i < |s| ==> DigitValue(s[i]) < radix
  }

  /** The value of a run of digits in `radix`, most significant first. */
  function RadixValue(s: string, radix: nat): nat
    requires AllRadixDigits(s, radix)
  {
    if s == [] then 0 else radix * RadixValue(s[..|s| - 1], radix) + DigitValue(s[|s| - 1])
  }

  /** A `StrNonDecimalIntegerLiteral`: `0`, a radix letter and at least one
      digit of that radix, with no sign; its value when `t` is one. */
  function NonDecimalLiteral(t: string): (r: Option<nat>)
    ensures r.Some? ==> 3 <= |t| && t[0] == '0' && Radix(t[1]) != 0
  {
    if 3 <= |t| && t[0] == '0' && Radix(t[1]) != 0 && AllRadixDigits(t[2..], Radix(t[1])) then
      Some(RadixValue(t[2..], Radix(t[1])))
    else None
  }

  /** A decimal literal found at the start of a string: how many characters it
      spans and the number it denotes. */
  datatype Literal = Literal(length: nat, value: real)

  /** The value of `intDigits.fracDigits`. */
  function Magnitude(intDigits: string, fracDigits: string): (r: real)
    requires AllDigits(intDigits) && AllDigits(fracDigits)
    ensures r >= 0.0
  {
    DigitsValue(intDigits) as real + DigitsValue(fracDigits) as real / Pow10(|fracDigits|) as real
  }

  /** The longest prefix of `b` of the form `digits [. digits]` holding at
      least one digit, if there is one. */
  function UnsignedPrefix(b: string): (r: Option<Literal>)
    ensures r.Some? ==> 0 < r.value.length <= |b| && r.value.value >= 0.0
  {
    var whole := DigitRun(b);
    if whole < |b| && b[whole] == '.' then
      var frac := DigitRun(b[whole + 1..]);
      if whole + frac == 0 then None
      else Some(Literal(whole + 1 + frac, Magnitude(b[..whole], b[whole + 1..][..frac])))
    else if whole == 0 then None
    else Some(Literal(whole, Magnitude(b[..whole], [])))
  }

  /** The longest prefix of `s` of the form `[+|-] digits [. digits]` holding
      at least one digit, if there is one. */
  function DecimalPrefix(s: string): (r: Option<Literal>)
    ensures r.Some? ==> 0 < r.value.length <= |s|
  {
    var sign := SignLength(s);
    match UnsignedPrefix(s[sign..])
    case None => None
    case Some(lit) => Some(Literal(sign + lit.length, if sign == 1 && s[0] == '-' then -lit.value else lit.value))
  }

  /** 1 when `s` starts with a sign character, else 0. */
  function SignLength(s: string): (n: nat)
    ensures n <= |s|
    ensures n == 1 <==> s != [] && (s[0] == '+' || s[0] == '-')
  {
    if s != [] && (s[0] == '+' || s[0] == '-') then 1 else 0
  }

  /** `Number(s)`: the trimmed string is empty (0), one `0x`/`0o`/`0b`
      integer literal, or one whole decimal literal; anything else is NaN. */
  function ToNumber(s: string): (r: Option<real>)
    ensures IsBlank(s) ==> r == Some(0.0)
  {
    var t := Trim(s);
    if t == [] then Some(0.0)
    else if NonDecimalLiteral(t).Some? then Some(NonDecimalLiteral(t).value as real)
    else match DecimalPrefix(t)
      case Some(lit) => if lit.length == |t| then Some(lit.value) else None
      case None => None
  }

  /** `Number.parseFloat(s)`: the longest decimal literal after leading
      whitespace, NaN when there is none. */
  function ParseFloat(s: string): (r: Option<real>)
    ensures IsBlank(s) ==> r == None
  {
    match DecimalPrefix(TrimStart(s))
    case Some(lit) => Some(lit.value)
    case None => None
  }

  /** `w` cannot continue a decimal literal: it is empty or starts with
      neither a digit nor a point. */
  predicate EndsLiteral(w: string) {
    w == [] || (!IsDigit(w[0]) && w[0] != '.')
  }

  /** Whitespace neither is a digit nor a point, so it ends a literal. */
  lemma BlankEndsLiteral(w: string)
    requires IsBlank(w)
    ensures EndsLiteral(w)
  {
    if w != [] {
      assert IsWhitespace(w[0]);
    }
  }

  /** Appending what cannot continue a whole unsigned literal leaves the literal
      that is read unchanged. */
  lemma UnsignedPrefixStopped(b: string, w: string)
    requires UnsignedPrefix(b).Some? && UnsignedPrefix(b).value.length == |b|
    requires EndsLiteral(w)
    ensures UnsignedPrefix(b + w) == UnsignedPrefix(b)
  {
    var whole := DigitRun(b);
    DigitRunAppend(b, w);
    assert (b + w)[..whole] == b[..whole];
    if whole < |b| && b[whole] == '.' {
      var frac := DigitRun(b[whole + 1..]);
      UnsignedPrefixWithFraction(b, whole, frac);
      FractionStopped(b, w, whole);
    }
  }

  /** `UnsignedPrefix` on a string whose digit run is followed by a point. */
  lemma UnsignedPrefixWithFraction(x: string, whole: nat, frac: nat)
    requires whole == DigitRun(x) && whole < |x| && x[whole] == '.'
    requires frac == DigitRun(x[whole + 1..]) && whole + frac > 0
    ensures UnsignedPrefix(x) == Some(Literal(whole + 1 + frac, Magnitude(x[..whole], x[whole + 1..][..frac])))
  {
  }

  /** The fraction case of `UnsignedPrefixStopped`. */
  lemma FractionStopped(b: string, w: string, whole: nat)
    requires whole == DigitRun(b) && whole < |b| && b[whole] == '.'
    requires whole + DigitRun(b[whole + 1..]) > 0 && DigitRun(b[whole + 1..]) == |b| - whole - 1
    requires EndsLiteral(w)
    requires DigitRun(b + w) == whole
    ensures UnsignedPrefix(b + w) == UnsignedPrefix(b)
  {
    var x := b + w;
    var tail := b[whole + 1..];
    var frac := DigitRun(tail);
    PrefixOfAppend(b, w, whole);
    SuffixOfAppend(b, w, whole + 1);
    PrefixOfAppend(tail, w, frac);
    DigitRunAppend(tail, w);
    assert DigitRun(w) == 0;
    assert x[whole] == '.';
    UnsignedPrefixWithFraction(b, whole, frac);
    UnsignedPrefixWithFraction(x, whole, frac);
  }

  lemma PrefixOfAppend(a: string, b: string, k: nat)
    requires k <= |a|
    ensures (a + b)[..k] == a[..k]
  {
  }

  lemma SuffixOfAppend(a: string, b: string, k: nat)
    requires k <= |a|
    ensures (a + b)[k..] == a[k..] + b
  {
  }

  /** Appending what cannot continue a whole decimal literal leaves the literal
      that is read unchanged. */
  lemma DecimalPrefixStopped(t: string, w: string)
    requires DecimalPrefix(t).Some? && DecimalPrefix(t).value.length == |t|
    requires EndsLiteral(w)
    ensures DecimalPrefix(t + w) == DecimalPrefix(t)
  {
    var sign := SignLength(t);
    assert (t + w)[0] == t[0];
    assert SignLength(t + w) == sign;
    SuffixOfAppend(t, w, sign);
    UnsignedPrefixStopped(t[sign..], w);
  }

  /** Once `Number(s)` accepts a non-blank `s` as a decimal literal,
      `parseFloat(s)` reads the same number. */
  lemma ParseFloatAgreesWithNumber(s: string)
    requires !IsBlank(s) && ToNumber(s).Some? && NonDecimalLiteral(Trim(s)).None?
    ensures ParseFloat(s) == ToNumber(s)
  {
    var t := TrimStart(s);
    var r := TrimEnd(t);
    assert t == r + t[|r|..];
    BlankEndsLiteral(t[|r|..]);
    DecimalPrefixStopped(r, t[|r|..]);
  }

  /** `parseFloat` does not know the `0x`/`0o`/`0b` prefixes: it reads the
      leading `0` and stops at the radix letter, while `Number()` reads the
      whole literal. */
  lemma NonDecimalParsesAsZero(s: string)
    requires NonDecimalLiteral(Trim(s)).Some?
    ensures ToNumber(s) == Some(NonDecimalLiteral(Trim(s)).value as real)
    ensures ParseFloat(s) == Some(0.0)
  {
    var x := TrimStart(s);
    var t := TrimEnd(x);
    assert x[0] == t[0] && x[1] == t[1];
    assert SignLength(x) == 0;
    assert x[0..] == x;
    assert DigitRun(x[1..]) == 0;
    assert DigitRun(x) == 1;
    assert x[..1] == "0";
    assert DigitsValue(x[..1]) == 0 by {
      assert x[..1][..0] == [];
    }
  }
}
