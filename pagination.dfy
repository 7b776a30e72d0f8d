/** Query-string pagination (src/common/dtos/pagination.dto.ts) and the page
    arithmetic the listing services share: JavaScript `parseInt` on the raw
    numbers, `decodeURIComponent` on the search, the defaults and minimums of
    `PaginationDto`, the search filter, `skip`/`take` slicing and
    `Math.ceil(total / pageSize)`. */
module Pagination {
  import opened Optional
  import opened Text
  import opened Sorting

  // ---------------------------------------------------------------------
  // JavaScript parseInt(value) with no radix (section 19.2.5 of ECMA-262)
  // ---------------------------------------------------------------------

  function DigitValue(c: char, radix: nat): (r: Option<nat>)
    requires radix == 10 || radix == 16
    ensures r.Some? ==> r.value < radix
  {
    if '0' <= c <= '9' then Some(c as int - '0' as int)
    else if radix == 16 && 'a' <= c <= 'f' then Some(c as int - 'a' as int + 10)
    else if radix == 16 && 'A' <= c <= 'F' then Some(c as int - 'A' as int + 10)
    else None
  }

  predicate IsDigit(c: char, radix: nat)
    requires radix == 10 || radix == 16
  {
    DigitValue(c, radix).Some?
  }

  /** Drops the leading white space and line terminators. */
  function TrimStart(s: string): (r: string)
    ensures |r| <= |s| && r == s[|s| - |r|..]
    ensures r != [] ==> !IsJsSpace(r[0])
    ensures IsBlank(s[..|s| - |r|])
  {
    if s != [] && IsJsSpace(s[0]) then
      var r := TrimStart(s[1..]);
      assert s[..|s| - |r|] == [s[0]] + s[1..][..|s[1..]| - |r|];
      r
    else s
  }

  /** The length of the longest prefix of `s` made of digits of `radix`. */
  function DigitRun(s: string, radix: nat): (n: nat)
    requires radix == 10 || radix == 16
    ensures n <= |s|
    ensures forall i :: 0 <= i < n ==> IsDigit(s[i], radix)
    ensures n < |s| ==> !IsDigit(s[n], radix)
  {
    if s != [] && IsDigit(s[0], radix) then 1 + DigitRun(s[1..], radix) else 0
  }

  /** The value of a string of digits, most significant first. */
  function DigitsValue(s: string, radix: nat): nat
    requires radix == 10 || radix == 16
    requires forall i :: 0 <= i < |s| ==> IsDigit(s[i], radix)
  {
    if s == [] then 0
    else
      assert IsDigit(s[|s| - 1], radix);
      DigitsValue(s[..|s| - 1], radix) * radix + DigitValue(s[|s| - 1], radix).value
  }

  /** The longest run of digits at the start of `w`, read in `radix`. */
  function LeadingNumber(w: string, radix: nat): (r: Option<nat>)
    requires radix == 10 || radix == 16
    ensures r.None? <==> w == [] || !IsDigit(w[0], radix)
  {
    var n := DigitRun(w, radix);
    if n == 0 then None else Some(DigitsValue(w[..n], radix))
  }

  /** After the sign: a `0x`/`0X` prefix switches to base 16. */
  function ParseMagnitude(u: string): (r: Option<nat>)
    ensures r.Some? ==> u != [] && IsDigit(u[0], 10)
  {
    if |u| >= 2 && u[0] == '0' && (u[1] == 'x' || u[1] == 'X') then LeadingNumber(u[2..], 16)
    else LeadingNumber(u, 10)
  }

  function ParseSigned(t: string): (r: Option<int>)
    ensures r.Some? ==> t != [] && (IsDigit(t[0], 10) || t[0] == '-' || t[0] == '+')
    ensures r.Some? && r.value < 0 ==> t[0] == '-'
  {
    if t != [] && t[0] == '-' then
      match ParseMagnitude(t[1..])
      case None => None
      case Some(m) => Some(-(m as int))
    else if t != [] && t[0] == '+' then
      match ParseMagnitude(t[1..])
      case None => None
      case Some(m) => Some(m)
    else
      match ParseMagnitude(t)
      case None => None
      case Some(m) => Some(m)
  }

  /** The integer `parseInt(s)` reads before it becomes a Number: white
      space skipped, an optional sign, a `0x` prefix switching to base 16,
      then the longest run of digits; no digit at all is NaN (`None`). `-0`
      is read as 0. */
  function MathInt(s: string): (r: Option<int>)
    ensures IsBlank(s) ==> r.None?
  {
    ParseSigned(TrimStart(s))
  }

  // ---------------------------------------------------------------------
  // The Number value of an integer (IEEE 754 binary64, round to nearest)
  // ---------------------------------------------------------------------

  /** What `parseInt` can return: NaN, an infinity, or a finite double,
      which for `parseInt` is always a whole number. */
  datatype Number = NaN | Infinity(negative: bool) | Finite(value: int)

  /** 2^53: every integer up to this magnitude is a double. */
  const EXACT_LIMIT: int := 0x20_0000_0000_0000

  /** 2^1024 - 2^970: the largest double plus half its spacing; from here
      on an integer rounds to an infinity. */
  const OVERFLOW: int := 179769313486231580793728971405303415079934132710037826936173778980444968292764750946649017977587207096330286416692887910946555547851940402630657488671505820681908902000708383676273854845817711531764475730270069855571366959622842914819860834936475292719074168444365510704342711559699508093042880177904174497792

  /** The spacing of the doubles at magnitude `x`: 1 below 2^53, doubling
      with each binade above. */
  function Spacing(x: nat): (u: nat)
    ensures u >= 1
    ensures x < EXACT_LIMIT ==> u == 1
    ensures x >= 1 ==> u <= x
  {
    if x < EXACT_LIMIT then 1 else 2 * Spacing(x / 2)
  }

  /** `x` rounded to a multiple of its spacing, ties to an even multiple. */
  function Nearest(x: nat): (d: nat)
    ensures d % Spacing(x) == 0
    ensures 2 * (if d >= x then d - x else x - d) <= Spacing(x)
    ensures x < EXACT_LIMIT ==> d == x
    ensures x >= 1 ==> d >= 1
  {
    var u := Spacing(x);
    var q := x / u;
    var r := x % u;
    DivisionFacts(x, u);
    if 2 * r > u || (2 * r == u && q % 2 == 1) then (q + 1) * u else q * u
  }

  /** The neighbouring multiples of `u` around `x`. */
  lemma DivisionFacts(x: nat, u: nat)
    requires u >= 1
    ensures x == x / u * u + x % u && 0 <= x % u < u
    ensures x / u * u % u == 0 && (x / u + 1) * u % u == 0
    ensures (x / u + 1) * u == x / u * u + u
    ensures x >= u ==> x / u * u >= u
  {
    var q := x / u;
    MultipleOf(q, u);
    MultipleOf(q + 1, u);
    if x >= u {
      assert q >= 1;
      MultiplyAtLeastOne(q, u);
    }
  }

  lemma {:induction false} MultipleOf(q: nat, u: nat)
    requires u >= 1
    ensures q * u % u == 0
  {
    if q > 0 {
      MultipleOf(q - 1, u);
      assert q * u == (q - 1) * u + u;
      ShiftMod((q - 1) * u, u);
    }
  }

  lemma ShiftMod(a: nat, u: nat)
    requires u >= 1
    ensures (a + u) % u == a % u
  {
    var k, r := a / u, a % u;
    var k2, r2 := (a + u) / u, (a + u) % u;
    var c := k2 - k - 1;
    assert c * u == r - r2 by {
      assert a == k * u + r && a + u == k2 * u + r2;
      assert k2 * u - k * u - u == c * u;
    }
    if c >= 1 {
      MultiplyAtLeastOne(c, u);
    } else if c <= -1 {
      MultiplyAtLeastOne(-c, u);
    }
  }

  lemma MultiplyAtLeastOne(q: nat, u: nat)
    requires u >= 1
    ensures q >= 1 ==> q * u >= u
  {
  }

  /** The Number value of an integer (the last step of `parseInt`). */
  function ToNumber(m: int): (r: Number)
    ensures !r.NaN?
    ensures r.Infinity? <==> m >= OVERFLOW || m <= -OVERFLOW
    ensures r.Infinity? ==> (r.negative <==> m < 0)
    ensures -EXACT_LIMIT < m < EXACT_LIMIT ==> r == Finite(m)
    ensures r.Finite? ==> (r.value >= 1 <==> m >= 1) && (r.value < 0 <==> m < 0)
  {
    if m >= OVERFLOW then Infinity(false)
    else if m <= -OVERFLOW then Infinity(true)
    else if m < 0 then var d: int := Nearest(-m); Finite(-d)
    else Finite(Nearest(m))
  }

  /** `parseInt(s)` with no radix: NaN without digits, otherwise the
      Number value of the integer read. */
  function ParseInt(s: string): (r: Number)
    ensures IsBlank(s) ==> r.NaN?
    ensures r.NaN? <==> MathInt(s).None?
    ensures r.Finite? ==> (r.value >= 1 <==> MathInt(s).value >= 1)
    ensures MathInt(s).Some? && -EXACT_LIMIT < MathInt(s).value < EXACT_LIMIT ==> r == Finite(MathInt(s).value)
  {
    match MathInt(s)
    case None => NaN
    case Some(m) => ToNumber(m)
  }

  /** 2^53 + 1 is the first integer that is not a double: it rounds down to
      2^53, the even neighbour. */
  lemma FirstInexact()
    ensures ToNumber(EXACT_LIMIT + 1) == Finite(EXACT_LIMIT)
  {
    assert Spacing(EXACT_LIMIT / 2) == 1;
    assert Spacing(EXACT_LIMIT + 1) == 2;
  }

  lemma {:induction false} DecimalDigitsValue(n: nat)
    ensures forall i :: 0 <= i < |NatToString(n)| ==> IsDigit(NatToString(n)[i], 10)
    ensures DigitsValue(NatToString(n), 10) == n
    decreases n
  {
    var s := NatToString(n);
    if n >= 10 {
      DecimalDigitsValue(n / 10);
      var d := DigitChar(n % 10);
      assert s == NatToString(n / 10) + [d];
      assert s[..|s| - 1] == NatToString(n / 10);
    }
  }

  lemma {:induction false} DigitRunOfDigits(s: string)
    requires forall i :: 0 <= i < |s| ==> IsDigit(s[i], 10)
    ensures DigitRun(s, 10) == |s|
  {
    if s != [] {
      DigitRunOfDigits(s[1..]);
    }
  }

  /** A run of decimal digits with no "0x" prefix reads as its value. */
  lemma MagnitudeOfDigits(digits: string, m: nat)
    requires digits != [] && (digits[0] == '0' ==> |digits| == 1)
    requires forall i :: 0 <= i < |digits| ==> IsDigit(digits[i], 10)
    requires DigitsValue(digits, 10) == m
    ensures ParseMagnitude(digits) == Some(m)
  {
    DigitRunOfDigits(digits);
    assert digits[..|digits|] == digits;
  }

  lemma NoLeadingZero(m: nat)
    ensures NatToString(m)[0] == '0' ==> |NatToString(m)| == 1
  {
    if m == 0 {
      assert NatToString(m) == [DigitChar(0)];
    }
  }

  lemma TrimStartKeeps(s: string)
    requires s != [] && (s[0] == '-' || '0' <= s[0] <= '9')
    ensures TrimStart(s) == s
  {
    assert !IsJsSpace(s[0]);
  }

  /** The decimal digits of `m` read back as `m`. */
  lemma DigitsOfNat(m: nat)
    ensures ParseMagnitude(NatToString(m)) == Some(m)
  {
    DecimalDigitsValue(m);
    NoLeadingZero(m);
    MagnitudeOfDigits(NatToString(m), m);
  }

  /** A run of digits, bare or after "-", reads as its value. */
  lemma ParseDigits(digits: string, m: nat)
    requires digits != [] && '0' <= digits[0] <= '9'
    requires ParseMagnitude(digits) == Some(m)
    ensures MathInt(digits) == Some(m)
    ensures MathInt("-" + digits) == Some(-(m as int))
  {
    TrimStartKeeps(digits);
    var s := "-" + digits;
    assert s[1..] == digits;
    TrimStartKeeps(s);
  }

  lemma ParseNonNegative(m: nat)
    ensures MathInt(NatToString(m)) == Some(m)
  {
    DigitsOfNat(m);
    ParseDigits(NatToString(m), m);
  }

  lemma ParseNegative(m: nat)
    requires m > 0
    ensures MathInt("-" + NatToString(m)) == Some(-(m as int))
  {
    DigitsOfNat(m);
    ParseDigits(NatToString(m), m);
  }

  /** The integer `parseInt` reads from `String(n)` is `n`. */
  lemma MathIntReadsDecimal(n: int)
    ensures MathInt(IntToString(n)) == Some(n)
  {
    if n < 0 {
      ParseNegative(-n);
    } else {
      ParseNonNegative(n);
    }
  }

  /** `parseInt` reads back what `String(n)` writes, for every integer of
      magnitude below 2^53. */
  lemma ParseIntReadsDecimal(n: int)
    requires -EXACT_LIMIT < n < EXACT_LIMIT
    ensures ParseInt(IntToString(n)) == Finite(n)
  {
    MathIntReadsDecimal(n);
  }

  function Pow10(n: nat): nat {
    if n == 0 then 1 else 10 * Pow10(n - 1)
  }

  lemma {:induction false} Pow10Add(a: nat, b: nat)
    ensures Pow10(a + b) == Pow10(a) * Pow10(b)
  {
    if b > 0 {
      Pow10Add(a, b - 1);
      assert Pow10(a + b) == 10 * (Pow10(a) * Pow10(b - 1));
    }
  }

  lemma {:induction false} Pow10Monotone(a: nat, b: nat)
    requires a <= b
    ensures Pow10(a) <= Pow10(b)
  {
    if a < b {
      Pow10Monotone(a, b - 1);
    }
  }

  /** 10^309 is past the largest double. */
  lemma Pow10PastOverflow()
    ensures Pow10(309) >= OVERFLOW
  {
    assert Pow10(1) == 10;
    Pow10Add(1, 1);
    assert Pow10(2) == 100;
    Pow10Add(2, 2);
    assert Pow10(4) == 10000;
    Pow10Add(4, 4);
    assert Pow10(8) == 100000000;
    Pow10Add(8, 8);
    assert Pow10(16) == 10000000000000000;
    Pow10Add(16, 16);
    assert Pow10(32) == 100000000000000000000000000000000;
    Pow10Add(32, 32);
    assert Pow10(64) == 10000000000000000000000000000000000000000000000000000000000000000;
    Pow10Add(64, 64);
    assert Pow10(128) == 100000000000000000000000000000000000000000000000000000000000000000000000000000000000000000000000000000000000000000000000000000000;
    Pow10Add(128, 128);
    assert Pow10(256) == 10000000000000000000000000000000000000000000000000000000000000000000000000000000000000000000000000000000000000000000000000000000000000000000000000000000000000000000000000000000000000000000000000000000000000000000000000000000000000000000000000000000000000000;
    Pow10Add(256, 32);
    assert Pow10(288) == 1000000000000000000000000000000000000000000000000000000000000000000000000000000000000000000000000000000000000000000000000000000000000000000000000000000000000000000000000000000000000000000000000000000000000000000000000000000000000000000000000000000000000000000000000000000000000000000000000;
    Pow10Add(288, 16);
    assert Pow10(304) == 10000000000000000000000000000000000000000000000000000000000000000000000000000000000000000000000000000000000000000000000000000000000000000000000000000000000000000000000000000000000000000000000000000000000000000000000000000000000000000000000000000000000000000000000000000000000000000000000000000000000000000;
    Pow10Add(304, 4);
    assert Pow10(308) == 100000000000000000000000000000000000000000000000000000000000000000000000000000000000000000000000000000000000000000000000000000000000000000000000000000000000000000000000000000000000000000000000000000000000000000000000000000000000000000000000000000000000000000000000000000000000000000000000000000000000000000000;
    Pow10Add(308, 1);
    assert Pow10(309) == 1000000000000000000000000000000000000000000000000000000000000000000000000000000000000000000000000000000000000000000000000000000000000000000000000000000000000000000000000000000000000000000000000000000000000000000000000000000000000000000000000000000000000000000000000000000000000000000000000000000000000000000000;
  }

  /** A run of decimal digits with no leading zero is at least 10^(length - 1). */
  lemma {:induction false} DigitsValueAtLeast(s: string)
    requires s != [] && '1' <= s[0] <= '9'
    requires forall i :: 0 <= i < |s| ==> IsDigit(s[i], 10)
    ensures DigitsValue(s, 10) >= Pow10(|s| - 1)
  {
    if |s| > 1 {
      DigitsValueAtLeast(s[..|s| - 1]);
    }
  }

  /** A page of more than 309 decimal digits is past the largest double:
      `parseInt` gives `Infinity`, which `@IsInt` rejects. */
  lemma OverlongNumberRejected(digits: string)
    requires |digits| > 309 && '1' <= digits[0] <= '9'
    requires forall i :: 0 <= i < |digits| ==> IsDigit(digits[i], 10)
    ensures ParseInt(digits) == Infinity(false)
    ensures NumberField(Some(digits), DEFAULT_PAGE) == None
  {
    TrimStartKeeps(digits);
    DigitRunOfDigits(digits);
    assert digits[..|digits|] == digits;
    assert MathInt(digits) == Some(DigitsValue(digits, 10));
    DigitsValueAtLeast(digits);
    Pow10Monotone(309, |digits| - 1);
    Pow10PastOverflow();
  }

  // ---------------------------------------------------------------------
  // decodeURIComponent and encodeURIComponent (section 19.2.6 of ECMA-262)
  // ---------------------------------------------------------------------

  /** Two hexadecimal digits read as a byte. */
  function HexByte(hi: char, lo: char): (r: Option<nat>)
    ensures r.Some? ==> r.value < 256
    ensures r.Some? <==> IsDigit(hi, 16) && IsDigit(lo, 16)
  {
    if IsDigit(hi, 16) && IsDigit(lo, 16) then Some(DigitValue(hi, 16).value * 16 + DigitValue(lo, 16).value)
    else None
  }

  /** The byte escaped as "%XY" at the start of `s`, if that is what is there. */
  function LeadingByte(s: string): (r: Option<nat>)
    ensures r.Some? ==> |s| >= 3 && s[0] == '%' && r.value < 256
  {
    if |s| >= 3 && s[0] == '%' then HexByte(s[1], s[2]) else None
  }

  /** The length of the UTF-8 sequence a byte starts; 0 for a byte that
      cannot start one (a continuation byte, or 0xF8 and above). */
  function SequenceLength(b: nat): (n: nat)
    ensures n <= 4
  {
    if b < 0x80 then 1
    else if 0xC0 <= b < 0xE0 then 2
    else if 0xE0 <= b < 0xF0 then 3
    else if 0xF0 <= b < 0xF8 then 4
    else 0
  }


  /** `m` escaped continuation bytes at the start of `s`. */
  function Continuations(s: string, m: nat): (r: Option<seq<nat>>)
    ensures r.Some? ==> |r.value| == m && 3 * m <= |s|
    ensures r.Some? ==> forall i :: 0 <= i < m ==> 0x80 <= r.value[i] < 0xC0
    decreases m
  {
    if m == 0 then Some([])
    else
      match LeadingByte(s)
      case None => None
      case Some(b) =>
        if !(0x80 <= b < 0xC0) then None
        else
          match Continuations(s[3..], m - 1)
          case None => None
          case Some(bs) => Some([b] + bs)
  }

  /** The character that byte `b` followed by the continuation bytes `cs`
      encodes in UTF-8; none for an overlong form, a surrogate or a code
      point past U+10FFFF. */
  function Utf8Char(b: nat, cs: seq<nat>): (r: Option<char>)
    requires SequenceLength(b) >= 2 && |cs| == SequenceLength(b) - 1
    requires forall i :: 0 <= i < |cs| ==> 0x80 <= cs[i] < 0xC0
  {
    if SequenceLength(b) == 2 then
      assert 0xC0 <= b < 0xE0 && 0x80 <= cs[0] < 0xC0;
      var cp := (b as int - 0xC0) * 64 + (cs[0] as int - 0x80);
      if cp < 0x80 then None else Some(cp as char)
    else if SequenceLength(b) == 3 then
      assert 0xE0 <= b < 0xF0 && 0x80 <= cs[0] < 0xC0 && 0x80 <= cs[1] < 0xC0;
      var cp := (b as int - 0xE0) * 4096 + (cs[0] as int - 0x80) * 64 + (cs[1] as int - 0x80);
      if cp < 0x800 || 0xD800 <= cp < 0xE000 then None else Some(cp as char)
    else
      var cp := (b as int - 0xF0) * 262144 + (cs[0] as int - 0x80) * 4096 + (cs[1] as int - 0x80) * 64 + (cs[2] as int - 0x80);
      if cp < 0x10000 || cp > 0x10FFFF then None else Some(cp as char)
  }

  function Prepend(c: char, r: Option<string>): Option<string> {
    if r.None? then None else Some([c] + r.value)
  }

  /** `decodeURIComponent(s)`: every "%XY" escape, or run of escapes that
      forms one UTF-8 sequence, becomes its character; `None` is the
      `URIError` thrown for a "%" not followed by two hexadecimal digits or
      for escapes that are not valid UTF-8. */
  function DecodeUriComponent(s: string): (r: Option<string>)
    decreases |s|
  {
    if s == [] then Some("")
    else if s[0] != '%' then Prepend(s[0], DecodeUriComponent(s[1..]))
    else
      match LeadingByte(s)
      case None => None
      case Some(b) =>
        var n := SequenceLength(b);
        if n == 0 then None
        else if n == 1 then Prepend(b as char, DecodeUriComponent(s[3..]))
        else
          match Continuations(s[3..], n - 1)
          case None => None
          case Some(cs) =>
            match Utf8Char(b, cs)
            case None => None
            case Some(c) => Prepend(c, DecodeUriComponent(s[3 * n..]))
  }

  /** A text without "%" decodes to itself. */
  lemma {:induction false} DecodeWithoutEscapes(s: string)
    requires '%' !in s
    ensures DecodeUriComponent(s) == Some(s)
  {
    if s != [] {
      assert s[0] in s;
      assert forall c :: c in s[1..] ==> c in s;
      DecodeWithoutEscapes(s[1..]);
      assert [s[0]] + s[1..] == s;
    }
  }

  /** The characters `encodeURIComponent` writes as they are. */
  predicate Unreserved(c: char) {
    ('A' <= c <= 'Z') || ('a' <= c <= 'z') || ('0' <= c <= '9') || c in "-_.!~*'()"
  }

  function HexDigit(d: nat): (c: char)
    requires d < 16
    ensures DigitValue(c, 16) == Some(d)
  {
    if d < 10 then ('0' as int + d) as char else ('A' as int + d - 10) as char
  }

  /** "%XY" with capital hexadecimal digits. */
  function Escape(b: nat): (e: string)
    requires b < 256
    ensures |e| == 3 && LeadingByte(e) == Some(b)
  {
    ['%', HexDigit(b / 16), HexDigit(b % 16)]
  }

  function EscapeAll(bs: seq<nat>): (e: string)
    requires forall i :: 0 <= i < |bs| ==> bs[i] < 256
    ensures |e| == 3 * |bs|
  {
    if bs == [] then "" else Escape(bs[0]) + EscapeAll(bs[1..])
  }

  /** The UTF-8 encoding of a character. */
  function Utf8Bytes(c: char): (bs: seq<nat>)
    ensures 1 <= |bs| <= 4 && forall i :: 0 <= i < |bs| ==> bs[i] < 256
  {
    var cp := c as int;
    if cp < 0x80 then [cp]
    else if cp < 0x800 then [0xC0 + cp / 64, 0x80 + cp % 64]
    else if cp < 0x10000 then [0xE0 + cp / 4096, 0x80 + cp / 64 % 64, 0x80 + cp % 64]
    else [0xF0 + cp / 262144, 0x80 + cp / 4096 % 64, 0x80 + cp / 64 % 64, 0x80 + cp % 64]
  }

  function EncodeChar(c: char): string {
    if Unreserved(c) then [c] else EscapeAll(Utf8Bytes(c))
  }

  /** `encodeURIComponent(s)`. */
  function EncodeUriComponent(s: string): string
    decreases |s|
  {
    if s == [] then "" else EncodeChar(s[0]) + EncodeUriComponent(s[1..])
  }

  /** Escaped continuation bytes read back as themselves. */
  lemma {:induction false} ContinuationsOfEscapes(cs: seq<nat>, rest: string)
    requires forall i :: 0 <= i < |cs| ==> 0x80 <= cs[i] < 0xC0
    ensures Continuations(EscapeAll(cs) + rest, |cs|) == Some(cs)
    decreases |cs|
  {
    if cs != [] {
      var s := EscapeAll(cs) + rest;
      assert s == Escape(cs[0]) + (EscapeAll(cs[1..]) + rest);
      LeadingByteOfEscape(cs[0], EscapeAll(cs[1..]) + rest);
      ContinuationsOfEscapes(cs[1..], rest);
      assert [cs[0]] + cs[1..] == cs;
    }
  }

  lemma LeadingByteOfEscape(b: nat, t: string)
    requires b < 256
    ensures LeadingByte(Escape(b) + t) == Some(b)
    ensures (Escape(b) + t)[3..] == t
  {
    var s := Escape(b) + t;
    assert s[0] == '%' && s[1] == Escape(b)[1] && s[2] == Escape(b)[2];
  }

  /** The UTF-8 bytes of a character read back as that character. */
  lemma Utf8RoundTrip(c: char)
    ensures var bs := Utf8Bytes(c);
      && SequenceLength(bs[0]) == |bs|
      && forall i :: 1 <= i < |bs| ==> 0x80 <= bs[i] < 0xC0
    ensures |Utf8Bytes(c)| >= 2 ==> Utf8Char(Utf8Bytes(c)[0], Utf8Bytes(c)[1..]) == Some(c)
  {
    var cp := c as int;
    var bs := Utf8Bytes(c);
    if cp < 0x80 {
    } else if cp < 0x800 {
      assert cp == cp / 64 * 64 + cp % 64;
    } else if cp < 0x10000 {
      SplitBy64(cp / 64);
      assert cp == cp / 64 * 64 + cp % 64;
      assert cp / 64 / 64 == cp / 4096;
    } else {
      SplitBy64(cp / 64);
      SplitBy64(cp / 4096);
      assert cp == cp / 64 * 64 + cp % 64;
      assert cp / 64 / 64 == cp / 4096;
      assert cp / 4096 / 64 == cp / 262144;
    }
  }

  lemma SplitBy64(x: nat)
    ensures x == x / 64 * 64 + x % 64
  {
  }

  /** An escaped UTF-8 sequence of two bytes or more, then the rest. */
  lemma DecodeEscapedSequence(b: nat, cs: seq<nat>, c: char, rest: string)
    requires b < 256 && SequenceLength(b) >= 2 && |cs| == SequenceLength(b) - 1
    requires forall i :: 0 <= i < |cs| ==> 0x80 <= cs[i] < 0xC0
    requires Utf8Char(b, cs) == Some(c)
    ensures DecodeUriComponent(Escape(b) + EscapeAll(cs) + rest) == Prepend(c, DecodeUriComponent(rest))
  {
    var s := Escape(b) + EscapeAll(cs) + rest;
    assert s == Escape(b) + (EscapeAll(cs) + rest);
    LeadingByteOfEscape(b, EscapeAll(cs) + rest);
    ContinuationsOfEscapes(cs, rest);
    assert s[3 * SequenceLength(b)..] == rest;
  }

  /** Decoding an encoded character, then the rest. */
  lemma DecodeEncodedChar(c: char, rest: string)
    ensures DecodeUriComponent(EncodeChar(c) + rest) == Prepend(c, DecodeUriComponent(rest))
  {
    if Unreserved(c) {
      var s := EncodeChar(c) + rest;
      assert s[0] == c && s[1..] == rest;
    } else {
      var bs := Utf8Bytes(c);
      Utf8RoundTrip(c);
      assert EscapeAll(bs) == Escape(bs[0]) + EscapeAll(bs[1..]);
      if |bs| == 1 {
        LeadingByteOfEscape(bs[0], rest);
      } else {
        DecodeEscapedSequence(bs[0], bs[1..], c, rest);
      }
    }
  }

  /** `decodeURIComponent` undoes `encodeURIComponent`. */
  lemma {:induction false} DecodeEncode(s: string)
    ensures DecodeUriComponent(EncodeUriComponent(s)) == Some(s)
    decreases |s|
  {
    if s != [] {
      DecodeEncode(s[1..]);
      DecodeEncodedChar(s[0], EncodeUriComponent(s[1..]));
      assert [s[0]] + s[1..] == s;
    }
  }

  /** An escaped ASCII byte and an escaped two-byte sequence decode to their
      characters. */
  lemma DecodeAccepts()
    ensures DecodeUriComponent("%41") == Some("A")
    ensures DecodeUriComponent("%C3%B1") == Some("\U{00F1}")
  {
    assert LeadingByte("%41") == Some(0x41);
    assert "%41"[3..] == "";
    assert DecodeUriComponent("") == Some("");
    assert (0x41 as char) == 'A' && ['A'] + "" == "A";
    assert (0xF1 as char) == '\U{00F1}' && ['\U{00F1}'] + "" == "\U{00F1}";
    assert LeadingByte("%C3%B1") == Some(0xC3);
    assert LeadingByte("%B1") == Some(0xB1);
    assert Continuations("%B1", 1) == Some([0xB1]) by {
      assert "%B1"[3..] == "";
      assert Continuations("", 0) == Some([]);
      assert [0xB1] + [] == [0xB1];
    }
    assert "%C3%B1"[3..] == "%B1";
    assert "%C3%B1"[6..] == "";
    assert Utf8Char(0xC3, [0xB1]) == Some('\U{00F1}');
  }

  /** A "%" that does not start an escape, and escapes that are not UTF-8,
      throw. */
  lemma DecodeRejects()
    ensures DecodeUriComponent("50%") == None
    ensures DecodeUriComponent("%zz") == None
    ensures DecodeUriComponent("%C3") == None
  {
    assert DecodeUriComponent("%") == None;
    assert DecodeUriComponent("0%") == None;
  }

  /** Escapes that are not UTF-8 throw: an overlong form of "/" and an
      encoded surrogate. */
  lemma DecodeRejectsNonUtf8()
    ensures DecodeUriComponent("%C0%AF") == None
    ensures DecodeUriComponent("%ED%A0%80") == None
  {
    assert LeadingByte("%C0%AF") == Some(0xC0);
    assert LeadingByte("%AF") == Some(0xAF);
    assert Continuations("%AF", 1) == Some([0xAF]) by {
      assert "%AF"[3..] == "";
      assert Continuations("", 0) == Some([]);
      assert [0xAF] + [] == [0xAF];
    }
    assert "%C0%AF"[3..] == "%AF";
    assert LeadingByte("%ED%A0%80") == Some(0xED);
    assert LeadingByte("%A0%80") == Some(0xA0);
    assert LeadingByte("%80") == Some(0x80);
    assert Continuations("%80", 1) == Some([0x80]) by {
      assert "%80"[3..] == "";
      assert Continuations("", 0) == Some([]);
      assert [0x80] + [] == [0x80];
    }
    assert Continuations("%A0%80", 2) == Some([0xA0, 0x80]) by {
      assert "%A0%80"[3..] == "%80";
      assert [0xA0] + [0x80] == [0xA0, 0x80];
    }
    assert "%ED%A0%80"[3..] == "%A0%80";
  }

  // ---------------------------------------------------------------------
  // PaginationDto: defaults, transforms and minimums
  // ---------------------------------------------------------------------

  /** The query-string values as the framework's query parser hands them
      over, already percent-decoded once; absent ones are `None`. */
  datatype RawQuery = RawQuery(page: Option<string>, pageSize: Option<string>, search: Option<string>)

  /** A query that passed validation. */
  datatype Query = Query(page: int, pageSize: int, search: string)

  /** What the validation pipe makes of a query string: a query, a 400
      rejection, or the `URIError` of the `search` transform, which is not
      an HTTP exception and so answers 500. */
  datatype Validated = Accepted(query: Query) | Rejected | UriError

  const DEFAULT_PAGE: int := 1
  const DEFAULT_PAGE_SIZE: int := 10

  predicate ValidQuery(q: Query) {
    q.page >= 1 && q.pageSize >= 1
  }

  /** One numeric field: the default when absent; otherwise `parseInt`, then
      `@IsInt` (NaN and the infinities are not integers) and `@Min(1)`. */
  function NumberField(raw: Option<string>, default: int): (r: Option<int>)
    requires default >= 1
    ensures r.Some? ==> r.value >= 1
    ensures raw.None? ==> r == Some(default)
    ensures raw.Some? ==> (r.Some? <==> ParseInt(raw.value).Finite? && ParseInt(raw.value).value >= 1)
    ensures raw.Some? && r.Some? ==> r.value == ParseInt(raw.value).value
    ensures raw.Some? && MathInt(raw.value).Some? && 1 <= MathInt(raw.value).value < EXACT_LIMIT ==> r == MathInt(raw.value)
  {
    match raw
    case None => Some(default)
    case Some(v) =>
      match ParseInt(v)
      case Finite(n) => if n >= 1 then Some(n) else None
      case _ => None
  }

  /** The validation pipe: the transforms run first (`decodeURIComponent`
      may throw), then `@IsInt` and `@Min(1)` on the numbers. */
  function Validate(raw: RawQuery): (r: Validated)
    ensures r.UriError? <==> raw.search.Some? && DecodeUriComponent(raw.search.value).None?
    ensures r.Rejected? <==>
      !r.UriError? && (NumberField(raw.page, DEFAULT_PAGE).None? || NumberField(raw.pageSize, DEFAULT_PAGE_SIZE).None?)
    ensures r.Accepted? ==> ValidQuery(r.query)
    ensures r.Accepted? ==>
      Some(r.query.page) == NumberField(raw.page, DEFAULT_PAGE) && Some(r.query.pageSize) == NumberField(raw.pageSize, DEFAULT_PAGE_SIZE)
    ensures r.Accepted? ==> r.query.search == if raw.search.None? then "" else DecodeUriComponent(raw.search.value).value
    ensures raw.page.None? && raw.pageSize.None? && raw.search.None? ==> r == Accepted(Query(DEFAULT_PAGE, DEFAULT_PAGE_SIZE, ""))
  {
    var search := if raw.search.None? then Some("") else DecodeUriComponent(raw.search.value);
    if search.None? then UriError
    else
      var page := NumberField(raw.page, DEFAULT_PAGE);
      var pageSize := NumberField(raw.pageSize, DEFAULT_PAGE_SIZE);
      if page.Some? && pageSize.Some? then Accepted(Query(page.value, pageSize.value, search.value))
      else Rejected
  }

  /** A query written back into a query string, the search encoded with
      `encodeURIComponent`, is accepted unchanged. */
  lemma ValidateRendered(q: Query)
    requires ValidQuery(q) && q.page < EXACT_LIMIT && q.pageSize < EXACT_LIMIT
    ensures Validate(RawQuery(Some(IntToString(q.page)), Some(IntToString(q.pageSize)), Some(EncodeUriComponent(q.search))))
         == Accepted(q)
  {
    ParseIntReadsDecimal(q.page);
    ParseIntReadsDecimal(q.pageSize);
    DecodeEncode(q.search);
    assert NumberField(Some(IntToString(q.page)), DEFAULT_PAGE) == Some(q.page);
    assert NumberField(Some(IntToString(q.pageSize)), DEFAULT_PAGE_SIZE) == Some(q.pageSize);
  }

  /** A search holding a "%" that starts no escape fails the request with
      500, whatever the page values: a search for "50%" cannot be made. */
  lemma StrayPercentFails(page: Option<string>, pageSize: Option<string>)
    ensures Validate(RawQuery(page, pageSize, Some("50%"))) == UriError
  {
    DecodeRejects();
  }

  /** A page number below 1 is rejected, whatever the page size, for a
      search that decodes. */
  lemma NonPositivePageRejected(raw: RawQuery, n: int)
    requires n < 1 && raw.page == Some(IntToString(n))
    requires raw.search.Some? ==> DecodeUriComponent(raw.search.value).Some?
    ensures Validate(raw) == Rejected
  {
    MathIntReadsDecimal(n);
  }

  /** Past 2^53 the page read is not the page written: 2^53 + 1 is served
      as page 2^53. */
  lemma PageRoundedPastExactLimit()
    ensures Validate(RawQuery(Some(IntToString(EXACT_LIMIT + 1)), None, None))
         == Accepted(Query(EXACT_LIMIT, DEFAULT_PAGE_SIZE, ""))
  {
    MathIntReadsDecimal(EXACT_LIMIT + 1);
    FirstInexact();
  }

  // ---------------------------------------------------------------------
  // Search filter and page arithmetic
  // ---------------------------------------------------------------------

  /** `search && search.trim() !== ''`. */
  predicate SearchApplies(search: string) {
    search != "" && !IsBlank(search)
  }

  /** The `where` of the listings: `name contains search.toLowerCase()`, or
      no filter at all. */
  predicate NameMatches(name: string, search: string) {
    !SearchApplies(search) || Contains(name, Lower(search))
  }

  /** The rooms and cameras listings: `page > 0 ? (page - 1) * pageSize : 0`. */
  function GuardedSkip(page: int, pageSize: int): (skip: int)
    requires pageSize >= 0
    ensures skip >= 0
    ensures page >= 1 ==> skip == (page - 1) * pageSize
  {
    if page > 0 then (page - 1) * pageSize else 0
  }

  /** The headquarters listing: `(page - 1) * pageSize` with no guard. */
  function PlainSkip(page: int, pageSize: int): int {
    (page - 1) * pageSize
  }

  /** On a validated query both forms of `skip` agree and are not negative. */
  lemma SkipFormsAgree(q: Query)
    requires ValidQuery(q)
    ensures PlainSkip(q.page, q.pageSize) == GuardedSkip(q.page, q.pageSize) >= 0
  {
  }

  /** `Math.ceil(total / pageSize)`. */
  function TotalPages(total: nat, pageSize: int): (pages: nat)
    requires pageSize >= 1
    ensures pages * pageSize >= total
    ensures pages > 0 ==> (pages - 1) * pageSize < total
    ensures pages == 0 <==> total == 0
  {
    (total + pageSize - 1) / pageSize
  }

  /** Prisma's `skip`/`take` on an ordered result. */
  function Slice<T>(xs: seq<T>, skip: nat, take: nat): (r: seq<T>)
    ensures |r| <= take
    ensures skip >= |xs| ==> r == []
    ensures skip < |xs| ==> r == xs[skip..if skip + take <= |xs| then skip + take else |xs|]
    ensures forall v :: v in r ==> v in xs
  {
    if skip >= |xs| then [] else xs[skip..if skip + take <= |xs| then skip + take else |xs|]
  }

  /** A slice of an ordered sequence is ordered. */
  lemma SliceKeepsOrder<T, K>(xs: seq<T>, skip: nat, take: nat, key: T -> K, lt: (K, K) -> bool)
    requires SortedBy(xs, key, lt)
    ensures SortedBy(Slice(xs, skip, take), key, lt)
  {
    var r := Slice(xs, skip, take);
    forall i, j | 0 <= i < j < |r| ensures !lt(key(r[j]), key(r[i])) {
      assert r[i] == xs[skip + i] && r[j] == xs[skip + j];
    }
  }

  /** Page `page` of `xs` as the listings request it. */
  function PageOf<T>(xs: seq<T>, page: int, pageSize: int): seq<T>
    requires page >= 1 && pageSize >= 1
  {
    Slice(xs, GuardedSkip(page, pageSize), pageSize)
  }

  /** A page is empty exactly when it lies past the last page. */
  lemma PageEmptyIffPastEnd<T>(xs: seq<T>, page: int, pageSize: int)
    requires page >= 1 && pageSize >= 1
    ensures PageOf(xs, page, pageSize) == [] <==> page > TotalPages(|xs|, pageSize)
  {
    var skip := (page - 1) * pageSize;
    var pages := TotalPages(|xs|, pageSize);
    if page > pages {
      assert page - 1 >= pages;
      MulMono(pages, page - 1, pageSize);
    } else {
      assert page - 1 <= pages - 1;
      MulMono(page - 1, pages - 1, pageSize);
    }
  }

  lemma MulMono(a: int, b: int, c: int)
    requires 0 <= a <= b && c >= 0
    ensures a * c <= b * c
  {
  }

  /** Pages `from`, `from + 1`, ... glued together. */
  function PagesFrom<T>(xs: seq<T>, from: int, pageSize: int): seq<T>
    requires from >= 1 && pageSize >= 1
    decreases |xs| - (from - 1) * pageSize
  {
    if (from - 1) * pageSize >= |xs| then []
    else PageOf(xs, from, pageSize) + PagesFrom(xs, from + 1, pageSize)
  }

  /** Walking the pages from the first one returns every element exactly once,
      in order. */
  lemma {:induction false} PagesPartition<T>(xs: seq<T>, pageSize: int)
    requires pageSize >= 1
    ensures PagesFrom(xs, 1, pageSize) == xs
  {
    PagesFromSuffix(xs, 1, pageSize);
  }

  lemma {:induction false} PagesFromSuffix<T>(xs: seq<T>, from: int, pageSize: int)
    requires from >= 1 && pageSize >= 1
    ensures (from - 1) * pageSize <= |xs| ==> PagesFrom(xs, from, pageSize) == xs[(from - 1) * pageSize..]
    ensures (from - 1) * pageSize > |xs| ==> PagesFrom(xs, from, pageSize) == []
    decreases |xs| - (from - 1) * pageSize
  {
    var skip := (from - 1) * pageSize;
    if skip < |xs| {
      PagesFromSuffix(xs, from + 1, pageSize);
      var next := from * pageSize;
      assert next == skip + pageSize;
      assert GuardedSkip(from, pageSize) == skip;
      var rest := PagesFrom(xs, from + 1, pageSize);
      assert PagesFrom(xs, from, pageSize) == PageOf(xs, from, pageSize) + rest;
      if next <= |xs| {
        assert PageOf(xs, from, pageSize) == xs[skip..next];
        assert rest == xs[next..];
        assert xs[skip..] == xs[skip..next] + xs[next..];
      } else {
        assert PageOf(xs, from, pageSize) == xs[skip..];
        assert rest == [];
      }
    }
  }
}
