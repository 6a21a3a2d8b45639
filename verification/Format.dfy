/** Integer formatting: the digits that a number is turned into, the field they are set in, and the
    buffer that takes as much of the output as fits. */
module Format {

  datatype Flags = Flags(minus: bool, plus: bool, space: bool, zero: bool, up: bool, unsigned: bool)

  const TWO63: int := 0x8000_0000_0000_0000
  const TWO64: int := 0x1_0000_0000_0000_0000
  const SIZE_MAX: int := TWO64 - 1

  function Max(p: int, q: int): int { if p >= q then p else q }

  // ---------------------------------------------------------------------------------------
  // Numbers and digits

  function Pow(b: nat, n: nat): nat { if n == 0 then 1 else b * Pow(b, n - 1) }

  /** What is printed besides the sign, as 64 unsigned bits. */
  function Magnitude(value: int, f: Flags): nat
    requires -TWO63 <= value < TWO63
  {
    if !f.unsigned && value < 0 then -value else value % TWO64
  }

  function Sign(value: int, f: Flags): string {
    if f.unsigned then ""
    else if value < 0 then "-"
    else if f.plus then "+"
    else if f.space then " "
    else ""
  }

  function DigitChar(d: nat, caps: bool): char
    requires d < 16
  {
    if caps then "0123456789ABCDEF"[d] else "0123456789abcdef"[d]
  }

  function DigitOf(c: char): nat {
    if '0' <= c <= '9' then (c - '0') as nat
    else if 'a' <= c <= 'f' then (c - 'a') as nat + 10
    else if 'A' <= c <= 'F' then (c - 'A') as nat + 10
    else 0
  }

  function Last(u: nat, base: nat): (d: nat)
    requires base >= 2
    ensures d < base
  {
    u % base
  }

  function Front(u: nat, base: nat): nat
    requires base >= 2
  {
    u / base
  }

  /** Up to n digits of u, the last one first. */
  function Low(u: nat, base: nat, n: nat): (r: seq<nat>)
    requires base >= 2
    ensures |r| <= n && forall i :: 0 <= i < |r| ==> r[i] < base
  {
    if n == 0 then [] else [Last(u, base)] + if Front(u, base) == 0 then [] else Low(Front(u, base), base, n - 1)
  }

  /** The number that digits stand for, the last one first. */
  function Value(ds: seq<nat>, base: nat): nat {
    if ds == [] then 0 else ds[0] + base * Value(ds[1..], base)
  }

  lemma {:induction false} PowPositive(b: nat, n: nat)
    requires b >= 1
    ensures Pow(b, n) >= 1
  {
    if n > 0 { PowPositive(b, n - 1); }
  }

  lemma {:induction false} Spread(q: nat, k: nat, n: nat)
    ensures q > k ==> q * n >= k * n + n
  {
    if q > k + 1 { Spread(q - 1, k, n); }
  }

  /** Quotient and remainder are unique. */
  lemma {:induction false} Remainder(a: nat, k: nat, n: nat, m: nat)
    requires m < n && a == k * n + m
    ensures a % n == m && a / n == k
  {
    var q := a / n;
    assert a == q * n + a % n;
    Spread(q, k, n);
    Spread(k, q, n);
  }

  /** What is left of u when n digits are taken off. */
  function High(u: nat, base: nat, n: nat): nat
    requires base >= 2
  {
    if n == 0 then u else High(u / base, base, n - 1)
  }

  lemma {:induction false} HighZero(base: nat, n: nat)
    requires base >= 2
    ensures High(0, base, n) == 0 && Value(Low(0, base, n), base) == 0
  {
    if n > 0 { HighZero(base, n - 1); }
  }

  lemma {:induction false} Regroup(b: nat, p: nat, r: nat, v: nat, h: nat)
    requires r < b && v < p
    ensures b * (v + p * h) + r == h * (b * p) + (r + b * v)
    ensures r + b * v < b * p
  {
    assert b * (p * h) == h * (b * p);
    assert b * v <= b * (p - 1);
  }

  lemma {:induction false} LowStep(u: nat, base: nat, n: nat, q: nat, r: nat)
    requires base >= 2 && n > 0 && q == u / base && r == u % base
    ensures Value(Low(u, base, n), base) == r + base * Value(Low(q, base, n - 1), base)
  {
    HighZero(base, n - 1);
    assert Low(u, base, n)[1..] == if q == 0 then [] else Low(q, base, n - 1);
  }

  lemma {:induction false} DivMod(u: nat, base: nat, q: nat, r: nat)
    requires base >= 2 && q == u / base && r == u % base
    ensures u == base * q + r && r < base
  {
  }

  /** The last n digits stand for u up to a multiple of base^n, and for less than base^n. */
  lemma {:induction false} LowHigh(u: nat, base: nat, n: nat)
    requires base >= 2
    ensures var v := Value(Low(u, base, n), base);
      v < Pow(base, n) && u == High(u, base, n) * Pow(base, n) + v
  {
    hide Low, Value, Pow, High;
    HighPow(u, base, n);
    if n == 0 {
      NoDigits(u, base);
    } else {
      var q, r := u / base, u % base;
      LowHigh(q, base, n - 1);
      LowStep(u, base, n, q, r);
      DivMod(u, base, q, r);
      LowHighStep(u, base, q, r, Value(Low(q, base, n - 1), base), High(q, base, n - 1), Pow(base, n - 1));
    }
  }

  lemma {:induction false} LowHighStep(u: nat, b: nat, q: nat, r: nat, v: nat, h: nat, p: nat)
    requires u == b * q + r && r < b && v < p && q == h * p + v
    ensures u == h * (b * p) + (r + b * v) && r + b * v < b * p
  {
    Regroup(b, p, r, v, h);
    assert h * p == p * h;
  }

  lemma {:induction false} HighPow(u: nat, base: nat, n: nat)
    requires base >= 2
    ensures n == 0 ==> High(u, base, n) == u && Pow(base, n) == 1
    ensures n > 0 ==> High(u, base, n) == High(u / base, base, n - 1) && Pow(base, n) == base * Pow(base, n - 1)
  {
  }

  lemma {:induction false} NoDigits(u: nat, base: nat)
    requires base >= 2
    ensures Value(Low(u, base, 0), base) == 0
  {
  }

  lemma {:induction false} LowUnfold(u: nat, base: nat, n: nat)
    requires base >= 2
    ensures n == 0 ==> Low(u, base, n) == []
    ensures n > 0 ==>
      Low(u, base, n) == [Last(u, base)] + if Front(u, base) == 0 then [] else Low(Front(u, base), base, n - 1)
  {
  }

  lemma {:induction false} LowPrefix(u: nat, base: nat, n: nat)
    requires base >= 2
    ensures Low(u, base, n) == if |Low(u, base, n + 1)| == n + 1 then Low(u, base, n + 1)[..n] else Low(u, base, n + 1)
    decreases n
  {
    hide Low, Last, Front;
    LowUnfold(u, base, n);
    LowUnfold(u, base, n + 1);
    if n > 0 && Front(u, base) != 0 {
      LowPrefix(Front(u, base), base, n - 1);
    }
  }

  // ---------------------------------------------------------------------------------------
  // Digits as text

  /** The digits in reading order. */
  function Text(ds: seq<nat>, caps: bool): (r: string)
    requires forall i :: 0 <= i < |ds| ==> ds[i] < 16
    ensures |r| == |ds|
  {
    if ds == [] then "" else Text(ds[1..], caps) + [DigitChar(ds[0], caps)]
  }

  function Parse(s: string, base: nat): nat {
    if s == "" then 0 else Parse(s[..|s| - 1], base) * base + DigitOf(s[|s| - 1])
  }

  lemma {:induction false} DigitRoundTrip(d: nat, caps: bool)
    requires d < 16
    ensures DigitOf(DigitChar(d, caps)) == d
    ensures DigitChar(d, caps) == '0' <==> d == 0
  {
  }

  lemma {:induction false} ParseText(ds: seq<nat>, base: nat, caps: bool)
    requires forall i :: 0 <= i < |ds| ==> ds[i] < 16
    ensures Parse(Text(ds, caps), base) == Value(ds, base)
  {
    if ds != [] {
      ParseText(ds[1..], base, caps);
      DigitRoundTrip(ds[0], caps);
      var s := Text(ds, caps);
      assert s[..|s| - 1] == Text(ds[1..], caps);
      assert Parse(Text(ds[1..], caps), base) * base == base * Value(ds[1..], base);
    }
  }

  /** The digits that fmtint keeps: 20 at most are computed, and the 20th is dropped. */
  function Kept(u: nat, base: nat): (r: seq<nat>)
    requires 2 <= base <= 16
    ensures |r| <= 19 && forall i :: 0 <= i < |r| ==> r[i] < 16
  {
    var d := Low(u, base, 20);
    if |d| == 20 then d[..19] else d
  }

  /** The digits of a number read back as the number modulo base^19, so they are right exactly for
      numbers below base^19. */
  lemma {:induction false} DigitsDecode(u: nat, base: nat, caps: bool)
    requires 2 <= base <= 16
    ensures Pow(base, 19) > 0
    ensures Parse(Text(Kept(u, base), caps), base) == u % Pow(base, 19)
    ensures Parse(Text(Kept(u, base), caps), base) == u <==> u < Pow(base, 19)
  {
    hide Pow, Low, High, Value, Text, Parse;
    LowPrefix(u, base, 19);
    assert Kept(u, base) == Low(u, base, 19);
    ParseText(Kept(u, base), base, caps);
    LowHigh(u, base, 19);
    PowPositive(base, 19);
    var v := Value(Low(u, base, 19), base);
    Remainder(u, High(u, base, 19), Pow(base, 19), v);
  }

  /** Hexadecimal always fits; octal and decimal do not. */
  lemma {:induction false} Capacity()
    ensures Pow(16, 19) > TWO64 && Pow(10, 19) < TWO64 && Pow(8, 19) < TWO64
  {
    assert Pow(16, 5) == 0x10_0000 && Pow(8, 5) == 0x8000 && Pow(10, 5) == 100000;
    PowSum(16, 5, 5); PowSum(16, 10, 5); PowSum(16, 15, 4);
    PowSum(10, 5, 5); PowSum(10, 10, 5); PowSum(10, 15, 4);
    PowSum(8, 5, 5); PowSum(8, 10, 5); PowSum(8, 15, 4);
    assert Pow(16, 4) == 0x1_0000 && Pow(8, 4) == 0x1000 && Pow(10, 4) == 10000;
  }

  lemma {:induction false} PowSum(b: nat, m: nat, n: nat)
    ensures Pow(b, m + n) == Pow(b, m) * Pow(b, n)
  {
    if m > 0 {
      PowSum(b, m - 1, n);
      assert b * (Pow(b, m - 1) * Pow(b, n)) == (b * Pow(b, m - 1)) * Pow(b, n);
    }
  }

  /** Ten to the nineteenth comes out as zero. */
  lemma {:induction false} TopDigitLost(caps: bool)
    ensures Pow(10, 19) < TWO64 && Parse(Text(Kept(Pow(10, 19), 10), caps), 10) == 0
  {
    Capacity();
    DigitsDecode(Pow(10, 19), 10, caps);
  }

  /** A number whose digits are right has no leading zero unless it is zero. */
  lemma {:induction false} NoLeadingZero(u: nat, base: nat, n: nat)
    requires 2 <= base <= 16 && n > 0 && 0 < u < Pow(base, n)
    ensures var d := Low(u, base, n); |d| > 0 && d[|d| - 1] != 0
  {
    if u / base != 0 {
      assert n > 1;
      Quotient(u, base, Pow(base, n - 1));
      NoLeadingZero(u / base, base, n - 1);
    }
  }

  lemma {:induction false} Monotone(b: nat, p: nat, q: nat)
    ensures p <= q ==> b * p <= b * q
  {
  }

  lemma {:induction false} Quotient(u: nat, b: nat, p: nat)
    requires b >= 2 && u < b * p
    ensures u / b < p
  {
    DivMod(u, b, u / b, u % b);
    Monotone(b, p, u / b);
  }

  // ---------------------------------------------------------------------------------------
  // The field

  function Repeat(c: char, n: int): (r: string)
    ensures |r| == Max(n, 0) && forall i :: 0 <= i < |r| ==> r[i] == c
  {
    seq(if n < 0 then 0 else n, i => c)
  }

  datatype Padding = Padding(spaces: int, zeros: int)

  /** How much goes around n digits; negative spaces go to the right. */
  function Pad(n: nat, sign: nat, min: int, max: int, f: Flags): Padding {
    var p := if max < 0 then 0 else max;
    var z, s := Max(p - n, 0), Max(min - Max(p, n) - sign, 0);
    var z', s' := if f.zero then Max(z, s) else z, if f.zero then 0 else s;
    Padding(if f.minus then -s' else s', z')
  }

  /** The formatted number: spaces, sign, zeros, digits, spaces. */
  function Layout(value: int, base: nat, min: int, max: int, f: Flags): string
    requires 2 <= base <= 16 && -TWO63 <= value < TWO63
  {
    var digits := Text(Kept(Magnitude(value, f), base), f.up);
    var p := Pad(|digits|, |Sign(value, f)|, min, max, f);
    Repeat(' ', p.spaces) + Sign(value, f) + Repeat('0', p.zeros) + digits + Repeat(' ', -p.spaces)
  }

  /** The field is as wide as asked for, or as its number needs, except exactly when zero padding is
      asked for along with both a precision beyond the digits and a width beyond the precision:
      then zeros replace the spaces only in part. */
  lemma {:induction false} FieldWidth(value: int, base: nat, min: int, max: int, f: Flags)
    requires 2 <= base <= 16 && -TWO63 <= value < TWO63
    ensures var n, sign := |Kept(Magnitude(value, f), base)|, |Sign(value, f)|;
      |Layout(value, base, min, max, f)| == Max(min, sign + Max(max, n)) <==>
        !(f.zero && max > n && min > max + sign)
  {
    hide Kept, Text;
  }

  /** How a field is set: the number is at the right end of it, or at the left end with the minus flag;
      zeros replace all spaces with the zero flag, and otherwise only fill up to the precision.  A number
      that is printed with its sign shows a minus if it is negative, else a plus or a space if asked for. */
  lemma {:induction false} FieldShape(value: int, base: nat, min: int, max: int, f: Flags)
    returns (left: nat, sign: string, zeros: nat, right: nat)
    requires 2 <= base <= 16 && -TWO63 <= value < TWO63
    ensures var digits := Text(Kept(Magnitude(value, f), base), f.up);
      && Layout(value, base, min, max, f) == Repeat(' ', left) + sign + Repeat('0', zeros) + digits + Repeat(' ', right)
      && (f.minus || f.zero ==> left == 0) && (!f.minus || f.zero ==> right == 0)
      && zeros + |digits| >= max
      && (!f.zero ==> zeros == Max(max - |digits|, 0))
      && (f.zero && zeros + |digits| > max && zeros > 0 ==> |sign| + Max(max, |digits|) + zeros == min)
    ensures f.unsigned ==> sign == ""
    ensures !f.unsigned ==>
      sign == if value < 0 then "-" else if f.plus then "+" else if f.space then " " else ""
  {
    var digits := Text(Kept(Magnitude(value, f), base), f.up);
    sign := Sign(value, f);
    var p := Pad(|digits|, |sign|, min, max, f);
    left, zeros, right := Max(p.spaces, 0), Max(p.zeros, 0), Max(-p.spaces, 0);
  }

  predicate CaseOk(c: char, caps: bool) {
    '0' <= c <= '9' || if caps then 'A' <= c <= 'F' else 'a' <= c <= 'f'
  }

  /** Letters are large or small as asked for. */
  lemma {:induction false} LetterCase(ds: seq<nat>, caps: bool)
    requires forall i :: 0 <= i < |ds| ==> ds[i] < 16
    ensures forall i :: 0 <= i < |ds| ==> CaseOk(Text(ds, caps)[i], caps)
  {
    if ds != [] {
      LetterCase(ds[1..], caps);
      DigitCase(ds[0], caps);
      assert Text(ds, caps) == Text(ds[1..], caps) + [DigitChar(ds[0], caps)];
    }
  }

  lemma {:induction false} DigitCase(d: nat, caps: bool)
    requires d < 16
    ensures CaseOk(DigitChar(d, caps), caps)
  {
  }

  /** The number 1 with width 5, precision 3 and zero padding is three characters wide. */
  lemma {:induction false} NarrowField()
    ensures |Layout(1, 10, 5, 3, Flags(false, false, false, true, false, false))| == 3
  {
    LowUnfold(1, 10, 20);
    assert Kept(1, 10) == [1];
  }

  /** Fills the digit buffer from the last digit on; the 20th digit is given up again. */
  method Convert(uvalue: nat, base: nat, caps: bool, convert: array<char>) returns (place: nat)
    requires 2 <= base <= 16 && convert.Length == 20
    modifies convert
    ensures place == |Kept(uvalue, base)|
    ensures forall i :: 0 <= i < place ==> convert[i] == DigitChar(Kept(uvalue, base)[i], caps)
  {
    hide Low, DigitChar, Last, Front;
    var u: nat := uvalue;
    ghost var all := Low(uvalue, base, 20);
    place := 0;
    while true
      invariant place < 20 && place <= |all|
      invariant all[place..] == Low(u, base, 20 - place)
      invariant forall i :: 0 <= i < place ==> convert[i] == DigitChar(all[i], caps)
      decreases 20 - place
    {
      ghost var rest := all[place..];
      LowUnfold(u, base, 20 - place);
      assert all[place] == rest[0];
      convert[place] := DigitChar(Last(u, base), caps);
      place := place + 1;
      u := Front(u, base);
      assert all[place..] == rest[1..];
      if !(u != 0 && place < 20) {
        assert |all| == place;
        break;
      }
    }
    if place == 20 {
      place := place - 1;
    }
  }

  /** The sign character, or NUL for none, and the unsigned value to print. */
  method Prepare(value: int, f: Flags) returns (signvalue: char, uvalue: nat)
    requires -TWO63 <= value < TWO63
    ensures uvalue == Magnitude(value, f)
    ensures Sign(value, f) == if signvalue == 0 as char then "" else [signvalue]
  {
    signvalue, uvalue := 0 as char, value % TWO64;
    if !f.unsigned {
      if value < 0 {
        signvalue := '-';
        uvalue := -value;
      } else if f.plus {
        signvalue := '+';
      } else if f.space {
        signvalue := ' ';
      }
    }
  }

  method Paddings(place: nat, sign: nat, min: int, max: int, f: Flags) returns (spadlen: int, zpadlen: int)
    ensures Padding(spadlen, zpadlen) == Pad(place, sign, min, max, f)
  {
    var p := if max < 0 then 0 else max;
    zpadlen := p - place;
    spadlen := min - Max(p, place) - sign;
    if zpadlen < 0 { zpadlen := 0; }
    if spadlen < 0 { spadlen := 0; }
    if f.zero {
      zpadlen := Max(zpadlen, spadlen);
      spadlen := 0;
    }
    if f.minus {
      spadlen := -spadlen;
    }
  }

  // ---------------------------------------------------------------------------------------
  // The output buffer

  class Out {
    const buffer: array?<char>
    const maxlen: nat
    var currlen: nat
    ghost var text: string  // everything written so far, whether it fitted or not

    ghost predicate Valid()
      reads this, buffer
    {
      && currlen == |text|
      && (buffer != null ==> maxlen <= buffer.Length)
      && (buffer != null ==> forall i :: 0 <= i < currlen && i < maxlen ==> buffer[i] == text[i])
    }

    constructor (buffer: array?<char>, maxlen: nat)
      requires buffer != null ==> maxlen <= buffer.Length
      ensures Valid() && text == "" && this.buffer == buffer && this.maxlen == maxlen
    {
      this.buffer, this.maxlen, currlen := buffer, maxlen, 0;
      text := "";
    }

    method Outch(c: char)
      requires Valid()
      modifies this, buffer
      ensures Valid() && text == old(text) + [c]
    {
      if currlen < maxlen {
        if buffer != null {
          buffer[currlen] := c;
        }
      }
      currlen := currlen + 1;
      text := text + [c];
    }

    method Outn(c: char, n: int)
      requires Valid()
      modifies this, buffer
      ensures Valid() && text == old(text) + Repeat(c, n)
    {
      var left := n;
      ghost var k := 0;
      assert text == old(text) + Repeat(c, 0);
      while left > 0
        invariant Valid() && 0 <= k && (n >= 0 ==> k == n - left && left >= 0) && (n < 0 ==> k == 0 && left == n)
        invariant text == old(text) + Repeat(c, k)
        decreases left
      {
        Outch(c);
        assert Repeat(c, k + 1) == Repeat(c, k) + [c];
        left := left - 1;
        k := k + 1;
      }
      assert Repeat(c, n) == Repeat(c, k);
    }

    method FmtInt(value: int, base: nat, min: int, max: int, f: Flags)
      requires Valid() && 2 <= base <= 16 && -TWO63 <= value < TWO63
      modifies this, buffer
      ensures Valid() && text == old(text) + Layout(value, base, min, max, f)
    {
      hide Kept, Text, Low, Pad, Repeat, Magnitude, Sign, DigitChar;
      var signvalue, uvalue := Prepare(value, f);
      var convert := new char[20];
      var place := Convert(uvalue, base, f.up, convert);
      ghost var digits := Kept(uvalue, base);
      var spadlen, zpadlen := Paddings(place, if signvalue != 0 as char then 1 else 0, min, max, f);
      Emit(spadlen, signvalue, zpadlen, convert, place, digits, f.up);
    }

    /** Spaces, sign, zeros, digits and spaces go out one after the other. */
    method Emit(spadlen: int, signvalue: char, zpadlen: int, convert: array<char>, place: nat,
                ghost digits: seq<nat>, ghost caps: bool)
      requires Valid() && place == |digits| <= convert.Length && convert != buffer
      requires forall i :: 0 <= i < place ==> digits[i] < 16 && convert[i] == DigitChar(digits[i], caps)
      modifies this, buffer
      ensures Valid()
      ensures text == old(text) + (Repeat(' ', spadlen) + (if signvalue == 0 as char then "" else [signvalue]) +
                                   Repeat('0', zpadlen) + Text(digits, caps) + Repeat(' ', -spadlen))
    {
      hide Text, Repeat, DigitChar;
      ghost var start, a, b := text, Repeat(' ', spadlen), if signvalue == 0 as char then "" else [signvalue];
      ghost var c, d, e := Repeat('0', zpadlen), Text(digits, caps), Repeat(' ', -spadlen);
      Outn(' ', spadlen);
      if signvalue != 0 as char {
        Outch(signvalue);
      }
      assert text == start + (a + b);
      Outn('0', zpadlen);
      assert text == start + (a + b + c);
      OutDigits(convert, place, digits, caps);
      assert text == start + (a + b + c + d);
      Outn(' ', -spadlen);
      assert text == start + (a + b + c + d + e);
    }

    method OutDigits(convert: array<char>, n: nat, ghost digits: seq<nat>, ghost caps: bool)
      requires Valid() && n == |digits| <= convert.Length && convert != buffer
      requires forall i :: 0 <= i < n ==> digits[i] < 16 && convert[i] == DigitChar(digits[i], caps)
      modifies this, buffer
      ensures Valid() && text == old(text) + Text(digits, caps)
    {
      var place := n;
      assert digits[n..] == [];
      while place > 0
        invariant 0 <= place <= n && Valid()
        invariant text == old(text) + Text(digits[place..], caps)
        invariant forall i :: 0 <= i < n ==> convert[i] == DigitChar(digits[i], caps)
      {
        place := place - 1;
        Outch(convert[place]);
        assert digits[place..][1..] == digits[place + 1..];
      }
      assert digits[0..] == digits;
    }

    /** The end of the output: the text is cut to what fits in front of a terminating NUL.  Without a
        buffer and a size nothing is stored, and the length of the whole text is returned. */
    method Terminate() returns (retlen: nat)
      requires Valid() && currlen < SIZE_MAX && (maxlen >= 1 || buffer == null)
      modifies this, buffer
      ensures retlen == if maxlen == 0 || |old(text)| < maxlen - 1 then |old(text)| else maxlen - 1
      ensures buffer != null ==> buffer[..retlen] == old(text)[..retlen] && buffer[retlen] == 0 as char
    {
      var limit := if maxlen == 0 then SIZE_MAX else maxlen - 1;  // one less than zero wraps around
      if currlen >= limit {
        currlen := limit;
      }
      if buffer != null {
        buffer[currlen] := 0 as char;
      }
      retlen := currlen;
    }
  }
}
