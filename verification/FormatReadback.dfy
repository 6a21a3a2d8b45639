/** Reading a formatted integer back: whatever the flags, the width and the precision, the field
    holds the sign and the magnitude that went in, as far as nineteen digits reach. */
module FormatReadback {
  import opened Format

  function SkipSpaces(s: string): string {
    if s == "" || s[0] != ' ' then s else SkipSpaces(s[1..])
  }

  /** Everything up to the first space. */
  function UpToSpace(s: string): string {
    if s == "" || s[0] == ' ' then "" else [s[0]] + UpToSpace(s[1..])
  }

  /** Is there a minus sign, and which number follows the sign? */
  function Read(field: string, base: nat): (bool, nat) {
    var s := SkipSpaces(field);
    var signed := s != "" && (s[0] == '-' || s[0] == '+');
    (signed && s[0] == '-', Parse(UpToSpace(if signed then s[1..] else s), base))
  }

  lemma {:induction false} SkipRepeat(n: int, s: string)
    ensures SkipSpaces(Repeat(' ', n) + s) == SkipSpaces(s)
    decreases n
  {
    var t := Repeat(' ', n) + s;
    if n > 0 {
      assert t[1..] == Repeat(' ', n - 1) + s;
      SkipRepeat(n - 1, s);
    } else {
      assert t == s;
    }
  }

  ghost predicate NoSpace(s: string) {
    forall i :: 0 <= i < |s| ==> s[i] != ' '
  }

  lemma {:induction false} UpToRepeat(s: string, n: int)
    requires NoSpace(s)
    ensures UpToSpace(s + Repeat(' ', n)) == s
  {
    var t := s + Repeat(' ', n);
    if s != "" {
      assert t[1..] == s[1..] + Repeat(' ', n);
      UpToRepeat(s[1..], n);
    }
  }

  lemma {:induction false} ParseZeros(n: int, s: string, base: nat)
    ensures Parse(Repeat('0', n) + s, base) == Parse(s, base)
    decreases |s|, n
  {
    var t := Repeat('0', n) + s;
    if s != "" {
      assert t[..|t| - 1] == Repeat('0', n) + s[..|s| - 1];
      ParseZeros(n, s[..|s| - 1], base);
    } else if n > 0 {
      assert t[..|t| - 1] == Repeat('0', n - 1) + s;
      ParseZeros(n - 1, s, base);
    } else {
      assert t == s;
    }
  }

  lemma {:induction false} DigitsNoSpace(ds: seq<nat>, caps: bool)
    requires forall i :: 0 <= i < |ds| ==> ds[i] < 16
    ensures NoSpace(Text(ds, caps))
    ensures forall i :: 0 <= i < |ds| ==> Text(ds, caps)[i] != '-' && Text(ds, caps)[i] != '+'
  {
    if ds != [] {
      DigitsNoSpace(ds[1..], caps);
      DigitIsDigit(ds[0], caps);
    }
  }

  lemma {:induction false} DigitIsDigit(d: nat, caps: bool)
    requires d < 16
    ensures DigitChar(d, caps) != ' ' && DigitChar(d, caps) != '-' && DigitChar(d, caps) != '+'
  {
  }

  lemma {:induction false} SomeDigit(u: nat, base: nat)
    requires 2 <= base <= 16
    ensures Kept(u, base) != []
  {
    LowUnfold(u, base, 20);
  }

  /** A sign, zeros and digits, then spaces. */
  lemma {:induction false} ReadNumber(sign: string, z: int, digits: string, b: int, base: nat)
    requires sign == "" || sign == "-" || sign == "+" || sign == " "
    requires digits != "" && NoSpace(digits) && forall i :: 0 <= i < |digits| ==> digits[i] != '-' && digits[i] != '+'
    ensures Read(sign + (Repeat('0', z) + digits + Repeat(' ', b)), base) == (sign == "-", Parse(digits, base))
  {
    hide Parse, Repeat;
    var number := Repeat('0', z) + digits;
    var rest := number + Repeat(' ', b);
    var s := sign + rest;
    assert NoSpace(number);
    UpToRepeat(number, b);
    ParseZeros(z, digits, base);
    assert rest[0] == number[0] && number[0] != ' ' && number[0] != '-' && number[0] != '+';
    assert SkipSpaces(rest) == rest;
    if sign == "" {
      assert s == rest;
    } else {
      assert s[0] == sign[0] && s[1..] == rest;
      assert SkipSpaces(s) == if sign == " " then rest else s;
    }
  }

  /** The whole round trip: the sign and the absolute value of a signed number, and an unsigned one as the
      64 bits that hold it. */
  lemma {:induction false} ReadBack(value: int, base: nat, min: int, max: int, f: Flags)
    requires 2 <= base <= 16 && -TWO63 <= value < TWO63
    ensures Pow(base, 19) > 0
    ensures var read := Read(Layout(value, base, min, max, f), base);
      && read.0 == (!f.unsigned && value < 0)
      && (!f.unsigned ==> read.1 == (if value < 0 then -value else value) % Pow(base, 19))
      && (f.unsigned ==> read.1 == (if value < 0 then value + TWO64 else value) % Pow(base, 19))
  {
    MagnitudeIs(value, f);
    ReadMagnitude(value, base, min, max, f);
  }

  lemma {:induction false} MagnitudeIs(value: int, f: Flags)
    requires -TWO63 <= value < TWO63
    ensures Magnitude(value, f) ==
      if value >= 0 then value else if f.unsigned then value + TWO64 else -value
  {
  }

  lemma {:induction false} ReadMagnitude(value: int, base: nat, min: int, max: int, f: Flags)
    requires 2 <= base <= 16 && -TWO63 <= value < TWO63
    ensures Pow(base, 19) > 0
    ensures Read(Layout(value, base, min, max, f), base) ==
            (!f.unsigned && value < 0, Magnitude(value, f) % Pow(base, 19))
  {
    hide Kept, Text, Parse, Pad, Repeat, Read, Pow, Magnitude;
    var u := Magnitude(value, f);
    var ds := Kept(u, base);
    var digits, sign := Text(ds, f.up), Sign(value, f);
    SomeDigit(u, base);
    DigitsNoSpace(ds, f.up);
    var p := Pad(|digits|, |sign|, min, max, f);
    ReadNumber(sign, p.zeros, digits, -p.spaces, base);
    DigitsDecode(u, base, f.up);
    var rest := sign + (Repeat('0', p.zeros) + digits + Repeat(' ', -p.spaces));
    assert Layout(value, base, min, max, f) == Repeat(' ', p.spaces) + rest;
    SkipSame(p.spaces, rest, base);
  }

  lemma {:induction false} SkipSame(n: int, s: string, base: nat)
    ensures Read(Repeat(' ', n) + s, base) == Read(s, base)
  {
    hide Parse, Repeat, UpToSpace;
    SkipRepeat(n, s);
  }
}
