/** The bounded integer flags: base-10 text in and out, for each width, signed and unsigned. */
module IntegerFlags {
  import opened Powers
  import opened Options

  predicate Digit(c: char) {
    '0' <= c <= '9'
  }

  predicate Digits(s: string) {
    s != "" && forall i | 0 <= i < |s| :: Digit(s[i])
  }

  /** The number a string of digits stands for. */
  function Value(s: string): nat
    requires forall i | 0 <= i < |s| :: Digit(s[i])
  {
    if s == "" then 0 else 10 * Value(s[..|s| - 1]) + DigitValue(s[|s| - 1])
  }

  function DigitValue(c: char): nat
    requires Digit(c)
  {
    c as int - '0' as int
  }

  /** `%v` of an unsigned number. */
  function Decimal(n: nat): (s: string)
    ensures Digits(s)
  {
    var last := [('0' as int + n % 10) as char];
    if n < 10 then last else Decimal(n / 10) + last
  }

  /** `%v` of a number. */
  function Format(n: int): string {
    if n < 0 then "-" + Decimal(-n) else Decimal(n)
  }

  datatype Kind = Kind(signed: bool, bits: nat)

  predicate InRange(k: Kind, v: int) {
    if k.bits == 0 then false
    else if k.signed then -(Pow2(k.bits - 1) as int) <= v < Pow2(k.bits - 1)
    else 0 <= v < Pow2(k.bits)
  }

  /** `strconv.ParseInt(s, 10, bits)` takes one optional sign, `strconv.ParseUint(s, 10, bits)` takes none. */
  function ParseNumber(k: Kind, s: string): Option<int> {
    var sign := k.signed && s != "" && (s[0] == '-' || s[0] == '+');
    var digits := if sign then s[1..] else s;
    if !Digits(digits) then None
    else
      var v := if sign && s[0] == '-' then -(Value(digits) as int) else Value(digits);
      if InRange(k, v) then Some(v) else None
  }

  /** The conversion to the flag's own type: two's complement at its width. */
  function Narrow(k: Kind, v: int): int {
    if k.signed && k.bits > 0 then Wrap(k.bits, v) else v % Pow2(k.bits)
  }

  /** The conversion never changes an accepted value. */
  lemma NarrowKeeps(k: Kind, v: int)
    requires InRange(k, v)
    ensures Narrow(k, v) == v
  {
    if k.signed {
      WrapKeepsIff(k.bits, v);
    } else {
      SmallMod(v, Pow2(k.bits));
    }
  }

  /** A kind's range is exactly what its conversion keeps. */
  lemma RangeIsKept(k: Kind, v: int)
    requires k.bits > 0
    ensures InRange(k, v) <==> Narrow(k, v) == v
  {
    if k.signed {
      WrapKeepsIff(k.bits, v);
    } else if InRange(k, v) {
      SmallMod(v, Pow2(k.bits));
    }
  }

  const INT8 := Kind(true, 8)
  const INT16 := Kind(true, 16)
  const INT32 := Kind(true, 32)
  const UINT8 := Kind(false, 8)
  const UINT16 := Kind(false, 16)
  const UINT32 := Kind(false, 32)

  lemma Bounds(v: int)
    ensures InRange(INT8, v) <==> -128 <= v <= 127
    ensures InRange(INT16, v) <==> -32_768 <= v <= 32_767
    ensures InRange(INT32, v) <==> -2_147_483_648 <= v <= 2_147_483_647
    ensures InRange(UINT8, v) <==> 0 <= v <= 255
    ensures InRange(UINT16, v) <==> 0 <= v <= 65_535
    ensures InRange(UINT32, v) <==> 0 <= v <= 4_294_967_295
  {
    SmallPowers();
  }

  lemma {:induction false} ValueOfDecimal(n: nat)
    ensures Value(Decimal(n)) == n
  {
    var d := Decimal(n);
    var last := [('0' as int + n % 10) as char];
    if n < 10 {
      assert d == last && d[..|d| - 1] == "";
    } else {
      ValueOfDecimal(n / 10);
      assert d == Decimal(n / 10) + last;
      assert d[..|d| - 1] == Decimal(n / 10) && d[|d| - 1] == last[0];
    }
  }

  /** Printing and parsing: every value a flag can hold is read back as itself. */
  lemma ParseOfFormat(k: Kind, v: int)
    requires InRange(k, v)
    ensures ParseNumber(k, Format(v)) == Some(v)
  {
    if v < 0 {
      ValueOfDecimal(-v);
      assert Format(v)[1..] == Decimal(-v);
    } else {
      ValueOfDecimal(v);
      assert Digit(Decimal(v)[0]);
    }
  }

  // ----- Numerals, read digit by digit from the left -----

  const TEN := "0123456789"

  function Place(c: char): nat {
    IndexOf(TEN, c)
  }

  function IndexOf(s: string, c: char): nat {
    if s == "" || s[0] == c then 0 else 1 + IndexOf(s[1..], c)
  }

  function Pow10(n: nat): nat {
    if n == 0 then 1 else 10 * Pow10(n - 1)
  }

  /** The number a row of decimal digits stands for. */
  function Positional(s: string): nat {
    if s == "" then 0 else Place(s[0]) * Pow10(|s| - 1) + Positional(s[1..])
  }

  predicate Decimals(s: string) {
    s != "" && forall i | 0 <= i < |s| :: s[i] in TEN
  }

  lemma {:induction false} IndexOfAt(s: string, i: nat)
    requires i < |s| && forall j | 0 <= j < i :: s[j] != s[i]
    ensures IndexOf(s, s[i]) == i
    decreases |s|
  {
    if i > 0 {
      assert s[0] != s[i];
      IndexOfAt(s[1..], i - 1);
    }
  }

  lemma TenInOrder(i: nat)
    requires i < 10
    ensures TEN[i] as int == '0' as int + i
  {
  }

  lemma DigitIsPlace(c: char)
    ensures Digit(c) <==> c in TEN
    ensures Digit(c) ==> DigitValue(c) == Place(c)
  {
    if Digit(c) {
      var d := DigitValue(c);
      TenInOrder(d);
      forall j | 0 <= j < d ensures TEN[j] != TEN[d] {
        TenInOrder(j);
      }
      IndexOfAt(TEN, d);
    }
    if c in TEN {
      var i :| 0 <= i < |TEN| && TEN[i] == c;
      TenInOrder(i);
    }
  }

  lemma {:induction false} ValueFromLeft(c: char, s: string)
    requires Digit(c) && forall i | 0 <= i < |s| :: Digit(s[i])
    ensures Value([c] + s) == DigitValue(c) * Pow10(|s|) + Value(s)
    decreases |s|
  {
    var n := |s| - 1;
    if s == "" {
      assert [c] + s == [c] && [c][..0] == "";
    } else {
      ValueFromLeft(c, s[..n]);
      assert ([c] + s)[..|s|] == [c] + s[..n] && ([c] + s)[|s|] == s[n];
      TenTimes(DigitValue(c), Pow10(n));
    }
  }

  lemma TenTimes(x: int, y: int)
    ensures 10 * (x * y) == x * (10 * y)
  {
  }

  /** The value computed from the right is the positional one. */
  lemma {:induction false} ValueIsPositional(s: string)
    requires forall i | 0 <= i < |s| :: Digit(s[i])
    ensures Value(s) == Positional(s)
  {
    if s != "" {
      DigitIsPlace(s[0]);
      ValueIsPositional(s[1..]);
      ValueFromLeft(s[0], s[1..]);
      assert [s[0]] + s[1..] == s;
    }
  }

  lemma DigitsAreDecimals(s: string)
    ensures Digits(s) <==> Decimals(s)
  {
    forall i | 0 <= i < |s| ensures Digit(s[i]) <==> s[i] in TEN {
      DigitIsPlace(s[i]);
    }
  }

  function Signed(sign: string, n: nat): int {
    if sign == "-" then -(n as int) else n
  }

  /** An optional sign, for the signed kinds only, and decimal digits. */
  predicate Spelled(k: Kind, s: string, sign: string, digits: string) {
    && s == sign + digits && Decimals(digits)
    && (sign == "" || (k.signed && (sign == "-" || sign == "+")))
  }

  /** The base-10 numerals, and the number they stand for. */
  ghost predicate Numeral(k: Kind, s: string, v: int) {
    exists sign: string, digits: string :: Spelled(k, s, sign, digits) && v == Signed(sign, Positional(digits))
  }

  lemma ParsedIsNumeral(k: Kind, s: string, v: int)
    requires ParseNumber(k, s) == Some(v)
    ensures Numeral(k, s, v) && InRange(k, v)
  {
    var sign := k.signed && s != "" && (s[0] == '-' || s[0] == '+');
    var digits := if sign then s[1..] else s;
    var lead := if sign then [s[0]] else "";
    DigitsAreDecimals(digits);
    ValueIsPositional(digits);
    assert lead == "-" <==> sign && s[0] == '-';
    assert s == lead + digits && Spelled(k, s, lead, digits);
  }

  lemma SpelledDigits(k: Kind, s: string, sign: string, digits: string)
    requires Spelled(k, s, sign, digits)
    ensures Digits(digits) && s != ""
    ensures if sign == "" then s == digits && Digit(s[0]) else s[0] == sign[0] && s[1..] == digits
  {
    DigitsAreDecimals(digits);
    if sign == "" {
      assert s == digits;
    } else {
      assert s[1..] == digits;
    }
  }

  lemma ParseUnsigned(k: Kind, s: string)
    requires Digits(s) && Digit(s[0]) && InRange(k, Value(s))
    ensures ParseNumber(k, s) == Some(Value(s) as int)
  {
  }

  lemma ParseSigned(k: Kind, s: string)
    requires k.signed && s != "" && (s[0] == '-' || s[0] == '+') && Digits(s[1..])
    ensures var v := if s[0] == '-' then -(Value(s[1..]) as int) else Value(s[1..]);
            InRange(k, v) ==> ParseNumber(k, s) == Some(v)
  {
  }

  lemma SpelledIsParsed(k: Kind, s: string, sign: string, digits: string)
    requires Spelled(k, s, sign, digits) && InRange(k, Signed(sign, Positional(digits)))
    ensures ParseNumber(k, s) == Some(Signed(sign, Positional(digits)))
  {
    SpelledDigits(k, s, sign, digits);
    ValueIsPositional(digits);
    if sign == "" {
      ParseUnsigned(k, s);
    } else {
      ParseSigned(k, s);
    }
  }

  /** A text is accepted, with value v, exactly when it is a numeral for v and v is in the flag's range. */
  lemma AcceptedExactlyNumerals(k: Kind, s: string, v: int)
    ensures ParseNumber(k, s) == Some(v) <==> Numeral(k, s, v) && InRange(k, v)
  {
    if ParseNumber(k, s) == Some(v) {
      ParsedIsNumeral(k, s, v);
    }
    if Numeral(k, s, v) && InRange(k, v) {
      var sign: string, digits: string :| Spelled(k, s, sign, digits) && v == Signed(sign, Positional(digits));
      SpelledIsParsed(k, s, sign, digits);
    }
  }

  /** The six kinds in use, with the bounds written out. */
  lemma AcceptedSixKinds(s: string, v: int)
    ensures ParseNumber(INT8, s) == Some(v) <==> Numeral(INT8, s, v) && -128 <= v <= 127
    ensures ParseNumber(INT16, s) == Some(v) <==> Numeral(INT16, s, v) && -32_768 <= v <= 32_767
    ensures ParseNumber(INT32, s) == Some(v) <==> Numeral(INT32, s, v) && -2_147_483_648 <= v <= 2_147_483_647
    ensures ParseNumber(UINT8, s) == Some(v) <==> Numeral(UINT8, s, v) && 0 <= v <= 255
    ensures ParseNumber(UINT16, s) == Some(v) <==> Numeral(UINT16, s, v) && 0 <= v <= 65_535
    ensures ParseNumber(UINT32, s) == Some(v) <==> Numeral(UINT32, s, v) && 0 <= v <= 4_294_967_295
  {
    Bounds(v);
    AcceptedExactlyNumerals(INT8, s, v);
    AcceptedExactlyNumerals(INT16, s, v);
    AcceptedExactlyNumerals(INT32, s, v);
    AcceptedExactlyNumerals(UINT8, s, v);
    AcceptedExactlyNumerals(UINT16, s, v);
    AcceptedExactlyNumerals(UINT32, s, v);
  }

  /** No text is a numeral for two numbers. */
  lemma NumeralUnique(k: Kind, s: string, v: int, w: int)
    requires Numeral(k, s, v) && Numeral(k, s, w)
    ensures v == w
  {
    var a: string, d: string :| Spelled(k, s, a, d) && v == Signed(a, Positional(d));
    var b: string, e: string :| Spelled(k, s, b, e) && w == Signed(b, Positional(e));
    SpelledDigits(k, s, a, d);
    SpelledDigits(k, s, b, e);
  }

  /** An accepted value is always in the flag's range, and each value in range has an accepted text. */
  lemma AcceptedExactlyInRange(k: Kind, v: int)
    ensures InRange(k, v) <==> exists s :: ParseNumber(k, s) == Some(v)
  {
    if InRange(k, v) {
      ParseOfFormat(k, v);
    }
  }

  /** `int8Value` to `uint32Value`. */
  class IntegerFlag {
    const kind: Kind
    var v: int

    constructor (kind: Kind, v: int)
      requires InRange(kind, v)
      ensures this.kind == kind && this.v == v
    {
      this.kind := kind;
      this.v := v;
    }

    /** `Set`: an accepted text is the new value, a refused one changes nothing. */
    method Set(s: string) returns (accepted: bool)
      requires InRange(kind, v)
      modifies this
      ensures InRange(kind, v)
      ensures accepted <==> ParseNumber(kind, s).Some?
      ensures v == if accepted then ParseNumber(kind, s).value else old(v)
    {
      var r := ParseNumber(kind, s);
      if r.None? {
        return false;
      }
      NarrowKeeps(kind, r.value);
      v := Narrow(kind, r.value);
      return true;
    }

    /** `String`: setting any flag of the same kind to it gives this flag's value. */
    method String() returns (s: string)
      requires InRange(kind, v)
      ensures ParseNumber(kind, s) == Some(v)
    {
      ParseOfFormat(kind, v);
      s := Format(v);
    }
  }

  function LastAccepted(k: Kind, v: int, inputs: seq<string>): int {
    if inputs == [] then v
    else
      var r := ParseNumber(k, inputs[|inputs| - 1]);
      if r.Some? then r.value else LastAccepted(k, v, inputs[..|inputs| - 1])
  }

  /** Over any command line an integer flag holds the last accepted value, or its initial one. */
  method ParseAll(f: IntegerFlag, inputs: seq<string>)
    requires InRange(f.kind, f.v)
    modifies f
    ensures InRange(f.kind, f.v) && f.v == LastAccepted(f.kind, old(f.v), inputs)
  {
    for n := 0 to |inputs|
      invariant InRange(f.kind, f.v) && f.v == LastAccepted(f.kind, old(f.v), inputs[..n])
    {
      assert inputs[..n + 1][..n] == inputs[..n];
      var accepted := f.Set(inputs[n]);
    }
    assert inputs[..|inputs|] == inputs;
  }
}
