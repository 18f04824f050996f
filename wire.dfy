/** The ASCII wire format spoken to the LED microcontroller: three integers
    rendered as Python's `str(int(...))` renders them, separated by single
    spaces and terminated by "\n\r". A parser for the same format is given
    as the partner of the renderer, and the round trip is proved. */
module Wire {

  datatype Option<T> = None | Some(value: T)

  /** The three channel values carried by one serial line. */
  datatype Levels = Levels(red: int, green: int, blue: int)

  const Terminator: string := "\n\r"

  /** Python's `int()` applied to a float: truncation toward zero. */
  function Truncate(x: real): (n: int)
    ensures 0.0 <= x ==> 0 <= n && n as real <= x < n as real + 1.0
    ensures x < 0.0 ==> n <= 0 && n as real - 1.0 < x <= n as real
  {
    if x >= 0.0 then x.Floor else -((-x).Floor)
  }

  predicate IsDigit(ch: char) {
    '0' <= ch <= '9'
  }

  predicate AllDigits(s: string) {
    forall i :: 0 <= i < |s| ==> IsDigit(s[i])
  }

  function DigitChar(d: nat): (ch: char)
    requires d < 10
    ensures IsDigit(ch) && (ch as int) - ('0' as int) == d
  {
    (('0' as int) + d) as char
  }

  /** Decimal digits of a natural number, most significant first, without
      leading zeros. */
  function NatDigits(n: nat): (s: string)
    decreases n
  {
    if n < 10 then [DigitChar(n)] else NatDigits(n / 10) + [DigitChar(n % 10)]
  }

  /** Python's `str()` of an integer. */
  function Decimal(n: int): string {
    if n < 0 then "-" + NatDigits(-n) else NatDigits(n)
  }

  /** The value of a string of decimal digits. */
  function DigitsValue(s: string): (v: nat)
    requires AllDigits(s)
  {
    if s == [] then 0
    else DigitsValue(s[..|s| - 1]) * 10 + ((s[|s| - 1] as int) - ('0' as int))
  }

  /** Reads back what `Decimal` writes: an optional minus sign, then digits. */
  function ParseInt(s: string): Option<int> {
    if |s| >= 2 && s[0] == '-' && AllDigits(s[1..]) then
      var magnitude: int := DigitsValue(s[1..]); Some(-magnitude)
    else if |s| >= 1 && AllDigits(s) then Some(DigitsValue(s))
    else None
  }

  /** Splits a string at every space, as `str.split(" ")` does. */
  function Fields(s: string): (r: seq<string>)
    ensures |r| >= 1
  {
    if s == [] then [[]]
    else if s[0] == ' ' then [[]] + Fields(s[1..])
    else var rest := Fields(s[1..]); [[s[0]] + rest[0]] + rest[1..]
  }

  /** One serial line, `str(int(red)) + " " + str(int(green)) + " " + str(int(blue)) + "\n\r"`. */
  function Line(l: Levels): string {
    Decimal(l.red) + " " + Decimal(l.green) + " " + Decimal(l.blue) + Terminator
  }

  /** What the microcontroller reads from one line. */
  function ParseLine(s: string): Option<Levels> {
    if |s| < 2 || s[|s| - 2..] != Terminator then None
    else
      var f := Fields(s[..|s| - 2]);
      if |f| != 3 then None
      else match (ParseInt(f[0]), ParseInt(f[1]), ParseInt(f[2]))
        case (Some(r), Some(g), Some(b)) => Some(Levels(r, g, b))
        case _ => None
  }

  lemma {:induction false} NatDigitsRoundTrip(n: nat)
    ensures |NatDigits(n)| >= 1 && AllDigits(NatDigits(n))
    ensures DigitsValue(NatDigits(n)) == n
    decreases n
  {
    if n >= 10 {
      NatDigitsRoundTrip(n / 10);
      var s := NatDigits(n / 10);
      var t := s + [DigitChar(n % 10)];
      assert t[..|t| - 1] == s;
    }
  }

  /** `Decimal` never produces a space, so it stays one field of a line. */
  lemma DecimalHasNoSpace(n: int)
    ensures |Decimal(n)| >= 1 && ' ' !in Decimal(n)
  {
    var m: nat := if n < 0 then -n else n;
    var digits := NatDigits(m);
    NatDigitsRoundTrip(m);
    assert ' ' !in digits by {
      forall i | 0 <= i < |digits| ensures digits[i] != ' ' {
        assert IsDigit(digits[i]);
      }
    }
    if n < 0 {
      assert Decimal(n) == "-" + digits;
    } else {
      assert Decimal(n) == digits;
    }
  }

  lemma DecimalRoundTrip(n: int)
    ensures ParseInt(Decimal(n)) == Some(n)
  {
    if n < 0 {
      NatDigitsRoundTrip(-n);
      assert Decimal(n)[1..] == NatDigits(-n);
    } else {
      NatDigitsRoundTrip(n);
    }
  }

  lemma {:induction false} FieldsOfWord(a: string)
    requires ' ' !in a
    ensures Fields(a) == [a]
  {
    if a != [] {
      assert a[0] in a;
      FieldsOfWord(a[1..]);
      assert [a[0]] + a[1..] == a;
    }
  }

  lemma {:induction false} FieldsSplitAtSpace(a: string, b: string)
    requires ' ' !in a
    ensures Fields(a + " " + b) == [a] + Fields(b)
  {
    if a == [] {
      assert (a + " " + b)[1..] == b;
    } else {
      var s := a + " " + b;
      assert a[0] in a;
      assert s[0] == a[0] && s[1..] == a[1..] + " " + b;
      FieldsSplitAtSpace(a[1..], b);
      assert [a[0]] + a[1..] == a;
    }
  }

  lemma FieldsOfThree(x: string, y: string, z: string)
    requires ' ' !in x && ' ' !in y && ' ' !in z
    ensures Fields(x + " " + y + " " + z) == [x, y, z]
  {
    FieldsOfWord(z);
    FieldsSplitAtSpace(y, z);
    assert x + " " + y + " " + z == x + " " + (y + " " + z);
    FieldsSplitAtSpace(x, y + " " + z);
  }

  lemma StripTerminator(body: string)
    ensures ParseLine(body + Terminator) ==
      var f := Fields(body);
      if |f| != 3 then None
      else match (ParseInt(f[0]), ParseInt(f[1]), ParseInt(f[2]))
        case (Some(r), Some(g), Some(b)) => Some(Levels(r, g, b))
        case _ => None
  {
  }

  /** The line format is unambiguous: the microcontroller recovers exactly
      the three integers that were written. */
  lemma LineRoundTrip(l: Levels)
    ensures ParseLine(Line(l)) == Some(l)
  {
    var dr, dg, db := Decimal(l.red), Decimal(l.green), Decimal(l.blue);
    DecimalHasNoSpace(l.red);
    DecimalHasNoSpace(l.green);
    DecimalHasNoSpace(l.blue);
    DecimalRoundTrip(l.red);
    DecimalRoundTrip(l.green);
    DecimalRoundTrip(l.blue);
    FieldsOfThree(dr, dg, db);
    StripTerminator(dr + " " + dg + " " + db);
  }

  /** Distinct channel values never give the same line. */
  lemma LineInjective(l1: Levels, l2: Levels)
    requires Line(l1) == Line(l2)
    ensures l1 == l2
  {
    LineRoundTrip(l1);
    LineRoundTrip(l2);
  }
}
