/** The GDS EL100 programmable attenuator: the command encoder behind `set`
    and the reading decoder behind `get`. Attenuation settings are integer
    hundredths of a dB, the instrument's resolution (00.00 to 99.99 dB). */
module El100 {
  import opened Wrappers
  import Decimal

  predicate IsDigit(c: char) {
    '0' <= c <= '9'
  }

  predicate AllDigits(s: string) {
    forall i :: 0 <= i < |s| ==> IsDigit(s[i])
  }

  lemma AllDigitsConcat(a: string, b: string)
    ensures AllDigits(a + b) <==> AllDigits(a) && AllDigits(b)
  {
    if AllDigits(a + b) {
      assert forall i :: 0 <= i < |a| ==> a[i] == (a + b)[i];
      assert forall i :: 0 <= i < |b| ==> b[i] == (a + b)[|a| + i];
    }
  }

  function DigitValue(c: char): (d: nat)
    requires IsDigit(c)
    ensures d < 10
  {
    c as int - '0' as int
  }

  function DigitChar(d: nat): (c: char)
    requires d < 10
    ensures IsDigit(c)
    ensures DigitValue(c) == d
  {
    ('0' as int + d) as char
  }

  /** Value of an attenuation of `h` hundredths, in dB. */
  function Decibels(h: int): real {
    h as real / 100.0
  }

  // ---------------------------------------------------------------------
  // "%05.2f" formatting of a number of hundredths
  // ---------------------------------------------------------------------

  /** Decimal numeral of n without leading zeros ("0" for zero). */
  function Numeral(n: nat): (s: string)
    ensures |s| >= 1
    ensures AllDigits(s)
    decreases n
  {
    if n < 10 then [DigitChar(n)] else Numeral(n / 10) + [DigitChar(n % 10)]
  }

  /** The two digits after the decimal point. */
  function Cents(c: nat): (s: string)
    requires c < 100
    ensures |s| == 2 && AllDigits(s)
  {
    [DigitChar(c / 10), DigitChar(c % 10)]
  }

  function ZeroPad(s: string, width: nat): (r: string)
    ensures |r| == if |s| >= width then |s| else width
  {
    if |s| >= width then s else seq(width - |s|, _ => '0') + s
  }

  /** Python's "%05.2f" applied to h/100: width 5, zero padded, two decimals.
      A negative value is already 5 characters wide ("-0.01"), so the
      padding only matters for non-negative values below 10. */
  function Format(h: int): (s: string)
    ensures |s| >= 5
    ensures h < 0 <==> s[0] == '-'
    ensures h >= 0 ==> AllDigits(s[..|s| - 3]) && s[|s| - 3] == '.'
  {
    if h >= 0 then
      var body := Numeral(h / 100) + "." + Cents(h % 100);
      var r := ZeroPad(body, 5);
      assert r[..|r| - 3] == (if |body| >= 5 then Numeral(h / 100) else ['0'] + Numeral(h / 100));
      r
    else
      "-" + Numeral((-h) / 100) + "." + Cents((-h) % 100)
  }

  lemma NumeralLength(n: nat)
    ensures n < 10 ==> |Numeral(n)| == 1
    ensures 10 <= n < 100 ==> |Numeral(n)| == 2
    ensures 100 <= n < 1000 ==> |Numeral(n)| == 3
    ensures 1000 <= n < 10000 ==> |Numeral(n)| == 4
    ensures 10000 <= n ==> |Numeral(n)| >= 5
    decreases n
  {
    if n >= 10 {
      NumeralLength(n / 10);
    }
  }

  /** In range, "%05.2f" yields exactly "dd.DD": tens, units, point, tenths, hundredths. */
  lemma {:induction false} FormatInRange(h: int)
    requires 0 <= h <= 9999
    ensures Format(h) == [DigitChar(h / 1000), DigitChar(h / 100 % 10), '.', DigitChar(h / 10 % 10), DigitChar(h % 10)]
  {
    DigitArithmetic(h);
    var body := Numeral(h / 100) + "." + Cents(h % 100);
    if h / 100 < 10 {
      assert h / 1000 == 0;
      assert ZeroPad(body, 5) == ['0'] + body;
    } else {
      assert h / 100 / 10 == h / 1000;
      assert Numeral(h / 100) == [DigitChar(h / 1000)] + [DigitChar(h / 100 % 10)];
    }
  }

  lemma DigitArithmetic(h: int)
    requires 0 <= h <= 9999
    ensures h % 100 / 10 == h / 10 % 10
    ensures h % 100 % 10 == h % 10
    ensures h / 100 / 10 == h / 1000
    ensures h / 100 % 10 == h / 100 - 10 * (h / 1000)
    ensures h == 1000 * (h / 1000) + 100 * (h / 100 % 10) + 10 * (h / 10 % 10) + h % 10
  {
    var d0, q1 := h % 10, h / 10;
    var d1, q2 := q1 % 10, q1 / 10;
    var d2, d3 := q2 % 10, q2 / 10;
    assert h == 10 * q1 + d0 && q1 == 10 * q2 + d1 && q2 == 10 * d3 + d2;
    assert d3 < 10;
    DigitsOf(h, d3, d2, d1, d0);
  }

  /** The decimal digits of a four-digit number, read off with / and %. */
  lemma DigitsOf(h: int, a: int, b: int, c: int, d: int)
    requires 0 <= a < 10 && 0 <= b < 10 && 0 <= c < 10 && 0 <= d < 10
    requires h == 1000 * a + 100 * b + 10 * c + d
    ensures h / 1000 == a && h / 100 == 10 * a + b && h / 10 == 100 * a + 10 * b + c
    ensures h % 10 == d && h % 100 == 10 * c + d
    ensures (10 * a + b) / 10 == a && (10 * a + b) % 10 == b
    ensures (100 * a + 10 * b + c) % 10 == c && (10 * c + d) / 10 == c && (10 * c + d) % 10 == d
  {
  }

  // ---------------------------------------------------------------------
  // Encoder: `set`
  // ---------------------------------------------------------------------

  /** Why `set` raises: a position read by the encoder is past the end of
      the text (IndexError) or is not a digit (ValueError from int()). */
  datatype SetError = IndexOutOfRange(index: nat) | NotADigit(index: nat, found: char)

  /** `set` accepts either text, used as is, or a number, formatted "%05.2f". */
  datatype SetArgument = Text(text: string) | Number(hundredths: int)

  /** First code of the character band of each command position. */
  const BandBase: seq<nat> := [64, 80, 96, 112]

  predicate InBand(k: nat, c: char)
    requires k < 4
  {
    BandBase[k] <= c as int < BandBase[k] + 10
  }

  function DigitAt(s: string, i: nat): (r: Result<nat, SetError>)
    ensures r.Ok? <==> i < |s| && IsDigit(s[i])
    ensures r.Ok? ==> r.value == DigitValue(s[i])
  {
    if i >= |s| then Err(IndexOutOfRange(i))
    else if !IsDigit(s[i]) then Err(NotADigit(i, s[i]))
    else Ok(DigitValue(s[i]))
  }

  /** chr(range(base, base + 10)[d]) for the band of position k. */
  function BandChar(k: nat, d: nat): (c: char)
    requires k < 4 && d < 10
    ensures InBand(k, c)
  {
    (BandBase[k] + d) as char
  }

  /** The four-character command for a formatted value: characters 0, 1, 3
      and 4 are read in that order, character 2 (the point) never is. */
  function Encode(s: string): (r: Result<string, SetError>)
    ensures r.Ok? <==> |s| >= 5 && IsDigit(s[0]) && IsDigit(s[1]) && IsDigit(s[3]) && IsDigit(s[4])
    ensures r.Ok? ==> |r.value| == 4 && forall k :: 0 <= k < 4 ==> InBand(k, r.value[k])
  {
    var d1 :- DigitAt(s, 0);
    var d2 :- DigitAt(s, 1);
    var d3 :- DigitAt(s, 3);
    var d4 :- DigitAt(s, 4);
    Ok([BandChar(0, d1), BandChar(1, d2), BandChar(2, d3), BandChar(3, d4)])
  }

  function Set(arg: SetArgument): (r: Result<string, SetError>)
    ensures r.Ok? ==> |r.value| == 4 && DecodeCommand(r.value).Some?
  {
    match arg
    case Text(s) => Encode(s)
    case Number(h) => Encode(Format(h))
  }

  /** Reads a command back: position k carries the digit ord(c) - BandBase[k]. */
  function DecodeCommand(cmd: string): (r: Option<int>)
    ensures r.Some? ==> 0 <= r.value <= 9999
  {
    if |cmd| == 4 && forall k :: 0 <= k < 4 ==> InBand(k, cmd[k]) then
      Some(1000 * (cmd[0] as int - 64) + 100 * (cmd[1] as int - 80)
           + 10 * (cmd[2] as int - 96) + (cmd[3] as int - 112))
    else
      None
  }

  /** The point position is never read: any character there gives the same command. */
  lemma EncodeIgnoresPoint(s: string, c: char)
    requires |s| >= 3
    ensures Encode(s[2 := c]) == Encode(s)
  {
  }

  /** Every value from 00.00 to 99.99 is accepted and its command decodes back to it. */
  lemma {:induction false} SetRoundTrip(h: int)
    requires 0 <= h <= 9999
    ensures Set(Number(h)).Ok?
    ensures DecodeCommand(Set(Number(h)).value) == Some(h)
  {
    FormatInRange(h);
    DigitArithmetic(h);
    EncodeDigits(h / 1000, h / 100 % 10, h / 10 % 10, h % 10);
  }

  /** The command for the text "ab.cd" decodes to the value abcd. */
  lemma EncodeDigits(a: nat, b: nat, c: nat, d: nat)
    requires a < 10 && b < 10 && c < 10 && d < 10
    ensures var cmd := Encode([DigitChar(a), DigitChar(b), '.', DigitChar(c), DigitChar(d)]);
      cmd == Ok([BandChar(0, a), BandChar(1, b), BandChar(2, c), BandChar(3, d)])
      && DecodeCommand(cmd.value) == Some(1000 * a + 100 * b + 10 * c + d)
  {
    var cmd := [BandChar(0, a), BandChar(1, b), BandChar(2, c), BandChar(3, d)];
    assert forall k :: 0 <= k < 4 ==> InBand(k, cmd[k]);
  }

  /** Distinct values in range give distinct commands. */
  lemma SetInjective(h1: int, h2: int)
    requires 0 <= h1 <= 9999 && 0 <= h2 <= 9999
    requires Set(Number(h1)) == Set(Number(h2))
    ensures h1 == h2
  {
    SetRoundTrip(h1);
    SetRoundTrip(h2);
  }

  /** Which numbers `set` accepts: 00.00 to 99.99, and also every value of
      10000.00 or more, whose first five characters are all digits. Negative
      values fail on the sign, 100.00 to 9999.99 on the point. */
  lemma {:induction false} SetAccepts(h: int)
    ensures Set(Number(h)).Ok? <==> (0 <= h <= 9999 || h >= 1000000)
  {
    if 0 <= h <= 9999 {
      FormatInRange(h);
    } else if h >= 10000 {
      var n := h / 100;
      NumeralLength(n);
      var s := Format(h);
      assert s == Numeral(n) + "." + Cents(h % 100);
      if n < 1000 {
        assert s[3] == '.';
      } else if n < 10000 {
        assert s[4] == '.';
      } else {
        assert s[..5] == Numeral(n)[..5];
      }
    }
  }

  /** Above the documented range the encoder silently wraps: 10000.00 dB is
      sent as the command for 10.00 dB. */
  lemma SetWrapsAboveRange()
    ensures Set(Number(1000000)) == Set(Number(1000))
    ensures Set(Number(1000000)).Ok?
  {
    FormatTenThousand();
    FormatTen();
    EncodeReadsFourPositions(Format(1000000), Format(1000));
  }

  lemma FormatTenThousand()
    ensures Format(1000000) == "10000.00"
  {
    NumeralTenThousand();
    assert Cents(0) == "00";
    assert Numeral(10000) + "." + Cents(0) == "10000.00";
  }

  lemma NumeralTenThousand()
    ensures Numeral(10000) == "10000"
  {
    assert Numeral(1) == "1";
    assert Numeral(10) == Numeral(1) + "0";
    assert Numeral(100) == Numeral(10) + "0";
    assert Numeral(1000) == Numeral(100) + "0";
    assert Numeral(10000) == Numeral(1000) + "0";
  }

  lemma FormatTen()
    ensures Format(1000) == "10.00"
  {
    FormatInRange(1000);
  }

  /** The encoder looks at positions 0, 1, 3 and 4 only. */
  lemma EncodeReadsFourPositions(s: string, t: string)
    requires |s| >= 5 && |t| >= 5
    requires s[0] == t[0] && s[1] == t[1] && s[3] == t[3] && s[4] == t[4]
    ensures Encode(s) == Encode(t)
  {
  }

  // ---------------------------------------------------------------------
  // Decoder: `get` and `get_attenuation`
  // ---------------------------------------------------------------------

  datatype GetError = NotPlainDecimal(text: string)

  /** Python slicing s[lo:hi] for 0 <= lo <= hi: clamped to the length. */
  function Slice(s: string, lo: nat, hi: nat): (r: string)
    requires lo <= hi
    ensures |r| <= hi - lo
  {
    var a := if lo <= |s| then lo else |s|;
    var b := if hi <= |s| then hi else |s|;
    s[a..b]
  }

  /** The text `get` hands to float(): "%s.%s" % (raw[0:2], raw[2:4]). */
  function ReadingText(raw: string): string {
    Slice(raw, 0, 2) + "." + Slice(raw, 2, 4)
  }

  /** Value of a digit string, most significant digit first. */
  function NumeralValue(s: string): (n: nat)
    requires AllDigits(s)
    ensures n < Decimal.Pow10(|s|)
    decreases |s|
  {
    if |s| == 0 then 0 else NumeralValue(s[..|s| - 1]) * 10 + DigitValue(s[|s| - 1])
  }

  /** The reading in hundredths. A raw reply whose first four characters are
      digits, or a shorter all-digit reply, is a plain decimal float() reads;
      anything else is reported as an error. */
  function Get(raw: string): (r: Result<int, GetError>)
    ensures r.Ok? ==> 0 <= r.value <= 9999
    ensures r.Ok? <==> |raw| >= 1 && AllDigits(Slice(raw, 0, 4))
  {
    var whole := Slice(raw, 0, 2);
    var frac := Slice(raw, 2, 4);
    assert Slice(raw, 0, 4) == whole + frac;
    AllDigitsConcat(whole, frac);
    if AllDigits(whole) && AllDigits(frac) && |whole| + |frac| >= 1 then
      assert NumeralValue(whole) < 100 by {
        assert |whole| == 0 || |whole| == 1 || |whole| == 2;
        if |whole| == 2 { assert whole[..1][..0] == ""; }
      }
      assert NumeralValue(frac) * (if |frac| == 1 then 10 else 1) < 100 by {
        if |frac| == 2 { assert frac[..1][..0] == ""; }
      }
      Ok(NumeralValue(whole) * 100 + NumeralValue(frac) * (if |frac| == 1 then 10 else 1))
    else
      Err(NotPlainDecimal(ReadingText(raw)))
  }

  /** `get_attenuation` is an alias of `get`. */
  function GetAttenuation(raw: string): (r: Result<int, GetError>)
    ensures r == Get(raw)
  {
    Get(raw)
  }

  /** A reply "abcd" of four digits reads as ab.cd dB. */
  lemma GetFourDigits(raw: string)
    requires |raw| >= 4 && AllDigits(raw[..4])
    ensures Get(raw).Ok?
    ensures Get(raw).value == 1000 * DigitValue(raw[0]) + 100 * DigitValue(raw[1])
                              + 10 * DigitValue(raw[2]) + DigitValue(raw[3])
    ensures Decibels(Get(raw).value) == 10.0 * DigitValue(raw[0]) as real + DigitValue(raw[1]) as real
                                        + DigitValue(raw[2]) as real / 10.0 + DigitValue(raw[3]) as real / 100.0
  {
    TwoDigitValue(raw[..2]);
    TwoDigitValue(raw[2..4]);
    assert Slice(raw, 0, 2) == raw[..2];
    assert Slice(raw, 2, 4) == raw[2..4];
  }

  /** A reply shorter than four digits: "abc" reads as ab.c, "ab" as
      ab. and "a" as a. dB. */
  lemma GetShortReply(raw: string)
    requires 1 <= |raw| < 4 && AllDigits(raw)
    ensures |raw| == 3 ==> Get(raw) == Ok(1000 * DigitValue(raw[0]) + 100 * DigitValue(raw[1]) + 10 * DigitValue(raw[2]))
    ensures |raw| == 2 ==> Get(raw) == Ok(1000 * DigitValue(raw[0]) + 100 * DigitValue(raw[1]))
    ensures |raw| == 1 ==> Get(raw) == Ok(100 * DigitValue(raw[0]))
  {
    assert Slice(raw, 0, 4) == raw;
    if |raw| >= 2 {
      assert Slice(raw, 0, 2) == raw[..2];
      TwoDigitValue(raw[..2]);
    } else {
      assert Slice(raw, 0, 2) == raw;
      assert raw[..0] == "";
    }
    if |raw| == 3 {
      var frac := Slice(raw, 2, 4);
      assert frac == [raw[2]];
      assert frac[..0] == "";
    } else {
      assert Slice(raw, 2, 4) == "";
    }
  }

  lemma TwoDigitValue(s: string)
    requires |s| == 2 && AllDigits(s)
    ensures NumeralValue(s) == 10 * DigitValue(s[0]) + DigitValue(s[1])
  {
    assert s[..1][..0] == "";
  }

  /** Only the first four characters of the reply matter. */
  lemma GetReadsFourCharacters(raw: string)
    requires |raw| >= 4
    ensures Get(raw) == Get(raw[..4])
  {
    assert Slice(raw, 0, 2) == Slice(raw[..4], 0, 2);
    assert Slice(raw, 2, 4) == Slice(raw[..4], 2, 4);
  }

  lemma GetExample()
    ensures Get("2053") == Ok(2053)
  {
    GetFourDigits("2053");
  }

  /** Feeding `get` the digits of `set`'s formatted text, point removed,
      returns the value that was set. */
  lemma ReadingRoundTrip(h: int)
    requires 0 <= h <= 9999
    ensures Get(Format(h)[..2] + Format(h)[3..5]) == Ok(h)
  {
    FormatInRange(h);
    DigitArithmetic(h);
    var f := Format(h);
    var raw := f[..2] + f[3..5];
    assert |raw| == 4 && raw[0] == f[0] && raw[1] == f[1] && raw[2] == f[3] && raw[3] == f[4];
    assert AllDigits(raw[..4]) by {
      assert raw[..4] == raw;
    }
    GetFourDigits(raw);
  }
}
