/**
 * The JavaScript string built-ins the invoice code relies on, written out exactly:
 * `String(n)` / `n.toString()` for integers, `padStart(2, "0")`, `split("\n")`
 * and `toFixed(2)` on an amount held as integer cents. Each has its inverse
 * beside it, so that a printed value can be read back.
 */
module Formatting {

  datatype Option<T> = None | Some(value: T)

  predicate IsDigit(c: char) {
    '0' <= c <= '9'
  }

  predicate AllDigits(s: string) {
    forall i :: 0 <= i < |s| ==> IsDigit(s[i])
  }

  function DigitChar(d: nat): (c: char)
    requires d < 10
    ensures IsDigit(c) && c as int - '0' as int == d
  {
    ('0' as int + d) as char
  }

  /** Decimal rendering of a natural number, most significant digit first. */
  function NatToString(n: nat): string
    decreases n
  {
    if n < 10 then [DigitChar(n)] else NatToString(n / 10) + [DigitChar(n % 10)]
  }

  /** The rendering is a non-empty digit string with no leading zero; it has one digit exactly below 10. */
  lemma {:induction false} NatToStringDigits(n: nat)
    ensures var s := NatToString(n);
      |s| >= 1 && AllDigits(s) && (|s| == 1 <==> n < 10) && (n >= 10 ==> s[0] != '0')
    decreases n
  {
    if n >= 10 {
      NatToStringDigits(n / 10);
      var s := NatToString(n);
      assert s == NatToString(n / 10) + [DigitChar(n % 10)];
      assert s[0] == NatToString(n / 10)[0];
    }
  }

  /** The value of a string of decimal digits (the inverse of NatToString). */
  function DigitsValue(s: string): nat
    requires AllDigits(s)
  {
    if s == [] then 0
    else DigitsValue(s[..|s| - 1]) * 10 + (s[|s| - 1] as int - '0' as int)
  }

  lemma {:induction false} DigitsValueOfNatToString(n: nat)
    ensures AllDigits(NatToString(n))
    ensures DigitsValue(NatToString(n)) == n
    decreases n
  {
    NatToStringDigits(n);
    if n >= 10 {
      var s := NatToString(n);
      assert s[..|s| - 1] == NatToString(n / 10);
      DigitsValueOfNatToString(n / 10);
    }
  }

  /** A number from 1000 to 9999 prints as four digits. */
  lemma FourDigits(n: nat)
    requires 1000 <= n < 10000
    ensures |NatToString(n)| == 4
  {
    assert NatToString(n) == NatToString(n / 10) + [DigitChar(n % 10)];
    assert NatToString(n / 10) == NatToString(n / 100) + [DigitChar(n / 10 % 10)];
    assert NatToString(n / 100) == NatToString(n / 1000) + [DigitChar(n / 100 % 10)];
    assert n / 1000 < 10;
  }

  /** `String(i)` for an integer-valued JavaScript number. */
  function IntToString(i: int): string
  {
    if i < 0 then "-" + NatToString(-i) else NatToString(i)
  }

  /** An integer prints as its digits, behind a "-" exactly when it is negative, and reads back. */
  lemma IntToStringDigits(i: int)
    ensures var s := IntToString(i);
      (i >= 0 ==> AllDigits(s) && DigitsValue(s) == i) &&
      (i < 0 ==> |s| >= 2 && s[0] == '-' && AllDigits(s[1..]) && DigitsValue(s[1..]) == -i)
  {
    if i < 0 {
      DigitsValueOfNatToString(-i);
      NatToStringDigits(-i);
      assert IntToString(i)[1..] == NatToString(-i);
    } else {
      DigitsValueOfNatToString(i);
    }
  }

  /** `s.padStart(width, "0")`: leading zeros up to the given width; a longer string is left alone. */
  function PadStart(s: string, width: nat): (r: string)
    ensures |r| == if |s| >= width then |s| else width
  {
    if |s| >= width then s else "0" + PadStart(s, width - 1)
  }

  /** A run of n zeros. */
  function Zeros(n: nat): string
  {
    if n == 0 then "" else "0" + Zeros(n - 1)
  }

  /** Padding only ever prepends zeros. */
  lemma {:induction false} PadStartZeros(s: string, width: nat)
    ensures |s| >= width ==> PadStart(s, width) == s
    ensures |s| < width ==> PadStart(s, width) == Zeros(width - |s|) + s
  {
    if |s| < width {
      PadStartZeros(s, width - 1);
      if |s| < width - 1 {
        assert "0" + (Zeros(width - 1 - |s|) + s) == ("0" + Zeros(width - 1 - |s|)) + s;
      } else {
        assert Zeros(1) == "0" + Zeros(0);
      }
    }
  }

  /** Leading zeros change neither digit-ness nor the value. */
  lemma {:induction false} LeadingZeros(n: nat, s: string)
    requires AllDigits(s)
    ensures AllDigits(Zeros(n) + s)
    ensures DigitsValue(Zeros(n) + s) == DigitsValue(s)
  {
    if n > 0 {
      LeadingZeros(n - 1, s);
      var rest := Zeros(n - 1) + s;
      assert Zeros(n) + s == "0" + rest;
      ZeroPrefix(rest);
    } else {
      assert Zeros(n) + s == s;
    }
  }

  /** One leading zero changes neither digit-ness nor the value. */
  lemma {:induction false} ZeroPrefix(s: string)
    requires AllDigits(s)
    ensures AllDigits("0" + s)
    ensures DigitsValue("0" + s) == DigitsValue(s)
    decreases |s|
  {
    var z := "0" + s;
    assert AllDigits(z) by {
      forall i | 0 <= i < |z| ensures IsDigit(z[i]) {
        if i > 0 {
          assert z[i] == s[i - 1];
        }
      }
    }
    if |s| > 0 {
      assert z[..|z| - 1] == "0" + s[..|s| - 1];
      ZeroPrefix(s[..|s| - 1]);
    } else {
      assert z[..0] == [];
    }
  }

  /** The value of a digit string is the value of all but its last two digits, times 100, plus those two. */
  lemma LastTwoDigits(s: string)
    requires AllDigits(s) && |s| >= 2
    ensures AllDigits(s[..|s| - 2]) && AllDigits(s[|s| - 2..])
    ensures DigitsValue(s) == DigitsValue(s[..|s| - 2]) * 100 + DigitsValue(s[|s| - 2..])
  {
    var f := s[|s| - 2..];
    assert s[..|s| - 1][..|s| - 2] == s[..|s| - 2];
    assert f[..1][..0] == [];
    assert f[..1] == [s[|s| - 2]];
  }

  /** Two-digit, zero-padded rendering of a number below 100, read back exactly. */
  lemma TwoDigits(n: nat)
    requires n < 100
    ensures |PadStart(NatToString(n), 2)| == 2
    ensures AllDigits(PadStart(NatToString(n), 2))
    ensures DigitsValue(PadStart(NatToString(n), 2)) == n
  {
    var s := NatToString(n);
    DigitsValueOfNatToString(n);
    NatToStringDigits(n);
    if n >= 10 {
      NatToStringDigits(n / 10);
    }
    PadStartZeros(s, 2);
    if |s| < 2 {
      LeadingZeros(2 - |s|, s);
    }
  }

  /**
   * `(c / 100).toFixed(2)` for an amount of c cents: the digits of |c|, padded
   * to at least three, with a point before the last two; no thousands
   * separators, a leading "-" when negative.
   */
  function ToFixed2(cents: int): string
  {
    var a := if cents < 0 then -cents else cents;
    var s := PadStart(NatToString(a), 3);
    (if cents < 0 then "-" else "") + s[..|s| - 2] + "." + s[|s| - 2..]
  }

  /** A currency cell: `$${x.toFixed(2)}`. */
  function Dollars(cents: int): string
  {
    "$" + ToFixed2(cents)
  }

  /** Reads back a `toFixed(2)` rendering; None for anything else. */
  function ParseFixed2(s: string): (r: Option<int>)
  {
    if |s| >= 4 && s[|s| - 3] == '.' && AllDigits(s[|s| - 2..]) then
      ParseWhole(s[..|s| - 3], DigitsValue(s[|s| - 2..]))
    else None
  }

  /** The part before the point, optionally signed, combined with the cents after it. */
  function ParseWhole(whole: string, frac: nat): Option<int> {
    if |whole| >= 2 && whole[0] == '-' && AllDigits(whole[1..]) then Some(-(DigitsValue(whole[1..]) * 100 + frac))
    else if |whole| >= 1 && AllDigits(whole) then Some(DigitsValue(whole) * 100 + frac)
    else None
  }

  /** Reads back a currency cell. */
  function ParseDollars(s: string): (r: Option<int>)
  {
    if |s| >= 1 && s[0] == '$' then ParseFixed2(s[1..]) else None
  }

  /** Where ParseFixed2 looks in a rendering `whole.ff`. */
  lemma Fixed2Parts(whole: string, f: string)
    requires |f| == 2
    ensures var s := whole + "." + f;
      |s| >= 3 && s[|s| - 3] == '.' && s[..|s| - 3] == whole && s[|s| - 2..] == f
  {
    var s := whole + "." + f;
    assert s[..|s| - 3] == whole;
    assert s[|s| - 2..] == f;
  }

  /** ParseFixed2 splits `whole.ff` at the point and reads the two parts. */
  lemma ParseFixed2Of(whole: string, f: string)
    requires |whole| >= 1 && |f| == 2 && AllDigits(f)
    ensures ParseFixed2(whole + "." + f) == ParseWhole(whole, DigitsValue(f))
  {
    var s := whole + "." + f;
    Fixed2Parts(whole, f);
    assert |s| >= 4 && AllDigits(s[|s| - 2..]);
  }

  /** Behind a minus sign the digits read as a negative amount. */
  lemma NegativeWhole(w: string, frac: nat)
    requires |w| >= 1 && AllDigits(w)
    ensures ParseWhole("-" + w, frac) == Some(-(DigitsValue(w) * 100 + frac))
  {
    assert ("-" + w)[1..] == w;
  }

  /** The zero-padded digits of a: at least three of them, worth a. */
  lemma PaddedDigits(a: nat)
    ensures var s := PadStart(NatToString(a), 3);
      |s| >= 3 && AllDigits(s) && DigitsValue(s) == a
  {
    var t := NatToString(a);
    DigitsValueOfNatToString(a);
    PadStartZeros(t, 3);
    if |t| < 3 {
      LeadingZeros(3 - |t|, t);
    }
  }

  /** toFixed(2) on integer cents loses nothing: the rendering reads back to the same amount. */
  lemma ParseFixed2OfToFixed2(cents: int)
    ensures ParseFixed2(ToFixed2(cents)) == Some(cents)
  {
    var a := if cents < 0 then -cents else cents;
    var s := PadStart(NatToString(a), 3);
    PaddedDigits(a);
    LastTwoDigits(s);
    var w, f := s[..|s| - 2], s[|s| - 2..];
    var whole := if cents < 0 then "-" + w else w;
    ToFixed2Shape(cents);
    ParseFixed2Of(whole, f);
    if cents < 0 {
      NegativeWhole(w, DigitsValue(f));
    }
  }

  /** The rendering is the optional sign and the padded digits but the last two, a point, and the last two. */
  lemma ToFixed2Shape(cents: int)
    ensures var s := PadStart(NatToString(if cents < 0 then -cents else cents), 3);
      |s| >= 3 &&
      ToFixed2(cents) == (if cents < 0 then "-" + s[..|s| - 2] else s[..|s| - 2]) + "." + s[|s| - 2..]
  {
    var s := PadStart(NatToString(if cents < 0 then -cents else cents), 3);
    assert "" + s[..|s| - 2] == s[..|s| - 2];
  }

  /** Below one hundred, the two-digit padding is the tens digit then the units digit. */
  lemma TwoDigitCents(n: nat)
    requires n < 100
    ensures PadStart(NatToString(n), 2) == [DigitChar(n / 10), DigitChar(n % 10)]
  {
    if n < 10 {
      assert PadStart(NatToString(n), 2) == "0" + [DigitChar(n)];
    }
  }

  /** From one hundred up, the decimal rendering is that of the hundreds followed by the last two digits. */
  lemma HundredsAndRest(a: nat)
    requires a >= 100
    ensures NatToString(a) == NatToString(a / 100) + PadStart(NatToString(a % 100), 2)
  {
    var q, r := a / 100, a % 100;
    assert a / 10 == 10 * q + r / 10 && (a / 10) / 10 == q && (a / 10) % 10 == r / 10;
    assert a % 10 == r % 10;
    TwoDigitCents(r);
    calc {
      NatToString(a);
      NatToString(a / 10) + [DigitChar(a % 10)];
      NatToString(q) + [DigitChar(r / 10)] + [DigitChar(r % 10)];
    }
  }

  /**
   * `toFixed(2)` of a whole number of cents: the sign when negative, the whole dollars in
   * plain decimal (no leading zero, "0" below one dollar), a point, and the cents as exactly
   * two digits.
   */
  lemma ToFixed2DollarsCents(cents: int)
    ensures var a := if cents < 0 then -cents else cents;
      ToFixed2(cents) ==
        (if cents < 0 then "-" else "") + NatToString(a / 100) + "." + PadStart(NatToString(a % 100), 2)
  {
    var a := if cents < 0 then -cents else cents;
    var t, p := NatToString(a), PadStart(NatToString(a % 100), 2);
    var s := PadStart(t, 3);
    TwoDigits(a % 100);
    if a >= 100 {
      HundredsAndRest(a);
      NatToStringDigits(a / 100);
      assert s == t == NatToString(a / 100) + p;
    } else {
      TwoDigitCents(a);
      NatToStringDigits(a);
      assert s == "0" + PadStart(t, 2) == NatToString(a / 100) + p;
    }
    assert s[..|s| - 2] == NatToString(a / 100) && s[|s| - 2..] == p;
  }

  /** Zero is printed as "$0.00". */
  lemma DollarsZero()
    ensures Dollars(0) == "$0.00"
  {
    assert NatToString(0) == "0";
    PadStartZeros("0", 3);
    assert Zeros(2) == "00";
    assert PadStart("0", 3) == "000";
    assert ToFixed2(0) == "0" + "." + "00";
  }

  lemma ParseDollarsOfDollars(cents: int)
    ensures ParseDollars(Dollars(cents)) == Some(cents)
  {
    ParseFixed2OfToFixed2(cents);
    assert Dollars(cents)[1..] == ToFixed2(cents);
  }

  /* ---------- split("\n") and its inverse ---------- */

  /** `s.split("\n")`: always at least one piece, pieces never contain a newline. */
  function Split(s: string): (r: seq<string>)
    ensures |r| >= 1
    ensures forall i :: 0 <= i < |r| ==> '\n' !in r[i]
    ensures Join(r) == s
    decreases |s|
  {
    if |s| == 0 then [""]
    else
      var rest := Split(s[1..]);
      if s[0] == '\n' then [""] + rest
      else [[s[0]] + rest[0]] + rest[1..]
  }

  /** `pieces.join("\n")`. */
  function Join(pieces: seq<string>): string
  {
    if |pieces| == 0 then ""
    else if |pieces| == 1 then pieces[0]
    else pieces[0] + "\n" + Join(pieces[1..])
  }

  /** Number of newlines in a string. */
  function Newlines(s: string): nat
  {
    if |s| == 0 then 0 else (if s[0] == '\n' then 1 else 0) + Newlines(s[1..])
  }

  /** A string with k newlines splits into k + 1 lines. */
  lemma {:induction false} SplitLength(s: string)
    ensures |Split(s)| == Newlines(s) + 1
    decreases |s|
  {
    if |s| > 0 {
      SplitLength(s[1..]);
    }
  }

  /** Splitting a join of newline-free pieces gives the pieces back. */
  lemma {:induction false} SplitJoin(pieces: seq<string>)
    requires |pieces| >= 1
    requires forall i :: 0 <= i < |pieces| ==> '\n' !in pieces[i]
    ensures Split(Join(pieces)) == pieces
    decreases |pieces|, |pieces[0]|
  {
    var p := pieces[0];
    if |pieces| == 1 {
      SplitNoNewline(p);
    } else if |p| == 0 {
      var tail := pieces[1..];
      assert Join(pieces) == "\n" + Join(tail);
      SplitJoin(tail);
      assert ("\n" + Join(tail))[1..] == Join(tail);
    } else {
      var shorter := [p[1..]] + pieces[1..];
      assert forall i :: 0 <= i < |shorter| ==> '\n' !in shorter[i] by {
        forall i | 0 <= i < |shorter| ensures '\n' !in shorter[i] {
          if i == 0 {
            assert forall j :: 0 <= j < |p[1..]| ==> p[1..][j] == p[j + 1];
          } else {
            assert shorter[i] == pieces[i];
          }
        }
      }
      assert shorter[1..] == pieces[1..];
      assert Join(pieces) == [p[0]] + Join(shorter);
      SplitJoin(shorter);
      assert ([p[0]] + Join(shorter))[1..] == Join(shorter);
      assert [p[0]] + p[1..] == p;
      assert pieces == [p] + pieces[1..];
    }
  }

  lemma {:induction false} SplitNoNewline(s: string)
    requires '\n' !in s
    ensures Split(s) == [s]
    decreases |s|
  {
    if |s| > 0 {
      assert '\n' !in s[1..] by {
        assert forall j :: 0 <= j < |s[1..]| ==> s[1..][j] == s[j + 1];
      }
      SplitNoNewline(s[1..]);
      assert [s[0]] + s[1..] == s;
    }
  }
}
