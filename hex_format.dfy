/** Python's `format(n, "02x")` and the `#rrggbb` fill strings built from it,
    with the parse that reads such a string back. */
module HexFormat {

  /** The lower-case hexadecimal digit of d. */
  function HexDigit(d: nat): (c: char)
    requires d < 16
  {
    if d < 10 then ('0' as int + d) as char else ('a' as int + d - 10) as char
  }

  predicate IsHexChar(c: char)
  {
    '0' <= c <= '9' || 'a' <= c <= 'f'
  }

  /** The value of a lower-case hexadecimal digit (0 for any other character). */
  function DigitValue(c: char): nat
  {
    if '0' <= c <= '9' then c as int - '0' as int
    else if 'a' <= c <= 'f' then c as int - 'a' as int + 10
    else 0
  }

  /** The hexadecimal digits of n, most significant first, without leading zeros. */
  function HexDigits(n: nat): (s: string)
    ensures 1 <= |s|
    decreases n
  {
    if n < 16 then [HexDigit(n)] else HexDigits(n / 16) + [HexDigit(n % 16)]
  }

  /** `format(n, "02x")`: the digits of n, padded on the left with '0' to at least two. */
  function Hex02(n: nat): string
  {
    var digits := HexDigits(n);
    if |digits| < 2 then "0" + digits else digits
  }

  /** The value of a string of hexadecimal digits, most significant first. */
  function HexValue(s: string): nat
  {
    if s == [] then 0 else HexValue(s[..|s| - 1]) * 16 + DigitValue(s[|s| - 1])
  }

  /** The f-string `#{r:02x}{g:02x}{b:02x}`. */
  function ColorHex(r: nat, g: nat, b: nat): string
  {
    "#" + Hex02(r) + Hex02(g) + Hex02(b)
  }

  lemma DigitRoundTrip(d: nat)
    requires d < 16
    ensures IsHexChar(HexDigit(d)) && DigitValue(HexDigit(d)) == d
  {
  }

  /** Reading the digits back gives n, and every digit is a hexadecimal character. */
  lemma {:induction false} HexDigitsRoundTrip(n: nat)
    ensures HexValue(HexDigits(n)) == n
    ensures forall i :: 0 <= i < |HexDigits(n)| ==> IsHexChar(HexDigits(n)[i])
    decreases n
  {
    if n < 16 {
      DigitRoundTrip(n);
    } else {
      var s := HexDigits(n / 16);
      HexDigitsRoundTrip(n / 16);
      DigitRoundTrip(n % 16);
      assert (s + [HexDigit(n % 16)])[..|s|] == s;
    }
  }

  /** n has at most two digits exactly when it is below 256. */
  lemma {:induction false} HexDigitsAtMostTwo(n: nat)
    ensures |HexDigits(n)| <= 2 <==> n < 256
    ensures |HexDigits(n)| == 1 <==> n < 16
    decreases n
  {
    if n >= 16 {
      HexDigitsAtMostTwo(n / 16);
    }
  }

  /** For one byte, `02x` yields exactly the high and the low nibble. */
  lemma Hex02Byte(n: nat)
    requires n < 256
    ensures Hex02(n) == [HexDigit(n / 16), HexDigit(n % 16)]
  {
    HexDigitsAtMostTwo(n);
    if n >= 16 {
      assert HexDigits(n / 16) == [HexDigit(n / 16)];
    }
  }

  /** `02x` is exactly two characters long precisely for the values 0..255. */
  lemma Hex02Length(n: nat)
    ensures 2 <= |Hex02(n)|
    ensures |Hex02(n)| == 2 <==> n < 256
  {
    HexDigitsAtMostTwo(n);
  }

  /** The padding '0' does not change the value: parsing undoes `02x`. */
  lemma Hex02RoundTrip(n: nat)
    ensures HexValue(Hex02(n)) == n
    ensures forall i :: 0 <= i < |Hex02(n)| ==> IsHexChar(Hex02(n)[i])
  {
    HexDigitsRoundTrip(n);
    HexDigitsAtMostTwo(n);
    if n < 16 {
      var s := "0" + HexDigits(n);
      assert s[..1] == "0";
      assert HexValue("0") == 0;
    }
  }

  /** A fill string is the 7 characters `#rrggbb` exactly when every channel is
      a byte, and then each channel reads back from its two digits. */
  lemma ColorHexShape(r: nat, g: nat, b: nat)
    ensures |ColorHex(r, g, b)| == 7 <==> r < 256 && g < 256 && b < 256
    ensures r < 256 && g < 256 && b < 256 ==>
              var s := ColorHex(r, g, b);
              && s[0] == '#'
              && (forall i :: 1 <= i < 7 ==> IsHexChar(s[i]))
              && HexValue(s[1..3]) == r && HexValue(s[3..5]) == g && HexValue(s[5..7]) == b
  {
    Hex02Length(r);
    Hex02Length(g);
    Hex02Length(b);
    if r < 256 && g < 256 && b < 256 {
      var s := ColorHex(r, g, b);
      Hex02RoundTrip(r);
      Hex02RoundTrip(g);
      Hex02RoundTrip(b);
      assert s[1..3] == Hex02(r);
      assert s[3..5] == Hex02(g);
      assert s[5..7] == Hex02(b);
      forall i | 1 <= i < 7
        ensures IsHexChar(s[i])
      {
        if i < 3 {
          assert s[i] == Hex02(r)[i - 1];
        } else if i < 5 {
          assert s[i] == Hex02(g)[i - 3];
        } else {
          assert s[i] == Hex02(b)[i - 5];
        }
      }
    }
  }
}
