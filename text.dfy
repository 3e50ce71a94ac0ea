/** Number rendering and column layout used by the archive listing:
    Java's `Integer.toString(i, radix)`, `String.format("%10d")`,
    `String.format("%08x")`, and tab-separated columns, each with its
    inverse so that the rendering is shown to lose no information. */
module Text {

  import opened Wrappers
  import JavaInt

  /** The lower-case digit for `d` (as `Integer.toString` and `%x` print it). */
  function DigitChar(d: nat): (c: char)
    requires d < 16
    ensures DigitValue(c) == d
  {
    if d < 10 then ('0' as int + d) as char else ('a' as int + d - 10) as char
  }

  /** The value of a digit character, or -1 for any other character. */
  function DigitValue(c: char): int
  {
    if '0' <= c <= '9' then c as int - '0' as int
    else if 'a' <= c <= 'f' then c as int - 'a' as int + 10
    else -1
  }

  predicate IsDigit(c: char, radix: nat)
  {
    0 <= DigitValue(c) < radix
  }

  predicate AllDigits(s: string, radix: nat)
  {
    forall i :: 0 <= i < |s| ==> IsDigit(s[i], radix)
  }

  /** The digits of `n` in base `radix`, most significant first, without
      leading zeros. */
  function NatToDigits(n: nat, radix: nat): (s: string)
    requires 2 <= radix <= 16
    ensures 1 <= |s|
    ensures AllDigits(s, radix)
    ensures s[0] == '0' ==> n == 0 && |s| == 1
    decreases n
  {
    if n < radix then [DigitChar(n)]
    else
      DivMod(n, radix);
      NatToDigits(n / radix, radix) + [DigitChar(n % radix)]
  }

  /** Euclidean division by a radix. */
  lemma DivMod(n: nat, radix: nat)
    requires 2 <= radix
    ensures n == (n / radix) * radix + n % radix
    ensures 0 <= n % radix < radix
    ensures n >= radix ==> 1 <= n / radix < n
  {
    if n >= radix {
      var q := n / radix;
      assert q >= 1;
      MulMonotone(radix, 2, q);
      assert n >= q * radix;
    }
  }

  /** The value of a digit string (the inverse of `NatToDigits`). */
  function DigitsValue(s: string, radix: nat): nat
    requires 2 <= radix <= 16
    requires AllDigits(s, radix)
  {
    if s == [] then 0
    else DigitsValue(s[..|s| - 1], radix) * radix + DigitValue(s[|s| - 1])
  }

  lemma {:induction false} DigitsRoundTrip(n: nat, radix: nat)
    requires 2 <= radix <= 16
    ensures DigitsValue(NatToDigits(n, radix), radix) == n
    decreases n
  {
    var s := NatToDigits(n, radix);
    if n >= radix {
      DivMod(n, radix);
      DigitsRoundTrip(n / radix, radix);
      assert s[..|s| - 1] == NatToDigits(n / radix, radix);
    }
  }

  /** Leading zeros do not change the value of a digit string. */
  lemma {:induction false} LeadingZeros(z: string, s: string, radix: nat)
    requires 2 <= radix <= 16
    requires forall i :: 0 <= i < |z| ==> z[i] == '0'
    requires AllDigits(s, radix)
    ensures AllDigits(z + s, radix)
    ensures DigitsValue(z + s, radix) == DigitsValue(s, radix)
    decreases |s|, |z|
  {
    assert AllDigits(z + s, radix) by {
      forall i | 0 <= i < |z + s| ensures IsDigit((z + s)[i], radix) {
        if i < |z| { assert (z + s)[i] == '0'; } else { assert (z + s)[i] == s[i - |z|]; }
      }
    }
    if s == [] {
      assert z + s == z;
      if z != [] {
        var init := z[..|z| - 1];
        assert init + [] == init;
        LeadingZeros(init, [], radix);
        assert DigitValue(z[|z| - 1]) == 0;
      }
    } else {
      var init := s[..|s| - 1];
      assert (z + s)[..|z + s| - 1] == z + init;
      LeadingZeros(z, init, radix);
    }
  }

  function Pow(b: nat, k: nat): (r: nat)
    ensures b >= 1 ==> r >= 1
  {
    if k == 0 then 1 else b * Pow(b, k - 1)
  }

  lemma MulMonotone(a: nat, b: nat, c: nat)
    requires a >= b
    ensures a * c >= b * c
  {
  }

  /** A number below radix^k has at most k digits. */
  lemma {:induction false} DigitsLength(n: nat, radix: nat, k: nat)
    requires 2 <= radix <= 16
    requires 1 <= k
    requires n < Pow(radix, k)
    ensures |NatToDigits(n, radix)| <= k
    decreases n
  {
    if n >= radix {
      assert k >= 2;
      var p := Pow(radix, k - 1);
      assert n < radix * p;
      DivMod(n, radix);
      assert n / radix < p by {
        if n / radix >= p {
          MulMonotone(n / radix, p, radix);
        }
      }
      DigitsLength(n / radix, radix, k - 1);
    }
  }

  /** Java's `Integer.toString(i, radix)` / `Long.toString(i, radix)`:
      a minus sign for negative values, then the digits of the magnitude. */
  function IntToStringRadix(i: int, radix: nat): (s: string)
    requires 2 <= radix <= 16
    ensures 1 <= |s|
    ensures i < 0 <==> s[0] == '-'
    ensures i >= 0 ==> AllDigits(s, radix)
    ensures i < 0 ==> 2 <= |s| && AllDigits(s[1..], radix)
  {
    if i < 0 then "-" + NatToDigits(-i, radix) else NatToDigits(i, radix)
  }

  /** Java's `Integer.toString(i)`. */
  function IntToString(i: int): string
  {
    IntToStringRadix(i, 10)
  }

  /** Reads back a possibly signed digit string. */
  function ParseInt(s: string, radix: nat): Option<int>
    requires 2 <= radix <= 16
  {
    if |s| >= 2 && s[0] == '-' && AllDigits(s[1..], radix) then Some(0 - DigitsValue(s[1..], radix))
    else if |s| >= 1 && AllDigits(s, radix) then Some(DigitsValue(s, radix))
    else None
  }

  lemma IntToStringRoundTrip(i: int, radix: nat)
    requires 2 <= radix <= 16
    ensures ParseInt(IntToStringRadix(i, radix), radix) == Some(i)
  {
    var s := IntToStringRadix(i, radix);
    if i < 0 {
      assert s[1..] == NatToDigits(-i, radix);
      DigitsRoundTrip(-i, radix);
    } else {
      assert !IsDigit('-', radix);
      DigitsRoundTrip(i, radix);
    }
  }

  /** Different numbers never render alike. */
  lemma IntToStringInjective(i: int, j: int, radix: nat)
    requires 2 <= radix <= 16
    requires IntToStringRadix(i, radix) == IntToStringRadix(j, radix)
    ensures i == j
  {
    IntToStringRoundTrip(i, radix);
    IntToStringRoundTrip(j, radix);
  }

  /** `s` right-justified in a field of `width` characters, filled with
      `pad` on the left; a longer `s` is kept whole (Java's `%10d`, `%08x`). */
  function PadLeft(s: string, width: nat, pad: char): (r: string)
    ensures |r| == if |s| < width then width else |s|
    ensures r[|r| - |s|..] == s
    ensures forall i :: 0 <= i < |r| - |s| ==> r[i] == pad
  {
    if |s| < width then seq(width - |s|, _ => pad) + s else s
  }

  /** Java's `String.format("%08x", crc)` for an `int` checksum. */
  function Hex8(crc: JavaInt.Int): (r: string)
    ensures |r| == 8
    ensures AllDigits(r, 16)
    ensures DigitsValue(r, 16) == JavaInt.Unsigned32(crc)
  {
    var u := JavaInt.Unsigned32(crc);
    var digits := NatToDigits(u, 16);
    assert Pow(16, 8) == JavaInt.TwoTo32;
    DigitsLength(u, 16, 8);
    DigitsRoundTrip(u, 16);
    var r := PadLeft(digits, 8, '0');
    assert r == r[..|r| - |digits|] + digits;
    LeadingZeros(r[..|r| - |digits|], digits, 16);
    r
  }

  /** The columns `cols` joined with `sep` between neighbours. */
  function Join(cols: seq<string>, sep: char): string
  {
    if |cols| == 0 then ""
    else if |cols| == 1 then cols[0]
    else cols[0] + [sep] + Join(cols[1..], sep)
  }

  /** The position of the first `sep` in `s`, or `|s|` when there is none. */
  function IndexOf(s: string, sep: char): (k: nat)
    ensures k <= |s|
    ensures forall i :: 0 <= i < k ==> s[i] != sep
    ensures k < |s| ==> s[k] == sep
  {
    if s == [] then 0
    else if s[0] == sep then 0
    else 1 + IndexOf(s[1..], sep)
  }

  /** `s` cut at every `sep` (Java's `split` keeping empty fields). */
  function Split(s: string, sep: char): (cols: seq<string>)
    ensures |cols| >= 1
    decreases |s|
  {
    var k := IndexOf(s, sep);
    if k == |s| then [s] else [s[..k]] + Split(s[k + 1..], sep)
  }

  lemma {:induction false} IndexOfAfterField(c: string, sep: char, rest: string)
    requires sep !in c
    ensures IndexOf(c + [sep] + rest, sep) == |c|
  {
    var s := c + [sep] + rest;
    if c != [] {
      assert s[0] == c[0];
      assert s[1..] == c[1..] + [sep] + rest;
      IndexOfAfterField(c[1..], sep, rest);
    }
  }

  /** Joined columns that contain no separator split back into the same columns. */
  lemma {:induction false} SplitJoin(cols: seq<string>, sep: char)
    requires |cols| >= 1
    requires forall i :: 0 <= i < |cols| ==> sep !in cols[i]
    ensures Split(Join(cols, sep), sep) == cols
  {
    if |cols| == 1 {
    } else {
      var c := cols[0];
      var rest := Join(cols[1..], sep);
      var s := c + [sep] + rest;
      IndexOfAfterField(c, sep, rest);
      assert s[..|c|] == c;
      assert s[|c| + 1..] == rest;
      SplitJoin(cols[1..], sep);
      assert cols == [c] + cols[1..];
    }
  }

  /** The last column of a join is always the final suffix of the line. */
  lemma {:induction false} JoinEndsWithLast(cols: seq<string>, sep: char)
    requires |cols| >= 1
    ensures |Join(cols, sep)| >= |cols[|cols| - 1]|
    ensures Join(cols, sep)[|Join(cols, sep)| - |cols[|cols| - 1]|..] == cols[|cols| - 1]
  {
    if |cols| > 1 {
      JoinEndsWithLast(cols[1..], sep);
    }
  }
}
