/** String helpers the Python code gets from its runtime: `str.lower`, the
    `in` operator on strings, `str(int)` and `'%d'` zero padding. */
module Text {

  /** ASCII lower-casing of one character (what `str.lower` does on ASCII). */
  function LowerChar(c: char): (r: char)
    ensures 'A' <= c <= 'Z' ==> r as int == c as int + 32
    ensures !('A' <= c <= 'Z') ==> r == c
    ensures !('A' <= r <= 'Z')
  {
    if 'A' <= c <= 'Z' then (c as int + 32) as char else c
  }

  function Lower(s: string): (r: string)
    ensures |r| == |s|
    ensures forall i :: 0 <= i < |s| ==> r[i] == LowerChar(s[i])
  {
    if s == [] then [] else [LowerChar(s[0])] + Lower(s[1..])
  }

  /** Lower-casing twice is lower-casing once. */
  lemma LowerIdempotent(s: string)
    ensures Lower(Lower(s)) == Lower(s)
  {
    var l := Lower(s);
    assert forall i :: 0 <= i < |l| ==> LowerChar(l[i]) == l[i];
  }

  /** Python's `needle in hay` for strings. */
  predicate Contains(hay: string, needle: string)
    decreases |hay|
  {
    needle <= hay || (|hay| > 0 && Contains(hay[1..], needle))
  }

  /** The needle occurs in the hay at position `i`. */
  predicate OccursAt(hay: string, needle: string, i: int) {
    0 <= i && i + |needle| <= |hay| && hay[i..i + |needle|] == needle
  }

  /** `Contains` holds exactly when the needle occurs at some position of the hay. */
  lemma {:induction false} ContainsAt(hay: string, needle: string)
    ensures Contains(hay, needle) <==> exists i :: OccursAt(hay, needle, i)
    decreases |hay|
  {
    if needle <= hay {
      assert OccursAt(hay, needle, 0);
    } else if |hay| == 0 {
    } else {
      ContainsAt(hay[1..], needle);
      if exists i :: OccursAt(hay, needle, i) {
        var i :| OccursAt(hay, needle, i);
        assert i != 0;
        assert hay[1..][i - 1..i - 1 + |needle|] == hay[i..i + |needle|];
        assert OccursAt(hay[1..], needle, i - 1);
      }
      if Contains(hay[1..], needle) {
        var i :| OccursAt(hay[1..], needle, i);
        assert hay[1..][i..i + |needle|] == hay[i + 1..i + 1 + |needle|];
        assert OccursAt(hay, needle, i + 1);
      }
    }
  }

  /** A lower-case letter is in the lowered string only when it or its
      upper-case form is in the original. */
  lemma LowerLacksLetter(s: string, c: char)
    requires 'a' <= c <= 'z' && c !in s && (c as int - 32) as char !in s
    ensures c !in Lower(s)
  {
    var l := Lower(s);
    forall i | 0 <= i < |l| ensures l[i] != c {
      assert l[i] == LowerChar(s[i]);
    }
  }

  /** The lowered string starts with the lowered prefix. */
  lemma LowerPrefix(s: string, prefix: string)
    requires |prefix| <= |s| && forall i :: 0 <= i < |prefix| ==> LowerChar(s[i]) == prefix[i]
    ensures prefix <= Lower(s)
  {
  }

  /** A needle with a letter the hay lacks is not contained in it. */
  lemma NotContained(hay: string, needle: string, k: nat)
    requires k < |needle| && needle[k] !in hay
    ensures !Contains(hay, needle)
  {
    LettersOfContained(hay, needle);
  }

  /** Every letter of a contained needle is a letter of the hay. */
  lemma {:induction false} LettersOfContained(hay: string, needle: string)
    ensures Contains(hay, needle) ==> forall x :: x in needle ==> x in hay
    decreases |hay|
  {
    if needle <= hay {
      forall x | x in needle
        ensures x in hay
      {
        var k :| 0 <= k < |needle| && needle[k] == x;
        assert hay[k] == x;
      }
    } else if |hay| > 0 {
      LettersOfContained(hay[1..], needle);
      assert forall x :: x in hay[1..] ==> x in hay;
    }
  }

  /** The empty string is contained in every string. */
  lemma ContainsEmpty(hay: string)
    ensures Contains(hay, "")
  {
  }

  predicate IsDigit(c: char) {
    '0' <= c <= '9'
  }

  function Digit(d: nat): (c: char)
    requires d < 10
    ensures IsDigit(c) && c as int - '0' as int == d
  {
    ('0' as int + d) as char
  }

  /** `str(n)` for a natural number: its decimal digits, no leading zeros. */
  function NatString(n: nat): (r: string)
    ensures 1 <= |r|
    ensures forall i :: 0 <= i < |r| ==> IsDigit(r[i])
    ensures n < 10 <==> |r| == 1
  {
    if n < 10 then [Digit(n)] else NatString(n / 10) + [Digit(n % 10)]
  }

  /** `str(n)` for any integer, with a leading '-' for negative numbers. */
  function DecimalString(n: int): string {
    if n < 0 then "-" + NatString(-n) else NatString(n)
  }

  lemma {:induction false} NatStringInjective(a: nat, b: nat)
    requires NatString(a) == NatString(b)
    ensures a == b
  {
    var sa, sb := NatString(a), NatString(b);
    if a >= 10 && b >= 10 {
      assert sa[|sa| - 1] == sb[|sb| - 1];
      assert a % 10 == b % 10;
      assert sa[..|sa| - 1] == NatString(a / 10);
      assert sb[..|sb| - 1] == NatString(b / 10);
      NatStringInjective(a / 10, b / 10);
    } else {
      assert a < 10 && b < 10;
      assert sa[0] == sb[0];
    }
  }

  /** A printed integer starts with '-' exactly when it is negative. */
  lemma DecimalStringSign(n: int)
    ensures |DecimalString(n)| >= 1
    ensures DecimalString(n)[0] == '-' <==> n < 0
  {
    if n >= 0 {
      assert IsDigit(NatString(n)[0]);
    }
  }

  /** Distinct integers print differently, so comparing `str` forms compares the integers. */
  lemma DecimalStringInjective(a: int, b: int)
    ensures DecimalString(a) == DecimalString(b) <==> a == b
  {
    DecimalStringSign(a);
    DecimalStringSign(b);
    if DecimalString(a) == DecimalString(b) {
      var sa, sb := DecimalString(a), DecimalString(b);
      if a < 0 {
        assert sa[1..] == NatString(-a) && sb[1..] == NatString(-b);
        NatStringInjective(-a, -b);
      } else {
        NatStringInjective(a, b);
      }
    }
  }

  /** `'%02d'`-style padding of a day or month number, as `strftime('%d')` and `'%m'` print it. */
  function Pad2(n: nat): (r: string)
    requires n < 100
    ensures |r| == 2 && IsDigit(r[0]) && IsDigit(r[1])
    ensures (r[0] as int - '0' as int) * 10 + (r[1] as int - '0' as int) == n
  {
    [Digit(n / 10), Digit(n % 10)]
  }

  /** Reads back a two-digit field. */
  function ParseTwoDigits(s: string): int
    requires |s| == 2
  {
    (s[0] as int - '0' as int) * 10 + (s[1] as int - '0' as int)
  }
}
