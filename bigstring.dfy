/**
 * int2bigstring / bigstring2int (formspree/utils.py): an integer is shifted by
 * 1000, squared, and its decimal digits are spelled with the letters a..j.
 * Decoding takes the square root of the number the letters spell; the
 * floating-point square root of the source is modelled as the exact integer
 * square root.
 */
module BigString {
  import opened Wrappers
  import opened Numerals

  const Offset := 1000
  const AsciiLowercase := "abcdefghijklmnopqrstuvwxyz"

  function Square(m: int): (r: nat)
    ensures r == m * m
  {
    m * m
  }

  lemma SquareMonotonic(a: nat, b: nat)
    requires a <= b
    ensures a * a <= b * b
  {
    assert a * a <= a * b <= b * b;
  }

  lemma {:induction false} ISqrtStep(n: nat, q: nat)
    requires n >= 4
    requires q * q <= n / 4 < (q + 1) * (q + 1)
    ensures (2 * q) * (2 * q) <= n
    ensures n < (2 * q + 2) * (2 * q + 2)
  {
    assert (2 * q) * (2 * q) == 4 * (q * q);
    assert (2 * q + 2) * (2 * q + 2) == 4 * ((q + 1) * (q + 1));
    assert n / 4 + 1 <= (q + 1) * (q + 1);
  }

  /** The exact integer square root: the largest r with r * r <= n. */
  function ISqrt(n: nat): (r: nat)
    ensures r * r <= n < (r + 1) * (r + 1)
  {
    if n < 4 then (if n == 0 then 0 else 1)
    else
      var q := ISqrt(n / 4);
      ISqrtStep(n, q);
      if (2 * q + 1) * (2 * q + 1) <= n then 2 * q + 1 else 2 * q
  }

  lemma SquareRootUnique(r: nat, a: nat)
    requires r * r <= a * a < (r + 1) * (r + 1)
    ensures r == a
  {
    if r < a {
      SquareMonotonic(r + 1, a);
    } else if r > a {
      SquareMonotonic(a + 1, r);
    }
  }

  lemma ISqrtOfSquare(m: int)
    ensures ISqrt(Square(m)) == if m < 0 then -m else m
  {
    var a: nat := if m < 0 then -m else m;
    assert Square(m) == a * a by {
      if m < 0 { assert m * m == (-m) * (-m); }
    }
    var r := ISqrt(a * a);
    SquareRootUnique(r, a);
  }

  /** The letter that spells one decimal digit: '0' is 'a', '9' is 'j'. */
  function Letter(c: char): (l: char)
    requires IsDigit(c)
    ensures 'a' <= l <= 'j'
  {
    AsciiLowercase[DigitValue(c)]
  }

  function Spell(digits: string): (r: string)
    requires AllDigits(digits)
    ensures |r| == |digits|
    ensures forall i :: 0 <= i < |r| ==> r[i] == Letter(digits[i])
  {
    if |digits| == 0 then [] else [Letter(digits[0])] + Spell(digits[1..])
  }

  /** int2bigstring(n) */
  function IntToBigString(n: int): (r: string)
    ensures forall i :: 0 <= i < |r| ==> 'a' <= r[i] <= 'j'
    ensures var digits := NatToDecimal(Square(n + Offset));
            |r| == |digits| && forall i :: 0 <= i < |r| ==> r[i] == Letter(digits[i])
  {
    Spell(NatToDecimal(Square(n + Offset)))
  }

  /** string.ascii_lowercase.index(l), or None where the source raises ValueError. */
  function LetterIndex(l: char): (r: Option<nat>)
    ensures r.Some? ==> r.value < 26 && AsciiLowercase[r.value] == l
    ensures r.None? <==> l !in AsciiLowercase
  {
    if 'a' <= l <= 'z' then Some(l as int - 'a' as int) else None
  }

  /** ''.join(str(index(l)) for l in s), or None when some letter is not lower-case. */
  function Unspell(s: string): (r: Option<string>)
    ensures r.Some? ==> AllDigits(r.value)
    ensures r.None? <==> exists i :: 0 <= i < |s| && s[i] !in AsciiLowercase
  {
    if |s| == 0 then Some("")
    else match (LetterIndex(s[0]), Unspell(s[1..]))
      case (Some(d), Some(rest)) => Some(NatToDecimal(d) + rest)
      case (None, _) => None
      case (_, None) => assert forall i :: 1 <= i < |s| ==> s[i] == s[1..][i - 1]; None
  }

  /** The root reaches the offset exactly when n reaches its square. */
  lemma RootAgainstOffset(n: nat)
    ensures ISqrt(n) >= Offset <==> n >= Offset * Offset
  {
    var r := ISqrt(n);
    if n >= Offset * Offset && r < Offset {
      SquareMonotonic(r + 1, Offset);
    } else if n < Offset * Offset && r >= Offset {
      SquareMonotonic(Offset, r);
    }
  }

  /**
   * int(sqrt(n) - 1000): Python's int truncates toward zero, so below the
   * offset a root that is not whole is rounded up rather than down.
   */
  function TruncatedRoot(n: nat): (v: int)
    ensures v >= -Offset
    ensures var m := v + Offset;
      (n >= Offset * Offset ==> m * m <= n < (m + 1) * (m + 1)) &&
      (n < Offset * Offset ==> n <= m * m && (m == 0 || (m - 1) * (m - 1) < n))
  {
    var r := ISqrt(n);
    RootAgainstOffset(n);
    if r < Offset && r * r != n then r + 1 - Offset else r - Offset
  }

  /** The root of a square is exact, so nothing is rounded. */
  lemma TruncatedRootOfSquare(m: int)
    ensures TruncatedRoot(Square(m)) == (if m < 0 then -m else m) - Offset
  {
    var a: nat := if m < 0 then -m else m;
    assert Square(m) == Square(a) by {
      if m < 0 { assert m * m == (-m) * (-m); }
    }
    ExactRoot(a);
  }

  lemma ExactRoot(a: nat)
    ensures TruncatedRoot(Square(a)) == a - Offset
  {
    ISqrtOfSquare(a);
    var n := Square(a);
    assert ISqrt(n) * ISqrt(n) == n;
  }

  /** bigstring2int(s): None where the source raises ValueError (a non-letter, or no digits for int()). */
  function BigStringToInt(s: string): (r: Option<int>)
    ensures r.Some? <==> Unspell(s).Some? && Unspell(s).value != ""
    ensures r.Some? ==> r.value == TruncatedRoot(DecimalValue(Unspell(s).value))
  {
    match Unspell(s)
    case None => None
    case Some(digits) => if |digits| == 0 then None else Some(TruncatedRoot(DecimalValue(digits)))
  }

  /** "f" spells 5, whose root 2.23... less the offset truncates to -997, not -998. */
  lemma TruncatesTowardZero()
    ensures BigStringToInt("f") == Some(-997)
  {
    assert "f"[0] == 'f' && "f"[1..] == "";
    assert Unspell("") == Some("");
    assert LetterIndex('f') == Some(5);
    assert NatToDecimal(5) == "5";
    assert NatToDecimal(5) + "" == "5";
    assert Unspell("f") == Some("5");
    assert DecimalValue("5") == 5;
    assert ISqrt(1) == 1;
    assert ISqrt(5) == 2;
  }

  lemma LetterIndexOfLetter(c: char)
    requires IsDigit(c)
    ensures LetterIndex(Letter(c)) == Some(DigitValue(c))
    ensures NatToDecimal(DigitValue(c)) == [c]
  {
    var d := DigitValue(c);
    LowercaseAt(d);
    assert DigitChar(d) == c;
  }

  /** The first ten lower-case letters follow 'a' in code order. */
  lemma LowercaseAt(d: nat)
    requires d < 10
    ensures AsciiLowercase[d] as int == 'a' as int + d
  {
    if d < 5 {
      if d == 0 {} else if d == 1 {} else if d == 2 {} else if d == 3 {} else {}
    } else {
      if d == 5 {} else if d == 6 {} else if d == 7 {} else if d == 8 {} else {}
    }
  }

  lemma {:induction false} UnspellSpell(digits: string)
    requires AllDigits(digits)
    ensures Unspell(Spell(digits)) == Some(digits)
  {
    if |digits| > 0 {
      var s := Spell(digits);
      assert s == [Letter(digits[0])] + Spell(digits[1..]);
      assert s[1..] == Spell(digits[1..]);
      UnspellSpell(digits[1..]);
      LetterIndexOfLetter(digits[0]);
      assert Unspell(s) == Some(NatToDecimal(DigitValue(digits[0])) + digits[1..]);
      assert [digits[0]] + digits[1..] == digits;
    }
  }

  /** The round trip holds exactly for the integers the offset makes non-negative. */
  lemma RoundTrip(n: int)
    ensures BigStringToInt(IntToBigString(n)) == Some(n) <==> n >= -Offset
  {
    var digits := NatToDecimal(Square(n + Offset));
    UnspellSpell(digits);
    DecimalRoundTrip(Square(n + Offset));
    TruncatedRootOfSquare(n + Offset);
  }
}
