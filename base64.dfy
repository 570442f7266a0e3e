/**
 * Base 64 encoding as in section 4 of RFC 4648: the 64-symbol alphabet
 * A-Z, a-z, 0-9, '+', '/', with '=' padding up to a multiple of four symbols.
 */
module Base64 {
  import opened Wrappers

  type byte = x: int | 0 <= x < 256

  /** The symbol of RFC 4648 table 1 for a 6-bit value. */
  function Sym(k: nat): (c: char)
    requires k < 64
  {
    if k < 26 then ('A' as int + k) as char
    else if k < 52 then ('a' as int + (k - 26)) as char
    else if k < 62 then ('0' as int + (k - 52)) as char
    else if k == 62 then '+'
    else '/'
  }

  /** The 6-bit value of an alphabet symbol, None for any other character. */
  function SymValue(c: char): (r: Option<nat>)
    ensures r.Some? ==> r.value < 64 && Sym(r.value) == c
  {
    if 'A' <= c <= 'Z' then Some(c as int - 'A' as int)
    else if 'a' <= c <= 'z' then Some(c as int - 'a' as int + 26)
    else if '0' <= c <= '9' then Some(c as int - '0' as int + 52)
    else if c == '+' then Some(62)
    else if c == '/' then Some(63)
    else None
  }

  predicate IsSym(c: char) {
    SymValue(c).Some?
  }

  lemma SymValueOfSym(k: nat)
    requires k < 64
    ensures SymValue(Sym(k)) == Some(k)
  {
  }

  function EncodeGroup(b0: byte, b1: byte, b2: byte): (r: string)
    ensures |r| == 4
  {
    [Sym(b0 / 4), Sym((b0 % 4) * 16 + b1 / 16), Sym((b1 % 16) * 4 + b2 / 64), Sym(b2 % 64)]
  }

  /** The final group of a single byte: two symbols and two '='. */
  function EncodeOne(b0: byte): (r: string)
    ensures |r| == 4 && r[2] == '=' && r[3] == '='
  {
    [Sym(b0 / 4), Sym((b0 % 4) * 16), '=', '=']
  }

  /** The final group of two bytes: three symbols and one '='. */
  function EncodeTwo(b0: byte, b1: byte): (r: string)
    ensures |r| == 4 && r[3] == '='
  {
    [Sym(b0 / 4), Sym((b0 % 4) * 16 + b1 / 16), Sym((b1 % 16) * 4), '=']
  }

  /** The encoding of a whole byte string; the last group is padded with '='. */
  function Encode(bs: seq<byte>): (r: string)
    decreases |bs|
  {
    if |bs| == 0 then ""
    else if |bs| == 1 then EncodeOne(bs[0])
    else if |bs| == 2 then EncodeTwo(bs[0], bs[1])
    else EncodeGroup(bs[0], bs[1], bs[2]) + Encode(bs[3..])
  }

  /** Four unpadded symbols back to three bytes. */
  function DecodeGroup(q: string): (r: Option<seq<byte>>)
    requires |q| == 4
    ensures r.Some? ==> |r.value| == 3
  {
    match (SymValue(q[0]), SymValue(q[1]), SymValue(q[2]), SymValue(q[3]))
    case (Some(c0), Some(c1), Some(c2), Some(c3)) =>
      Some([c0 * 4 + c1 / 16, (c1 % 16) * 16 + c2 / 4, (c2 % 4) * 64 + c3])
    case _ => None
  }

  /** The final four symbols, which may end in one or two '='. */
  function DecodeLast(q: string): (r: Option<seq<byte>>)
    requires |q| == 4
  {
    if q[2] == '=' && q[3] == '=' then
      match (SymValue(q[0]), SymValue(q[1]))
      case (Some(c0), Some(c1)) => Some([c0 * 4 + c1 / 16])
      case _ => None
    else if q[3] == '=' then
      match (SymValue(q[0]), SymValue(q[1]), SymValue(q[2]))
      case (Some(c0), Some(c1), Some(c2)) => Some([c0 * 4 + c1 / 16, (c1 % 16) * 16 + c2 / 4])
      case _ => None
    else DecodeGroup(q)
  }

  /** Strict decoding: None unless s is a well-formed padded encoding. */
  function Decode(s: string): Option<seq<byte>>
    decreases |s|
  {
    if |s| == 0 then Some([])
    else if |s| < 4 then None
    else if |s| == 4 then DecodeLast(s)
    else match (DecodeGroup(s[..4]), Decode(s[4..]))
      case (Some(g), Some(rest)) => Some(g + rest)
      case _ => None
  }

  lemma ArithThree(b0: byte, b1: byte, b2: byte)
    ensures (b0 / 4) * 4 + ((b0 % 4) * 16 + b1 / 16) / 16 == b0
    ensures (((b0 % 4) * 16 + b1 / 16) % 16) * 16 + ((b1 % 16) * 4 + b2 / 64) / 4 == b1
    ensures (((b1 % 16) * 4 + b2 / 64) % 4) * 64 + b2 % 64 == b2
  {
    var c1 := (b0 % 4) * 16 + b1 / 16;
    var c2 := (b1 % 16) * 4 + b2 / 64;
    assert c1 / 16 == b0 % 4 && c1 % 16 == b1 / 16;
    assert c2 / 4 == b1 % 16 && c2 % 4 == b2 / 64;
  }

  lemma GroupRoundTrip(b0: byte, b1: byte, b2: byte)
    ensures DecodeGroup(EncodeGroup(b0, b1, b2)) == Some([b0, b1, b2])
  {
    var c0, c1, c2, c3 := b0 / 4, (b0 % 4) * 16 + b1 / 16, (b1 % 16) * 4 + b2 / 64, b2 % 64;
    SymValueOfSym(c0);
    SymValueOfSym(c1);
    SymValueOfSym(c2);
    SymValueOfSym(c3);
    ArithThree(b0, b1, b2);
    assert DecodeGroup(EncodeGroup(b0, b1, b2)) == Some([c0 * 4 + c1 / 16, (c1 % 16) * 16 + c2 / 4, (c2 % 4) * 64 + c3]);
  }

  lemma ArithOne(b0: byte)
    ensures (b0 / 4) * 4 + ((b0 % 4) * 16) / 16 == b0
  {
    assert ((b0 % 4) * 16) / 16 == b0 % 4;
  }

  lemma ArithTwo(b0: byte, b1: byte)
    ensures (b0 / 4) * 4 + ((b0 % 4) * 16 + b1 / 16) / 16 == b0
    ensures (((b0 % 4) * 16 + b1 / 16) % 16) * 16 + ((b1 % 16) * 4) / 4 == b1
  {
    var c1 := (b0 % 4) * 16 + b1 / 16;
    assert c1 / 16 == b0 % 4 && c1 % 16 == b1 / 16;
    assert ((b1 % 16) * 4) / 4 == b1 % 16;
  }

  lemma SingleRoundTrip(b0: byte)
    ensures Decode(EncodeOne(b0)) == Some([b0])
  {
    var c0, c1 := b0 / 4, (b0 % 4) * 16;
    SymValueOfSym(c0);
    SymValueOfSym(c1);
    ArithOne(b0);
    DecodeFour(EncodeOne(b0));
  }

  lemma RoundTripOne(bs: seq<byte>)
    requires |bs| == 1
    ensures Decode(Encode(bs)) == Some(bs)
  {
    assert Encode(bs) == EncodeOne(bs[0]);
    SingleRoundTrip(bs[0]);
    assert [bs[0]] == bs;
  }

  /** Four symbols are decoded as the final group. */
  lemma DecodeFour(q: string)
    requires |q| == 4
    ensures Decode(q) == DecodeLast(q)
  {
  }

  /** Three symbols and one '=' decode to two bytes. */
  lemma DecodeLastTwo(c0: nat, c1: nat, c2: nat)
    requires c0 < 64 && c1 < 64 && c2 < 64
    ensures DecodeLast([Sym(c0), Sym(c1), Sym(c2), '=']) == Some([c0 * 4 + c1 / 16, (c1 % 16) * 16 + c2 / 4])
  {
    SymValueOfSym(c0);
    SymValueOfSym(c1);
    SymValueOfSym(c2);
    var q := [Sym(c0), Sym(c1), Sym(c2), '='];
    assert q[2] != '=' by {
      assert SymValue(q[2]).Some?;
    }
  }

  lemma PairRoundTrip(b0: byte, b1: byte)
    ensures Decode(EncodeTwo(b0, b1)) == Some([b0, b1])
  {
    var c0, c1, c2 := b0 / 4, (b0 % 4) * 16 + b1 / 16, (b1 % 16) * 4;
    var e := EncodeTwo(b0, b1);
    DecodeFour(e);
    DecodeLastTwo(c0, c1, c2);
    ArithTwo(b0, b1);
  }

  lemma RoundTripTwo(bs: seq<byte>)
    requires |bs| == 2
    ensures Decode(Encode(bs)) == Some(bs)
  {
    assert Encode(bs) == EncodeTwo(bs[0], bs[1]);
    PairRoundTrip(bs[0], bs[1]);
    assert [bs[0], bs[1]] == bs;
  }

  /** A whole group in front of a well-formed encoding decodes group by group. */
  lemma DecodeCons(g: string, t: string)
    requires |g| == 4 && |t| > 0
    requires DecodeGroup(g).Some? && Decode(t).Some?
    ensures Decode(g + t) == Some(DecodeGroup(g).value + Decode(t).value)
  {
    var e := g + t;
    assert e[..4] == g;
    assert e[4..] == t;
  }

  /** A lone group without padding decodes as a whole group. */
  lemma DecodeSingle(g: string)
    requires |g| == 4 && DecodeGroup(g).Some?
    ensures Decode(g) == DecodeGroup(g)
  {
    assert SymValue(g[3]).Some?;
  }

  /** Decoding an encoding gives back the bytes. */
  lemma {:induction false} RoundTrip(bs: seq<byte>)
    ensures Decode(Encode(bs)) == Some(bs)
    decreases |bs|
  {
    if |bs| == 1 {
      RoundTripOne(bs);
    } else if |bs| == 2 {
      RoundTripTwo(bs);
    } else if |bs| >= 3 {
      var g, t := EncodeGroup(bs[0], bs[1], bs[2]), Encode(bs[3..]);
      assert Encode(bs) == g + t;
      GroupRoundTrip(bs[0], bs[1], bs[2]);
      if |bs| == 3 {
        assert g + t == g;
        DecodeSingle(g);
        assert bs == [bs[0], bs[1], bs[2]];
      } else {
        RoundTrip(bs[3..]);
        EncodeLength(bs[3..]);
        DecodeCons(g, t);
        assert [bs[0], bs[1], bs[2]] + bs[3..] == bs;
      }
    }
  }

  function PadLength(n: nat): nat {
    if n % 3 == 1 then 2 else if n % 3 == 2 then 1 else 0
  }

  lemma {:induction false} EncodeLength(bs: seq<byte>)
    ensures |Encode(bs)| == 4 * ((|bs| + 2) / 3)
    decreases |bs|
  {
    if |bs| >= 3 {
      EncodeLength(bs[3..]);
      assert (|bs| + 2) / 3 == (|bs[3..]| + 2) / 3 + 1;
    }
  }

  lemma GroupSymbols(b0: byte, b1: byte, b2: byte)
    ensures forall i :: 0 <= i < 4 ==> IsSym(EncodeGroup(b0, b1, b2)[i])
  {
    SymValueOfSym(b0 / 4);
    SymValueOfSym((b0 % 4) * 16 + b1 / 16);
    SymValueOfSym((b1 % 16) * 4 + b2 / 64);
    SymValueOfSym(b2 % 64);
  }

  lemma ShortShape(bs: seq<byte>)
    requires |bs| < 3
    ensures forall i :: 0 <= i < |Encode(bs)| - PadLength(|bs|) ==> IsSym(Encode(bs)[i])
    ensures forall i :: |Encode(bs)| - PadLength(|bs|) <= i < |Encode(bs)| ==> Encode(bs)[i] == '='
  {
    if |bs| == 1 {
      SymValueOfSym(bs[0] / 4);
      SymValueOfSym((bs[0] % 4) * 16);
    } else if |bs| == 2 {
      SymValueOfSym(bs[0] / 4);
      SymValueOfSym((bs[0] % 4) * 16 + bs[1] / 16);
      SymValueOfSym((bs[1] % 16) * 4);
    }
  }

  /** Four symbols in front of a padded encoding leave it a padded encoding with the same padding. */
  lemma GroupInFront(g: string, t: string, p: nat)
    requires |g| == 4 && p <= |t|
    requires forall i :: 0 <= i < 4 ==> IsSym(g[i])
    requires forall i :: 0 <= i < |t| - p ==> IsSym(t[i])
    requires forall i :: |t| - p <= i < |t| ==> t[i] == '='
    ensures forall i :: 0 <= i < |g + t| - p ==> IsSym((g + t)[i])
    ensures forall i :: |g + t| - p <= i < |g + t| ==> (g + t)[i] == '='
  {
    var e := g + t;
    forall i | 0 <= i < |e| - p ensures IsSym(e[i]) {
      if i < 4 { assert e[i] == g[i]; } else { assert e[i] == t[i - 4]; }
    }
    forall i | |e| - p <= i < |e| ensures e[i] == '=' {
      assert e[i] == t[i - 4];
    }
  }

  /** An encoding is alphabet symbols followed by exactly PadLength(|bs|) padding characters. */
  lemma {:induction false} EncodeShape(bs: seq<byte>)
    ensures |Encode(bs)| == 4 * ((|bs| + 2) / 3)
    ensures forall i :: 0 <= i < |Encode(bs)| - PadLength(|bs|) ==> IsSym(Encode(bs)[i])
    ensures forall i :: |Encode(bs)| - PadLength(|bs|) <= i < |Encode(bs)| ==> Encode(bs)[i] == '='
    decreases |bs|
  {
    EncodeLength(bs);
    if |bs| < 3 {
      ShortShape(bs);
    } else {
      var g, t := EncodeGroup(bs[0], bs[1], bs[2]), Encode(bs[3..]);
      assert Encode(bs) == g + t;
      assert PadLength(|bs|) == PadLength(|bs[3..]|);
      GroupSymbols(bs[0], bs[1], bs[2]);
      EncodeShape(bs[3..]);
      GroupInFront(g, t, PadLength(|bs|));
    }
  }
}
