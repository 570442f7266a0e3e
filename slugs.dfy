/**
 * Short URL-safe identifiers for UUIDs: the 16 bytes of a UUID in base 64
 * without padding and with '/' written as '_', and the way back to the
 * canonical hyphenated hexadecimal UUID string.
 */
module Slugs {
  import opened Wrappers
  import opened Text
  import opened Base64

  type UuidBytes = b: seq<byte> | |b| == 16 witness seq(16, _ => 0)

  function HexDigit(n: nat): (c: char)
    requires n < 16
    ensures '0' <= c <= '9' || 'a' <= c <= 'f'
  {
    if n < 10 then ('0' as int + n) as char else ('a' as int + (n - 10)) as char
  }

  /** Two lower-case hexadecimal digits per byte, most significant first. */
  function Hex(bs: seq<byte>): (r: string)
    ensures |r| == 2 * |bs|
    ensures forall i :: 0 <= i < |bs| ==> r[2 * i] == HexDigit(bs[i] / 16) && r[2 * i + 1] == HexDigit(bs[i] % 16)
  {
    if |bs| == 0 then "" else [HexDigit(bs[0] / 16), HexDigit(bs[0] % 16)] + Hex(bs[1..])
  }

  /** str(uuid.UUID(bytes=b)): 8-4-4-4-12 hexadecimal digits separated by '-'. */
  function UuidString(b: UuidBytes): (r: string)
    ensures |r| == 36
    ensures r[8] == '-' && r[13] == '-' && r[18] == '-' && r[23] == '-'
  {
    Hex(b[..4]) + "-" + Hex(b[4..6]) + "-" + Hex(b[6..8]) + "-" + Hex(b[8..10]) + "-" + Hex(b[10..])
  }

  /** uuid2slug: encode, strip trailing '=' and newline, then replace '/' by '_'. */
  function Uuid2Slug(u: UuidBytes): string {
    ReplaceChar(RStrip(Encode(u) + "\n", {'=', '\n'}), '/', '_')
  }

  /**
   * slug2uuid: restore the padding and the '/', decode, and format as a
   * UUID; None where the decoder or the UUID constructor raises.
   */
  function Slug2Uuid(slug: string): Option<string> {
    match Decode(ReplaceChar(slug + "==", '_', '/'))
    case Some(b) => if |b| == 16 then Some(UuidString(b)) else None
    case None => None
  }

  lemma SymNotUnderscore(c: char)
    requires IsSym(c)
    ensures c != '_' && c != '=' && c != '\n'
  {
  }

  /** The stripped encoding of a UUID: its first 22 symbols. */
  lemma {:induction false} StrippedEncoding(u: UuidBytes)
    ensures |Encode(u)| == 24 && Encode(u)[22..] == "=="
    ensures RStrip(Encode(u) + "\n", {'=', '\n'}) == Encode(u)[..22]
    ensures forall i :: 0 <= i < 22 ==> IsSym(Encode(u)[i])
  {
    var e := Encode(u);
    EncodeShape(u);
    assert PadLength(16) == 2;
    SymNotUnderscore(e[21]);
    RStripUnique(e + "\n", e[..22], {'=', '\n'});
  }

  /** A slug is 22 URL-safe characters: alphabet symbols other than '/', or '_'. */
  lemma {:induction false} SlugShape(u: UuidBytes)
    ensures |Uuid2Slug(u)| == 22
    ensures forall i :: 0 <= i < 22 ==>
      Uuid2Slug(u)[i] == '_' || (IsSym(Uuid2Slug(u)[i]) && Uuid2Slug(u)[i] != '/')
    ensures '/' !in Uuid2Slug(u) && '=' !in Uuid2Slug(u)
  {
    StrippedEncoding(u);
    var s := Uuid2Slug(u);
    forall i | 0 <= i < 22 ensures s[i] == '_' || (IsSym(s[i]) && s[i] != '/') {
      SymNotUnderscore(Encode(u)[i]);
    }
  }

  /** Decoding the slug of a UUID yields that UUID. */
  lemma {:induction false} SlugRoundTrip(u: UuidBytes)
    ensures Slug2Uuid(Uuid2Slug(u)) == Some(UuidString(u))
  {
    var e := Encode(u);
    StrippedEncoding(u);
    var stripped := e[..22];
    forall i | 0 <= i < |stripped| ensures stripped[i] != '_' {
      SymNotUnderscore(stripped[i]);
    }
    ReplaceCharInverse(stripped, '/', '_');
    ReplaceCharAppend(Uuid2Slug(u), "==", '_', '/');
    assert ReplaceChar("==", '_', '/') == "==";
    assert stripped + "==" == e;
    RoundTrip(u);
  }
}
