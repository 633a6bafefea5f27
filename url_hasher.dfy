/**
 * The worker's URL fingerprint (worker/internal/url_hasher.go): the lower-case hexadecimal
 * encoding of the SHA-256 digest of the URL's bytes. SHA-256 itself is a parameter that maps
 * a URL to some 32-byte digest.
 */
module UrlHasher {
  import opened Common

  /** A SHA-256 digest. */
  type Digest = d: seq<byte> | |d| == 32 witness seq(32, _ => 0 as byte)

  /** The alphabet of `hex.EncodeToString`. */
  const HexDigits := "0123456789abcdef"

  function HighNibble(b: byte): (n: nat)
    ensures n < 16
  {
    b as int / 16
  }

  function LowNibble(b: byte): (n: nat)
    ensures n < 16
  {
    b as int % 16
  }

  /** `hex.EncodeToString`: two characters per byte, high nibble first. */
  function HexEncode(b: seq<byte>): (s: string)
    ensures |s| == 2 * |b|
  {
    if b == [] then [] else [HexDigits[HighNibble(b[0])], HexDigits[LowNibble(b[0])]] + HexEncode(b[1..])
  }

  /** Characters `2i` and `2i+1` of the encoding are the nibbles of byte `i`, high first. */
  lemma {:induction false} HexEncodeAt(b: seq<byte>, i: nat)
    requires i < |b|
    ensures HexEncode(b)[2 * i] == HexDigits[HighNibble(b[i])]
    ensures HexEncode(b)[2 * i + 1] == HexDigits[LowNibble(b[i])]
  {
    if i > 0 {
      HexEncodeAt(b[1..], i - 1);
    }
  }

  /** Every character of the encoding is a lower-case hexadecimal digit. */
  lemma HexEncodeAlphabet(b: seq<byte>)
    ensures forall j :: 0 <= j < |HexEncode(b)| ==> HexEncode(b)[j] in HexDigits
  {
    forall j | 0 <= j < |HexEncode(b)|
      ensures HexEncode(b)[j] in HexDigits
    {
      HexEncodeAt(b, j / 2);
      assert j == 2 * (j / 2) || j == 2 * (j / 2) + 1;
    }
  }

  /** Value of a lower-case hexadecimal digit. */
  function HexValue(c: char): (d: Option<nat>)
    ensures d.Some? ==> d.value < 16
  {
    if '0' <= c <= '9' then Some(c as int - '0' as int)
    else if 'a' <= c <= 'f' then Some(c as int - 'a' as int + 10)
    else None
  }

  /** The byte whose nibbles are `hi` and `lo`. */
  function NibbleByte(hi: nat, lo: nat): byte
    requires hi < 16 && lo < 16
  {
    (hi * 16 + lo) as byte
  }

  /** Inverse of `HexEncode`: `None` on odd length or a character outside the alphabet. */
  function HexDecode(s: string): Option<seq<byte>>
    decreases |s|
  {
    if s == [] then Some([])
    else if |s| == 1 then None
    else
      var hi, lo, rest := HexValue(s[0]), HexValue(s[1]), HexDecode(s[2..]);
      if hi.Some? && lo.Some? && rest.Some? then Some([NibbleByte(hi.value, lo.value)] + rest.value) else None
  }

  lemma HexValueOfDigit(d: nat)
    requires d < 16
    ensures HexValue(HexDigits[d]) == Some(d)
  {
  }

  lemma NibblesRecombine(x: byte)
    ensures NibbleByte(HighNibble(x), LowNibble(x)) == x
  {
    assert HighNibble(x) * 16 + LowNibble(x) == x as int;
  }

  /** Decoding undoes encoding, so distinct digests never give the same key. */
  lemma {:induction false} HexRoundTrip(b: seq<byte>)
    ensures HexDecode(HexEncode(b)) == Some(b)
  {
    if b != [] {
      var s := HexEncode(b);
      assert s[2..] == HexEncode(b[1..]);
      HexRoundTrip(b[1..]);
      var hi, lo := HighNibble(b[0]), LowNibble(b[0]);
      HexValueOfDigit(hi);
      HexValueOfDigit(lo);
      assert HexValue(s[0]) == Some(hi) && HexValue(s[1]) == Some(lo);
      NibblesRecombine(b[0]);
      assert HexDecode(s) == Some([b[0]] + b[1..]);
      assert [b[0]] + b[1..] == b;
    }
  }

  lemma HexEncodeInjective(a: seq<byte>, b: seq<byte>)
    ensures HexEncode(a) == HexEncode(b) ==> a == b
  {
    HexRoundTrip(a);
    HexRoundTrip(b);
  }

  /**
   * `Sha256UrlHasher`: `writeErr` is what `hasher.Write` returned. On an error the function
   * returns it (with the empty string, which callers ignore); otherwise the 64-character hex
   * encoding of `sha256(url)`.
   */
  function Sha256UrlHasher(url: string, sha256: string -> Digest, writeErr: Option<string>): (r: Result<string>)
    ensures writeErr.Some? ==> r == Err(writeErr.value)
    ensures writeErr.None? ==> r.Ok? && r.value == HexEncode(sha256(url))
    ensures r.Ok? ==> |r.value| == 64 && r.value != ""
    ensures r.Ok? ==> forall i :: 0 <= i < |r.value| ==> r.value[i] in HexDigits
  {
    if writeErr.Some? then Err(writeErr.value)
    else
      HexEncodeAlphabet(sha256(url));
      Ok(HexEncode(sha256(url)))
  }

  /** The hasher the worker is wired with: `Sha256UrlHasher` when the digest write succeeds. */
  function Sha256Hasher(sha256: string -> Digest): string -> Result<string>
  {
    url => Sha256UrlHasher(url, sha256, None)
  }

  /** Two URLs get the same fingerprint only if SHA-256 gives them the same digest. */
  lemma FingerprintsSeparate(u: string, v: string, sha256: string -> Digest)
    ensures Sha256UrlHasher(u, sha256, None) == Sha256UrlHasher(v, sha256, None) ==> sha256(u) == sha256(v)
  {
    HexEncodeInjective(sha256(u), sha256(v));
  }
}
