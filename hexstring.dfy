/** `GenerateHex` and `RandString` of pkg/util/string.go: read (length+1)/2
    random bytes, encode them in base 16 with the lower-case alphabet of Go's
    `encoding/hex` (the encoding of section 8 of RFC 4648, in lower case), and
    cut the text to `length` characters.

    The operating system's random source is the parameter `src`: an endless
    stream of bytes, or a failure. The mutex of `SecureRandom` is left out. */
module HexString {
  import opened Wrappers

  type byte = x: int | 0 <= x < 256

  const LowerHexAlphabet: string := "0123456789abcdef"

  predicate IsLowerHexDigit(c: char)
  {
    '0' <= c <= '9' || 'a' <= c <= 'f'
  }

  function HexDigit(nibble: int): (c: char)
    requires 0 <= nibble < 16
    ensures IsLowerHexDigit(c) && DigitValue(c) == nibble
  {
    LowerHexAlphabet[nibble]
  }

  function DigitValue(c: char): (nibble: int)
    requires IsLowerHexDigit(c)
    ensures 0 <= nibble < 16
  {
    if c <= '9' then c as int - '0' as int else c as int - 'a' as int + 10
  }

  /** `hex.EncodeToString`: two digits per byte, high nibble first. */
  function Encode(bytes: seq<byte>): (text: string)
    ensures |text| == 2 * |bytes|
    ensures forall k :: 0 <= k < |text| ==> IsLowerHexDigit(text[k])
  {
    if bytes == [] then ""
    else [HexDigit(bytes[0] / 16), HexDigit(bytes[0] % 16)] + Encode(bytes[1..])
  }

  /** The inverse of `Encode` on texts of even length made of hex digits. */
  function Decode(text: string): (bytes: seq<byte>)
    requires |text| % 2 == 0
    requires forall k :: 0 <= k < |text| ==> IsLowerHexDigit(text[k])
    ensures |bytes| == |text| / 2
  {
    if text == "" then []
    else [16 * DigitValue(text[0]) + DigitValue(text[1])] + Decode(text[2..])
  }

  /** The digits of byte k sit at positions 2k (high nibble) and 2k+1 (low nibble). */
  lemma {:induction false} EncodeAt(bytes: seq<byte>, k: nat)
    requires k < |bytes|
    ensures Encode(bytes)[2 * k] == HexDigit(bytes[k] / 16)
    ensures Encode(bytes)[2 * k + 1] == HexDigit(bytes[k] % 16)
  {
    if k > 0 {
      EncodeAt(bytes[1..], k - 1);
    }
  }

  /** Decoding an encoding gives back the bytes. */
  lemma {:induction false} DecodeEncode(bytes: seq<byte>)
    ensures Decode(Encode(bytes)) == bytes
  {
    if bytes != [] {
      var text := Encode(bytes);
      assert text[2..] == Encode(bytes[1..]);
      DecodeEncode(bytes[1..]);
      assert bytes == [bytes[0]] + bytes[1..];
    }
  }

  /** Number of random bytes `GenerateHex(length)` asks for. */
  function ByteCount(length: nat): nat
  {
    (length + 1) / 2
  }

  /** The random source: what `rand.Read` yields, byte after byte, or the error
      it reports for a non-empty buffer (filling an empty buffer cannot fail). */
  datatype RandomSource = Stream(next: nat -> byte) | Failing(err: string)

  /** The `n` bytes `rand.Read` puts into a fresh buffer of length `n`. */
  function Read(next: nat -> byte, n: nat): (buf: seq<byte>)
    ensures |buf| == n
  {
    seq(n, k requires 0 <= k => next(k))
  }

  /** `GenerateHex`'s two results: the text and the error. */
  datatype Generated = Generated(hex: string, err: Option<string>)

  /** `GenerateHex(length)`. A negative length makes the Go code panic (a
      negative buffer size or slice bound), so `length` is a nat. It fails
      exactly when the source fails on a non-empty buffer, and then yields no
      text; otherwise the text has `length` lower-case hex digits. */
  function GenerateHex(length: nat, src: RandomSource): (r: Generated)
    ensures r.err.Some? <==> src.Failing? && ByteCount(length) > 0
    ensures r.err.Some? ==> r == Generated("", Some(src.err))
    ensures r.err.None? ==> |r.hex| == length
    ensures r.err.None? ==> forall k :: 0 <= k < |r.hex| ==> IsLowerHexDigit(r.hex[k])
  {
    match src
    case Failing(e) => if ByteCount(length) == 0 then Generated("", None) else Generated("", Some(e))
    case Stream(next) =>
      var text := Encode(Read(next, ByteCount(length)));
      Generated(if |text| > length then text[..length] else text, None)
  }

  /** The text is a prefix of the full encoding of the bytes read: all of it
      for an even length, all but the last digit for an odd one. */
  lemma GenerateHexTruncates(length: nat, next: nat -> byte)
    ensures var full := Encode(Read(next, ByteCount(length)));
      var hex := GenerateHex(length, Stream(next)).hex;
      hex == full[..length] &&
      (length % 2 == 0 ==> hex == full) &&
      (length % 2 == 1 ==> |full| == length + 1 && hex == full[..|full| - 1])
  {
  }

  /** Length 0 reads no byte, so it gives the empty text and no error whatever
      the source. */
  lemma GenerateHexEmpty(src: RandomSource)
    ensures GenerateHex(0, src) == Generated("", None) && ByteCount(0) == 0
  {
  }

  /** The result depends on the first (length+1)/2 bytes of the stream only. */
  lemma GenerateHexReadsOnlyPrefix(length: nat, f: nat -> byte, g: nat -> byte)
    requires forall k :: 0 <= k < ByteCount(length) ==> f(k) == g(k)
    ensures GenerateHex(length, Stream(f)) == GenerateHex(length, Stream(g))
  {
    assert Read(f, ByteCount(length)) == Read(g, ByteCount(length));
  }

  /** ... and on every one of them: two streams that differ in a byte read give
      different texts, except in the low nibble of the last byte of an odd
      length, whose digit is cut off. */
  lemma GenerateHexUsesEveryByte(length: nat, f: nat -> byte, g: nat -> byte, k: nat)
    requires k < ByteCount(length) && f(k) != g(k)
    requires length % 2 == 0 || k + 1 < ByteCount(length) || f(k) / 16 != g(k) / 16
    ensures GenerateHex(length, Stream(f)).hex != GenerateHex(length, Stream(g)).hex
  {
    var n := ByteCount(length);
    var bf, bg := Read(f, n), Read(g, n);
    EncodeAt(bf, k);
    EncodeAt(bg, k);
    GenerateHexTruncates(length, f);
    GenerateHexTruncates(length, g);
    var hf, hg := GenerateHex(length, Stream(f)).hex, GenerateHex(length, Stream(g)).hex;
    if f(k) / 16 != g(k) / 16 {
      assert hf[2 * k] != hg[2 * k];
    } else {
      assert f(k) % 16 != g(k) % 16;
      assert 2 * k + 1 < length;
      assert hf[2 * k + 1] != hg[2 * k + 1];
    }
  }

  /** For an even length no two byte strings give the same text. */
  lemma EvenLengthIsInjective(length: nat, f: nat -> byte, g: nat -> byte)
    requires length % 2 == 0
    requires GenerateHex(length, Stream(f)) == GenerateHex(length, Stream(g))
    ensures Read(f, ByteCount(length)) == Read(g, ByteCount(length))
  {
    GenerateHexTruncates(length, f);
    GenerateHexTruncates(length, g);
    DecodeEncode(Read(f, ByteCount(length)));
    DecodeEncode(Read(g, ByteCount(length)));
  }

  /** Text used by `RandString` when the random source fails. */
  const FallbackText: string := "0000000000"

  /** `RandString(n)`: GenerateHex's text, or ten zeros whatever n is when the
      random source fails (which needs n > 0). */
  function RandString(n: nat, src: RandomSource): (text: string)
    ensures src.Failing? && n > 0 ==> text == FallbackText && |text| == 10
    ensures src.Stream? || n == 0 ==> text == GenerateHex(n, src).hex && |text| == n
    ensures forall k :: 0 <= k < |text| ==> IsLowerHexDigit(text[k])
  {
    var generated := GenerateHex(n, src);
    if generated.err.Some? then FallbackText else generated.hex
  }
}
