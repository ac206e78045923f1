/**
 * The hashing of sensitive data (for instance the text of a screen): SHA-256 of the data followed
 * by the participant's salt, written as lowercase hex, and the random salt of sixteen letters and
 * digits that a new participant is given.
 *
 * SHA-256 and the text-to-bytes encoding are the parameter `digest`; the random choices are the
 * parameter `pick`, the position drawn for each character.
 */
module SensitiveData {
  import opened Wrappers

  /** A byte of the digest, as the unsigned value `"%02x"` prints. */
  newtype Byte = x: int | 0 <= x < 256

  /** `('A'..'Z') + ('a'..'z') + ('0'..'9')` */
  function AllowedChars(): (r: seq<char>)
    ensures |r| == 62
  {
    seq(26, i requires 0 <= i < 26 => ('A' as int + i) as char)
    + seq(26, i requires 0 <= i < 26 => ('a' as int + i) as char)
    + seq(10, i requires 0 <= i < 10 => ('0' as int + i) as char)
  }

  predicate IsAlphanumeric(c: char)
  {
    'A' <= c <= 'Z' || 'a' <= c <= 'z' || '0' <= c <= '9'
  }

  /** The allowed characters are exactly the ASCII letters and digits. */
  lemma AllowedCharsAreAlphanumeric(c: char)
    ensures c in AllowedChars() <==> IsAlphanumeric(c)
  {
    var a := AllowedChars();
    if IsAlphanumeric(c) {
      if 'A' <= c <= 'Z' {
        assert a[c as int - 'A' as int] == c;
      } else if 'a' <= c <= 'z' {
        assert a[26 + c as int - 'a' as int] == c;
      } else {
        assert a[52 + c as int - '0' as int] == c;
      }
    }
  }

  const SaltLength: int := 16

  /** `getRandomString`: one drawn allowed character for each of `1..length`; empty for length <= 0. */
  function GetRandomString(length: int, pick: int -> nat): (r: string)
    ensures |r| == if length <= 0 then 0 else length
    ensures forall i :: 0 <= i < |r| ==> r[i] == AllowedChars()[pick(i + 1) % 62]
  {
    if length <= 0 then ""
    else seq(length, i requires 0 <= i < length => AllowedChars()[pick(i + 1) % 62])
  }

  /** `generateSensitiveDataSalt` */
  function GenerateSensitiveDataSalt(pick: int -> nat): string
  {
    GetRandomString(SaltLength, pick)
  }

  /** A salt has sixteen characters, each a letter or a digit. */
  lemma SaltShape(pick: int -> nat)
    ensures |GenerateSensitiveDataSalt(pick)| == 16
    ensures forall i :: 0 <= i < 16 ==> IsAlphanumeric(GenerateSensitiveDataSalt(pick)[i])
  {
    var s := GenerateSensitiveDataSalt(pick);
    forall i | 0 <= i < 16 ensures IsAlphanumeric(s[i]) {
      AllowedCharsAreAlphanumeric(s[i]);
    }
  }

  /** The position of an allowed character in the list. */
  function IndexOf(c: char): (k: nat)
    requires IsAlphanumeric(c)
    ensures k < 62 && AllowedChars()[k] == c
  {
    if 'A' <= c <= 'Z' then c as int - 'A' as int
    else if 'a' <= c <= 'z' then 26 + c as int - 'a' as int
    else 52 + c as int - '0' as int
  }

  /** Every string of letters and digits is a possible random string of its length. */
  lemma EveryAlphanumericStringCanBeDrawn(s: string)
    requires forall i :: 0 <= i < |s| ==> IsAlphanumeric(s[i])
    ensures exists pick: int -> nat :: GetRandomString(|s|, pick) == s
  {
    var pick := (i: int) => if 1 <= i <= |s| then IndexOf(s[i - 1]) else 0;
    var r := GetRandomString(|s|, pick);
    forall i | 0 <= i < |s| ensures r[i] == s[i] {
      var k := IndexOf(s[i]);
      assert pick(i + 1) == k;
      assert k % 62 == k;
      assert r[i] == AllowedChars()[k];
    }
    assert r == s;
  }

  /** `"%02x".format(b)`'s digit for a value below 16. */
  function HexDigit(d: nat): (c: char)
    requires d < 16
  {
    if d < 10 then ('0' as int + d) as char else ('a' as int + d - 10) as char
  }

  /** The value of a lowercase hex digit. */
  function HexValue(c: char): (r: Option<nat>)
    ensures r.Some? ==> r.value < 16
  {
    if '0' <= c <= '9' then Some(c as int - '0' as int)
    else if 'a' <= c <= 'f' then Some(c as int - 'a' as int + 10)
    else None
  }

  /** `fold("") { str, it -> str + "%02x".format(it) }` */
  function HexEncode(bytes: seq<Byte>): (r: string)
  {
    if |bytes| == 0 then ""
    else
      var b := bytes[|bytes| - 1] as nat;
      HexEncode(bytes[..|bytes| - 1]) + [HexDigit(b / 16), HexDigit(b % 16)]
  }

  /** The byte of a high and a low hex digit. */
  function PairByte(hi: nat, lo: nat): (b: Byte)
    requires hi < 16 && lo < 16
  {
    (hi * 16 + lo) as Byte
  }

  /** The inverse of `HexEncode`: pairs of lowercase hex digits. */
  function HexDecode(s: string): Option<seq<Byte>>
    decreases |s|
  {
    if |s| == 0 then Some([])
    else if |s| == 1 then None
    else
      var hi := HexValue(s[|s| - 2]);
      var lo := HexValue(s[|s| - 1]);
      var rest := HexDecode(s[..|s| - 2]);
      if hi.None? || lo.None? || rest.None? then None
      else Some(rest.value + [PairByte(hi.value, lo.value)])
  }

  /** Two lowercase hex digits per byte. */
  lemma {:induction false} HexShape(bytes: seq<Byte>)
    ensures |HexEncode(bytes)| == 2 * |bytes|
    ensures forall i :: 0 <= i < |HexEncode(bytes)| ==> HexValue(HexEncode(bytes)[i]).Some?
  {
    if |bytes| > 0 {
      HexShape(bytes[..|bytes| - 1]);
    }
  }

  /** A digit reads back as its value. */
  lemma DigitValue(d: nat)
    requires d < 16
    ensures HexValue(HexDigit(d)) == Some(d)
  {
  }

  /** The two digits of a byte read back as the byte. */
  lemma ByteDigits(x: Byte)
    ensures var b := x as nat;
      && HexValue(HexDigit(b / 16)) == Some(b / 16)
      && HexValue(HexDigit(b % 16)) == Some(b % 16)
      && (b / 16) * 16 + b % 16 == b
  {
    var b := x as nat;
    DigitValue(b / 16);
    DigitValue(b % 16);
  }

  /** Decoding a text that ends in two digits decodes the rest and appends their byte. */
  lemma DecodeLastPair(prefix: string, hi: char, lo: char)
    requires HexValue(hi).Some? && HexValue(lo).Some? && HexDecode(prefix).Some?
    ensures HexDecode(prefix + [hi, lo]) ==
      Some(HexDecode(prefix).value + [PairByte(HexValue(hi).value, HexValue(lo).value)])
  {
    var s := prefix + [hi, lo];
    assert |s| >= 2 && s[..|s| - 2] == prefix;
    assert s[|s| - 2] == hi && s[|s| - 1] == lo;
  }

  /** The hex text reads back as the bytes. */
  lemma {:induction false} HexRoundTrip(bytes: seq<Byte>)
    ensures HexDecode(HexEncode(bytes)) == Some(bytes)
  {
    if |bytes| > 0 {
      var n := |bytes| - 1;
      var front := bytes[..n];
      var b := bytes[n] as nat;
      var hi, lo := HexDigit(b / 16), HexDigit(b % 16);
      var enc := HexEncode(front);
      assert HexEncode(bytes) == enc + [hi, lo];
      HexRoundTrip(front);
      ByteDigits(bytes[n]);
      DecodeLastPair(enc, hi, lo);
      assert PairByte(b / 16, b % 16) == bytes[n];
      assert front + [bytes[n]] == bytes;
    }
  }

  /** The salts that make the hashing warn. */
  predicate WeakSalt(salt: string)
  {
    |salt| == 0 || salt == "changemepleeease"
  }

  /**
   * `getSensitiveDataHash`: the hex of the digest of data followed by salt, and whether a warning
   * about the salt was logged. A weak salt only warns; the hash is computed the same way.
   */
  function GetSensitiveDataHash(data: string, salt: string, digest: string -> seq<Byte>): (r: (string, bool))
    ensures r.1 <==> WeakSalt(salt)
  {
    (HexEncode(digest(data + salt)), WeakSalt(salt))
  }

  /**
   * The hash is the digest of the salted data, and it can be read back into that digest; it is
   * twice as long as the digest. Two inputs whose salted texts agree hash alike.
   */
  lemma HashIsSaltedDigest(data: string, salt: string, digest: string -> seq<Byte>, data2: string, salt2: string)
    ensures var h := GetSensitiveDataHash(data, salt, digest).0;
      && HexDecode(h) == Some(digest(data + salt))
      && |h| == 2 * |digest(data + salt)|
      && (data + salt == data2 + salt2 ==> GetSensitiveDataHash(data2, salt2, digest).0 == h)
  {
    HexRoundTrip(digest(data + salt));
    HexShape(digest(data + salt));
  }
}
