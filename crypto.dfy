/**
 * The PKCE helpers of src/utils/crypto.js: the code verifier drawn from random bytes, and the S256 code
 * challenge, the unpadded base64url encoding (section 5 of RFC 4648) of the SHA-256 digest of the verifier
 * (section 4.2 of RFC 7636). Random bytes and the digest are inputs.
 */
module Pkce {

  type Byte = x: int | 0 <= x < 256

  /** `n` consecutive characters starting at `first`. */
  function CharRange(first: char, n: nat): (s: string)
    requires first as int + n <= 0xD800
    ensures |s| == n
    ensures forall i :: 0 <= i < n ==> s[i] as int == first as int + i
  {
    seq(n, i requires 0 <= i < n => (first as int + i) as char)
  }

  /** The `possible` alphabet of `generateRandomString`: A-Z, then a-z, then 0-9. */
  const Alphanumerics: string := CharRange('A', 26) + CharRange('a', 26) + CharRange('0', 10)

  predicate Alphanumeric(c: char) {
    'A' <= c <= 'Z' || 'a' <= c <= 'z' || '0' <= c <= '9'
  }

  /** The characters a code verifier may use: `unreserved` of section 4.1 of RFC 7636. */
  predicate Unreserved(c: char) {
    Alphanumeric(c) || c == '-' || c == '.' || c == '_' || c == '~'
  }

  lemma AlphanumericsShape()
    ensures |Alphanumerics| == 62
    ensures forall i :: 0 <= i < 62 ==> Alphanumeric(Alphanumerics[i])
    ensures Alphanumerics[0] == 'A' && Alphanumerics[26] == 'a' && Alphanumerics[61] == '9'
  {
    var upper, lower, digits := CharRange('A', 26), CharRange('a', 26), CharRange('0', 10);
    forall i | 0 <= i < 62 ensures Alphanumeric(Alphanumerics[i]) {
      if i < 26 {
        assert Alphanumerics[i] == upper[i];
      } else if i < 52 {
        assert Alphanumerics[i] == lower[i - 26];
      } else {
        assert Alphanumerics[i] == digits[i - 52];
      }
    }
    assert Alphanumerics[61] == digits[9];
  }

  /** `generateRandomString(bytes.length)` with `crypto.getRandomValues` having produced `bytes`. */
  function RandomString(bytes: seq<Byte>): (s: string)
    ensures |s| == |bytes|
  {
    seq(|bytes|, i requires 0 <= i < |bytes| => Alphanumerics[bytes[i] % |Alphanumerics|])
  }

  /** Character `i` of the string is `possible[bytes[i] % 62]`, so every character is a letter or a digit, and
      every letter and digit of the alphabet can occur. */
  lemma RandomStringChars(bytes: seq<Byte>)
    ensures forall i :: 0 <= i < |bytes| ==> RandomString(bytes)[i] == Alphanumerics[bytes[i] % 62]
    ensures forall i :: 0 <= i < |bytes| ==> Alphanumeric(RandomString(bytes)[i]) && Unreserved(RandomString(bytes)[i])
    ensures forall k :: 0 <= k < 62 ==> RandomString([k as Byte]) == [Alphanumerics[k]]
  {
    AlphanumericsShape();
  }

  /** `generateCodeVerifier()`: a random string over 64 random bytes. */
  function CodeVerifier(bytes: seq<Byte>): (v: string)
    requires |bytes| == 64
    ensures |v| == 64 && 43 <= |v| <= 128
    ensures forall i :: 0 <= i < |v| ==> Unreserved(v[i])
  {
    RandomStringChars(bytes);
    RandomString(bytes)
  }

  /** The two 64-character alphabets of section 4 (standard) and section 5 (URL and filename safe) of RFC 4648. */
  const StdAlphabet: string := Alphanumerics + "+/"
  const UrlAlphabet: string := Alphanumerics + "-_"

  /** Standard base64 with `=` padding of the bytes, as `btoa(String.fromCharCode(...bytes))` gives it. */
  function Base64(b: seq<Byte>): (s: string)
    decreases |b|
  {
    if |b| == 0 then ""
    else if |b| == 1 then [StdAlphabet[b[0] / 4], StdAlphabet[(b[0] % 4) * 16]] + "=="
    else if |b| == 2 then
      [StdAlphabet[b[0] / 4], StdAlphabet[(b[0] % 4) * 16 + b[1] / 16], StdAlphabet[(b[1] % 16) * 4]] + "="
    else
      [StdAlphabet[b[0] / 4], StdAlphabet[(b[0] % 4) * 16 + b[1] / 16],
       StdAlphabet[(b[1] % 16) * 4 + b[2] / 64], StdAlphabet[b[2] % 64]] + Base64(b[3..])
  }

  /** `s.replace(/c/g, "")`. */
  function RemoveAll(s: string, c: char): (r: string)
    ensures c !in r
  {
    if s == [] then [] else (if s[0] == c then [] else [s[0]]) + RemoveAll(s[1..], c)
  }

  /** `s.replace(/from/g, to)` for a single character. */
  function ReplaceAll(s: string, from: char, to: char): (r: string)
    ensures |r| == |s|
    ensures forall i :: 0 <= i < |r| ==> r[i] == if s[i] == from then to else s[i]
  {
    seq(|s|, i requires 0 <= i < |s| => if s[i] == from then to else s[i])
  }

  /** The three replacements of `base64urlEncode` applied to a base64 text. */
  function UrlSafe(s: string): string {
    ReplaceAll(ReplaceAll(RemoveAll(s, '='), '+', '-'), '/', '_')
  }

  /** `base64urlEncode(bytes)`. */
  function Base64UrlEncode(b: seq<Byte>): (r: string)
    ensures forall i :: 0 <= i < |r| ==> r[i] != '=' && r[i] != '+' && r[i] != '/'
  {
    UrlSafe(Base64(b))
  }

  /** Byte `i` of the input followed by zero bytes. */
  function ByteAt(b: seq<Byte>, i: nat): Byte {
    if i < |b| then b[i] else 0
  }

  /** Sextet `j` of the bytes read as one bit string, most significant bit first, padded with zero bits. */
  function Sextet(b: seq<Byte>, j: nat): (x: nat)
    ensures x < 64
  {
    var g := 3 * (j / 4);
    var x, y, z := ByteAt(b, g), ByteAt(b, g + 1), ByteAt(b, g + 2);
    if j % 4 == 0 then x / 4
    else if j % 4 == 1 then (x % 4) * 16 + y / 16
    else if j % 4 == 2 then (y % 16) * 4 + z / 64
    else z % 64
  }

  /** `ceil(8n / 6)`: the number of characters of the unpadded encoding of `n` bytes. */
  function EncodedLength(n: nat): nat {
    (4 * n + 2) / 3
  }

  /** The base64url encoding without padding, as section 5 of RFC 4648 and appendix A of RFC 7636 define it:
      one character of the URL-safe alphabet per six bits. */
  function Base64UrlReference(b: seq<Byte>): (s: string)
    ensures |s| == EncodedLength(|b|)
  {
    seq(EncodedLength(|b|), j requires 0 <= j < EncodedLength(|b|) => UrlAlphabet[Sextet(b, j)])
  }

  lemma RemoveAllConcat(a: string, b: string, c: char)
    ensures RemoveAll(a + b, c) == RemoveAll(a, c) + RemoveAll(b, c)
  {
    if a == [] {
      assert a + b == b;
    } else {
      assert (a + b)[0] == a[0] && (a + b)[1..] == a[1..] + b;
      RemoveAllConcat(a[1..], b, c);
    }
  }

  lemma UrlSafeConcat(a: string, b: string)
    ensures UrlSafe(a + b) == UrlSafe(a) + UrlSafe(b)
  {
    RemoveAllConcat(a, b, '=');
  }

  /** The encoding of a group of sextets in either alphabet. */
  function StdChars(ks: seq<nat>): string
    requires forall i :: 0 <= i < |ks| ==> ks[i] < 64
  {
    seq(|ks|, i requires 0 <= i < |ks| => StdAlphabet[ks[i]])
  }

  function UrlChars(ks: seq<nat>): string
    requires forall i :: 0 <= i < |ks| ==> ks[i] < 64
  {
    seq(|ks|, i requires 0 <= i < |ks| => UrlAlphabet[ks[i]])
  }

  /** The replacements turn each character of the standard alphabet into the one of the URL-safe alphabet. */
  lemma {:induction false} UrlSafeChars(ks: seq<nat>)
    requires forall i :: 0 <= i < |ks| ==> ks[i] < 64
    ensures UrlSafe(StdChars(ks)) == UrlChars(ks)
  {
    if ks != [] {
      AlphanumericsShape();
      var k := ks[0];
      assert StdChars(ks) == [StdAlphabet[k]] + StdChars(ks[1..]);
      assert UrlChars(ks) == [UrlAlphabet[k]] + UrlChars(ks[1..]);
      UrlSafeConcat([StdAlphabet[k]], StdChars(ks[1..]));
      UrlSafeChars(ks[1..]);
      if k < 62 {
        assert StdAlphabet[k] == Alphanumerics[k] == UrlAlphabet[k];
        assert Alphanumeric(Alphanumerics[k]);
      }
      assert UrlSafe([StdAlphabet[k]]) == [UrlAlphabet[k]];
    }
  }

  /** The sextets after the first three bytes are those of the remaining bytes. */
  lemma SextetShift(b: seq<Byte>, j: nat)
    requires |b| >= 3
    ensures Sextet(b, j + 4) == Sextet(b[3..], j)
  {
    assert (j + 4) / 4 == j / 4 + 1 && (j + 4) % 4 == j % 4;
    var g := 3 * (j / 4);
    assert ByteAt(b, g + 3) == ByteAt(b[3..], g);
    assert ByteAt(b, g + 4) == ByteAt(b[3..], g + 1);
    assert ByteAt(b, g + 5) == ByteAt(b[3..], g + 2);
  }

  /** The first four sextets of three or more bytes. */
  function FirstGroup(b: seq<Byte>): (ks: seq<nat>)
    requires |b| >= 3
    ensures |ks| == 4 && forall i :: 0 <= i < 4 ==> ks[i] < 64
  {
    [b[0] / 4, (b[0] % 4) * 16 + b[1] / 16, (b[1] % 16) * 4 + b[2] / 64, b[2] % 64]
  }

  lemma EncodeStep(b: seq<Byte>)
    requires |b| >= 3
    ensures Base64UrlEncode(b) == UrlChars(FirstGroup(b)) + Base64UrlEncode(b[3..])
  {
    var ks := FirstGroup(b);
    assert Base64(b) == StdChars(ks) + Base64(b[3..]);
    UrlSafeConcat(StdChars(ks), Base64(b[3..]));
    UrlSafeChars(ks);
  }

  lemma ReferenceStep(b: seq<Byte>)
    requires |b| >= 3
    ensures Base64UrlReference(b) == UrlChars(FirstGroup(b)) + Base64UrlReference(b[3..])
  {
    var r, rest, ks := Base64UrlReference(b), Base64UrlReference(b[3..]), FirstGroup(b);
    forall j | 0 <= j < 4 ensures r[j] == UrlChars(ks)[j] {
      assert Sextet(b, j) == ks[j];
    }
    forall j | 0 <= j < |rest| ensures r[j + 4] == rest[j] {
      SextetShift(b, j);
    }
  }

  /** The sextets of a final group of one byte, and of two bytes. */
  function OneByteGroup(b: seq<Byte>): (ks: seq<nat>)
    requires |b| == 1
    ensures |ks| == 2 && forall i :: 0 <= i < 2 ==> ks[i] < 64
  {
    [b[0] / 4, (b[0] % 4) * 16]
  }

  function TwoByteGroup(b: seq<Byte>): (ks: seq<nat>)
    requires |b| == 2
    ensures |ks| == 3 && forall i :: 0 <= i < 3 ==> ks[i] < 64
  {
    [b[0] / 4, (b[0] % 4) * 16 + b[1] / 16, (b[1] % 16) * 4]
  }

  /** One byte encodes to two characters, its two `=` of padding removed. */
  lemma EncodeOne(b: seq<Byte>)
    requires |b| == 1
    ensures Base64UrlEncode(b) == UrlChars(OneByteGroup(b))
  {
    var ks := OneByteGroup(b);
    assert Base64(b) == StdChars(ks) + "==";
    UrlSafeConcat(StdChars(ks), "==");
    UrlSafeChars(ks);
    assert "=="[1..] == "=" && "="[1..] == [];
    assert RemoveAll("==", '=') == [];
  }

  lemma ReferenceOne(b: seq<Byte>)
    requires |b| == 1
    ensures Base64UrlReference(b) == UrlChars(OneByteGroup(b))
  {
    var ks := OneByteGroup(b);
    assert Sextet(b, 0) == ks[0] && Sextet(b, 1) == ks[1];
  }

  /** Two bytes encode to three characters, their `=` of padding removed. */
  lemma EncodeTwo(b: seq<Byte>)
    requires |b| == 2
    ensures Base64UrlEncode(b) == UrlChars(TwoByteGroup(b))
  {
    var ks := TwoByteGroup(b);
    assert Base64(b) == StdChars(ks) + "=";
    UrlSafeConcat(StdChars(ks), "=");
    UrlSafeChars(ks);
    assert "="[1..] == [];
    assert RemoveAll("=", '=') == [];
  }

  lemma ReferenceTwo(b: seq<Byte>)
    requires |b| == 2
    ensures Base64UrlReference(b) == UrlChars(TwoByteGroup(b))
  {
    var ks := TwoByteGroup(b);
    assert Sextet(b, 0) == ks[0] && Sextet(b, 1) == ks[1] && Sextet(b, 2) == ks[2];
  }

  /** `base64urlEncode` is the unpadded base64url encoding: standard base64 with `+` turned into `-`, `/` into
      `_` and the padding dropped gives, character by character, the encoding of section 5 of RFC 4648. */
  lemma {:induction false} Base64UrlEncodeIsReference(b: seq<Byte>)
    ensures Base64UrlEncode(b) == Base64UrlReference(b)
    decreases |b|
  {
    if |b| == 0 {
    } else if |b| == 1 {
      EncodeOne(b);
      ReferenceOne(b);
    } else if |b| == 2 {
      EncodeTwo(b);
      ReferenceTwo(b);
    } else {
      EncodeStep(b);
      ReferenceStep(b);
      Base64UrlEncodeIsReference(b[3..]);
    }
  }

  /** The encoding never contains `=`, `+` or `/`, uses only unreserved characters, and has `ceil(8n / 6)`
      characters; a 32-byte digest encodes to 43 characters. */
  lemma Base64UrlEncodeShape(b: seq<Byte>)
    ensures |Base64UrlEncode(b)| == EncodedLength(|b|)
    ensures forall i :: 0 <= i < |Base64UrlEncode(b)| ==>
              var c := Base64UrlEncode(b)[i]; c != '=' && c != '+' && c != '/' && Unreserved(c)
    ensures |b| == 32 ==> |Base64UrlEncode(b)| == 43
  {
    Base64UrlEncodeIsReference(b);
    AlphanumericsShape();
    var r := Base64UrlReference(b);
    forall i | 0 <= i < |r| ensures r[i] != '=' && r[i] != '+' && r[i] != '/' && Unreserved(r[i]) {
      var k := Sextet(b, i);
      if k < 62 {
        assert r[i] == Alphanumerics[k];
      }
    }
  }

  /** `generateCodeChallenge(verifier)` with `sha256` the SHA-256 digest of the verifier's UTF-8 encoding: the
      S256 challenge `BASE64URL(SHA256(verifier))` of section 4.2 of RFC 7636. */
  function CodeChallenge(verifier: string, sha256: string -> seq<Byte>): (c: string)
    ensures c == Base64UrlReference(sha256(verifier))
    ensures |sha256(verifier)| == 32 ==> |c| == 43
    ensures forall i :: 0 <= i < |c| ==> Unreserved(c[i])
  {
    Base64UrlEncodeShape(sha256(verifier));
    Base64UrlEncodeIsReference(sha256(verifier));
    Base64UrlEncode(sha256(verifier))
  }
}
