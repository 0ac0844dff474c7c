/** The Stripe app's `Encryptor` (apps/stripe/src/lib/encryptor.ts): a key
    derived once from a secret, AES-256-CBC encryption framed as
    `hex(iv) + ":" + hex(ciphertext)`, and the matching decryption.

    SHA-256 (section 6.2 of FIPS 180-4) and AES-256-CBC (section 6.2 of NIST
    SP 800-38A, with PKCS#7 padding and UTF-8 text) are not modelled; they
    enter as the function values of a `Crypto` record, and `Sound` states the
    two facts about them that the framing relies on. Base16 is modelled
    concretely in module Hex. */
module Encryptor {
  import opened Wrappers
  import Hex

  type byte = Hex.byte

  datatype Crypto = Crypto(
    /** SHA-256 digest of the UTF-8 encoding of a string */
    sha256: string -> seq<byte>,
    /** AES-256-CBC encryption of the UTF-8 encoding of a text under (key, iv) */
    encipher: (seq<byte>, seq<byte>, string) -> seq<byte>,
    /** AES-256-CBC decryption under (key, iv); None when `createDecipheriv` or
        `final()` throws (wrong key or IV length, bad padding) */
    decipher: (seq<byte>, seq<byte>, seq<byte>) -> Option<string>)

  /** What the primitives guarantee: a digest is 32 bytes; with a 32-byte key
      and a 16-byte IV a ciphertext is never empty (padding adds at least one
      block) and deciphers to the original text. */
  ghost predicate Sound(c: Crypto)
  {
    && (forall s :: |c.sha256(s)| == 32)
    && (forall k, iv, t :: |k| == 32 && |iv| == 16 ==>
          |c.encipher(k, iv, t)| > 0 && c.decipher(k, iv, c.encipher(k, iv, t)) == Some(t))
  }

  datatype Encryptor = Encryptor(crypto: Crypto, key: seq<byte>)

  datatype DecryptError =
    | InvalidInput   // `throw new Error("Invalid input")`
    | CipherFailed   // the decipher threw

  /** `deriveKey`: a 64-digit hexadecimal secret is the key itself, any other
      secret is hashed. */
  function DeriveKey(c: Crypto, secret: string): (key: seq<byte>)
    ensures |secret| == 64 && Hex.IsHexString(secret) ==> key == Hex.Decode(secret)
    ensures !(|secret| == 64 && Hex.IsHexString(secret)) ==> key == c.sha256(secret)
    ensures Sound(c) ==> |key| == 32
  {
    if |secret| == 64 && Hex.IsHexString(secret) then
      Hex.DecodeLength(secret);
      Hex.Decode(secret)
    else
      c.sha256(secret)
  }

  /** `new Encryptor(secret)` */
  function New(c: Crypto, secret: string): (e: Encryptor)
    ensures e.crypto == c && e.key == DeriveKey(c, secret)
  {
    Encryptor(c, DeriveKey(c, secret))
  }

  /** `new Encryptor()`: the secret defaults to `env.SECRET_KEY`. */
  function Default(c: Crypto, secretKeyEnv: string): (e: Encryptor)
    ensures e == New(c, secretKeyEnv)
  {
    New(c, secretKeyEnv)
  }

  /** `encrypt(text)` with the IV that `randomBytes(16)` produced: the two
      fields `decrypt` reads back are the IV and the ciphertext, in hex. */
  function Encrypt(e: Encryptor, iv: seq<byte>, text: string): (r: string)
    ensures FirstField(r) == Hex.Encode(iv)
    ensures SecondField(r) == Some(Hex.Encode(e.crypto.encipher(e.key, iv, text)))
  {
    var a := Hex.Encode(iv);
    var b := Hex.Encode(e.crypto.encipher(e.key, iv, text));
    FieldsOfJoin(a, b);
    assert FirstField(b) == b;
    a + ":" + b
  }

  /** The position of the first `c` in `s`. */
  function IndexOf(s: string, c: char): (r: Option<nat>)
    ensures r.None? <==> c !in s
    ensures r.Some? ==> r.value < |s| && s[r.value] == c && c !in s[..r.value]
  {
    if s == [] then None
    else if s[0] == c then Some(0)
    else match IndexOf(s[1..], c)
      case None => None
      case Some(i) =>
        assert s[1..][..i] == s[1..i + 1];
        Some(i + 1)
  }

  /** `text.split(":")[0]` */
  function FirstField(text: string): (f: string)
    ensures ':' !in f && f <= text
    ensures ':' !in text ==> f == text
  {
    match IndexOf(text, ':')
    case None => text
    case Some(i) => text[..i]
  }

  /** `text.split(":")[1]`, undefined when there is no ":" */
  function SecondField(text: string): (f: Option<string>)
    ensures f.None? <==> ':' !in text
    ensures f.Some? ==> ':' !in f.value
  {
    match IndexOf(text, ':')
    case None => None
    case Some(i) => Some(FirstField(text[i + 1..]))
  }

  /** Both fields `decrypt` reads are present and non-empty. */
  predicate Framed(text: string)
  {
    FirstField(text) != "" && SecondField(text).Some? && SecondField(text).value != ""
  }

  /** `decrypt(text)`: an absent or empty IV or ciphertext field is invalid
      input; otherwise the outcome is the cipher's on the two decoded
      fields. */
  function Decrypt(e: Encryptor, text: string): (r: Result<string, DecryptError>)
    ensures !Framed(text) <==> r == Err(InvalidInput)
    ensures ':' !in text ==> r == Err(InvalidInput)
    ensures |text| > 0 && text[0] == ':' ==> r == Err(InvalidInput)
    ensures Framed(text) ==>
      var plain := e.crypto.decipher(e.key, Hex.Decode(FirstField(text)), Hex.Decode(SecondField(text).value));
      (r.Ok? <==> plain.Some?) && (r.Ok? ==> plain == Some(r.value))
  {
    var ivHex := FirstField(text);
    var encryptedHex := SecondField(text);
    if ivHex == "" || encryptedHex.None? || encryptedHex.value == "" then
      Err(InvalidInput)
    else
      match e.crypto.decipher(e.key, Hex.Decode(ivHex), Hex.Decode(encryptedHex.value))
      case None => Err(CipherFailed)
      case Some(t) => Ok(t)
  }

  lemma FieldsOfJoin(a: string, b: string)
    requires ':' !in a
    ensures FirstField(a + ":" + b) == a
    ensures SecondField(a + ":" + b) == Some(FirstField(b))
  {
    var s := a + ":" + b;
    assert s[..|a|] == a;
    assert ':' !in s[..|a|] && s[|a|] == ':';
    assert s[|a|] in s;
    assert IndexOf(s, ':') == Some(|a|);
    assert s[|a| + 1..] == b;
  }

  /** The stored form: 32 hexadecimal digits of IV, a ":", then the
      hexadecimal ciphertext, and no other ":". */
  lemma EncryptFraming(e: Encryptor, iv: seq<byte>, text: string)
    requires |iv| == 16
    ensures var r := Encrypt(e, iv, text);
      && FirstField(r) == Hex.Encode(iv) && |FirstField(r)| == 32
      && SecondField(r) == Some(Hex.Encode(e.crypto.encipher(e.key, iv, text)))
      && multiset(r)[':'] == 1
  {
    var a := Hex.Encode(iv);
    var b := Hex.Encode(e.crypto.encipher(e.key, iv, text));
    FieldsOfJoin(a, b);
    assert ':' !in a && ':' !in b;
    assert multiset(a)[':'] == 0 && multiset(b)[':'] == 0;
    assert multiset(a + ":" + b) == multiset(a) + multiset{':'} + multiset(b);
  }

  /** `decrypt` reads the first two fields only. */
  lemma DecryptIgnoresTrailingFields(e: Encryptor, a: string, b: string, rest: string)
    requires ':' !in a && ':' !in b
    ensures Decrypt(e, a + ":" + b + ":" + rest) == Decrypt(e, a + ":" + b)
  {
    var long := a + ":" + b + ":" + rest;
    var short := a + ":" + b;
    FieldsOfJoin(a, b);
    assert long == a + ":" + (b + ":" + rest);
    FieldsOfJoin(a, b + ":" + rest);
    FieldsOfJoin(b, rest);
    assert FirstField(long) == FirstField(short);
    assert SecondField(long) == SecondField(short);
  }

  /** Decryption inverts encryption under the same key, whatever the IV. */
  lemma DecryptEncrypt(e: Encryptor, iv: seq<byte>, text: string)
    requires Sound(e.crypto) && |e.key| == 32 && |iv| == 16
    ensures Decrypt(e, Encrypt(e, iv, text)) == Ok(text)
  {
    var ct := e.crypto.encipher(e.key, iv, text);
    var a := Hex.Encode(iv);
    var b := Hex.Encode(ct);
    FieldsOfJoin(a, b);
    assert ':' !in b;
    assert FirstField(b) == b;
    Hex.DecodeEncode(iv);
    Hex.DecodeEncode(ct);
  }

  /** Every encryptor built from a secret can decrypt what it encrypts. */
  lemma NewEncryptorRoundTrip(c: Crypto, secret: string, iv: seq<byte>, text: string)
    requires Sound(c) && |iv| == 16
    ensures Decrypt(New(c, secret), Encrypt(New(c, secret), iv, text)) == Ok(text)
  {
    DecryptEncrypt(New(c, secret), iv, text);
  }
}
