/**
 * `AESCipher`: key validation and the token framing around AES-256-GCM.
 *
 * A token is the standard base 64 encoding (section 4 of RFC 4648) of
 * `nonce (12 bytes) ‖ tag (16 bytes) ‖ ciphertext`, where the plaintext is the
 * UTF-8 encoding of the string. The block cipher and tag computation of
 * NIST SP 800-38D belong to a library; the model receives them as an `Aead`
 * value and assumes of it only what `Sound` states.
 */
module Encryption {
  import opened Wrappers
  import opened Text
  import Base64
  import Utf8

  const NonceLength: nat := 12
  const TagLength: nat := 16
  const KeyLength: nat := 32
  /** Offset of the ciphertext in a decoded token. */
  const HeaderLength: nat := NonceLength + TagLength

  /** What GCM encryption yields: the authentication tag and the ciphertext. */
  datatype Sealed = Sealed(tag: Bytes, ciphertext: Bytes)

  /**
   * The library's AES-GCM, as two functions:
   * `seal(key, nonce, plaintext)` and `open(key, nonce, tag, ciphertext)`,
   * the latter `None` where the library raises (`InvalidTag` and the like).
   */
  datatype Aead = Aead(
    seal: (Bytes, Bytes, Bytes) -> Sealed,
    open: (Bytes, Bytes, Bytes, Bytes) -> Option<Bytes>)

  /**
   * What the model relies on about GCM: with a 256-bit key and a 96-bit nonce
   * the tag has 16 bytes, the ciphertext is as long as the plaintext, and
   * opening what was sealed gives the plaintext back.
   */
  ghost predicate Sound(aead: Aead) {
    forall key: Bytes, nonce: Bytes, plaintext: Bytes
      | |key| == KeyLength && |nonce| == NonceLength
      :: var s := aead.seal(key, nonce, plaintext);
         |s.tag| == TagLength && |s.ciphertext| == |plaintext|
         && aead.open(key, nonce, s.tag, s.ciphertext) == Some(plaintext)
  }

  type Key = k: Bytes | |k| == KeyLength witness seq(KeyLength, i => 0)

  /** An `AESCipher` instance: its key is fixed once the constructor has validated it. */
  datatype Cipher = Cipher(key: Key)

  /** Why the constructor raises `ValueError`. */
  datatype KeyError = KeyNotSet | WrongKeyLength(got: nat)

  /** `key or os.environ.get('ENCRYPTION_KEY')`: an empty string is as falsy as `None`. */
  function KeySource(key: Option<string>, env: Option<string>): (r: Option<string>)
    ensures r.Some? ==> r.value != []
    ensures key.Some? && key.value != [] ==> r == key
  {
    if key.Some? && key.value != [] then key
    else if env.Some? && env.value != [] then env
    else None
  }

  /** `urlsafe_b64decode(key_str)`, or the UTF-8 bytes of `key_str` when decoding raises. */
  function KeyMaterial(keyText: string): Bytes {
    match Base64.UrlSafeDecode(keyText)
    case Some(b) => b
    case None => Utf8.Encode(keyText)
  }

  /** `AESCipher(key)` with `ENCRYPTION_KEY` set to `env` (`None` when unset). */
  function NewCipher(key: Option<string>, env: Option<string>): (r: Result<Cipher, KeyError>)
    ensures r == Err(KeyNotSet) <==> KeySource(key, env).None?
    ensures r.Ok? ==> KeySource(key, env).Some? && r.value.key == KeyMaterial(KeySource(key, env).value)
    ensures r.Err? && r.error.WrongKeyLength? ==> r.error.got != KeyLength
  {
    match KeySource(key, env)
    case None => Err(KeyNotSet)
    case Some(text) =>
      var k := KeyMaterial(text);
      if |k| != KeyLength then Err(WrongKeyLength(|k|)) else Ok(Cipher(k))
  }

  /** `cipher.encrypt(raw)` with `nonce` standing for `os.urandom(12)`. */
  function Encrypt(c: Cipher, aead: Aead, raw: Option<string>, nonce: Bytes): (r: Option<string>)
    requires |nonce| == NonceLength
    ensures r.None? <==> raw.None?
  {
    match raw
    case None => None
    case Some(s) =>
      var sealed := aead.seal(c.key, nonce, Utf8.Encode(s));
      Some(Base64.Encode(nonce + sealed.tag + sealed.ciphertext))
  }

  /** `cipher.decrypt(enc)`: every failure inside the `try` becomes `None`. */
  function Decrypt(c: Cipher, aead: Aead, enc: Option<string>): (r: Option<string>)
    ensures enc.None? ==> r.None?
  {
    match enc
    case None => None
    case Some(token) =>
      match Base64.Decode(token)
      case None => None
      case Some(data) =>
        // GCM refuses a tag shorter than 16 bytes, which is what `data[12:28]` is here.
        if |data| < HeaderLength then None
        else
          match aead.open(c.key, data[..NonceLength], data[NonceLength..HeaderLength], data[HeaderLength..])
          case None => None
          case Some(plaintext) => Utf8.Decode(plaintext)
  }

  // ---------------------------------------------------------------------------
  // Properties

  /** Construction fails exactly when neither the argument nor the variable supplies a non-empty key. */
  lemma NoKeyNoCipher(env: Option<string>)
    ensures NewCipher(None, env).Err? <==> env.None? || env.value == [] || |KeyMaterial(env.value)| != KeyLength
    ensures NewCipher(None, env) == Err(KeyNotSet) <==> env.None? || env.value == []
  {
  }

  /** A key given as URL-safe base 64 of 32 bytes is accepted and used as those bytes, whatever the variable holds. */
  lemma EncodedKeyAccepted(k: Bytes, env: Option<string>)
    requires |k| == KeyLength
    ensures NewCipher(Some(Base64.UrlSafeEncode(k)), env) == Ok(Cipher(k))
  {
    Base64.UrlSafeDecodeEncode(k);
    assert |Base64.UrlSafeEncode(k)| == 44;
  }

  /** A key text that is not valid base 64 is taken as its UTF-8 bytes, so only a 32-byte text is accepted. */
  lemma RawKeyFallback(text: string, env: Option<string>)
    requires text != [] && Base64.UrlSafeDecode(text).None?
    ensures NewCipher(Some(text), env).Ok? <==> |Utf8.Encode(text)| == KeyLength
  {
  }

  /** The decoded token is `nonce ‖ tag ‖ ciphertext`, with a 16-byte tag and the ciphertext as long as the UTF-8 plaintext. */
  lemma TokenLayout(c: Cipher, aead: Aead, s: string, nonce: Bytes)
    requires Sound(aead) && |nonce| == NonceLength
    ensures var data := Base64.Decode(Encrypt(c, aead, Some(s), nonce).value);
            var sealed := aead.seal(c.key, nonce, Utf8.Encode(s));
            && data == Some(nonce + sealed.tag + sealed.ciphertext)
            && |data.value| == HeaderLength + |Utf8.Encode(s)|
            && data.value[..NonceLength] == nonce
            && data.value[NonceLength..HeaderLength] == sealed.tag
            && data.value[HeaderLength..] == sealed.ciphertext
  {
    var sealed := aead.seal(c.key, nonce, Utf8.Encode(s));
    Base64.DecodeEncode(nonce + sealed.tag + sealed.ciphertext);
  }

  /** Round trip: `decrypt(encrypt(s)) == s`. */
  lemma DecryptEncrypt(c: Cipher, aead: Aead, s: string, nonce: Bytes)
    requires Sound(aead) && |nonce| == NonceLength
    ensures Decrypt(c, aead, Encrypt(c, aead, Some(s), nonce)) == Some(s)
  {
    TokenLayout(c, aead, s, nonce);
    Utf8.DecodeEncode(s);
  }

  /** A token is always longer than the text it protects, so `encrypt(s) != s`. */
  lemma TokenDiffersFromText(c: Cipher, aead: Aead, s: string, nonce: Bytes)
    requires Sound(aead) && |nonce| == NonceLength
    ensures |Encrypt(c, aead, Some(s), nonce).value| > |s|
    ensures Encrypt(c, aead, Some(s), nonce) != Some(s)
  {
    TokenLayout(c, aead, s, nonce);
    Utf8.EncodeLength(s);
  }

  /** Two encryptions under different nonces never give the same token. */
  lemma FreshNonceFreshToken(c: Cipher, aead: Aead, s1: string, s2: string, n1: Bytes, n2: Bytes)
    requires |n1| == NonceLength && |n2| == NonceLength && n1 != n2
    ensures Encrypt(c, aead, Some(s1), n1) != Encrypt(c, aead, Some(s2), n2)
  {
    var a1 := aead.seal(c.key, n1, Utf8.Encode(s1));
    var a2 := aead.seal(c.key, n2, Utf8.Encode(s2));
    var d1 := n1 + a1.tag + a1.ciphertext;
    var d2 := n2 + a2.tag + a2.ciphertext;
    assert d1[..NonceLength] == n1 && d2[..NonceLength] == n2;
    Base64.DecodeEncode(d1);
    Base64.DecodeEncode(d2);
  }

  /** Fail closed: text that is not base 64 of at least 28 bytes decrypts to `None`, whatever the key. */
  lemma ShortTokenRejected(c: Cipher, aead: Aead, token: string)
    requires |token| < HeaderLength
    ensures Decrypt(c, aead, Some(token)) == None
  {
    Base64.DecodeLength(token);
  }

  /** Fail closed: a token the library refuses to open decrypts to `None`. */
  lemma RejectedTagRejected(c: Cipher, aead: Aead, token: string)
    requires var data := Base64.Decode(token);
             data.Some? && |data.value| >= HeaderLength
             && aead.open(c.key, data.value[..NonceLength], data.value[NonceLength..HeaderLength], data.value[HeaderLength..]).None?
    ensures Decrypt(c, aead, Some(token)) == None
  {
  }
}
