/**
 * The encrypted envelope of the secure channel (`encrypt`, `decrypt` and
 * `keyFromPassphrase`, src/Javascript/Main.js:269-341): the string
 * `base64(iv) + base64(ciphertext)` with no separator, split again at character 16.
 * AES-GCM, PBKDF2 and UTF-8 are collaborators; their parameters are fixed here.
 */
module Envelope {
  import opened Wrappers
  import opened Base64

  /** WebCrypto and the text codecs, as the lobby calls them. */
  datatype Crypto = Crypto(
    utf8Encode: string -> Bytes,
    utf8Decode: Bytes -> string,
    /** PBKDF2 with SHA-512: password, salt, iterations, derived key length in bits. */
    pbkdf2: (Bytes, Bytes, nat, nat) -> Bytes,
    /** AES-GCM: key, IV, tag length in bits, plaintext; yields ciphertext followed by the tag. */
    aesGcmEncrypt: (Bytes, Bytes, nat, Bytes) -> Bytes,
    /** AES-GCM: key, IV, tag length in bits, ciphertext; None where the operation rejects. */
    aesGcmDecrypt: (Bytes, Bytes, nat, Bytes) -> Option<Bytes>)

  const Salt: string := "fission"
  const Iterations: nat := 10000
  const KeyLength: nat := 256
  const TagLength: nat := 128
  const IvLength: nat := 12
  /** Where `decrypt` splits the envelope: the length of base64 of a 12-byte IV. */
  const IvChars: nat := 16

  function KeyFromPassphrase(c: Crypto, passphrase: string): Bytes {
    c.pbkdf2(c.utf8Encode(passphrase), c.utf8Encode(Salt), Iterations, KeyLength)
  }

  /** `String.prototype.substring(start)` for a non-negative start: clamps to the length. */
  function SubstringFrom(s: string, start: nat): (r: string)
    ensures |r| == if start <= |s| then |s| - start else 0
  {
    if start <= |s| then s[start..] else []
  }

  /** `String.prototype.substring(0, end)`: clamps to the length. */
  function SubstringTo(s: string, end: nat): (r: string)
    ensures |r| == if end <= |s| then end else |s|
  {
    if end <= |s| then s[..end] else s
  }

  /** The two segments `decrypt` reads; together they are the whole envelope. */
  function Split(env: string): (r: (string, string))
    ensures r.0 + r.1 == env
    ensures |r.0| == if |env| < IvChars then |env| else IvChars
  {
    (SubstringTo(env, IvChars), SubstringFrom(env, IvChars))
  }

  /** `encrypt`, with the random IV taken as a parameter. */
  function Encrypt(c: Crypto, plaintext: string, passphrase: string, iv: Bytes): string
    requires |iv| == IvLength
  {
    var key := KeyFromPassphrase(c, passphrase);
    var buf := c.aesGcmEncrypt(key, iv, TagLength, c.utf8Encode(plaintext));
    ArrayBufferToBase64(iv) + ArrayBufferToBase64(buf)
  }

  /** `decrypt`; None where `atob` throws or AES-GCM rejects. */
  function Decrypt(c: Crypto, env: string, passphrase: string): Option<string> {
    var key := KeyFromPassphrase(c, passphrase);
    var (ivText, bufText) := Split(env);
    match (Base64ToArrayBuffer(ivText), Base64ToArrayBuffer(bufText))
    case (Some(iv), Some(buf)) =>
      (match c.aesGcmDecrypt(key, iv, TagLength, buf)
       case None => None
       case Some(plain) => Some(c.utf8Decode(plain)))
    case _ => None
  }

  /** Splitting a joined envelope at character 16 recovers both segments when the first has 16 characters. */
  lemma SplitJoin(ivText: string, bufText: string)
    requires |ivText| == IvChars
    ensures Split(ivText + bufText) == (ivText, bufText)
  {
    var env := ivText + bufText;
    assert env[..IvChars] == ivText;
    assert env[IvChars..] == bufText;
  }

  /** Every envelope starts with the 16 characters of its IV, which decode to exactly that IV. */
  lemma EnvelopeFormat(c: Crypto, plaintext: string, passphrase: string, iv: Bytes)
    requires |iv| == IvLength
    ensures var env := Encrypt(c, plaintext, passphrase, iv);
      |env| >= IvChars && Base64ToArrayBuffer(env[..IvChars]) == Some(iv)
  {
    var key := KeyFromPassphrase(c, passphrase);
    var buf := c.aesGcmEncrypt(key, iv, TagLength, c.utf8Encode(plaintext));
    IvEncoding(iv);
    SplitJoin(ArrayBufferToBase64(iv), ArrayBufferToBase64(buf));
    RoundTrip(iv);
  }

  /**
   * `decrypt(encrypt(s, p), p)` gives back `s`, whenever AES-GCM opens what it sealed
   * under the derived key and UTF-8 decoding inverts encoding for `s`.
   */
  lemma DecryptEncrypt(c: Crypto, plaintext: string, passphrase: string, iv: Bytes)
    requires |iv| == IvLength
    requires var key := KeyFromPassphrase(c, passphrase);
      var pt := c.utf8Encode(plaintext);
      c.aesGcmDecrypt(key, iv, TagLength, c.aesGcmEncrypt(key, iv, TagLength, pt)) == Some(pt)
    requires c.utf8Decode(c.utf8Encode(plaintext)) == plaintext
    ensures Decrypt(c, Encrypt(c, plaintext, passphrase, iv), passphrase) == Some(plaintext)
  {
    var key := KeyFromPassphrase(c, passphrase);
    var buf := c.aesGcmEncrypt(key, iv, TagLength, c.utf8Encode(plaintext));
    IvEncoding(iv);
    SplitJoin(ArrayBufferToBase64(iv), ArrayBufferToBase64(buf));
    RoundTrip(iv);
    RoundTrip(buf);
  }

  /** An envelope with a foreign character in either segment never decrypts. */
  lemma DecryptRejectsMalformed(c: Crypto, env: string, passphrase: string, k: nat)
    requires k < |env| && Base64.IsForeign(env[k])
    ensures Decrypt(c, env, passphrase).None?
  {
    var (ivText, bufText) := Split(env);
    if k < |ivText| {
      assert ivText[k] == env[k];
      AtobRejectsForeign(ivText, env[k]);
    } else {
      assert bufText[k - |ivText|] == env[k];
      AtobRejectsForeign(bufText, env[k]);
    }
  }
}
