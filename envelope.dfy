/**
 * The hybrid envelope of crypto_utils.py:
 *   base64( RSA-OAEP(aes_key) ‖ nonce ‖ tag ‖ AES-GCM(utf8(plaintext)) ).
 *
 * RSA-OAEP (PKCS #1 v2.2, RFC 8017 section 7.1), AES-GCM (NIST SP 800-38D),
 * base64 (RFC 4648 section 4) and UTF-8 are library calls. They stand here as
 * function values with only the inverse and length laws those standards give.
 * The random AES key, nonce and OAEP seed are parameters.
 */
module Envelope {
  import opened Wrappers
  import opened Octets

  datatype Primitives = Primitives(
    // RSA.import_key(pem).size_in_bytes(); None when the PEM text does not import
    keyBytes: string -> Option<nat>,
    // PKCS1_OAEP.new(key).encrypt(m) with the given random seed; None where it raises
    oaepEncrypt: (string, Bytes, Bytes) -> Option<Bytes>,
    // PKCS1_OAEP.new(key).decrypt(c); None where it raises
    oaepDecrypt: (string, Bytes) -> Option<Bytes>,
    // AES.new(key, MODE_GCM, nonce).encrypt_and_digest(pt) = (ciphertext, tag)
    gcmSeal: (Bytes, Bytes, Bytes) -> (Bytes, Bytes),
    // AES.new(key, MODE_GCM, nonce).decrypt_and_verify(ct, tag); None is "MAC check failed"
    gcmOpen: (Bytes, Bytes, Bytes, Bytes) -> Option<Bytes>,
    b64Encode: Bytes -> string,
    // base64.b64decode; None where it raises binascii.Error
    b64Decode: string -> Option<Bytes>,
    utf8Encode: string -> Bytes,
    // bytes.decode('utf-8'); None where it raises UnicodeDecodeError
    utf8Decode: Bytes -> Option<string>,
    // the two PEM texts are the public and private halves of one generated key pair
    isKeyPair: (string, string) -> bool
  )

  /** Bytes of OAEP overhead with SHA-1, the library default: 2 * hLen + 2 (RFC 8017 section 7.1.1). */
  const OaepOverhead := 42
  const AesKeyLength := 32
  const NonceLength := 12
  const TagLength := 16

  /** RSA-OAEP: ciphertexts are k octets, short enough messages encrypt, and the private half inverts. */
  ghost predicate OaepLaws(p: Primitives) {
    && (forall pub, priv :: p.isKeyPair(pub, priv) ==> p.keyBytes(pub).Some? && p.keyBytes(priv) == p.keyBytes(pub))
    && (forall pem, m, seed :: p.keyBytes(pem).Some? && |m| + OaepOverhead <= p.keyBytes(pem).value
          ==> p.oaepEncrypt(pem, m, seed).Some?)
    && (forall pem, m, seed :: p.oaepEncrypt(pem, m, seed).Some?
          ==> p.keyBytes(pem).Some? && |p.oaepEncrypt(pem, m, seed).value| == p.keyBytes(pem).value)
    && (forall pub, priv, m, seed :: p.isKeyPair(pub, priv) && p.oaepEncrypt(pub, m, seed).Some?
          ==> p.oaepDecrypt(priv, p.oaepEncrypt(pub, m, seed).value) == Some(m))
  }

  /**
   * AES-GCM: the ciphertext is as long as the plaintext, the tag is 16 bytes,
   * opening a sealed pair gives the plaintext back, opening succeeds only on a
   * pair that sealing produces, and the counter-mode ciphertext determines the plaintext.
   */
  ghost predicate GcmLaws(p: Primitives) {
    && (forall key, nonce, pt :: |p.gcmSeal(key, nonce, pt).0| == |pt| && |p.gcmSeal(key, nonce, pt).1| == TagLength)
    && (forall key, nonce, pt ::
          p.gcmOpen(key, nonce, p.gcmSeal(key, nonce, pt).0, p.gcmSeal(key, nonce, pt).1) == Some(pt))
    && (forall key, nonce, ct, tag :: p.gcmOpen(key, nonce, ct, tag).Some?
          ==> p.gcmSeal(key, nonce, p.gcmOpen(key, nonce, ct, tag).value) == (ct, tag))
    && (forall key, nonce, pt1, pt2 :: p.gcmSeal(key, nonce, pt1).0 == p.gcmSeal(key, nonce, pt2).0 ==> pt1 == pt2)
  }

  ghost predicate Lawful(p: Primitives) {
    && OaepLaws(p)
    && GcmLaws(p)
    && (forall b :: p.b64Decode(p.b64Encode(b)) == Some(b))
    && (forall s :: p.utf8Decode(p.utf8Encode(s)) == Some(s))
  }

  /** The four fields of a package, in wire order. */
  datatype Fields = Fields(encKey: Bytes, nonce: Bytes, tag: Bytes, ciphertext: Bytes)

  /** `enc_aes_key + nonce + tag + ciphertext` */
  function Pack(f: Fields): Bytes {
    f.encKey + f.nonce + f.tag + f.ciphertext
  }

  /** Python's `s[lo:hi]` for non-negative bounds: clamped to the sequence, empty when past the end. */
  function Slice(s: Bytes, lo: nat, hi: nat): (r: Bytes)
    ensures |r| == if lo < hi && lo < |s| then (if hi < |s| then hi else |s|) - lo else 0
    ensures forall i :: 0 <= i < |r| ==> r[i] == s[lo + i]
  {
    if lo < hi && lo < |s| then s[lo..if hi < |s| then hi else |s|] else []
  }

  /** Python's `s[lo:]`. */
  function SliceFrom(s: Bytes, lo: nat): (r: Bytes)
    ensures |r| == if lo < |s| then |s| - lo else 0
    ensures forall i :: 0 <= i < |r| ==> r[i] == s[lo + i]
  {
    if lo < |s| then s[lo..] else []
  }

  /** The slicing in decrypt_message at k, k + 12 and k + 28, k being the private key's byte length. */
  function Unpack(k: nat, pkg: Bytes): Fields {
    Fields(Slice(pkg, 0, k), Slice(pkg, k, k + NonceLength),
           Slice(pkg, k + NonceLength, k + NonceLength + TagLength),
           SliceFrom(pkg, k + NonceLength + TagLength))
  }

  /** Fields of the stated lengths are recovered exactly by the slicing. */
  lemma UnpackPack(k: nat, f: Fields)
    requires |f.encKey| == k && |f.nonce| == NonceLength && |f.tag| == TagLength
    ensures Unpack(k, Pack(f)) == f
  {
    var pkg := Pack(f);
    var u := Unpack(k, pkg);
    assert u.encKey == pkg[..k] == f.encKey;
    assert u.nonce == pkg[k..k + 12] == f.nonce;
    assert u.tag == pkg[k + 12..k + 28] == f.tag;
    assert u.ciphertext == pkg[k + 28..] == f.ciphertext;
  }

  /** Any package, however short, is the concatenation of its four slices. */
  lemma PackUnpack(k: nat, pkg: Bytes)
    ensures Pack(Unpack(k, pkg)) == pkg
  {
    var u := Unpack(k, pkg);
    var n := |pkg|;
    var a := if k < n then k else n;
    var b := if k + 12 < n then k + 12 else n;
    var c := if k + 28 < n then k + 28 else n;
    assert u.encKey == pkg[..a];
    assert u.nonce == pkg[a..b];
    assert u.tag == pkg[b..c];
    assert u.ciphertext == pkg[c..];
    assert pkg == pkg[..a] + pkg[a..b] + pkg[b..c] + pkg[c..];
  }

  /** AES.new accepts 16-, 24- or 32-byte keys and raises on an empty nonce. */
  predicate AesAccepts(key: Bytes, nonce: Bytes) {
    (|key| == 16 || |key| == 24 || |key| == 32) && nonce != []
  }

  /** encrypt_message(pub, plaintext); None where the source raises. */
  function Encrypt(p: Primitives, publicKeyPem: string, plaintext: string,
                   aesKey: Bytes, nonce: Bytes, seed: Bytes): (r: Option<string>)
    requires |aesKey| == AesKeyLength && |nonce| == NonceLength
    ensures r.Some? <==> p.keyBytes(publicKeyPem).Some? && p.oaepEncrypt(publicKeyPem, aesKey, seed).Some?
  {
    if p.keyBytes(publicKeyPem).None? then None
    else
      var sealed := p.gcmSeal(aesKey, nonce, p.utf8Encode(plaintext));
      match p.oaepEncrypt(publicKeyPem, aesKey, seed)
      case None => None
      case Some(encKey) => Some(p.b64Encode(Pack(Fields(encKey, nonce, sealed.1, sealed.0))))
  }

  /** decrypt_message(priv, encrypted_b64) on the decoded package; None where the source raises. */
  function OpenPackage(p: Primitives, privateKeyPem: string, pkg: Bytes): (r: Option<string>)
    ensures p.keyBytes(privateKeyPem).None? ==> r.None?
    ensures r.Some? ==> var f := Unpack(p.keyBytes(privateKeyPem).value, pkg);
      p.oaepDecrypt(privateKeyPem, f.encKey).Some? &&
      p.gcmOpen(p.oaepDecrypt(privateKeyPem, f.encKey).value, f.nonce, f.ciphertext, f.tag).Some?
  {
    match p.keyBytes(privateKeyPem)
    case None => None
    case Some(k) =>
      var f := Unpack(k, pkg);
      match p.oaepDecrypt(privateKeyPem, f.encKey)
      case None => None
      case Some(aesKey) =>
        if !AesAccepts(aesKey, f.nonce) then None
        else
          match p.gcmOpen(aesKey, f.nonce, f.ciphertext, f.tag)
          case None => None
          case Some(bytes) => p.utf8Decode(bytes)
  }

  /** decrypt_message(priv, encrypted_b64); None where the source raises. */
  function Decrypt(p: Primitives, privateKeyPem: string, encrypted: string): Option<string> {
    match p.b64Decode(encrypted)
    case None => None
    case Some(pkg) => OpenPackage(p, privateKeyPem, pkg)
  }

  /** The base64 layer is transparent: decrypting the encoding of a package is opening the package. */
  lemma DecryptEncoded(p: Primitives, privateKeyPem: string, pkg: Bytes)
    requires Lawful(p)
    ensures Decrypt(p, privateKeyPem, p.b64Encode(pkg)) == OpenPackage(p, privateKeyPem, pkg)
  {
  }

  /** The package inside an envelope: its fields in order, and its length k + 28 + |utf8(plaintext)|. */
  lemma EnvelopeLayout(p: Primitives, publicKeyPem: string, plaintext: string,
                       aesKey: Bytes, nonce: Bytes, seed: Bytes)
    requires Lawful(p)
    requires |aesKey| == AesKeyLength && |nonce| == NonceLength
    requires Encrypt(p, publicKeyPem, plaintext, aesKey, nonce, seed).Some?
    ensures var k := p.keyBytes(publicKeyPem).value;
      var sealed := p.gcmSeal(aesKey, nonce, p.utf8Encode(plaintext));
      var pkg := p.b64Decode(Encrypt(p, publicKeyPem, plaintext, aesKey, nonce, seed).value);
      && pkg.Some?
      && |pkg.value| == k + NonceLength + TagLength + |p.utf8Encode(plaintext)|
      && Unpack(k, pkg.value) == Fields(p.oaepEncrypt(publicKeyPem, aesKey, seed).value, nonce, sealed.1, sealed.0)
  {
    var k := p.keyBytes(publicKeyPem).value;
    var sealed := p.gcmSeal(aesKey, nonce, p.utf8Encode(plaintext));
    var encKey := p.oaepEncrypt(publicKeyPem, aesKey, seed).value;
    var f := Fields(encKey, nonce, sealed.1, sealed.0);
    assert |encKey| == k;
    assert |sealed.1| == TagLength && |sealed.0| == |p.utf8Encode(plaintext)|;
    UnpackPack(k, f);
  }

  /** Round trip: with a matching key pair of at least 74 bytes, the recipient decrypts the plaintext. */
  lemma RoundTrip(p: Primitives, publicKeyPem: string, privateKeyPem: string, plaintext: string,
                  aesKey: Bytes, nonce: Bytes, seed: Bytes)
    requires Lawful(p) && p.isKeyPair(publicKeyPem, privateKeyPem)
    requires p.keyBytes(publicKeyPem).value >= AesKeyLength + OaepOverhead
    requires |aesKey| == AesKeyLength && |nonce| == NonceLength
    ensures Encrypt(p, publicKeyPem, plaintext, aesKey, nonce, seed).Some?
    ensures Decrypt(p, privateKeyPem, Encrypt(p, publicKeyPem, plaintext, aesKey, nonce, seed).value) == Some(plaintext)
  {
    assert p.oaepEncrypt(publicKeyPem, aesKey, seed).Some?;
    EnvelopeLayout(p, publicKeyPem, plaintext, aesKey, nonce, seed);
    var encKey := p.oaepEncrypt(publicKeyPem, aesKey, seed).value;
    assert p.oaepDecrypt(privateKeyPem, encKey) == Some(aesKey);
    var sealed := p.gcmSeal(aesKey, nonce, p.utf8Encode(plaintext));
    assert p.gcmOpen(aesKey, nonce, sealed.0, sealed.1) == Some(p.utf8Encode(plaintext));
  }

  /** Replacing the tag of a package that opens by any other 16 bytes makes it fail: nothing is returned. */
  lemma TamperedTagRejected(p: Primitives, privateKeyPem: string, pkg: Bytes, forged: Bytes)
    requires Lawful(p) && p.keyBytes(privateKeyPem).Some?
    requires |pkg| >= p.keyBytes(privateKeyPem).value + NonceLength + TagLength
    requires OpenPackage(p, privateKeyPem, pkg).Some?
    requires |forged| == TagLength && forged != Unpack(p.keyBytes(privateKeyPem).value, pkg).tag
    ensures OpenPackage(p, privateKeyPem, Pack(Unpack(p.keyBytes(privateKeyPem).value, pkg).(tag := forged))).None?
  {
    var k := p.keyBytes(privateKeyPem).value;
    var f := Unpack(k, pkg);
    var g := f.(tag := forged);
    assert |f.encKey| == k && |f.nonce| == NonceLength;
    UnpackPack(k, g);
    var aesKey := p.oaepDecrypt(privateKeyPem, f.encKey).value;
    var pt := p.gcmOpen(aesKey, f.nonce, f.ciphertext, f.tag).value;
    assert p.gcmSeal(aesKey, f.nonce, pt) == (f.ciphertext, f.tag);
  }
}
