/**
 * The library code the desktop service calls but whose internals are not
 * modelled: base64 (standard alphabet), UTF-8 conversion between `String`
 * and bytes, and the AES-256-GCM cipher.
 *
 * They are gathered in one record of functions, `Library`, that every
 * operation using them takes as a parameter. What the model relies on is
 * stated as laws in `Lawful`, and every property that needs them takes
 * `Lawful(lib)` as a precondition; nothing is assumed about any particular
 * implementation.
 */
module Primitives {
  import opened Wrappers

  type byte = b: int | 0 <= b < 0x100

  datatype Library = Library(
    /** `BASE64.encode` */
    base64Encode: seq<byte> -> string,
    /** `BASE64.decode`, `None` for text that is not canonical base64 */
    base64Decode: string -> Option<seq<byte>>,
    /** `str::as_bytes` */
    utf8Encode: string -> seq<byte>,
    /** `String::from_utf8`, `None` for bytes that are not UTF-8 */
    utf8Decode: seq<byte> -> Option<string>,
    /** `Aes256Gcm::encrypt(key, nonce, plaintext)`: ciphertext with its tag */
    seal: (seq<byte>, seq<byte>, seq<byte>) -> seq<byte>,
    /** `Aes256Gcm::decrypt(key, nonce, ciphertext)`, `None` when the tag does not check */
    open: (seq<byte>, seq<byte>, seq<byte>) -> Option<seq<byte>>)

  /**
   * The round trips the real libraries guarantee: base64 decodes what it
   * encoded and decodes the empty text to no bytes; UTF-8 decodes what it
   * encoded; AES-256-GCM with a 32-byte key and a 12-byte nonce opens what it
   * sealed.
   */
  ghost predicate Lawful(lib: Library) {
    && (forall b :: lib.base64Decode(lib.base64Encode(b)) == Some(b))
    && lib.base64Decode("") == Some([])
    && (forall s :: lib.utf8Decode(lib.utf8Encode(s)) == Some(s))
    && (forall k, n, m :: |k| == 32 && |n| == 12 ==> lib.open(k, n, lib.seal(k, n, m)) == Some(m))
  }

  /**
   * The idealised converse, as a security assumption: decoding and opening
   * succeed only on what encoding and sealing produce. For AES-GCM this is the
   * authenticity of ciphertexts (a forgery is assumed never to check); for
   * base64 and UTF-8 it is that only canonical input decodes.
   */
  ghost predicate Authentic(lib: Library) {
    && (forall s :: lib.base64Decode(s).Some? ==> s == lib.base64Encode(lib.base64Decode(s).value))
    && (forall b :: lib.utf8Decode(b).Some? ==> b == lib.utf8Encode(lib.utf8Decode(b).value))
    && (forall k, n, c :: lib.open(k, n, c).Some? ==> c == lib.seal(k, n, lib.open(k, n, c).value))
  }
}
