/**
 * The platform built-ins and library calls the vault handlers make, taken as
 * parameters: Web Crypto (SHA-256 digest, AES-GCM), bcryptjs, jose, JSON,
 * base64, UTF-8 text coding and `encodeURIComponent`. Nothing is assumed of
 * them except the laws collected in `Lawful`, which lemmas take as a hypothesis.
 */
module Platform {
  import opened Wrappers
  import opened JsValues

  type Bytes = seq<bv8>

  /** Length of the AES-GCM nonce drawn at creation (`new Uint8Array(12)`). */
  const IvLength: nat := 12

  /** The cost factor passed to bcrypt's `hash(password, 10)`. */
  const BcryptCost: nat := 10

  type Iv = s: Bytes | |s| == IvLength witness [0, 0, 0, 0, 0, 0, 0, 0, 0, 0, 0, 0]

  /** A jose key object (`KeyLike`); only what the exports make of it is observable. */
  type CryptoKey(==, !new)

  /** The result of `generateKeyPair("ES512", ...)`. */
  datatype KeyPair = KeyPair(privateKey: CryptoKey, publicKey: CryptoKey)

  /** The random inputs of the create path: the iv, bcrypt's salt and the generated pair. */
  datatype Entropy = Entropy(iv: Iv, salt: Bytes, pair: KeyPair)

  datatype Platform = Platform(
    /** `crypto.subtle.digest("SHA-256", bytes)`. */
    sha256: Bytes -> Bytes,
    /** `crypto.subtle.encrypt({name: "AES-GCM", iv}, key, plaintext)`. */
    encrypt: (Bytes, Bytes, Bytes) -> Bytes,
    /** `crypto.subtle.decrypt(...)` for key, iv, ciphertext; `None` when authentication fails. */
    decrypt: (Bytes, Bytes, Bytes) -> Option<Bytes>,
    /** bcryptjs `hash(password, cost)` with the salt it draws made explicit. */
    bcryptHash: (string, nat, Bytes) -> string,
    /** bcryptjs `compare(candidate, hash)`. */
    bcryptCompare: (string, string) -> bool,
    /** `new TextEncoder().encode(s)`. */
    utf8Encode: string -> Bytes,
    /** `new TextDecoder().decode(b)`. */
    utf8Decode: Bytes -> string,
    /** `btoa(String.fromCharCode(...b))`. */
    base64Encode: Bytes -> string,
    /** `base64ToArrayBuffer(s)`; `None` when it throws. */
    base64Decode: string -> Option<Bytes>,
    /** `JSON.stringify(v)`. */
    stringify: JsValue -> string,
    /** `JSON.parse(s)`; `None` when it throws. */
    parse: string -> Option<JsValue>,
    /** jose `exportJWK(key)`. */
    exportJwk: CryptoKey -> JsValue,
    /** jose `importJWK({...jwk, ext: true}, "ES512")`; `None` when it rejects. */
    importJwk: JsValue -> Option<CryptoKey>,
    /** jose `exportPKCS8(key)`. */
    exportPkcs8: CryptoKey -> string,
    /** jose `exportSPKI(key)`. */
    exportSpki: CryptoKey -> string,
    /** `encodeURIComponent(s)`. */
    encodeUriComponent: string -> string
  )

  /**
   * The laws of the foreign functions the round-trip properties rest on:
   * AES-GCM opens what it sealed under the same key and iv, bcrypt accepts the
   * password it hashed, and each encoding is undone by its decoding.
   */
  ghost predicate Lawful(pf: Platform) {
    && (forall k, iv, m :: pf.decrypt(k, iv, pf.encrypt(k, iv, m)) == Some(m))
    && (forall p, cost, salt :: pf.bcryptCompare(p, pf.bcryptHash(p, cost, salt)))
    && (forall s :: pf.utf8Decode(pf.utf8Encode(s)) == s)
    && (forall b :: pf.base64Decode(pf.base64Encode(b)) == Some(b))
    && (forall v :: pf.parse(pf.stringify(v)) == Some(v))
    && (forall v :: pf.stringify(v) != "")
    && (forall k :: pf.importJwk(pf.exportJwk(k)) == Some(k))
  }

  /**
   * The AES-GCM key both paths use: the SHA-256 digest of the UTF-8 password,
   * imported as a raw key.
   */
  function DeriveKey(pf: Platform, password: string): Bytes {
    pf.sha256(pf.utf8Encode(password))
  }
}
