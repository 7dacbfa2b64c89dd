/** Cryptography as the components see it: SHA-256 as a function into 64 lowercase
    hexadecimal characters, Ed25519 as a signing function and a checking predicate. */
module Crypto {
  import opened Text

  /** `keyOk` says whether a text decodes to an Ed25519 public key; `accepts` whether
      a signature text is valid for a key and the signed text. */
  datatype Primitives = Primitives(
    sha: string -> Digest,
    keyOk: string -> bool,
    accepts: (string, string, string) -> bool)

  /** A runtime's signing identity. */
  datatype Signer = Signer(publicKey: string, sign: string -> string)

  const FINGERPRINT_LENGTH := 16

  function Fingerprint(p: Primitives, publicKey: string): (f: string)
    ensures |f| == FINGERPRINT_LENGTH
  {
    p.sha(publicKey)[..FINGERPRINT_LENGTH]
  }

  /** `verify_signature_hex` */
  predicate SignatureOk(p: Primitives, publicKey: string, data: string, signature: string) {
    p.keyOk(publicKey) && p.accepts(publicKey, data, signature)
  }

  /** What the signature scheme promises its owner: own signatures check. */
  ghost predicate Honest(p: Primitives, signer: Signer) {
    p.keyOk(signer.publicKey) && forall data :: p.accepts(signer.publicKey, data, signer.sign(data))
  }
}
