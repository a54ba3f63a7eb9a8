/**
 * The collaborators the decryption view model calls into: the contact store's
 * `Contact` record, ObjectivePGP's `Key`, and the three library entry points
 * (`String.isOpenPGPCiphertext`, `OpenPGP.verifyPassphrase`, `OpenPGP.decrypt`).
 * The library's behaviour is not modelled: each entry point is a function value
 * that the caller hands in, so every property proved in DecryptionViewModel.dfy
 * holds for any library whose calls are total, deterministic and free of side
 * effects.
 */
module OpenPGP {
  import opened Wrappers

  /** A key, identified by its fingerprint; the view model only compares keys. */
  datatype Key = Key(fingerprint: string)

  /** A contact that may own a decryption key. */
  datatype Contact = Contact(identity: string, requiresPassphrase: bool, primaryKey: Option<Key>)

  /** What a successful decryption yields; opaque to the view model. */
  datatype DecryptionResult = DecryptionResult(plaintext: string)

  /** An error thrown by the library, carrying its `localizedDescription`. */
  datatype EngineError = EngineError(domain: string, code: int, localizedDescription: string)

  /** `String.isOpenPGPCiphertext`. */
  type CiphertextRecognizer = string -> bool

  /** `OpenPGP.verifyPassphrase(_:for:)`. */
  type PassphraseVerifier = (string, Key) -> bool

  /** `OpenPGP.decrypt(message:for:withPassphrase:)`; a thrown error is a `Failure`. */
  type DecryptEngine = (string, Contact, Option<string>) -> Result<DecryptionResult, EngineError>
}
