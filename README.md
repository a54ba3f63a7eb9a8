# PGPro decryption session, modelled in Dafny

PGPro is an iOS front end to the ObjectivePGP library. Its `DecryptionViewModel` holds one decryption session:

- the ciphertext the user pasted (optional);
- the set of contacts whose keys may decrypt it;
- a flag telling the UI to show a passphrase field;
- a cache of passphrases keyed by key.

It answers three questions: is the session ready, is some passphrase still needed, and what is the cached passphrase for a key. Its `decrypt()` either fails with one of three errors or returns the library's result. `clear()` resets the session.

The model has three modules:

- `Wrappers` (`Wrappers.dfy`): Swift's `Optional` and `Result`.
- `OpenPGP` (`OpenPGP.dfy`): the collaborators. These are `Key`, `Contact`, the library's result and error, and the signatures of the three library calls: `String.isOpenPGPCiphertext`, `OpenPGP.verifyPassphrase` and `OpenPGP.decrypt`. The calls are function values handed in by the caller. The only assumption is that each call is total, deterministic and free of side effects. A thrown error is a `Failure`.
- `Decryption` (`DecryptionViewModel.dfy`): `DecryptionError` with its `Description`, and the class `DecryptionViewModel`.

The class has the source's four stored fields. Its object invariant `Valid()` is the `didSet` rule: `passphraseInputRequired` holds exactly when some contact in `decryptionKey` requires a passphrase. Every method of the model keeps `Valid()`, because the model writes the flag only in `DecryptionKeyDidSet`. `SetDecryptionKey` and `Clear` re-establish it through `DecryptionKeyDidSet`, the model of the observer. The computed properties are functions that read the object. `decrypt()` is a method that changes no field. `Set.first` is a choice `contact :| contact in decryptionKey`, because Swift does not define the iteration order of a `Set`. So `Decrypt`'s contract says the result comes from SOME contact of the set. When the set has exactly one contact, the contract says it comes from that contact.

`decrypt()` and `clear()` do less than a reader might expect:

- `decrypt()` rejects only a missing ciphertext. An empty string is passed to the library (`DecryptionViewModel.swift:73`).
- `decrypt()` takes the first contact of the set and fails with `keyError` if that contact has no primary key. It does not search for a contact that has one (`DecryptionViewModel.swift:77`).
- `decrypt()` does not check passphrases before calling the library.
- `clear()` keeps the passphrase cache.

## Model

| member | source | states |
|---|---|---|
| `Decryption.DecryptionError.Description` | PGPro/Decryption/ViewModel/DecryptionViewModel.swift:60-69 | `emptyCiphertext` gives "Ciphertext cannot be empty", `keyError` gives "Failed to unwrap decryption key.", `other(e)` gives the error's own localized description |
| `Decryption.SoleCandidate` | PGPro/Decryption/ViewModel/DecryptionViewModel.swift:77 | a one-contact set has no other member, so `first` of it is never ambiguous |
| `Decryption.DecryptionViewModel.constructor` | PGPro/Decryption/ViewModel/DecryptionViewModel.swift:22-48 | a new session has no ciphertext, no contacts, an empty cache and the flag false, and it satisfies the `didSet` invariant |
| `Decryption.DecryptionViewModel.SetCiphertext` | PGPro/Decryption/ViewModel/DecryptionViewModel.swift:22 | assigning the ciphertext stores it unchecked and leaves the contacts, cache and flag as they were |
| `Decryption.DecryptionViewModel.DecryptionKeyDidSet` | PGPro/Decryption/ViewModel/DecryptionViewModel.swift:25-27 | afterwards the flag holds iff some contact in the set requires a passphrase; nothing but the flag changes |
| `Decryption.DecryptionViewModel.SetDecryptionKey` | PGPro/Decryption/ViewModel/DecryptionViewModel.swift:24-28 | after any assignment of the set, the set is the new one and the flag holds iff one of its contacts requires a passphrase; ciphertext and cache are unchanged |
| `Decryption.DecryptionViewModel.SetPassphrase` | PGPro/Decryption/ViewModel/DecryptionViewModel.swift:48-51 | dictionary store or removal: `passphrase(for:)` of that key returns the new value and of every other key the old one; contacts with other keys stay unlocked or locked as before; a passphrase the library accepts never makes a passphrase required that was not before |
| `Decryption.DecryptionViewModel.Passphrase` | PGPro/Decryption/ViewModel/DecryptionViewModel.swift:49-51 | returns the cached passphrase for the key, and none exactly when the key has no entry |
| `Decryption.DecryptionViewModel.ReadyForDecryptionOrPassphrases` | PGPro/Decryption/ViewModel/DecryptionViewModel.swift:30-32 | the nil-coalescing expression holds iff the ciphertext is present, non-empty and recognised as OpenPGP, and the set is non-empty |
| `Decryption.DecryptionViewModel.Unlocked` | PGPro/Decryption/ViewModel/DecryptionViewModel.swift:39-45 | the `allSatisfy` closure holds iff the contact has a primary key, a passphrase is cached for it, and the library accepts that passphrase for it |
| `Decryption.DecryptionViewModel.SomePassphrasesRequired` | PGPro/Decryption/ViewModel/DecryptionViewModel.swift:38-46 | the filter-then-allSatisfy form holds iff some passphrase-requiring contact has no primary key, no cached passphrase, or one the library rejects; with no passphrase-requiring contact it is false whatever the cache holds |
| `Decryption.DecryptionViewModel.Attempt` | PGPro/Decryption/ViewModel/DecryptionViewModel.swift:77-87 | for a chosen contact: `keyError` iff it has no primary key; otherwise the library is called once with the ciphertext, the contact and the cached passphrase for its key (possibly none), its result is returned as success and its error wrapped as `other` |
| `Decryption.DecryptionViewModel.Decrypt` | PGPro/Decryption/ViewModel/DecryptionViewModel.swift:72-88 | `emptyCiphertext` exactly when the ciphertext is nil, whatever the set and cache hold; `keyError` for an empty set or when no contact has a primary key; otherwise the outcome of `Attempt` with some contact of the set, and with that very contact when it is the only one; no field changes |
| `Decryption.DecryptionViewModel.Clear` | PGPro/Decryption/ViewModel/DecryptionViewModel.swift:92-95 | the ciphertext is nil and the set empty, so `isClear` holds; the flag is false, readiness is false for any recogniser, and the passphrase cache is unchanged |
| `Decryption.DecryptionViewModel.IsClear` | PGPro/Decryption/ViewModel/DecryptionViewModel.swift:97-99 | holds iff the ciphertext is nil and the set has no contacts |
| `Decryption.ClearedSessionIsIdle` | PGPro/Decryption/ViewModel/DecryptionViewModel.swift:24-99 | in a clear session nothing is offered: not ready, no passphrase field, no passphrase still required |
| `Decryption.RequiredPassphraseNeedsInput` | PGPro/Decryption/ViewModel/DecryptionViewModel.swift:24-46 | a passphrase can only still be required while the passphrase field is shown |
| `Decryption.UnprotectedKeyScenario` | PGPro/Decryption/ViewModel/DecryptionViewModel.swift:72-88 | with one unprotected contact the returned flag says no passphrase field is shown, and `decrypt` returns the library's result for that contact with no passphrase unchanged |
| `Decryption.ProtectedKeyScenario` | PGPro/Decryption/ViewModel/DecryptionViewModel.swift:38-88 | the returned flags say: the passphrase field is shown; with a wrong passphrase cached a passphrase is still required and `decrypt` returns the library's error wrapped as `other`, with no retry; once the right one is cached none is required and `decrypt` succeeds |

## Left out

- `PGPro/Settings/Views/SettingsView.swift` is not part of this model. It is SwiftUI layout and navigation, links to fixed web pages, and a placeholder `print`. It has no logic to state.
- What ObjectivePGP does behind `isOpenPGPCiphertext`, `verifyPassphrase` and `decrypt` is not modelled. The calls are function-valued parameters. They are assumed only to be total, deterministic and free of side effects.
- `Log.e(error)` in the failure branch of `decrypt()` is logging and is left out.
- `ObservableObject` and `@Published` change notification is UI plumbing and is left out. Only the `didSet` recomputation of the flag is modelled.
- The text of a library error's `localizedDescription` is foreign. It is a field of `EngineError`.
- Decrypt: the contract does not say which contact of a set with several members is taken. Swift's `Set` iteration order is unspecified, so the model chooses freely on each call.
- `Contact` and `Key` are reduced to the parts this file uses: an identity, the passphrase requirement, the primary key, and a fingerprint for identity.
- Direct writes to `passphraseInputRequired` are not modelled. In the code it is a public `@Published var`, so a caller or a UI binding could set it and break the `didSet` rule. `Valid()` holds in the model because every write of the flag goes through `DecryptionKeyDidSet`. `SetCiphertext`, `SetPassphrase`, `ClearedSessionIsIdle` and `RequiredPassphraseNeedsInput` rely on it.
- Nothing here is concurrent, and `decrypt()` dispatches no work.
