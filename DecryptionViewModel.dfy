/**
 * The decryption session of PGPro: the ciphertext the user pasted, the set of
 * contacts whose keys may decrypt it, the passphrases typed in for those keys,
 * and the single `decrypt` step that hands all of it to the OpenPGP library.
 */
module Decryption {
  import opened Wrappers
  import opened OpenPGP

  /** The three ways `decrypt()` can fail. */
  datatype DecryptionError = EmptyCiphertext | KeyError | Other(error: EngineError)
  {
    /** The message shown to the user for this error. */
    function Description(): (text: string)
      ensures EmptyCiphertext? ==> text == "Ciphertext cannot be empty"
      ensures KeyError? ==> text == "Failed to unwrap decryption key."
      ensures Other? ==> text == error.localizedDescription
    {
      match this
      case EmptyCiphertext => "Ciphertext cannot be empty"
      case KeyError => "Failed to unwrap decryption key."
      case Other(e) => e.localizedDescription
    }
  }

  /** Some contact of the set has a passphrase-protected key. */
  predicate AnyRequiresPassphrase(keys: set<Contact>) {
    exists c :: c in keys && c.requiresPassphrase
  }

  /** A set with one element has no second, different element. */
  lemma SoleCandidate(keys: set<Contact>, c: Contact, d: Contact)
    requires |keys| == 1 && c in keys && d in keys
    ensures c == d
  {
    assert |keys - {c}| == |keys| - 1;
    assert keys - {c} == {};
  }

  class DecryptionViewModel {
    var ciphertext: Option<string>
    var decryptionKey: set<Contact>
    var passphraseInputRequired: bool
    var passphraseForKey: map<Key, string>

    /** The `didSet` observer keeps the flag in step with the set. */
    ghost predicate Valid()
      reads this
    {
      passphraseInputRequired == AnyRequiresPassphrase(decryptionKey)
    }

    /** A fresh session: no ciphertext, no contacts, no cached passphrases. */
    constructor ()
      ensures Valid()
      ensures ciphertext == None && decryptionKey == {} && passphraseForKey == map[]
      ensures !passphraseInputRequired
    {
      ciphertext := None;
      decryptionKey := {};
      passphraseInputRequired := false;
      passphraseForKey := map[];
    }

    /** Assigns `ciphertext`; nothing is checked at this point. */
    method SetCiphertext(text: Option<string>)
      requires Valid()
      modifies this
      ensures Valid()
      ensures ciphertext == text
      ensures decryptionKey == old(decryptionKey) && passphraseForKey == old(passphraseForKey)
      ensures passphraseInputRequired == old(passphraseInputRequired)
    {
      ciphertext := text;
    }

    /** The `didSet` observer of `decryptionKey`. */
    method DecryptionKeyDidSet()
      modifies this`passphraseInputRequired
      ensures Valid()
      ensures passphraseInputRequired <==> exists c :: c in decryptionKey && c.requiresPassphrase
    {
      passphraseInputRequired := exists c | c in decryptionKey :: c.requiresPassphrase;
    }

    /**
     * Assigns `decryptionKey`. A Swift set is a value, so every in-place
     * mutation (insert, remove) is such an assignment and fires `didSet` too.
     */
    method SetDecryptionKey(keys: set<Contact>)
      modifies this
      ensures Valid()
      ensures decryptionKey == keys
      ensures passphraseInputRequired <==> exists c :: c in keys && c.requiresPassphrase
      ensures ciphertext == old(ciphertext) && passphraseForKey == old(passphraseForKey)
    {
      decryptionKey := keys;
      DecryptionKeyDidSet();
    }

    /**
     * `passphraseForKey[key] = passphrase`: stores, overwrites, or (for `nil`)
     * removes the cached passphrase. Contacts with other keys are not affected,
     * and a passphrase the library accepts for `key` never makes a passphrase
     * required again.
     */
    method SetPassphrase(key: Key, passphrase: Option<string>)
      requires Valid()
      modifies this
      ensures Valid()
      ensures passphraseForKey == if passphrase.Some? then old(passphraseForKey)[key := passphrase.value]
                                  else old(passphraseForKey) - {key}
      ensures Passphrase(key) == passphrase
      ensures forall k :: k != key ==> Passphrase(k) == old(Passphrase(k))
      ensures ciphertext == old(ciphertext) && decryptionKey == old(decryptionKey)
      ensures passphraseInputRequired == old(passphraseInputRequired)
      ensures forall verify: PassphraseVerifier, c: Contact :: c.primaryKey.Some? && c.primaryKey.value != key ==>
                (Unlocked(c, verify) <==> old(Unlocked(c, verify)))
      ensures forall verify: PassphraseVerifier :: passphrase.Some? && verify(passphrase.value, key) ==>
                (SomePassphrasesRequired(verify) ==> old(SomePassphrasesRequired(verify)))
    {
      if passphrase.Some? {
        passphraseForKey := passphraseForKey[key := passphrase.value];
      } else {
        passphraseForKey := passphraseForKey - {key};
      }
    }

    /** The cached passphrase for `key`, if any. */
    function Passphrase(key: Key): (p: Option<string>)
      reads this
      ensures p.Some? <==> key in passphraseForKey
      ensures p.Some? ==> p.value == passphraseForKey[key]
    {
      if key in passphraseForKey then Some(passphraseForKey[key]) else None
    }

    /** Whether the UI may offer decryption (or the passphrase prompt). */
    function ReadyForDecryptionOrPassphrases(isOpenPGPCiphertext: CiphertextRecognizer): (ready: bool)
      reads this
      ensures ready <==> ciphertext.Some? && ciphertext.value != [] &&
                         isOpenPGPCiphertext(ciphertext.value) && decryptionKey != {}
    {
      var isEmpty := match ciphertext case Some(text) => Some(|text| == 0) case None => None;
      var isCiphertext := match ciphertext case Some(text) => Some(isOpenPGPCiphertext(text)) case None => None;
      && !(if isEmpty.Some? then isEmpty.value else true)
      && (if isCiphertext.Some? then isCiphertext.value else false)
      && |decryptionKey| != 0
    }

    /** The closure of `allSatisfy`: the contact's key is unlocked by its cached passphrase. */
    function Unlocked(contact: Contact, verifyPassphrase: PassphraseVerifier): (unlocked: bool)
      reads this
      ensures unlocked <==> contact.primaryKey.Some? && contact.primaryKey.value in passphraseForKey &&
                            verifyPassphrase(passphraseForKey[contact.primaryKey.value], contact.primaryKey.value)
    {
      match contact.primaryKey
      case Some(key) =>
        (match Passphrase(key)
         case Some(passphrase) => verifyPassphrase(passphrase, key)
         case None => false)
      case None => false
    }

    /**
     * Not every passphrase-protected contact is unlocked yet: some such contact
     * has no key, no cached passphrase, or one the library rejects.
     */
    function SomePassphrasesRequired(verifyPassphrase: PassphraseVerifier): (required: bool)
      reads this
      ensures required <==> exists c :: c in decryptionKey && c.requiresPassphrase &&
                              (c.primaryKey.None? || c.primaryKey.value !in passphraseForKey ||
                               !verifyPassphrase(passphraseForKey[c.primaryKey.value], c.primaryKey.value))
      ensures !AnyRequiresPassphrase(decryptionKey) ==> !required
    {
      var protected := set c | c in decryptionKey && c.requiresPassphrase;
      assert forall c :: c in protected <==> c in decryptionKey && c.requiresPassphrase;
      !(forall c | c in protected :: Unlocked(c, verifyPassphrase))
    }

    /** The outcome of decrypting `text` with `contact`, the step after the guards. */
    function Attempt(engine: DecryptEngine, text: string, contact: Contact): (r: Result<DecryptionResult, DecryptionError>)
      reads this
      ensures r == Failure(KeyError) <==> contact.primaryKey.None?
      ensures contact.primaryKey.Some? ==>
                var outcome := engine(text, contact, Passphrase(contact.primaryKey.value));
                (r.Success? <==> outcome.Success?) &&
                (r.Success? ==> r.value == outcome.value) &&
                (r.Failure? ==> r.error == Other(outcome.error))
    {
      match contact.primaryKey
      case None => Failure(KeyError)
      case Some(key) =>
        match engine(text, contact, Passphrase(key))
        case Success(result) => Success(result)
        case Failure(e) => Failure(Other(e))
    }

    /**
     * `decrypt()`: rejects a missing ciphertext, takes the set's first
     * contact (in no order this model fixes), rejects it if it has no primary
     * key, and otherwise calls the library once. Changes no field.
     */
    method Decrypt(engine: DecryptEngine) returns (r: Result<DecryptionResult, DecryptionError>)
      ensures ciphertext.None? ==> r == Failure(EmptyCiphertext)
      ensures ciphertext.Some? && decryptionKey == {} ==> r == Failure(KeyError)
      ensures ciphertext.Some? && decryptionKey != {} ==>
                exists contact :: contact in decryptionKey && r == Attempt(engine, ciphertext.value, contact)
      ensures ciphertext.Some? && |decryptionKey| == 1 ==>
                forall contact :: contact in decryptionKey ==> r == Attempt(engine, ciphertext.value, contact)
      ensures ciphertext.Some? && (forall c :: c in decryptionKey ==> c.primaryKey.None?) ==> r == Failure(KeyError)
      ensures r == Failure(EmptyCiphertext) <==> ciphertext.None?
    {
      if ciphertext.None? {
        return Failure(EmptyCiphertext);
      }
      var text := ciphertext.value;
      if decryptionKey == {} {
        return Failure(KeyError);
      }
      var contact :| contact in decryptionKey;
      r := Attempt(engine, text, contact);
      forall other | |decryptionKey| == 1 && other in decryptionKey
        ensures other == contact
      {
        SoleCandidate(decryptionKey, other, contact);
      }
    }

    /** Resets the session; cached passphrases are kept. */
    method Clear()
      modifies this
      ensures Valid()
      ensures ciphertext == None && decryptionKey == {}
      ensures IsClear()
      ensures !passphraseInputRequired
      ensures forall isOpenPGPCiphertext :: !ReadyForDecryptionOrPassphrases(isOpenPGPCiphertext)
      ensures passphraseForKey == old(passphraseForKey)
    {
      ciphertext := None;
      decryptionKey := {};
      DecryptionKeyDidSet();
    }

    /** No ciphertext and no contacts. */
    function IsClear(): (clear: bool)
      reads this
      ensures clear <==> ciphertext.None? && |decryptionKey| == 0
    {
      ciphertext == None && decryptionKey == {}
    }
  }

  /** A cleared session offers nothing: no decryption and no passphrase prompt. */
  lemma ClearedSessionIsIdle(vm: DecryptionViewModel, isOpenPGPCiphertext: CiphertextRecognizer,
                             verifyPassphrase: PassphraseVerifier)
    requires vm.Valid() && vm.IsClear()
    ensures !vm.ReadyForDecryptionOrPassphrases(isOpenPGPCiphertext)
    ensures !vm.passphraseInputRequired
    ensures !vm.SomePassphrasesRequired(verifyPassphrase)
  {
  }

  /** A passphrase can only still be required while the passphrase input is shown. */
  lemma RequiredPassphraseNeedsInput(vm: DecryptionViewModel, verifyPassphrase: PassphraseVerifier)
    requires vm.Valid()
    ensures vm.SomePassphrasesRequired(verifyPassphrase) ==> vm.passphraseInputRequired
  {
  }

  /**
   * A message encrypted to one unprotected key decrypts: no passphrase field is
   * shown, and the library is called with that contact and no passphrase and
   * its result is returned as is.
   */
  method UnprotectedKeyScenario(engine: DecryptEngine, text: string, contact: Contact, result: DecryptionResult)
    returns (inputShown: bool, r: Result<DecryptionResult, DecryptionError>)
    requires contact.primaryKey.Some? && !contact.requiresPassphrase
    requires engine(text, contact, None) == Success(result)
    ensures !inputShown
    ensures r == Success(result)
  {
    var vm := new DecryptionViewModel();
    vm.SetCiphertext(Some(text));
    vm.SetDecryptionKey({contact});
    inputShown := vm.passphraseInputRequired;
    r := vm.Decrypt(engine);
  }

  /**
   * A protected key: the passphrase field is shown; with a wrong passphrase
   * cached a passphrase is still required and the library's error is returned
   * (and not retried); once the right one is cached, none is required and
   * decryption succeeds.
   */
  method ProtectedKeyScenario(engine: DecryptEngine, verifyPassphrase: PassphraseVerifier, text: string,
                              contact: Contact, wrong: string, right: string, result: DecryptionResult)
    returns (inputShown: bool, requiredWithWrong: bool, first: Result<DecryptionResult, DecryptionError>,
             requiredWithRight: bool, second: Result<DecryptionResult, DecryptionError>)
    requires contact.primaryKey.Some? && contact.requiresPassphrase
    requires engine(text, contact, Some(wrong)).Failure?
    requires engine(text, contact, Some(right)) == Success(result)
    requires verifyPassphrase(right, contact.primaryKey.value) && !verifyPassphrase(wrong, contact.primaryKey.value)
    ensures inputShown
    ensures requiredWithWrong && first == Failure(Other(engine(text, contact, Some(wrong)).error))
    ensures !requiredWithRight && second == Success(result)
  {
    var vm := new DecryptionViewModel();
    vm.SetCiphertext(Some(text));
    vm.SetDecryptionKey({contact});
    inputShown := vm.passphraseInputRequired;
    vm.SetPassphrase(contact.primaryKey.value, Some(wrong));
    requiredWithWrong := vm.SomePassphrasesRequired(verifyPassphrase);
    first := vm.Decrypt(engine);
    vm.SetPassphrase(contact.primaryKey.value, Some(right));
    requiredWithRight := vm.SomePassphrasesRequired(verifyPassphrase);
    second := vm.Decrypt(engine);
  }
}
