/**
 * The browser wallet of frontend/src/utils/wallet.ts: a password cached in
 * page memory and an encrypted keystore kept in `localStorage` under
 * "evote_keystore". The ethers calls (wallet creation, encryption and
 * decryption of the keystore) are given as values and functions.
 */
module WalletCache {
  import opened Optional

  const KeystoreKey: string := "evote_keystore"

  /** A wallet: its address and the private key that signs for it. */
  datatype Account = Account(address: string, privateKey: string)

  /**
   * `wallet.encrypt(password)` and `Wallet.fromEncryptedJson(json, password)`,
   * the latter None where it throws.
   */
  datatype Crypto = Crypto(encrypt: (Account, string) -> string, decrypt: (string, string) -> Option<Account>)

  /** A promise that resolves to a value or rejects with an error message. */
  datatype Outcome<T> = Resolved(value: T) | Rejected(message: string)

  /**
   * Where `ensureWallet` gets its password: the default getter, with the user's
   * answer to its prompt (None for a cancelled prompt), or a getter the caller
   * passed in, with what its promise settles to.
   */
  datatype PasswordSource = DefaultGetter(promptAnswer: Option<string>) | CallerGetter(outcome: Outcome<string>)

  /** `memoryPasswordCache` and the contents of `localStorage`. */
  datatype WalletState = WalletState(cache: Option<string>, storage: map<string, string>)

  /** JavaScript truthiness of a string that may be null: null and "" are false. */
  predicate Truthy(s: Option<string>) {
    s.Some? && s.value != ""
  }

  /** `localStorage.getItem(key)` */
  function GetItem(storage: map<string, string>, key: string): Option<string> {
    if key in storage then Some(storage[key]) else None
  }

  /** The cache only ever holds a password the user actually typed. */
  predicate Valid(s: WalletState) {
    s.cache != Some("")
  }

  /** `defaultPasswordGetter`: the cached password if there is one, otherwise the prompt's answer, which it caches. */
  function PasswordStep(cache: Option<string>, promptAnswer: Option<string>): (Outcome<string>, Option<string>) {
    if Truthy(cache) then (Resolved(cache.value), cache)
    else if !Truthy(promptAnswer) then (Rejected("Password is required"), cache)
    else (Resolved(promptAnswer.value), promptAnswer)
  }

  /** `pwGetter()`: a getter the caller passed in does not touch the cache. */
  function GetPassword(cache: Option<string>, source: PasswordSource): (Outcome<string>, Option<string>) {
    match source
    case DefaultGetter(answer) => PasswordStep(cache, answer)
    case CallerGetter(outcome) => (outcome, cache)
  }

  /**
   * `ensureWallet`: open the stored keystore with the password, or, when there
   * is none, store the keystore of `created` (the `Wallet.createRandom()` result)
   * encrypted under the password.
   */
  function EnsureWalletStep(s: WalletState, crypto: Crypto, source: PasswordSource, created: Account)
    : (Outcome<Account>, WalletState)
  {
    var existing := GetItem(s.storage, KeystoreKey);
    var (pass, cache) := GetPassword(s.cache, source);
    if Truthy(existing) then
      if pass.Rejected? then (Rejected(pass.message), s.(cache := cache))
      else match crypto.decrypt(existing.value, pass.value)
        case Some(w) => (Resolved(w), s.(cache := cache))
        case None => (Rejected("You entered wrong wallet password"), s.(cache := None))
    else if pass.Rejected? then (Rejected(pass.message), s.(cache := cache))
    else (Resolved(created), WalletState(cache, s.storage[KeystoreKey := crypto.encrypt(created, pass.value)]))
  }

  /** `clearWalletSession` */
  function ClearWalletSessionStep(s: WalletState): WalletState {
    s.(cache := None)
  }

  /** `clearWallet` */
  function ClearWalletStep(s: WalletState): WalletState {
    WalletState(None, s.storage - {KeystoreKey})
  }

  /** `resetWalletForNewElection`: clear everything, then `ensureWallet()` with the default getter. */
  function ResetWalletStep(s: WalletState, crypto: Crypto, promptAnswer: Option<string>, created: Account)
    : (Outcome<Account>, WalletState)
  {
    EnsureWalletStep(ClearWalletStep(s), crypto, DefaultGetter(promptAnswer), created)
  }

  /** The module's state, updated in place by its functions. */
  class WalletStore {
    var passwordCache: Option<string>
    var storage: map<string, string>
    const crypto: Crypto

    function State(): WalletState
      reads this
    {
      WalletState(passwordCache, storage)
    }

    /** A page load: nothing cached, whatever `localStorage` already holds. */
    constructor (crypto: Crypto, storage: map<string, string>)
      ensures this.crypto == crypto && State() == WalletState(None, storage)
    {
      this.crypto := crypto;
      this.passwordCache := None;
      this.storage := storage;
    }

    method DefaultPasswordGetter(promptAnswer: Option<string>) returns (r: Outcome<string>)
      modifies this`passwordCache
      ensures (r, passwordCache) == PasswordStep(old(passwordCache), promptAnswer)
    {
      if passwordCache.Some? && passwordCache.value != "" {
        return Resolved(passwordCache.value);
      }
      if promptAnswer.None? || promptAnswer.value == "" {
        return Rejected("Password is required");
      }
      passwordCache := promptAnswer;
      r := Resolved(promptAnswer.value);
    }

    method EnsureWallet(source: PasswordSource, created: Account) returns (r: Outcome<Account>)
      modifies this
      ensures (r, State()) == EnsureWalletStep(old(State()), crypto, source, created)
    {
      var existing := GetItem(storage, KeystoreKey);
      var pass: Outcome<string>;
      if source.DefaultGetter? {
        pass := DefaultPasswordGetter(source.promptAnswer);
      } else {
        pass := source.outcome;
      }
      if pass.Rejected? {
        return Rejected(pass.message);
      }
      if existing.Some? && existing.value != "" {
        var w := crypto.decrypt(existing.value, pass.value);
        if w.None? {
          passwordCache := None;
          return Rejected("You entered wrong wallet password");
        }
        return Resolved(w.value);
      }
      storage := storage[KeystoreKey := crypto.encrypt(created, pass.value)];
      r := Resolved(created);
    }

    method ClearWalletSession()
      modifies this`passwordCache
      ensures State() == ClearWalletSessionStep(old(State()))
    {
      passwordCache := None;
    }

    method ClearWallet()
      modifies this
      ensures State() == ClearWalletStep(old(State()))
    {
      passwordCache := None;
      storage := storage - {KeystoreKey};
    }

    method ResetWalletForNewElection(promptAnswer: Option<string>, created: Account) returns (r: Outcome<Account>)
      modifies this
      ensures (r, State()) == ResetWalletStep(old(State()), crypto, promptAnswer, created)
    {
      ClearWallet();
      r := EnsureWallet(DefaultGetter(promptAnswer), created);
    }
  }

  // ---------------------------------------------------------------- properties

  /** A cached password is returned as it is, whatever the prompt would have said: the user is not asked. */
  lemma CachedPasswordSkipsPrompt(cache: Option<string>, a1: Option<string>, a2: Option<string>)
    requires Truthy(cache)
    ensures PasswordStep(cache, a1) == PasswordStep(cache, a2) == (Resolved(cache.value), cache)
  {
  }

  /**
   * Under the invariant every operation keeps, holding a password at all means
   * it is used: whatever is cached is returned without asking the user.
   */
  lemma ValidCacheIsNeverReprompted(s: WalletState, answer: Option<string>)
    requires Valid(s) && s.cache.Some?
    ensures PasswordStep(s.cache, answer) == (Resolved(s.cache.value), s.cache)
  {
  }

  /** With nothing cached, an empty or cancelled prompt rejects and leaves the cache as it was; any other answer is cached. */
  lemma PromptAnswerRules(cache: Option<string>, answer: Option<string>)
    requires !Truthy(cache)
    ensures !Truthy(answer) ==> PasswordStep(cache, answer) == (Rejected("Password is required"), cache)
    ensures Truthy(answer) ==> PasswordStep(cache, answer) == (Resolved(answer.value), answer)
  {
  }

  /**
   * With a keystore stored, `ensureWallet` never creates a wallet and never
   * writes storage: what it resolves to is what the stored keystore decrypts to.
   */
  lemma ExistingKeystoreIsNeverReplaced(s: WalletState, crypto: Crypto, source: PasswordSource, created: Account)
    requires Truthy(GetItem(s.storage, KeystoreKey))
    ensures var (r, s') := EnsureWalletStep(s, crypto, source, created);
      && s'.storage == s.storage
      && (r.Resolved? ==> exists p :: crypto.decrypt(s.storage[KeystoreKey], p) == Some(r.value))
  {
    var (pass, _) := GetPassword(s.cache, source);
    if pass.Resolved? {
      var decrypted := crypto.decrypt(s.storage[KeystoreKey], pass.value);  // the witness for the exists clause
    }
  }

  /** A password that does not open the stored keystore empties the cache and rejects. */
  lemma WrongPasswordClearsCache(s: WalletState, crypto: Crypto, source: PasswordSource, created: Account)
    requires Truthy(GetItem(s.storage, KeystoreKey))
    requires var pass := GetPassword(s.cache, source).0;
      pass.Resolved? && crypto.decrypt(s.storage[KeystoreKey], pass.value).None?
    ensures EnsureWalletStep(s, crypto, source, created) == (Rejected("You entered wrong wallet password"), s.(cache := None))
  {
  }

  /**
   * With no keystore (or an empty one), `ensureWallet` stores the new wallet
   * encrypted under the password, or, when no password comes, stores nothing.
   */
  lemma MissingKeystoreIsCreated(s: WalletState, crypto: Crypto, source: PasswordSource, created: Account)
    requires !Truthy(GetItem(s.storage, KeystoreKey))
    ensures var (pass, cache) := GetPassword(s.cache, source);
      var (r, s') := EnsureWalletStep(s, crypto, source, created);
      && (pass.Resolved? ==> r == Resolved(created) && s'.storage == s.storage[KeystoreKey := crypto.encrypt(created, pass.value)])
      && (pass.Rejected? ==> r == Rejected(pass.message) && s'.storage == s.storage)
  {
  }

  /**
   * The password never reaches storage: `ensureWallet` writes only the keystore
   * entry, and only the new wallet encrypted under the password.
   */
  lemma StorageHoldsOnlyEncryptedKeystore(s: WalletState, crypto: Crypto, source: PasswordSource, created: Account)
    ensures var s' := EnsureWalletStep(s, crypto, source, created).1;
      && (forall k :: k != KeystoreKey ==> GetItem(s'.storage, k) == GetItem(s.storage, k))
      && (GetItem(s'.storage, KeystoreKey) == GetItem(s.storage, KeystoreKey)
          || exists p :: GetItem(s'.storage, KeystoreKey) == Some(crypto.encrypt(created, p)))
  {
    var (pass, _) := GetPassword(s.cache, source);
    if !Truthy(GetItem(s.storage, KeystoreKey)) && pass.Resolved? {
      assert GetItem(EnsureWalletStep(s, crypto, source, created).1.storage, KeystoreKey) == Some(crypto.encrypt(created, pass.value));
    }
  }

  /** `clearWalletSession` forgets the password and keeps the keystore; `clearWallet` forgets both and nothing else. */
  lemma ClearRules(s: WalletState)
    ensures ClearWalletSessionStep(s).cache == None && ClearWalletSessionStep(s).storage == s.storage
    ensures ClearWalletStep(s).cache == None && GetItem(ClearWalletStep(s).storage, KeystoreKey) == None
    ensures forall k :: k != KeystoreKey ==> GetItem(ClearWalletStep(s).storage, k) == GetItem(s.storage, k)
  {
  }

  /**
   * `resetWalletForNewElection` always prompts. An answer leaves a keystore of
   * the created wallet encrypted under it, with the answer cached; an empty or
   * cancelled prompt leaves no keystore and no password.
   */
  lemma ResetCreatesFreshKeystore(s: WalletState, crypto: Crypto, answer: Option<string>, created: Account)
    ensures var (r, s') := ResetWalletStep(s, crypto, answer, created);
      && (Truthy(answer) ==> r == Resolved(created) && s'.cache == answer
                             && GetItem(s'.storage, KeystoreKey) == Some(crypto.encrypt(created, answer.value)))
      && (!Truthy(answer) ==> r == Rejected("Password is required") && s'.cache == None
                              && GetItem(s'.storage, KeystoreKey) == None)
  {
  }

  /** Every operation keeps the cache free of the empty password. */
  lemma OperationsPreserveValid(s: WalletState, crypto: Crypto, source: PasswordSource, created: Account, answer: Option<string>)
    requires Valid(s)
    ensures Valid(EnsureWalletStep(s, crypto, source, created).1)
    ensures Valid(ClearWalletSessionStep(s)) && Valid(ClearWalletStep(s))
    ensures Valid(ResetWalletStep(s, crypto, answer, created).1)
  {
  }

  /**
   * After `ensureWallet` resolves through the default getter, the cached
   * password opens the stored keystore, given that ethers decrypts what it
   * encrypted under the same password.
   */
  ghost predicate RoundTrips(crypto: Crypto) {
    forall a: Account, p: string :: crypto.decrypt(crypto.encrypt(a, p), p) == Some(a) && crypto.encrypt(a, p) != ""
  }

  lemma CachedPasswordOpensKeystore(s: WalletState, crypto: Crypto, answer: Option<string>, created: Account)
    requires RoundTrips(crypto)
    requires EnsureWalletStep(s, crypto, DefaultGetter(answer), created).0.Resolved?
    ensures var (r, s') := EnsureWalletStep(s, crypto, DefaultGetter(answer), created);
      && Truthy(s'.cache) && Truthy(GetItem(s'.storage, KeystoreKey))
      && crypto.decrypt(s'.storage[KeystoreKey], s'.cache.value) == Some(r.value)
  {
  }

  /**
   * Hence a second `ensureWallet` in the same page session returns the same
   * wallet without prompting and without changing anything.
   */
  lemma SecondEnsureReusesWallet(s: WalletState, crypto: Crypto, a1: Option<string>, a2: Option<string>,
                                 created1: Account, created2: Account)
    requires RoundTrips(crypto)
    requires EnsureWalletStep(s, crypto, DefaultGetter(a1), created1).0.Resolved?
    ensures var (r, s') := EnsureWalletStep(s, crypto, DefaultGetter(a1), created1);
      EnsureWalletStep(s', crypto, DefaultGetter(a2), created2) == (r, s')
  {
    CachedPasswordOpensKeystore(s, crypto, a1, created1);
  }
}
