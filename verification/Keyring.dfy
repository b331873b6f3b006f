/**
 The keyring (src/store/keyring.rs) in runs without crashes or I/O errors.

 Secrets, phrases, addresses and passphrases are opaque names; what the cryptography does with them is
 the parameter `Crypto`.  Sealing is symbolic: a blob opens with the passphrase and the purpose it was
 sealed with and with nothing else.
 */
module Keyring {
  import opened Common

  type Secret = nat
  type Phrase = nat
  type Addr = nat
  type Pass = nat

  /** ed25519 and secp256k1 addresses, HD derivation, the standard scheme, the raw-key words and their
      inverse, and the EVM path. */
  datatype Crypto = Crypto(
    edAddress: Secret -> Addr, hd: (Phrase, nat) -> Secret, standard: Phrase -> Secret,
    words: Secret -> Phrase, entropy: Phrase -> Secret, evmOf: Phrase -> Secret, evmAddress: Secret -> Option<Addr>,
    has24: Phrase -> bool, has12: Phrase -> bool)

  /** Addresses do not collide, and a raw key's words encode it. */
  ghost predicate Sound(c: Crypto) {
    && (forall s, t :: c.edAddress(s) == c.edAddress(t) ==> s == t)
    && (forall s :: c.entropy(c.words(s)) == s && c.has24(c.words(s)))
  }

  datatype EvmSource = Generated | ImportedMnemonic | ImportedKey

  datatype EvmMeta = EvmMeta(address: Addr, source: EvmSource)

  /** The vault document. */
  datatype EvmSection = EvmSection(secret: Secret, source: Option<EvmSource>, phrase: Option<Phrase>)
  datatype Doc = Doc(keys: seq<Secret>, evm: Option<EvmSection>)

  datatype Purpose = ForSeed | ForImported | ForPhrase | ForEvmKey | ForEvmPhrase | ForVault
  datatype Payload = Key(s: Secret) | Entropy(p: Phrase) | Vault(d: Doc)
  datatype Blob = Sealed(pass: Pass, purpose: Purpose, payload: Payload)

  datatype KeyError =
    KeystoreLocked | WalletNotFound | WalletAlreadyExists | BadParams | EvmKeyNotCreated | NoFile | Internal

  function Unseal(pass: Pass, purpose: Purpose, b: Blob): Option<Payload> {
    if b.pass == pass && b.purpose == purpose then Some(b.payload) else None
  }

  /** The independent EVM key as its owner sees it. */
  datatype EvmKey = EvmKey(secret: Secret, address: Addr, source: EvmSource, phrase: Option<Phrase>)

  /** The phrase RevealEvmMnemonic has to show: the seed's without an independent key, none for a raw key. */
  function Shown(seed: Option<Phrase>, k: Option<EvmKey>): Option<Phrase> {
    match k
    case None => seed
    case Some(key) => if key.source == ImportedKey then None else key.phrase
  }

  /** A vault's EVM section agrees with itself: a phrase that would be shown has the address of the secret.  A
      section without a source is taken for a raw key.  This can be checked before the vault is imported. */
  predicate HonestSection(c: Crypto, e: EvmSection) {
    e.source.Some? && e.source.value != ImportedKey && e.phrase.Some? ==>
      c.evmAddress(c.evmOf(e.phrase.value)) == c.evmAddress(e.secret)
  }

  // ----- what the stored pieces mean -----

  /** The ed25519 side: the state's tables, the sealed files by address, and the signer cache. */
  datatype Keys = Keys(
    derived: map<Addr, nat>, imported: set<Addr>, keyFiles: map<Addr, Blob>, phraseFiles: map<Addr, Blob>, cache: map<Addr, Secret>)

  /** The EVM side. */
  datatype EvmFiles = EvmFiles(meta: Option<EvmMeta>, keyFile: Option<Blob>, phraseFile: Option<Blob>)

  predicate IsManaged(k: Keys, a: Addr) { a in k.derived || a in k.imported }

  function SecretAt(c: Crypto, seed: Option<Phrase>, k: Keys, a: Addr): Secret {
    if a in k.derived && seed.Some? then c.hd(seed.value, k.derived[a])
    else if a in k.keyFiles && k.keyFiles[a].payload.Key? then k.keyFiles[a].payload.s
    else 0
  }

  /** The managed addresses with their secrets. */
  function SecretsOf(c: Crypto, seed: Option<Phrase>, k: Keys): map<Addr, Secret> {
    map a | a in k.derived.Keys + k.imported :: SecretAt(c, seed, k, a)
  }

  predicate KeyFileOk(c: Crypto, pass: Pass, a: Addr, b: Blob) {
    b.pass == pass && b.purpose == ForImported && b.payload.Key? && c.edAddress(b.payload.s) == a
  }

  predicate PhraseFileOk(c: Crypto, pass: Pass, a: Addr, b: Blob) {
    b.pass == pass && b.purpose == ForPhrase && b.payload.Entropy? && c.edAddress(c.standard(b.payload.p)) == a
  }

  ghost predicate KeysOk(c: Crypto, pass: Pass, seed: Option<Phrase>, k: Keys) {
    && (forall a :: a in k.derived ==> seed.Some? && c.edAddress(c.hd(seed.value, k.derived[a])) == a)
    && (forall a :: a in k.imported ==> a in k.keyFiles)
    && (forall a :: a in k.keyFiles ==> KeyFileOk(c, pass, a, k.keyFiles[a]))
    && (forall a :: a in k.phraseFiles ==> a in k.imported && PhraseFileOk(c, pass, a, k.phraseFiles[a]))
    && (forall a :: a in k.cache ==> IsManaged(k, a) && c.edAddress(k.cache[a]) == a)
  }

  function EvmOf(e: EvmFiles): Option<EvmKey> {
    if e.meta.None? || e.keyFile.None? || !e.keyFile.value.payload.Key? then None
    else Some(EvmKey(e.keyFile.value.payload.s, e.meta.value.address, e.meta.value.source,
                     if e.phraseFile.Some? && e.phraseFile.value.payload.Entropy? then Some(e.phraseFile.value.payload.p) else None))
  }

  predicate EvmOk(c: Crypto, pass: Pass, e: EvmFiles) {
    match e.meta
    case None => e.keyFile.None?
    case Some(meta) =>
      && e.keyFile.Some? && e.keyFile.value.pass == pass && e.keyFile.value.purpose == ForEvmKey && e.keyFile.value.payload.Key?
      && c.evmAddress(e.keyFile.value.payload.s) == Some(meta.address)
      && (e.phraseFile.Some? ==>
            e.phraseFile.value.pass == pass && e.phraseFile.value.purpose == ForEvmPhrase && e.phraseFile.value.payload.Entropy?)
  }

  lemma SecretsAre(c: Crypto, seed: Option<Phrase>, k: Keys)
    ensures forall a :: a in SecretsOf(c, seed, k) <==> IsManaged(k, a)
    ensures forall a :: a in SecretsOf(c, seed, k) ==> SecretsOf(c, seed, k)[a] == SecretAt(c, seed, k, a)
  {
  }

  /** Adding or replacing the secret of one address. */
  lemma OneAdded(c: Crypto, seed: Option<Phrase>, k: Keys, k': Keys, addr: Addr, s: Secret)
    requires forall a :: IsManaged(k', a) <==> IsManaged(k, a) || a == addr
    requires forall a :: IsManaged(k', a) && a != addr ==> SecretAt(c, seed, k', a) == SecretAt(c, seed, k, a)
    requires SecretAt(c, seed, k', addr) == s
    ensures SecretsOf(c, seed, k') == SecretsOf(c, seed, k)[addr := s]
  {
    hide SecretAt, SecretsOf;
    SecretsAre(c, seed, k);
    SecretsAre(c, seed, k');
  }

  lemma DerivedAdded(c: Crypto, pass: Pass, seed: Option<Phrase>, k: Keys, i: nat)
    requires KeysOk(c, pass, seed, k) && seed.Some?
    ensures var s := c.hd(seed.value, i);
            var k' := k.(derived := k.derived[c.edAddress(s) := i], cache := k.cache[c.edAddress(s) := s]);
            KeysOk(c, pass, seed, k') && SecretsOf(c, seed, k') == SecretsOf(c, seed, k)[c.edAddress(s) := s]
  {
    hide KeyFileOk, PhraseFileOk, SecretsOf;
    var s := c.hd(seed.value, i);
    OneAdded(c, seed, k, k.(derived := k.derived[c.edAddress(s) := i], cache := k.cache[c.edAddress(s) := s]), c.edAddress(s), s);
  }

  function FileAdded(c: Crypto, pass: Pass, k: Keys, s: Secret): Keys {
    k.(keyFiles := k.keyFiles[c.edAddress(s) := Sealed(pass, ForImported, Key(s))])
  }

  lemma SecretUnique(c: Crypto, pass: Pass, seed: Option<Phrase>, k: Keys, a: Addr)
    requires KeysOk(c, pass, seed, k) && IsManaged(k, a)
    ensures a in SecretsOf(c, seed, k) && c.edAddress(SecretsOf(c, seed, k)[a]) == a
  {
  }

  lemma SameAddress(c: Crypto, s: Secret, t: Secret)
    requires Sound(c) && c.edAddress(s) == c.edAddress(t)
    ensures s == t
  {
  }

  lemma FileOk(c: Crypto, pass: Pass, seed: Option<Phrase>, k: Keys, s: Secret)
    requires KeysOk(c, pass, seed, k)
    ensures KeysOk(c, pass, seed, FileAdded(c, pass, k, s))
  {
    hide PhraseFileOk;
  }

  lemma FileSecret(c: Crypto, pass: Pass, seed: Option<Phrase>, k: Keys, s: Secret, a: Addr)
    requires Sound(c) && KeysOk(c, pass, seed, k) && IsManaged(k, a)
    ensures SecretAt(c, seed, FileAdded(c, pass, k, s), a) == SecretAt(c, seed, k, a)
  {
    hide Sound, PhraseFileOk;
    if a !in k.derived && a == c.edAddress(s) {
      assert KeyFileOk(c, pass, a, k.keyFiles[a]);
      SameAddress(c, k.keyFiles[a].payload.s, s);
    }
  }

  lemma FileWritten(c: Crypto, pass: Pass, seed: Option<Phrase>, k: Keys, s: Secret)
    requires Sound(c) && KeysOk(c, pass, seed, k)
    ensures KeysOk(c, pass, seed, FileAdded(c, pass, k, s))
    ensures SecretsOf(c, seed, FileAdded(c, pass, k, s)) == SecretsOf(c, seed, k)
    ensures IsManaged(k, c.edAddress(s)) ==> SecretsOf(c, seed, k) == SecretsOf(c, seed, k)[c.edAddress(s) := s]
  {
    hide Sound, KeysOk, SecretAt;
    FileOk(c, pass, seed, k, s);
    forall a | IsManaged(k, a) ensures SecretAt(c, seed, FileAdded(c, pass, k, s), a) == SecretAt(c, seed, k, a) {
      FileSecret(c, pass, seed, k, s, a);
    }
    if IsManaged(k, c.edAddress(s)) {
      SecretUnique(c, pass, seed, k, c.edAddress(s));
      SameAddress(c, SecretsOf(c, seed, k)[c.edAddress(s)], s);
    }
  }

  function ImportedKeys(c: Crypto, pass: Pass, k: Keys, s: Secret): Keys {
    FileAdded(c, pass, k, s).(imported := k.imported + {c.edAddress(s)}, cache := k.cache[c.edAddress(s) := s])
  }

  lemma ImportedOk(c: Crypto, pass: Pass, seed: Option<Phrase>, k: Keys, s: Secret)
    requires KeysOk(c, pass, seed, k) && !IsManaged(k, c.edAddress(s))
    ensures KeysOk(c, pass, seed, ImportedKeys(c, pass, k, s)) && c.edAddress(s) !in k.phraseFiles
  {
    hide PhraseFileOk;
  }

  lemma ImportedAdded(c: Crypto, pass: Pass, seed: Option<Phrase>, k: Keys, s: Secret)
    requires Sound(c) && KeysOk(c, pass, seed, k) && !IsManaged(k, c.edAddress(s))
    ensures KeysOk(c, pass, seed, ImportedKeys(c, pass, k, s)) && c.edAddress(s) !in k.phraseFiles
    ensures SecretsOf(c, seed, ImportedKeys(c, pass, k, s)) == SecretsOf(c, seed, k)[c.edAddress(s) := s]
  {
    hide Sound, KeysOk, SecretsOf;
    ImportedOk(c, pass, seed, k, s);
    OneAdded(c, seed, k, ImportedKeys(c, pass, k, s), c.edAddress(s), s);
  }

  lemma PhraseAdded(c: Crypto, pass: Pass, seed: Option<Phrase>, k: Keys, p: Phrase)
    requires KeysOk(c, pass, seed, k) && c.edAddress(c.standard(p)) in k.imported
    ensures var k' := k.(phraseFiles := k.phraseFiles[c.edAddress(c.standard(p)) := Sealed(pass, ForPhrase, Entropy(p))]);
            KeysOk(c, pass, seed, k') && SecretsOf(c, seed, k') == SecretsOf(c, seed, k)
  {
  }

  /** Where the secret of a managed address is found. */
  lemma Located(c: Crypto, pass: Pass, seed: Option<Phrase>, k: Keys, a: Addr)
    requires KeysOk(c, pass, seed, k)
    ensures a in SecretsOf(c, seed, k) <==> IsManaged(k, a)
    ensures a in k.derived ==> seed.Some? && SecretsOf(c, seed, k)[a] == c.hd(seed.value, k.derived[a])
    ensures a !in k.derived && a in k.imported ==>
              a in k.keyFiles && KeyFileOk(c, pass, a, k.keyFiles[a]) && SecretsOf(c, seed, k)[a] == k.keyFiles[a].payload.s
    ensures a in k.phraseFiles ==> IsManaged(k, a) && PhraseFileOk(c, pass, a, k.phraseFiles[a])
  {
    hide PhraseFileOk;
  }

  lemma Cached(c: Crypto, pass: Pass, seed: Option<Phrase>, k: Keys, a: Addr)
    requires Sound(c) && KeysOk(c, pass, seed, k) && IsManaged(k, a)
    ensures a in SecretsOf(c, seed, k) && (a in k.cache ==> k.cache[a] == SecretsOf(c, seed, k)[a])
    ensures var k' := k.(cache := k.cache[a := SecretsOf(c, seed, k)[a]]);
            KeysOk(c, pass, seed, k') && SecretsOf(c, seed, k') == SecretsOf(c, seed, k)
  {
    hide Sound, PhraseFileOk, KeyFileOk;
    SecretUnique(c, pass, seed, k, a);
    if a in k.cache { SameAddress(c, k.cache[a], SecretsOf(c, seed, k)[a]); }
  }

  lemma OnlyManagedCached(c: Crypto, pass: Pass, seed: Option<Phrase>, k: Keys, a: Addr)
    requires KeysOk(c, pass, seed, k) && a in k.cache
    ensures IsManaged(k, a)
  {
  }

  function Dropped(k: Keys, a: Addr): Keys {
    Keys(k.derived - {a}, k.imported - {a}, if a in k.imported then k.keyFiles - {a} else k.keyFiles,
         if a in k.imported then k.phraseFiles - {a} else k.phraseFiles, k.cache - {a})
  }

  lemma Deleted(c: Crypto, pass: Pass, seed: Option<Phrase>, k: Keys, a: Addr)
    requires KeysOk(c, pass, seed, k)
    ensures KeysOk(c, pass, seed, Dropped(k, a)) && SecretsOf(c, seed, Dropped(k, a)) == SecretsOf(c, seed, k) - {a}
    ensures a !in Dropped(k, a).phraseFiles
  {
    hide PhraseFileOk, KeyFileOk, SecretsOf;
    forall b | b != a ensures SecretAt(c, seed, Dropped(k, a), b) == SecretAt(c, seed, k, b) {}
    hide SecretAt;
    SecretsAre(c, seed, k);
    SecretsAre(c, seed, Dropped(k, a));
  }

  // ----- the store -----

  class KeyringStore {
    const crypto: Crypto
    const pass: Pass
    const seed: Option<Phrase>
    var nextIndex: nat
    var derived: map<Addr, nat>
    var imported: set<Addr>
    var evmKey: Option<EvmMeta>
    var keyFiles: map<Addr, Blob>
    var phraseFiles: map<Addr, Blob>
    var evmKeyFile: Option<Blob>
    var evmPhraseFile: Option<Blob>
    var cache: map<Addr, Secret>

    ghost function KeysView(): Keys
      reads this
    {
      Keys(derived, imported, keyFiles, phraseFiles, cache)
    }

    ghost function EvmView(): EvmFiles
      reads this
    {
      EvmFiles(evmKey, evmKeyFile, evmPhraseFile)
    }

    ghost predicate Valid()
      reads this
    {
      Sound(crypto) && KeysOk(crypto, pass, seed, KeysView()) && EvmOk(crypto, pass, EvmView())
    }

    predicate Managed(a: Addr)
      reads this
    {
      a in derived || a in imported
    }

    ghost function Secrets(): map<Addr, Secret>
      reads this
    {
      SecretsOf(crypto, seed, KeysView())
    }

    ghost function Evm(): Option<EvmKey>
      reads this
    {
      EvmOf(EvmView())
    }

    /** A new keyring, seeded or not. */
    constructor (crypto: Crypto, pass: Pass, seed: Option<Phrase>)
      requires Sound(crypto)
      ensures Valid() && Secrets() == map[] && Evm() == None && this.crypto == crypto && this.pass == pass && this.seed == seed
    {
      this.crypto, this.pass, this.seed := crypto, pass, seed;
      nextIndex, derived, imported, evmKey := 0, map[], {}, None;
      keyFiles, phraseFiles, evmKeyFile, evmPhraseFile, cache := map[], map[], None, None, map[];
    }

    // ----- ed25519 keys -----

    method Create() returns (r: Result<Addr, KeyError>)
      requires Valid()
      modifies this
      ensures Valid() && EvmView() == old(EvmView())
      ensures seed.None? ==> r == Err(BadParams)
      ensures r.Err? ==> Secrets() == old(Secrets())
      ensures r.Ok? ==> Secrets() == old(Secrets())[r.value := crypto.hd(seed.value, old(nextIndex))] && nextIndex == old(nextIndex) + 1
    {
      hide Sound, KeysOk, SecretsOf, EvmOk, EvmOf;
      if seed.None? { return Err(BadParams); }
      if nextIndex >= 0xFFFF_FFFF { return Err(Internal); }
      var secret := crypto.hd(seed.value, nextIndex);
      var addr := crypto.edAddress(secret);
      DerivedAdded(crypto, pass, seed, KeysView(), nextIndex);
      derived := derived[addr := nextIndex];
      nextIndex := nextIndex + 1;
      cache := cache[addr := secret];
      return Ok(addr);
    }

    /** The key file is written before the duplicate check. */
    method Import(secret: Secret) returns (r: Result<Addr, KeyError>)
      requires Valid()
      modifies this
      ensures Valid() && EvmView() == old(EvmView())
      ensures r == if old(Managed(crypto.edAddress(secret))) then Err(WalletAlreadyExists) else Ok(crypto.edAddress(secret))
      ensures Secrets() == old(Secrets())[crypto.edAddress(secret) := secret]
      ensures crypto.edAddress(secret) in keyFiles && derived == old(derived)
      ensures r.Ok? ==> r.value in imported && r.value !in phraseFiles
    {
      hide Sound, KeysOk, SecretsOf, EvmOk, EvmOf;
      var addr := crypto.edAddress(secret);
      FileWritten(crypto, pass, seed, KeysView(), secret);
      if !Managed(addr) { ImportedAdded(crypto, pass, seed, KeysView(), secret); }
      keyFiles := keyFiles[addr := Sealed(pass, ForImported, Key(secret))];
      if addr in derived || addr in imported { return Err(WalletAlreadyExists); }
      imported := imported + {addr};
      cache := cache[addr := secret];
      return Ok(addr);
    }

    /** create_standard and import_standard_mnemonic, the phrase drawn or typed. */
    method ImportStandard(phrase: Phrase) returns (r: Result<Addr, KeyError>)
      requires Valid()
      modifies this
      ensures Valid() && EvmView() == old(EvmView())
      ensures !crypto.has24(phrase) ==> r == Err(BadParams)
      ensures crypto.has24(phrase) ==>
                r == (if old(Managed(crypto.edAddress(crypto.standard(phrase)))) then Err(WalletAlreadyExists)
                      else Ok(crypto.edAddress(crypto.standard(phrase))))
      ensures Secrets() == if crypto.has24(phrase)
                           then old(Secrets())[crypto.edAddress(crypto.standard(phrase)) := crypto.standard(phrase)] else old(Secrets())
    {
      hide Sound, KeysOk, SecretsOf, EvmOk, EvmOf;
      if !crypto.has24(phrase) { return Err(BadParams); }
      r := Import(crypto.standard(phrase));
      if r.Ok? {
        PhraseAdded(crypto, pass, seed, KeysView(), phrase);
        phraseFiles := phraseFiles[r.value := Sealed(pass, ForPhrase, Entropy(phrase))];
      }
    }

    method LoadByAddress(a: Addr) returns (r: Result<Secret, KeyError>)
      requires Valid()
      modifies this
      ensures Valid() && EvmView() == old(EvmView()) && Secrets() == old(Secrets())
      ensures r == if a in Secrets() then Ok(Secrets()[a]) else Err(WalletNotFound)
    {
      hide Sound, KeysOk, SecretsOf, EvmOk, EvmOf;
      Located(crypto, pass, seed, KeysView(), a);
      if a in cache { OnlyManagedCached(crypto, pass, seed, KeysView(), a); }
      if Managed(a) { Cached(crypto, pass, seed, KeysView(), a); }
      if a in cache { return Ok(cache[a]); }
      if a in derived {
        r := Ok(crypto.hd(seed.value, derived[a]));
      } else if a in imported {
        var p := Unseal(pass, ForImported, keyFiles[a]);
        r := Ok(p.value.s);
      } else {
        return Err(WalletNotFound);
      }
      cache := cache[a := r.value];
    }

    /** The passphrase is checked against the seed or the key's own file. */
    method RevealSecret(a: Addr, given: Pass) returns (r: Result<Secret, KeyError>)
      requires Valid()
      ensures r == if a !in Secrets() then Err(WalletNotFound) else if given != pass then Err(KeystoreLocked) else Ok(Secrets()[a])
    {
      hide Sound, KeysOk, SecretsOf, EvmOk, EvmOf;
      Located(crypto, pass, seed, KeysView(), a);
      if a in derived {
        if given != pass { return Err(KeystoreLocked); }
        return Ok(crypto.hd(seed.value, derived[a]));
      } else if a in imported {
        match Unseal(given, ForImported, keyFiles[a])
        case Some(p) => return Ok(p.s);
        case None => return Err(KeystoreLocked);
      } else {
        return Err(WalletNotFound);
      }
    }

    /** The phrase of an address reproduces it: by the standard scheme when a phrase is on file, else because
        the words are the raw key. */
    method RevealAddressMnemonic(a: Addr, given: Pass) returns (r: Result<Phrase, KeyError>)
      requires Valid()
      ensures r.Ok? <==> a in Secrets() && given == pass
      ensures r.Ok? ==> crypto.edAddress(crypto.standard(r.value)) == a || crypto.edAddress(crypto.entropy(r.value)) == a
      ensures r.Ok? && a !in phraseFiles ==> crypto.has24(r.value) && crypto.entropy(r.value) == Secrets()[a]
    {
      hide KeysOk, SecretsOf, EvmOk, EvmOf;
      Located(crypto, pass, seed, KeysView(), a);
      if Managed(a) { SecretUnique(crypto, pass, seed, KeysView(), a); }
      if a in phraseFiles {
        match Unseal(given, ForPhrase, phraseFiles[a]) {
          case Some(p) => return Ok(p.p);
          case None => return Err(KeystoreLocked);
        }
      }
      var s := RevealSecret(a, given);
      match s
      case Ok(secret) => return Ok(crypto.words(secret));
      case Err(e) => return Err(e);
    }

    /** Seeded: against the seed.  Seedless: against one imported key, if there is any. */
    predicate Verifies(given: Pass)
      reads this
    {
      (seed.Some? || imported != {}) ==> given == pass
    }

    method Delete(a: Addr, given: Pass) returns (r: Result<(), KeyError>)
      requires Valid()
      modifies this
      ensures Valid() && EvmView() == old(EvmView())
      ensures r.Ok? <==> old(Verifies(given)) && a in old(Secrets())
      ensures Secrets() == if r.Ok? then old(Secrets()) - {a} else old(Secrets())
      ensures r.Ok? ==> a !in phraseFiles && (old(a in imported) ==> a !in keyFiles)
    {
      hide Sound, KeysOk, SecretsOf, EvmOk, EvmOf;
      Deleted(crypto, pass, seed, KeysView(), a);
      Located(crypto, pass, seed, KeysView(), a);
      if !Verifies(given) { return Err(KeystoreLocked); }
      if !Managed(a) { return Err(WalletNotFound); }
      var wasImported := a in imported;
      derived, imported := derived - {a}, imported - {a};
      cache := cache - {a};
      if wasImported { keyFiles, phraseFiles := keyFiles - {a}, phraseFiles - {a}; }
      return Ok(());
    }

    // ----- the EVM key -----

    /** persist_evm_key. */
    method PersistEvmKey(secret: Secret, phrase: Option<Phrase>, address: Addr, source: EvmSource)
      requires Valid() && crypto.evmAddress(secret) == Some(address)
      modifies this
      ensures Valid() && Secrets() == old(Secrets()) && Evm() == Some(EvmKey(secret, address, source, phrase))
    {
      hide Sound, KeysOk, SecretsOf;
      evmKeyFile := Some(Sealed(pass, ForEvmKey, Key(secret)));
      if phrase.Some? {
        evmPhraseFile := Some(Sealed(pass, ForEvmPhrase, Entropy(phrase.value)));
      } else if evmPhraseFile.Some? {
        evmPhraseFile := None;
      }
      evmKey := Some(EvmMeta(address, source));
    }

    /** The independent key first, then the seed's. */
    method EvmSecret() returns (r: Result<Secret, KeyError>)
      requires Valid()
      ensures r == match Evm()
                   case Some(k) => Ok(k.secret)
                   case None => if seed.Some? then Ok(crypto.evmOf(seed.value)) else Err(EvmKeyNotCreated)
    {
      hide Sound, KeysOk, SecretsOf;
      if evmKeyFile.Some? {
        var p := Unseal(pass, ForEvmKey, evmKeyFile.value);
        return Ok(p.value.s);
      }
      if seed.Some? { return Ok(crypto.evmOf(seed.value)); }
      return Err(EvmKeyNotCreated);
    }

    /** It names the address of the key EvmSecret returns, and there is none only when there is no key. */
    method EvmAddressOpt() returns (r: Result<Option<Addr>, KeyError>)
      requires Valid()
      ensures match Evm()
              case Some(k) => r == Ok(crypto.evmAddress(k.secret)) && r.value.Some?
              case None =>
                if seed.None? then r == Ok(None)
                else if crypto.evmAddress(crypto.evmOf(seed.value)).Some? then r == Ok(crypto.evmAddress(crypto.evmOf(seed.value)))
                else r == Err(Internal)
    {
      hide Sound, KeysOk, SecretsOf;
      if evmKey.Some? { return Ok(Some(evmKey.value.address)); }
      if seed.Some? {
        var secret := EvmSecret();
        match crypto.evmAddress(secret.value)
        case Some(a) => return Ok(Some(a));
        case None => return Err(Internal);
      }
      return Ok(None);
    }

    method CreateEvmKey(force: bool, phrase: Phrase) returns (r: Result<(Addr, Phrase), KeyError>)
      requires Valid()
      modifies this
      ensures Valid() && Secrets() == old(Secrets())
      ensures r.Err? ==> Evm() == old(Evm())
      ensures r.Ok? <==> old(Evm()).None? && (seed.None? || force) && crypto.evmAddress(crypto.evmOf(phrase)).Some?
      ensures r.Ok? ==> r.value.1 == phrase && Evm() == Some(EvmKey(crypto.evmOf(phrase), r.value.0, Generated, Some(phrase)))
      ensures Evm() == After(crypto, pass, seed, old(Evm()), NewKey(force, phrase))
    {
      hide Sound, KeysOk, SecretsOf;
      if evmKey.Some? { return Err(WalletAlreadyExists); }
      if seed.Some? && !force { return Err(BadParams); }
      var secret := crypto.evmOf(phrase);
      match crypto.evmAddress(secret)
      case None => return Err(Internal);
      case Some(address) =>
        PersistEvmKey(secret, Some(phrase), address, Generated);
        return Ok((address, phrase));
    }

    /** The stored phrase, for the right passphrase and no other. */
    method RevealEvmMnemonic(given: Pass) returns (r: Result<Phrase, KeyError>)
      requires Valid()
      ensures r.Ok? <==> given == pass && Shown(seed, Evm()).Some?
      ensures r.Ok? ==> Some(r.value) == Shown(seed, Evm())
    {
      hide Sound, KeysOk, SecretsOf;
      if !Verifies(given) { return Err(KeystoreLocked); }
      match evmKey {
        case Some(meta) =>
          if meta.source == ImportedKey { return Err(BadParams); }
          if evmPhraseFile.None? { return Err(NoFile); }
          match Unseal(given, ForEvmPhrase, evmPhraseFile.value) {
            case Some(p) => return Ok(p.p);
            case None => return Err(KeystoreLocked);
          }
        case None =>
          if seed.None? { return Err(BadParams); }
          return Ok(seed.value);
      }
    }

    method ImportEvmMnemonic(phrase: Phrase, overwrite: bool) returns (r: Result<Addr, KeyError>)
      requires Valid()
      modifies this
      ensures Valid() && Secrets() == old(Secrets())
      ensures r.Err? ==> Evm() == old(Evm())
      ensures r.Ok? <==> (old(Evm()).None? || overwrite) && (crypto.has12(phrase) || crypto.has24(phrase))
                         && crypto.evmAddress(crypto.evmOf(phrase)).Some?
      ensures r.Ok? ==> Evm() == Some(EvmKey(crypto.evmOf(phrase), r.value, ImportedMnemonic, Some(phrase)))
      ensures Evm() == After(crypto, pass, seed, old(Evm()), ImportPhrase(phrase, overwrite))
    {
      hide Sound, KeysOk, SecretsOf;
      if evmKey.Some? && !overwrite { return Err(WalletAlreadyExists); }
      if !crypto.has12(phrase) && !crypto.has24(phrase) { return Err(BadParams); }
      var secret := crypto.evmOf(phrase);
      match crypto.evmAddress(secret)
      case None => return Err(Internal);
      case Some(address) =>
        PersistEvmKey(secret, Some(phrase), address, ImportedMnemonic);
        return Ok(address);
    }

    method ImportEvmKey(secret: Secret, overwrite: bool) returns (r: Result<Addr, KeyError>)
      requires Valid()
      modifies this
      ensures Valid() && Secrets() == old(Secrets())
      ensures r.Err? ==> Evm() == old(Evm())
      ensures r.Ok? <==> (old(Evm()).None? || overwrite) && crypto.evmAddress(secret).Some?
      ensures r.Ok? ==> Evm() == Some(EvmKey(secret, r.value, ImportedKey, None))
      ensures Evm() == After(crypto, pass, seed, old(Evm()), ImportRaw(secret, overwrite))
    {
      hide Sound, KeysOk, SecretsOf;
      if evmKey.Some? && !overwrite { return Err(WalletAlreadyExists); }
      match crypto.evmAddress(secret)
      case None => return Err(BadParams);
      case Some(address) =>
        PersistEvmKey(secret, None, address, ImportedKey);
        return Ok(address);
    }

    /** A wrong passphrase never drops the key. */
    method DeleteEvmKey(given: Pass) returns (r: Result<(), KeyError>)
      requires Valid()
      modifies this
      ensures Valid() && Secrets() == old(Secrets())
      ensures r.Ok? <==> old(Evm()).Some? && given == pass
      ensures Evm() == After(crypto, pass, seed, old(Evm()), Remove(given))
    {
      hide Sound, KeysOk, SecretsOf;
      if !Verifies(given) { return Err(KeystoreLocked); }
      if evmKey.None? { return Err(WalletNotFound); }
      if evmKeyFile.Some? && Unseal(given, ForEvmKey, evmKeyFile.value).None? { return Err(KeystoreLocked); }
      evmKey, evmKeyFile, evmPhraseFile := None, None, None;
      return Ok(());
    }

    // ----- vaults -----

    /** The whole keyring: every managed secret, and the independent EVM key with its phrase. */
    method ExportVault(given: Pass) returns (r: Result<Blob, KeyError>)
      requires Valid()
      modifies this
      ensures Valid() && Secrets() == old(Secrets()) && Evm() == old(Evm())
      ensures r.Ok? <==> Secrets() == map[] || given == pass
      ensures r.Ok? ==> exists d :: r.value == Sealed(given, ForVault, Vault(d)) && IsBackup(crypto, d, Secrets(), Evm())
    {
      hide KeysOk, SecretsOf, EvmOk, EvmOf, IsBackup, Sound;
      var keys: seq<Secret> := [];
      var todo := derived.Keys + imported;
      ManagedKeys(crypto, seed, KeysView());
      if todo != {} {
        var first :| first in todo;
        var check := RevealSecret(first, given);
        if check.Err? { return Err(check.error); }
      }
      while todo != {}
        invariant Valid() && Secrets() == old(Secrets()) && EvmView() == old(EvmView()) && todo <= Secrets().Keys
        invariant forall s :: s in keys <==> exists a :: a in Secrets() && a !in todo && Secrets()[a] == s
        decreases todo
      {
        var a :| a in todo;
        var signer := LoadByAddress(a);
        keys := keys + [signer.value];
        todo := todo - {a};
      }
      var evm := ExportEvm();
      BackupKeys(crypto, pass, seed, KeysView(), EvmView(), keys, evm);
      return Ok(Sealed(given, ForVault, Vault(Doc(keys, evm))));
    }

    /** export_evm_for_vault. */
    method ExportEvm() returns (evm: Option<EvmSection>)
      requires Valid()
      ensures evm == SectionOf(Evm())
    {
      hide Sound, KeysOk, SecretsOf;
      if evmKey.None? { return None; }
      var secret := EvmSecret();
      var phrase: Option<Phrase> := None;
      if evmKey.value.source != ImportedKey && evmPhraseFile.Some? {
        phrase := Some(Unseal(pass, ForEvmPhrase, evmPhraseFile.value).value.p);
      }
      return Some(EvmSection(secret.value, Some(evmKey.value.source), phrase));
    }

    /** Every key the vault names is added, nothing already here is replaced, and the EVM key comes along when
        this keyring has none of its own. */
    method ImportVault(blob: Blob, given: Pass) returns (r: Result<seq<Addr>, KeyError>)
      requires Valid()
      modifies this
      ensures Valid()
      ensures (blob.pass != given || blob.purpose != ForVault || !blob.payload.Vault?) ==>
                r.Err? && Secrets() == old(Secrets()) && Evm() == old(Evm())
      ensures blob.pass == given && blob.purpose == ForVault && blob.payload.Vault? ==>
                && Secrets() == WithKeys(crypto, old(Secrets()), blob.payload.d.keys)
                && Evm() == After(crypto, pass, seed, old(Evm()), Restore(blob.payload.d.evm))
                && (r.Ok? <==> old(Evm()).Some? || blob.payload.d.evm.None? || Evm().Some?)
    {
      hide KeysOk, SecretsOf, EvmOk, EvmOf, Sound;
      var p := Unseal(given, ForVault, blob);
      if p.None? || !p.value.Vault? { return Err(KeystoreLocked); }
      var doc := p.value.d;
      var added: seq<Addr> := [];
      for i := 0 to |doc.keys|
        invariant Valid() && EvmView() == old(EvmView()) && Secrets() == WithKeys(crypto, old(Secrets()), doc.keys[..i])
      {
        assert doc.keys[..i + 1][..i] == doc.keys[..i];
        var secret := doc.keys[i];
        var addr := crypto.edAddress(secret);
        if Managed(addr) {
          FileWritten(crypto, pass, seed, KeysView(), secret);
        } else {
          var a := Import(secret);
          added := added + [a.value];
        }
      }
      assert doc.keys[..|doc.keys|] == doc.keys;
      EvmPresent(crypto, pass, EvmView());
      if doc.evm.Some? && evmKey.None? {
        var e := doc.evm.value;
        match crypto.evmAddress(e.secret) {
          case None => return Err(BadParams);
          case Some(address) =>
            PersistEvmKey(e.secret, e.phrase, address, if e.source.Some? then e.source.value else ImportedKey);
        }
      }
      return Ok(added);
    }
  }

  lemma EvmPresent(c: Crypto, pass: Pass, e: EvmFiles)
    requires EvmOk(c, pass, e)
    ensures EvmOf(e).Some? <==> e.meta.Some?
  {
  }

  lemma ManagedKeys(c: Crypto, seed: Option<Phrase>, k: Keys)
    ensures SecretsOf(c, seed, k).Keys == k.derived.Keys + k.imported
  {
  }

  /** The vault section of an EVM key: its phrase goes along when there is one to reveal. */
  function SectionOf(k: Option<EvmKey>): Option<EvmSection> {
    match k
    case None => None
    case Some(e) => Some(EvmSection(e.secret, Some(e.source), if e.source == ImportedKey then None else e.phrase))
  }

  lemma BackupKeys(c: Crypto, pass: Pass, seed: Option<Phrase>, k: Keys, e: EvmFiles, keys: seq<Secret>, evm: Option<EvmSection>)
    requires KeysOk(c, pass, seed, k) && EvmOk(c, pass, e) && evm == SectionOf(EvmOf(e))
    requires forall s :: s in keys <==> exists a :: a in SecretsOf(c, seed, k) && SecretsOf(c, seed, k)[a] == s
    ensures IsBackup(c, Doc(keys, evm), SecretsOf(c, seed, k), EvmOf(e))
  {
    var secrets := SecretsOf(c, seed, k);
    forall a | a in secrets ensures c.edAddress(secrets[a]) == a { SecretUnique(c, pass, seed, k, a); }
    hide KeysOk, SecretsOf;
  }

  function WithKeys(c: Crypto, secrets: map<Addr, Secret>, keys: seq<Secret>): map<Addr, Secret> {
    if keys == [] then secrets
    else WithKeys(c, secrets, keys[..|keys|-1])[c.edAddress(keys[|keys|-1]) := keys[|keys|-1]]
  }

  /** What restore_evm_from_vault leaves in a keyring that had no EVM key. */
  function Restored(c: Crypto, e: Option<EvmSection>): Option<EvmKey> {
    if e.None? || c.evmAddress(e.value.secret).None? then None
    else Some(EvmKey(e.value.secret, c.evmAddress(e.value.secret).value,
                     if e.value.source.Some? then e.value.source.value else ImportedKey, e.value.phrase))
  }

  /** The document holds exactly these secrets and this EVM key. */
  ghost predicate IsBackup(c: Crypto, d: Doc, secrets: map<Addr, Secret>, evm: Option<EvmKey>) {
    && (forall s :: s in d.keys <==> c.edAddress(s) in secrets && secrets[c.edAddress(s)] == s)
    && (forall a :: a in secrets ==> c.edAddress(secrets[a]) == a)
    && d.evm == SectionOf(evm)
    && (evm.Some? ==> c.evmAddress(evm.value.secret) == Some(evm.value.address))
  }

  lemma {:induction false} WithKeysIs(c: Crypto, secrets: map<Addr, Secret>, keys: seq<Secret>)
    requires forall s, t :: c.edAddress(s) == c.edAddress(t) ==> s == t
    ensures WithKeys(c, map[], keys).Keys == set s | s in keys :: c.edAddress(s)
    ensures forall s :: s in keys ==> WithKeys(c, map[], keys)[c.edAddress(s)] == s
  {
    if keys != [] {
      WithKeysIs(c, secrets, keys[..|keys|-1]);
      assert keys == keys[..|keys|-1] + [keys[|keys|-1]];
    }
  }

  // ----- the EVM key over a run -----

  /** What can happen to the independent EVM key. */
  datatype EvmOp =
    | NewKey(force: bool, phrase: Phrase)
    | ImportPhrase(phrase: Phrase, overwrite: bool)
    | ImportRaw(secret: Secret, overwrite: bool)
    | Remove(given: Pass)
    | Restore(section: Option<EvmSection>)

  function FromPhrase(c: Crypto, k: Option<EvmKey>, phrase: Phrase, source: EvmSource): Option<EvmKey> {
    match c.evmAddress(c.evmOf(phrase))
    case Some(a) => Some(EvmKey(c.evmOf(phrase), a, source, Some(phrase)))
    case None => k
  }

  function After(c: Crypto, pass: Pass, seed: Option<Phrase>, k: Option<EvmKey>, op: EvmOp): Option<EvmKey> {
    match op
    case NewKey(force, phrase) => if k.Some? || (seed.Some? && !force) then k else FromPhrase(c, k, phrase, Generated)
    case ImportPhrase(phrase, overwrite) =>
      if (k.Some? && !overwrite) || !(c.has12(phrase) || c.has24(phrase)) then k else FromPhrase(c, k, phrase, ImportedMnemonic)
    case ImportRaw(secret, overwrite) =>
      if (k.Some? && !overwrite) || c.evmAddress(secret).None? then k
      else Some(EvmKey(secret, c.evmAddress(secret).value, ImportedKey, None))
    case Remove(given) => if given == pass then None else k
    case Restore(section) => if k.Some? then k else Restored(c, section)
  }

  function AfterAll(c: Crypto, pass: Pass, seed: Option<Phrase>, ops: seq<EvmOp>): Option<EvmKey> {
    if ops == [] then None else After(c, pass, seed, AfterAll(c, pass, seed, ops[..|ops|-1]), ops[|ops|-1])
  }

  /** The address the wallet reports, as EvmAddressOpt does. */
  function AddressInUse(c: Crypto, seed: Option<Phrase>, k: Option<EvmKey>): Option<Addr> {
    match k
    case Some(key) => Some(key.address)
    case None => if seed.Some? then c.evmAddress(c.evmOf(seed.value)) else None
  }

  /** A phrase shown now derives the address in use. */
  predicate RevealsRight(c: Crypto, seed: Option<Phrase>, k: Option<EvmKey>) {
    Shown(seed, k).Some? ==> c.evmAddress(c.evmOf(Shown(seed, k).value)) == AddressInUse(c, seed, k)
  }

  /** This step restores a section that does not agree with itself. */
  predicate RestoresDishonest(c: Crypto, k: Option<EvmKey>, op: EvmOp) {
    k.None? && op.Restore? && op.section.Some? && c.evmAddress(op.section.value.secret).Some? && !HonestSection(c, op.section.value)
  }

  lemma StepRevealsRight(c: Crypto, pass: Pass, seed: Option<Phrase>, k: Option<EvmKey>, op: EvmOp)
    requires RevealsRight(c, seed, k)
    ensures RevealsRight(c, seed, After(c, pass, seed, k, op)) <==> !RestoresDishonest(c, k, op)
  {
  }

  /** In every run, every phrase that can be revealed at any time derives the address in use at that time,
      exactly when every vault section that was restored was an honest one. */
  lemma {:induction false} RevealsIff(c: Crypto, pass: Pass, seed: Option<Phrase>, ops: seq<EvmOp>)
    ensures (forall n :: 0 <= n <= |ops| ==> RevealsRight(c, seed, AfterAll(c, pass, seed, ops[..n])))
       <==> (forall n :: 0 <= n < |ops| ==> !RestoresDishonest(c, AfterAll(c, pass, seed, ops[..n]), ops[n]))
  {
    hide After, RevealsRight, RestoresDishonest;
    if ops == [] {
      assert RevealsRight(c, seed, None) by { SeedRevealsRight(c, seed); }
    } else {
      var init, last := ops[..|ops|-1], ops[|ops|-1];
      RevealsIff(c, pass, seed, init);
      Prefixes(ops);
      if RevealsRight(c, seed, AfterAll(c, pass, seed, init)) { StepRevealsRight(c, pass, seed, AfterAll(c, pass, seed, init), last); }
      ExtendsReveals(c, pass, seed, ops, init, last);
      ExtendsRestores(c, pass, seed, ops, init, last);
    }
  }

  lemma SeedRevealsRight(c: Crypto, seed: Option<Phrase>)
    ensures RevealsRight(c, seed, None)
  {
  }

  lemma Prefixes(ops: seq<EvmOp>)
    requires ops != []
    ensures ops[..|ops|] == ops && ops[..|ops|-1][..|ops|-1] == ops[..|ops|-1]
    ensures forall n :: 0 <= n < |ops| ==> ops[..|ops|-1][..n] == ops[..n]
  {
  }

  lemma ExtendsReveals(c: Crypto, pass: Pass, seed: Option<Phrase>, ops: seq<EvmOp>, init: seq<EvmOp>, last: EvmOp)
    requires ops != [] && init == ops[..|ops|-1] && last == ops[|ops|-1]
    ensures (forall n :: 0 <= n <= |ops| ==> RevealsRight(c, seed, AfterAll(c, pass, seed, ops[..n])))
       <==> (forall n :: 0 <= n <= |init| ==> RevealsRight(c, seed, AfterAll(c, pass, seed, init[..n])))
            && RevealsRight(c, seed, After(c, pass, seed, AfterAll(c, pass, seed, init), last))
  {
    hide After, RevealsRight;
    Prefixes(ops);
    assert AfterAll(c, pass, seed, ops) == After(c, pass, seed, AfterAll(c, pass, seed, init), last);
    hide AfterAll;
    forall n | 0 <= n <= |ops| ensures n == |ops| || ops[..n] == init[..n] {}
  }

  lemma ExtendsRestores(c: Crypto, pass: Pass, seed: Option<Phrase>, ops: seq<EvmOp>, init: seq<EvmOp>, last: EvmOp)
    requires ops != [] && init == ops[..|ops|-1] && last == ops[|ops|-1]
    ensures (forall n :: 0 <= n < |ops| ==> !RestoresDishonest(c, AfterAll(c, pass, seed, ops[..n]), ops[n]))
       <==> (forall n :: 0 <= n < |init| ==> !RestoresDishonest(c, AfterAll(c, pass, seed, init[..n]), init[n]))
            && !RestoresDishonest(c, AfterAll(c, pass, seed, init), last)
  {
    hide AfterAll, RestoresDishonest;
    Prefixes(ops);
    forall n | 0 <= n < |ops| ensures ops[..n] == init[..n] && (n < |init| ==> ops[n] == init[n]) {}
  }

  /** A vault whose phrase is someone else's: it is restored, the phrase is shown, and it derives another
      address than the one in use. */
  lemma DishonestVaultReveals(c: Crypto, pass: Pass, seed: Option<Phrase>, secret: Secret, phrase: Phrase)
    requires c.evmAddress(secret).Some? && c.evmAddress(c.evmOf(phrase)) != c.evmAddress(secret)
    ensures var section := EvmSection(secret, Some(Generated), Some(phrase));
            var k := AfterAll(c, pass, seed, [Restore(Some(section))]);
            && Shown(seed, k) == Some(phrase) && AddressInUse(c, seed, k) == c.evmAddress(secret)
            && c.evmAddress(c.evmOf(phrase)) != AddressInUse(c, seed, k)
  {
    var ops := [Restore(Some(EvmSection(secret, Some(Generated), Some(phrase))))];
    assert ops[..0] == [] && AfterAll(c, pass, seed, ops[..0]) == None;
  }

  /** A restored key reveals right exactly when the vault's section was honest. */
  lemma RestoredHonest(c: Crypto, seed: Option<Phrase>, e: EvmSection)
    requires Restored(c, Some(e)).Some?
    ensures RevealsRight(c, seed, Restored(c, Some(e))) <==> HonestSection(c, e)
  {
  }

  /** Restoring a backup into an empty keyring gives back the same secrets and the same EVM key, with its
      phrase whenever one can be revealed. */
  lemma BackupRestores(c: Crypto, d: Doc, secrets: map<Addr, Secret>, evm: Option<EvmKey>)
    requires Sound(c) && IsBackup(c, d, secrets, evm)
    ensures WithKeys(c, map[], d.keys) == secrets
    ensures evm.None? ==> Restored(c, d.evm) == None
    ensures evm.Some? ==> Restored(c, d.evm) == Some(evm.value.(phrase := if evm.value.source == ImportedKey then None else evm.value.phrase))
    ensures evm.Some? && RevealsRight(c, None, evm) ==> RevealsRight(c, None, Restored(c, d.evm))
  {
    WithKeysIs(c, map[], d.keys);
    var got := WithKeys(c, map[], d.keys);
    forall a ensures a in got <==> a in secrets {
      if a in secrets { assert secrets[a] in d.keys; }
    }
    forall a | a in secrets ensures got[a] == secrets[a] { assert secrets[a] in d.keys; }
  }
}
