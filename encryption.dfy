/** The master-key bookkeeping of the SDK's SecurityManager: which
    (alias, version code) pair this install is bound to, how that pair is
    persisted in the security preference store, and how a failing key
    resolver is absorbed into the CORRUPTED sentinel key.

    The platform level (Build.VERSION.SDK_INT), the random UUID behind a new
    alias, and the key resolver picked for a version code are inputs. */
module Encryption {
  import opened Wrappers

  /** Names of the two entries in the security preference store. */
  const PrefsKeyAlias: string := "alias"
  const PrefsSdkVersionCode: string := "version_code"

  /** New installs that encrypt are pinned to this key-store API level. */
  const LegacyKeyStoreApi: int := 18

  /** The highest API level whose key resolver performs no encryption. */
  const LegacyKeyStoreApiNoOp: int := 17

  /** Every generated alias starts with this. */
  const KeyAliasPrefix: string := "apptentive-key-"

  /** A master key: an opaque handle to key material, or the CORRUPTED
      sentinel that stands for "no usable key". */
  datatype EncryptionKey = Key(handle: nat) | Corrupted

  /** What the key resolver for a KeyInfo does: return a key or throw. */
  datatype KeyOutcome = Resolved(key: EncryptionKey) | Failed(exception: Exception)

  /** The alias of the key in the platform key store, and the SDK version
      code that selects the resolver. */
  datatype KeyInfo = KeyInfo(alias: string, versionCode: int)

  predicate ValidKeyInfo(k: KeyInfo)
  {
    k.alias != "" && k.versionCode >= 1
  }

  /** The KeyInfo constructor: it refuses a null or empty alias and a version
      code below 1. */
  function NewKeyInfo(alias: Option<string>, versionCode: int): (r: Result<KeyInfo>)
    ensures r.Ok? <==> !IsNullOrEmpty(alias) && versionCode >= 1
    ensures r.Ok? ==> ValidKeyInfo(r.value) && alias == Some(r.value.alias) && r.value.versionCode == versionCode
    ensures r.Thrown? ==> r.exception.simpleName == "IllegalArgumentException"
  {
    if IsNullOrEmpty(alias) then Thrown(IllegalArgument("Key alias name is null or empty"))
    else if versionCode < 1 then Thrown(IllegalArgument("Invalid SDK version code"))
    else Ok(KeyInfo(alias.value, versionCode))
  }

  /** Java's Math.min on two ints. */
  function Min(a: int, b: int): int
  {
    if a <= b then a else b
  }

  /** The version code chosen for a new install: the platform level capped
      at the legacy key-store API when encrypting, the no-op level otherwise. */
  function PinnedVersionCode(shouldEncryptStorage: bool, sdkInt: int): (v: int)
    ensures shouldEncryptStorage ==> v <= LegacyKeyStoreApi && v <= sdkInt && (v == LegacyKeyStoreApi || v == sdkInt)
    ensures !shouldEncryptStorage ==> v == LegacyKeyStoreApiNoOp && v < LegacyKeyStoreApi
  {
    if shouldEncryptStorage then Min(LegacyKeyStoreApi, sdkInt) else LegacyKeyStoreApiNoOp
  }

  /** A new alias: the prefix followed by the text of a random UUID. */
  function GenerateUniqueKeyAlias(uuid: string): (alias: string)
    ensures |alias| == |KeyAliasPrefix| + |uuid| && alias != ""
    ensures alias[..|KeyAliasPrefix|] == KeyAliasPrefix && alias[|KeyAliasPrefix|..] == uuid
  {
    KeyAliasPrefix + uuid
  }

  /** Two different UUIDs never give the same alias. */
  lemma DistinctUuidsGiveDistinctAliases(u1: string, u2: string)
    requires u1 != u2
    ensures GenerateUniqueKeyAlias(u1) != GenerateUniqueKeyAlias(u2)
  {
  }

  // ---------------------------------------------------------------------
  // The preference store

  /** The contents of a SharedPreferences file: its string and int entries. */
  datatype PrefsState = PrefsState(strings: map<string, string>, ints: map<string, int>)

  const EmptyPrefs: PrefsState := PrefsState(map[], map[])

  /** getString(PrefsKeyAlias, null). */
  function StoredAlias(p: PrefsState): Option<string>
  {
    if PrefsKeyAlias in p.strings then Some(p.strings[PrefsKeyAlias]) else None
  }

  /** getInt(PrefsSdkVersionCode, 0). */
  function StoredVersionCode(p: PrefsState): int
  {
    if PrefsSdkVersionCode in p.ints then p.ints[PrefsSdkVersionCode] else 0
  }

  /** The store after putString(alias) and putInt(version code). */
  function WithKeyInfo(p: PrefsState, alias: string, versionCode: int): (q: PrefsState)
    ensures StoredAlias(q) == Some(alias) && StoredVersionCode(q) == versionCode
    ensures forall k :: k != PrefsKeyAlias && k in p.strings ==> k in q.strings && q.strings[k] == p.strings[k]
    ensures forall k :: k != PrefsSdkVersionCode && k in p.ints ==> k in q.ints && q.ints[k] == p.ints[k]
  {
    PrefsState(p.strings[PrefsKeyAlias := alias], p.ints[PrefsSdkVersionCode := versionCode])
  }

  /** A stored pair is missing or unusable: the alias is null or empty, or
      the version code is 0. */
  predicate NeedsNewKeyInfo(p: PrefsState)
  {
    IsNullOrEmpty(StoredAlias(p)) || StoredVersionCode(p) == 0
  }

  /** What resolveKeyInfo returns (a KeyInfo or the constructor's exception)
      and the store it leaves behind. */
  datatype KeyInfoResolution = KeyInfoResolution(keyInfo: Result<KeyInfo>, prefs: PrefsState)

  /** resolveKeyInfo as a function of the store and its inputs. */
  function KeyInfoFor(p: PrefsState, shouldEncryptStorage: bool, sdkInt: int, uuid: string): (r: KeyInfoResolution)
    ensures r.prefs != p ==> NeedsNewKeyInfo(p)
    ensures r.keyInfo.Ok? ==>
      ValidKeyInfo(r.keyInfo.value) && !NeedsNewKeyInfo(r.prefs) &&
      StoredAlias(r.prefs) == Some(r.keyInfo.value.alias) && StoredVersionCode(r.prefs) == r.keyInfo.value.versionCode
  {
    if NeedsNewKeyInfo(p) then
      var alias := GenerateUniqueKeyAlias(uuid);
      var versionCode := PinnedVersionCode(shouldEncryptStorage, sdkInt);
      KeyInfoResolution(NewKeyInfo(Some(alias), versionCode), WithKeyInfo(p, alias, versionCode))
    else
      KeyInfoResolution(NewKeyInfo(StoredAlias(p), StoredVersionCode(p)), p)
  }

  /** A usable stored pair is returned unchanged and nothing is written,
      whatever the encryption choice, the platform level or the UUID. */
  lemma StoredPairIsSticky(p: PrefsState, shouldEncryptStorage: bool, sdkInt: int, uuid: string)
    requires !NeedsNewKeyInfo(p)
    ensures var r := KeyInfoFor(p, shouldEncryptStorage, sdkInt, uuid);
      r.prefs == p &&
      (StoredVersionCode(p) >= 1 ==> r.keyInfo == Ok(KeyInfo(StoredAlias(p).value, StoredVersionCode(p)))) &&
      (StoredVersionCode(p) < 1 ==> r.keyInfo.Thrown?)
  {
  }

  /** A missing alias or a zero version code (either one alone is enough)
      makes resolveKeyInfo generate a new alias from the UUID, pin the
      version code and write both entries. */
  lemma MissingPairIsRegenerated(p: PrefsState, shouldEncryptStorage: bool, sdkInt: int, uuid: string)
    requires NeedsNewKeyInfo(p)
    ensures var r := KeyInfoFor(p, shouldEncryptStorage, sdkInt, uuid);
      var alias := GenerateUniqueKeyAlias(uuid);
      var versionCode := PinnedVersionCode(shouldEncryptStorage, sdkInt);
      StoredAlias(r.prefs) == Some(alias) && StoredVersionCode(r.prefs) == versionCode &&
      (versionCode >= 1 <==> r.keyInfo.Ok?) &&
      (r.keyInfo.Ok? ==> r.keyInfo.value == KeyInfo(alias, versionCode))
  {
  }

  /** On a fresh install that encrypts, the version code is
      min(18, SDK_INT); on a supported platform (SDK_INT >= 1) the resolution
      succeeds. */
  lemma FreshInstallEncryptedPinsLegacy(sdkInt: int, uuid: string)
    ensures var r := KeyInfoFor(EmptyPrefs, true, sdkInt, uuid);
      StoredVersionCode(r.prefs) == Min(LegacyKeyStoreApi, sdkInt) &&
      StoredVersionCode(r.prefs) <= LegacyKeyStoreApi &&
      (sdkInt >= 1 <==> r.keyInfo.Ok?)
  {
  }

  /** On a fresh install that opts out of encryption, the version code is
      the no-op level 17, whatever SDK_INT is. */
  lemma FreshInstallOptOutPinsNoOp(sdkInt: int, uuid: string)
    ensures var r := KeyInfoFor(EmptyPrefs, false, sdkInt, uuid);
      StoredVersionCode(r.prefs) == LegacyKeyStoreApiNoOp &&
      r.keyInfo == Ok(KeyInfo(GenerateUniqueKeyAlias(uuid), LegacyKeyStoreApiNoOp))
  {
  }

  /** Once resolveKeyInfo has run, a second call on the store it left returns
      the identical result and writes nothing, whatever its own inputs. The
      one exception is a platform level of 0 when encrypting: the pinned
      version code is then 0 and reads back as "missing". */
  lemma SecondResolutionReturnsSamePair(p: PrefsState, shouldEncryptStorage: bool, sdkInt: int, uuid: string,
                                        shouldEncryptStorage2: bool, sdkInt2: int, uuid2: string)
    requires shouldEncryptStorage ==> sdkInt != 0
    ensures var r := KeyInfoFor(p, shouldEncryptStorage, sdkInt, uuid);
      KeyInfoFor(r.prefs, shouldEncryptStorage2, sdkInt2, uuid2) == r
  {
  }

  /** Either no usable pair, or a pair with a non-empty alias and a version
      code of at least 1. Resolution keeps this invariant whenever SDK_INT is
      at least 1 (ResolutionSucceedsOnBoundPrefs), and an opted-out one keeps
      it at any SDK_INT; an encrypting resolution with a negative SDK_INT
      stores that negative version code and so leaves a store outside it. */
  predicate BoundPrefs(p: PrefsState)
  {
    NeedsNewKeyInfo(p) || StoredVersionCode(p) >= 1
  }

  /** On a supported platform (SDK_INT >= 1) resolveKeyInfo never throws on a
      store satisfying BoundPrefs, and it leaves a usable, valid pair behind. */
  lemma ResolutionSucceedsOnBoundPrefs(p: PrefsState, shouldEncryptStorage: bool, sdkInt: int, uuid: string)
    requires BoundPrefs(p) && sdkInt >= 1
    ensures var r := KeyInfoFor(p, shouldEncryptStorage, sdkInt, uuid);
      r.keyInfo.Ok? && ValidKeyInfo(r.keyInfo.value) &&
      !NeedsNewKeyInfo(r.prefs) && BoundPrefs(r.prefs) &&
      StoredAlias(r.prefs) == Some(r.keyInfo.value.alias) && StoredVersionCode(r.prefs) == r.keyInfo.value.versionCode
  {
  }

  /** A stored non-empty alias with a negative version code is reused as it
      is, so the KeyInfo constructor throws and the exception escapes. */
  lemma NegativeStoredVersionThrows(p: PrefsState, shouldEncryptStorage: bool, sdkInt: int, uuid: string)
    requires !IsNullOrEmpty(StoredAlias(p)) && StoredVersionCode(p) < 0
    ensures var r := KeyInfoFor(p, shouldEncryptStorage, sdkInt, uuid);
      r.prefs == p && r.keyInfo == Thrown(IllegalArgument("Invalid SDK version code"))
  {
  }

  /** After clear(), the next resolution binds the install to the alias of
      the new UUID, which differs from the old alias when the UUIDs differ. */
  lemma ClearedPrefsGetNewAlias(shouldEncryptStorage: bool, sdkInt: int, oldUuid: string, newUuid: string)
    requires oldUuid != newUuid
    ensures var r := KeyInfoFor(EmptyPrefs, shouldEncryptStorage, sdkInt, newUuid);
      StoredAlias(r.prefs) == Some(GenerateUniqueKeyAlias(newUuid)) &&
      StoredAlias(r.prefs) != Some(GenerateUniqueKeyAlias(oldUuid))
  {
    DistinctUuidsGiveDistinctAliases(oldUuid, newUuid);
  }

  /** The inputs of one call of init. */
  datatype InitArgs = InitArgs(shouldEncryptStorage: bool, sdkInt: int, uuid: string)

  /** The KeyInfo results of a sequence of resolutions on one store. */
  function KeyInfosOver(p: PrefsState, calls: seq<InitArgs>): (rs: seq<Result<KeyInfo>>)
    ensures |rs| == |calls|
    decreases |calls|
  {
    if calls == [] then []
    else
      var r := KeyInfoFor(p, calls[0].shouldEncryptStorage, calls[0].sdkInt, calls[0].uuid);
      [r.keyInfo] + KeyInfosOver(r.prefs, calls[1..])
  }

  /** Stickiness across restarts and upgrades: every later call in a
      sequence of resolutions yields the pair of the first, whatever the later
      calls' encryption choice, platform level or UUID. */
  lemma {:induction false} ResolutionsStaySticky(p: PrefsState, calls: seq<InitArgs>)
    requires |calls| > 0
    requires calls[0].shouldEncryptStorage ==> calls[0].sdkInt != 0
    ensures forall i :: 0 <= i < |calls| ==> KeyInfosOver(p, calls)[i] == KeyInfosOver(p, calls)[0]
  {
    var c := calls[0];
    var r := KeyInfoFor(p, c.shouldEncryptStorage, c.sdkInt, c.uuid);
    if |calls| > 1 {
      var rest := calls[1..];
      SecondResolutionReturnsSamePair(p, c.shouldEncryptStorage, c.sdkInt, c.uuid,
                                      rest[0].shouldEncryptStorage, rest[0].sdkInt, rest[0].uuid);
      StaysAt(r, rest);
    }
  }

  /** Helper: from a store that already yields r for any inputs, every call
      yields r. */
  lemma {:induction false} StaysAt(r: KeyInfoResolution, calls: seq<InitArgs>)
    requires forall a: InitArgs :: KeyInfoFor(r.prefs, a.shouldEncryptStorage, a.sdkInt, a.uuid) == r
    ensures forall i :: 0 <= i < |calls| ==> KeyInfosOver(r.prefs, calls)[i] == r.keyInfo
    decreases |calls|
  {
    if calls != [] {
      var a := calls[0];
      assert KeyInfoFor(r.prefs, a.shouldEncryptStorage, a.sdkInt, a.uuid) == r;
      StaysAt(r, calls[1..]);
    }
  }

  /** resolveMasterKey: the resolver's key, or CORRUPTED when it throws. */
  function MasterKeyFrom(outcome: KeyOutcome): (k: EncryptionKey)
    ensures outcome.Failed? ==> k == Corrupted
    ensures outcome.Resolved? ==> k == outcome.key
  {
    match outcome
    case Resolved(key) => key
    case Failed(_) => Corrupted
  }

  // ---------------------------------------------------------------------
  // The state that changes in place

  /** A SharedPreferences file. */
  class Preferences {
    var strings: map<string, string>
    var ints: map<string, int>

    function State(): PrefsState
      reads this
    {
      PrefsState(strings, ints)
    }

    constructor (initial: PrefsState)
      ensures State() == initial
    {
      strings := initial.strings;
      ints := initial.ints;
    }

    /** getString(key, default). */
    method GetString(key: string, default: Option<string>) returns (s: Option<string>)
      ensures s == if key in strings then Some(strings[key]) else default
    {
      s := if key in strings then Some(strings[key]) else default;
    }

    /** getInt(key, default). */
    method GetInt(key: string, default: int) returns (n: int)
      ensures n == if key in ints then ints[key] else default
    {
      n := if key in ints then ints[key] else default;
    }

    /** edit().putString(k1, s).putInt(k2, n).apply(), taking effect at once. */
    method PutStringAndInt(stringKey: string, s: string, intKey: string, n: int)
      modifies this
      ensures strings == old(strings)[stringKey := s] && ints == old(ints)[intKey := n]
    {
      strings := strings[stringKey := s];
      ints := ints[intKey := n];
    }

    /** edit().clear().apply(). */
    method Clear()
      modifies this
      ensures State() == EmptyPrefs
    {
      strings := map[];
      ints := map[];
    }
  }

  /** The process-wide state of SecurityManager: the cached master key (None
      until init has stored one) and the number of exceptions handed to the
      error metrics. */
  class SecurityManager {
    var masterKey: Option<EncryptionKey>
    var errorMetricsLogged: nat

    constructor ()
      ensures masterKey == None && errorMetricsLogged == 0
    {
      masterKey := None;
      errorMetricsLogged := 0;
    }

    /** init(context, shouldEncryptStorage). A null context throws and changes
        nothing; a KeyInfo the constructor refuses throws after the store has
        been updated and leaves the key alone; otherwise the master key is the
        resolver's key or CORRUPTED, and a failure is logged exactly once. */
    method Init(context: Preferences?, shouldEncryptStorage: bool, sdkInt: int, uuid: string,
                resolver: KeyInfo -> KeyOutcome)
      returns (thrown: Option<Exception>)
      modifies this, context
      ensures context == null ==>
        thrown == Some(IllegalArgument("Context is null")) &&
        masterKey == old(masterKey) && errorMetricsLogged == old(errorMetricsLogged)
      ensures context != null ==>
        var r := KeyInfoFor(old(context.State()), shouldEncryptStorage, sdkInt, uuid);
        context.State() == r.prefs &&
        match r.keyInfo
        case Thrown(e) =>
          thrown == Some(e) && masterKey == old(masterKey) && errorMetricsLogged == old(errorMetricsLogged)
        case Ok(info) =>
          thrown == None && masterKey == Some(MasterKeyFrom(resolver(info))) &&
          errorMetricsLogged == old(errorMetricsLogged) + (if resolver(info).Failed? then 1 else 0)
    {
      if context == null {
        return Some(IllegalArgument("Context is null"));
      }
      var keyInfo := ResolveKeyInfo(context, shouldEncryptStorage, sdkInt, uuid);
      match keyInfo
      case Thrown(e) =>
        thrown := Some(e);
      case Ok(info) =>
        var key := ResolveMasterKey(info, resolver);
        masterKey := Some(key);
        thrown := None;
    }

    /** clear(context): wipes the store; the cached key is untouched. A null
        context dereferences null; the runtime chooses the message of the
        resulting NullPointerException, given here as `npeMessage`. */
    method Clear(context: Preferences?, npeMessage: Option<string>) returns (thrown: Option<Exception>)
      modifies context
      ensures context == null ==> thrown == Some(Exception("NullPointerException", npeMessage))
      ensures context != null ==> thrown == None && context.State() == EmptyPrefs
      ensures masterKey == old(masterKey) && errorMetricsLogged == old(errorMetricsLogged)
    {
      if context == null {
        return Some(Exception("NullPointerException", npeMessage));
      }
      context.Clear();
      thrown := None;
    }

    /** resolveKeyInfo: read the stored pair; when it is missing or unusable,
        generate and persist a new one; then build the KeyInfo. */
    method ResolveKeyInfo(prefs: Preferences, shouldEncryptStorage: bool, sdkInt: int, uuid: string)
      returns (keyInfo: Result<KeyInfo>)
      modifies prefs
      ensures var r := KeyInfoFor(old(prefs.State()), shouldEncryptStorage, sdkInt, uuid);
        keyInfo == r.keyInfo && prefs.State() == r.prefs
    {
      var keyAlias := prefs.GetString(PrefsKeyAlias, None);
      var versionCode := prefs.GetInt(PrefsSdkVersionCode, 0);
      if IsNullOrEmpty(keyAlias) || versionCode == 0 {
        var alias := GenerateUniqueKeyAlias(uuid);
        keyAlias := Some(alias);
        if shouldEncryptStorage {
          versionCode := Min(LegacyKeyStoreApi, sdkInt);
        } else {
          versionCode := LegacyKeyStoreApiNoOp;
        }
        prefs.PutStringAndInt(PrefsKeyAlias, alias, PrefsSdkVersionCode, versionCode);
      }
      keyInfo := NewKeyInfo(keyAlias, versionCode);
    }

    /** resolveMasterKey: ask the resolver; on an exception log one error
        metric and fall back to CORRUPTED. */
    method ResolveMasterKey(keyInfo: KeyInfo, resolver: KeyInfo -> KeyOutcome) returns (key: EncryptionKey)
      modifies this`errorMetricsLogged
      ensures key == MasterKeyFrom(resolver(keyInfo))
      ensures errorMetricsLogged == old(errorMetricsLogged) + (if resolver(keyInfo).Failed? then 1 else 0)
    {
      match resolver(keyInfo)
      case Resolved(k) =>
        key := k;
      case Failed(_) =>
        errorMetricsLogged := errorMetricsLogged + 1;
        key := Corrupted;
    }

    /** getMasterKey: the cached key (None before any successful init). */
    function GetMasterKey(): (k: Option<EncryptionKey>)
      reads this
      ensures k == masterKey
    {
      masterKey
    }
  }

  /** Corruption containment, end to end: on a store satisfying BoundPrefs
      and a supported platform, init returns normally and caches the key the
      resolver gives for the resolved pair, or CORRUPTED when the resolver
      throws, with one error metric exactly in that case. */
  method InitContainsResolverFailure(manager: SecurityManager, context: Preferences, shouldEncryptStorage: bool,
                                     sdkInt: int, uuid: string, resolver: KeyInfo -> KeyOutcome)
    returns (thrown: Option<Exception>)
    requires BoundPrefs(context.State()) && sdkInt >= 1
    modifies manager, context
    ensures thrown == None
    ensures var info := KeyInfoFor(old(context.State()), shouldEncryptStorage, sdkInt, uuid).keyInfo.value;
      manager.masterKey == Some(MasterKeyFrom(resolver(info))) &&
      manager.errorMetricsLogged == old(manager.errorMetricsLogged) + (if resolver(info).Failed? then 1 else 0)
  {
    ResolutionSucceedsOnBoundPrefs(context.State(), shouldEncryptStorage, sdkInt, uuid);
    thrown := manager.Init(context, shouldEncryptStorage, sdkInt, uuid, resolver);
  }
}
