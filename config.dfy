/**
 * The plugin's configuration: defaults, the parser that reads the
 * string-to-string configuration map (with an environment fallback for the
 * three signing fields), and the predicates the recorder asks of a Config.
 */
module LedgerConfig {
  import opened Wrappers
  import opened GoText

  // Names of the environment variables consulted for the signing identity.
  const EnvSigningPrivateKey: string := "SIGNING_PRIVATE_KEY"
  const EnvSubscriberID: string := "SUBSCRIBER_ID"
  const EnvUniqueKeyID: string := "UNIQUE_KEY_ID"

  // The beckn actions the recorder knows how to handle.
  const ActionOnConfirm: string := "on_confirm"
  const ActionOnStatus: string := "on_status"

  // time.Duration units, in nanoseconds.
  const Millisecond: int := 1_000_000
  const Second: int := 1_000_000_000

  /** time.Duration(n) * time.Millisecond, without int64 overflow. */
  function Milliseconds(n: int): int {
    n * 1_000_000
  }

  datatype Config = Config(
    ledgerHost: string,
    role: string,
    actions: seq<string>,
    enabled: bool,
    asyncTimeout: int,             // a time.Duration, in nanoseconds
    retryCount: int,
    apiKey: string,
    authHeader: string,
    debugLogging: bool,
    signingPrivateKey: string,     // base64 text of the Ed25519 seed
    subscriberID: string,
    uniqueKeyID: string,
    signatureValiditySeconds: int,
    signingFromEnv: bool)
  {
    /** Whether `action` is one of the configured actions (a linear search with early exit). */
    method IsActionEnabled(action: string) returns (enabled: bool)
      ensures enabled <==> action in actions
    {
      for i := 0 to |actions|
        invariant action !in actions[..i]
      {
        if actions[i] == action {
          return true;
        }
      }
      return false;
    }

    /** The two distribution-company roles: the valid roles other than plain BUYER and SELLER. */
    function IsDiscomRole(): (discom: bool)
      ensures discom <==> IsValidRole(role) && role != "BUYER" && role != "SELLER"
    {
      role == "BUYER_DISCOM" || role == "SELLER_DISCOM"
    }

    /** The buyer-side roles: the valid roles other than SELLER and SELLER_DISCOM. */
    function IsBuyerSide(): (buyer: bool)
      ensures buyer <==> IsValidRole(role) && role != "SELLER" && role != "SELLER_DISCOM"
    {
      role == "BUYER" || role == "BUYER_DISCOM"
    }

    /** The three signing fields are either all set or all empty. */
    predicate SigningAllOrNothing() {
      (signingPrivateKey == "" && subscriberID == "" && uniqueKeyID == "")
      || (signingPrivateKey != "" && subscriberID != "" && uniqueKeyID != "")
    }

    /** What every configuration accepted by ParseConfig satisfies. */
    predicate Valid() {
      && ledgerHost != ""
      && IsValidRole(role)
      && (forall a :: a in actions ==> IsValidAction(a) && a != "")
      && authHeader != ""
      && SigningAllOrNothing()
    }
  }

  datatype ConfigError =
    | MissingLedgerHost
    | InvalidRole(role: string)
    | InvalidAction(action: string)
    | InvalidAsyncTimeout(text: string)
    | InvalidRetryCount(text: string)
    | InvalidSignatureValidity(text: string)
    | MissingSigningPrivateKey
    | MissingSubscriberID
    | MissingUniqueKeyID

  /**
   * The starting point of ParseConfig: everything a valid configuration needs
   * except the ledger host, which has no default.
   */
  function DefaultConfig(): (c: Config)
    ensures c.ledgerHost == "" && !c.Valid()
    ensures IsValidRole(c.role) && c.actions != []
    ensures forall a :: a in c.actions ==> IsValidAction(a) && a != ""
    ensures c.authHeader != "" && c.SigningAllOrNothing() && c.enabled
    ensures c.signatureValiditySeconds > 0 && c.asyncTimeout > 0
  {
    Config(
      ledgerHost := "",
      role := "BUYER",
      actions := [ActionOnConfirm],
      enabled := true,
      asyncTimeout := 5 * Second,
      retryCount := 0,
      apiKey := "",
      authHeader := "X-API-Key",
      debugLogging := false,
      signingPrivateKey := "",
      subscriberID := "",
      uniqueKeyID := "",
      signatureValiditySeconds := 30,
      signingFromEnv := false)
  }

  /** The four roles the ledger accepts. */
  predicate IsValidRole(role: string) {
    role == "BUYER" || role == "SELLER" || role == "BUYER_DISCOM" || role == "SELLER_DISCOM"
  }

  /** The two actions the recorder handles. */
  predicate IsValidAction(action: string) {
    action == ActionOnConfirm || action == ActionOnStatus
  }

  /** isValidRole's lookup table; a missing key reads as false, Go's zero value. */
  const ValidRoles: map<string, bool> :=
    map["BUYER" := true, "SELLER" := true, "BUYER_DISCOM" := true, "SELLER_DISCOM" := true]

  /** isValidAction's lookup table. */
  const ValidActions: map<string, bool> := map[ActionOnConfirm := true, ActionOnStatus := true]

  /** Looking a role up in the table answers IsValidRole. */
  lemma RoleTableLookup(role: string)
    ensures (role in ValidRoles && ValidRoles[role]) <==> IsValidRole(role)
  {
  }

  /** Looking an action up in the table answers IsValidAction. */
  lemma ActionTableLookup(action: string)
    ensures (action in ValidActions && ValidActions[action]) <==> IsValidAction(action)
  {
  }

  // ---------------------------------------------------------------------------
  // The configuration map and the environment
  // ---------------------------------------------------------------------------

  /** The keys ParseConfig reads from the configuration map; every other key is ignored. */
  datatype Key =
    | LedgerHost | Role | Actions | Enabled | AsyncTimeout | RetryCount | APIKey | AuthHeader
    | DebugLogging | SigningPrivateKey | SubscriberId | NetworkParticipant | UniqueKeyId | KeyId
    | SignatureValiditySeconds

  /** The spelling of each key in the configuration map. */
  function KeyName(k: Key): string {
    match k
    case LedgerHost => "ledgerHost"
    case Role => "role"
    case Actions => "actions"
    case Enabled => "enabled"
    case AsyncTimeout => "asyncTimeout"
    case RetryCount => "retryCount"
    case APIKey => "apiKey"
    case AuthHeader => "authHeader"
    case DebugLogging => "debugLogging"
    case SigningPrivateKey => "signingPrivateKey"
    case SubscriberId => "subscriberId"
    case NetworkParticipant => "networkParticipant"
    case UniqueKeyId => "uniqueKeyId"
    case KeyId => "keyId"
    case SignatureValiditySeconds => "signatureValiditySeconds"
  }

  /** The environment variables consulted for the signing identity. */
  datatype EnvVar = SigningPrivateKeyVar | SubscriberIDVar | UniqueKeyIDVar

  /** The variable's name in the process environment. */
  function EnvName(v: EnvVar): string {
    match v
    case SigningPrivateKeyVar => EnvSigningPrivateKey
    case SubscriberIDVar => EnvSubscriberID
    case UniqueKeyIDVar => EnvUniqueKeyID
  }

  /** os.Getenv: the empty string for an unset variable. */
  function Getenv(env: map<EnvVar, string>, v: EnvVar): string {
    if v in env then env[v] else ""
  }

  // ---------------------------------------------------------------------------
  // The outcome of ParseConfig, stated field by field
  // ---------------------------------------------------------------------------

  /** A key that is present with a non-empty value. */
  predicate IsSet(cfg: map<Key, string>, key: Key) {
    key in cfg && cfg[key] != ""
  }

  /** The value of a key that is set, or `default`. */
  function SettingOr(cfg: map<Key, string>, key: Key, default: string): string {
    if IsSet(cfg, key) then cfg[key] else default
  }

  /** The boolean reading of a flag value: exactly "true" or "1". */
  predicate IsTruthy(v: string) {
    v == "true" || v == "1"
  }

  /** A present, non-empty value that Atoi rejects. */
  predicate BadInt(cfg: map<Key, string>, key: Key) {
    IsSet(cfg, key) && Atoi(cfg[key]).None?
  }

  /** The integer a key supplies, or `default` when it is absent or empty. */
  function IntSetting(cfg: map<Key, string>, key: Key, default: int): int
    requires !BadInt(cfg, key)
  {
    if IsSet(cfg, key) then Atoi(cfg[key]).value else default
  }

  /** One piece of a comma-separated list: its trimmed text, or nothing when that is empty. */
  function Entry(piece: string): (e: seq<string>)
    ensures |e| <= 1 && (forall a :: a in e ==> a != "")
  {
    var a := TrimSpace(piece);
    if a == "" then [] else [a]
  }

  /** The trimmed, non-empty pieces of a comma-separated list, in order. */
  function ActionEntries(pieces: seq<string>): seq<string> {
    if pieces == [] then [] else Entry(pieces[0]) + ActionEntries(pieces[1..])
  }

  /** The first entry that is not a supported action, if any. */
  function FirstInvalidAction(entries: seq<string>): Option<string> {
    if entries == [] then None
    else if !IsValidAction(entries[0]) then Some(entries[0])
    else FirstInvalidAction(entries[1..])
  }

  /** The entries of the `actions` setting. */
  function ConfiguredActions(list: string): seq<string> {
    ActionEntries(Split(list, ','))
  }

  /** The value of `primary` if set, else that of `alias` if set, else "". */
  function AliasedSetting(cfg: map<Key, string>, primary: Key, alias: Key): string {
    SettingOr(cfg, primary, SettingOr(cfg, alias, ""))
  }

  /** A field that is still empty after the configuration map takes the environment's value. */
  function WithEnvFallback(explicit: string, env: map<EnvVar, string>, v: EnvVar): string {
    if explicit == "" then Getenv(env, v) else explicit
  }

  /** Whether the environment supplied a field the configuration map left empty. */
  predicate FromEnv(explicit: string, env: map<EnvVar, string>, v: EnvVar) {
    explicit == "" && Getenv(env, v) != ""
  }

  /** No integer setting is malformed. */
  predicate IntsWellFormed(cfg: map<Key, string>) {
    !BadInt(cfg, AsyncTimeout) && !BadInt(cfg, RetryCount) && !BadInt(cfg, SignatureValiditySeconds)
  }

  /** The configuration the map alone yields, before the environment fallback. */
  function ExplicitConfig(cfg: map<Key, string>): Config
    requires IntsWellFormed(cfg)
  {
    var d := DefaultConfig();
    Config(
      ledgerHost := SettingOr(cfg, LedgerHost, d.ledgerHost),
      role := SettingOr(cfg, Role, d.role),
      actions := if IsSet(cfg, Actions) then ConfiguredActions(cfg[Actions]) else d.actions,
      enabled := if Enabled in cfg then IsTruthy(cfg[Enabled]) else d.enabled,
      asyncTimeout :=
        if IsSet(cfg, AsyncTimeout) then Milliseconds(IntSetting(cfg, AsyncTimeout, 0))
        else d.asyncTimeout,
      retryCount := IntSetting(cfg, RetryCount, d.retryCount),
      apiKey := if APIKey in cfg then cfg[APIKey] else d.apiKey,
      authHeader := SettingOr(cfg, AuthHeader, d.authHeader),
      debugLogging := if DebugLogging in cfg then IsTruthy(cfg[DebugLogging]) else d.debugLogging,
      signingPrivateKey := SettingOr(cfg, SigningPrivateKey, d.signingPrivateKey),
      subscriberID := AliasedSetting(cfg, SubscriberId, NetworkParticipant),
      uniqueKeyID := AliasedSetting(cfg, UniqueKeyId, KeyId),
      signatureValiditySeconds := IntSetting(cfg, SignatureValiditySeconds, d.signatureValiditySeconds),
      signingFromEnv := d.signingFromEnv)
  }

  /** Fills each empty signing field from its environment variable, noting whether any was used. */
  function WithEnvironment(c: Config, env: map<EnvVar, string>): Config {
    c.(signingPrivateKey := WithEnvFallback(c.signingPrivateKey, env, SigningPrivateKeyVar),
       subscriberID := WithEnvFallback(c.subscriberID, env, SubscriberIDVar),
       uniqueKeyID := WithEnvFallback(c.uniqueKeyID, env, UniqueKeyIDVar),
       signingFromEnv :=
         FromEnv(c.signingPrivateKey, env, SigningPrivateKeyVar) || FromEnv(c.subscriberID, env, SubscriberIDVar)
         || FromEnv(c.uniqueKeyID, env, UniqueKeyIDVar))
  }

  /** The configuration ParseConfig builds when no check fails. */
  function ResolvedConfig(cfg: map<Key, string>, env: map<EnvVar, string>): Config
    requires IntsWellFormed(cfg)
  {
    WithEnvironment(ExplicitConfig(cfg), env)
  }

  /** The error of the all-or-nothing signing check, naming the first missing field. */
  function SigningGap(c: Config): Option<ConfigError> {
    if c.signingPrivateKey == "" && c.subscriberID == "" && c.uniqueKeyID == "" then None
    else if c.signingPrivateKey == "" then Some(MissingSigningPrivateKey)
    else if c.subscriberID == "" then Some(MissingSubscriberID)
    else if c.uniqueKeyID == "" then Some(MissingUniqueKeyID)
    else None
  }

  /** The first check on the map's values that fails, in the order the source makes them. */
  function SettingsError(cfg: map<Key, string>): (r: Option<ConfigError>)
    ensures r.None? ==> IntsWellFormed(cfg)
  {
    if !IsSet(cfg, LedgerHost) then Some(MissingLedgerHost)
    else if IsSet(cfg, Role) && !IsValidRole(cfg[Role]) then Some(InvalidRole(cfg[Role]))
    else if IsSet(cfg, Actions) && FirstInvalidAction(ConfiguredActions(cfg[Actions])).Some? then
      Some(InvalidAction(FirstInvalidAction(ConfiguredActions(cfg[Actions])).value))
    else if BadInt(cfg, AsyncTimeout) then Some(InvalidAsyncTimeout(cfg[AsyncTimeout]))
    else if BadInt(cfg, RetryCount) then Some(InvalidRetryCount(cfg[RetryCount]))
    else if BadInt(cfg, SignatureValiditySeconds) then
      Some(InvalidSignatureValidity(cfg[SignatureValiditySeconds]))
    else None
  }

  /** The final all-or-nothing check on a resolved configuration. */
  function CheckSigning(c: Config): Result<Config, ConfigError> {
    if SigningGap(c).Some? then Failure(SigningGap(c).value) else Success(c)
  }

  /** What ParseConfig returns: the first failing check, or the resolved configuration. */
  function ParseOutcome(cfg: map<Key, string>, env: map<EnvVar, string>): Result<Config, ConfigError> {
    match SettingsError(cfg)
    case Some(e) => Failure(e)
    case None => CheckSigning(ResolvedConfig(cfg, env))
  }

  // ---------------------------------------------------------------------------
  // ParseConfig
  // ---------------------------------------------------------------------------

  /**
   * The `actions` block of ParseConfig: split on commas, trim each piece, skip
   * empty pieces and stop at the first unsupported action.
   */
  method ParseActionList(list: string) returns (r: Result<seq<string>, ConfigError>)
    ensures r.Success? <==> FirstInvalidAction(ConfiguredActions(list)).None?
    ensures r.Success? ==> r.value == ConfiguredActions(list)
    ensures r.Failure? ==> r.error == InvalidAction(FirstInvalidAction(ConfiguredActions(list)).value)
  {
    var actionList := Split(list, ',');
    var actions: seq<string> := [];
    for i := 0 to |actionList|
      invariant actions == ActionEntries(actionList[..i])
      invariant FirstInvalidAction(actions).None?
    {
      var action := TrimSpace(actionList[i]);
      if action != "" {
        if !IsValidAction(action) {
          EntriesAt(actionList, i);
          InvalidEntryIsFirst(actions, [action], ActionEntries(actionList[i + 1..]));
          return Failure(InvalidAction(action));
        }
        ActionStep(actionList, i, actions, [action]);
        actions := actions + [action];
      } else {
        EntriesGrow(actionList, i);
      }
    }
    assert actionList[..|actionList|] == actionList;
    return Success(actions);
  }

  /** The `if v, ok := cfg[key]; ok && v != ""` lookup: the value when present and non-empty. */
  method ReadSetting(cfg: map<Key, string>, key: Key, current: string) returns (v: string)
    ensures v == SettingOr(cfg, key, current)
  {
    v := current;
    if key in cfg && cfg[key] != "" {
      v := cfg[key];
    }
  }

  /** A flag key: when present, true exactly for "true" or "1"; when absent, unchanged. */
  method ReadFlag(cfg: map<Key, string>, key: Key, current: bool) returns (v: bool)
    ensures v == if key in cfg then IsTruthy(cfg[key]) else current
  {
    v := current;
    if key in cfg {
      var text := cfg[key];
      v := text == "true" || text == "1";
    }
  }

  /**
   * An integer key read with strconv.Atoi: `bad` when present, non-empty and
   * malformed; otherwise the number it supplies, or `current` when it is unset.
   */
  method ReadInt(cfg: map<Key, string>, key: Key, current: int) returns (bad: bool, n: int)
    ensures bad <==> BadInt(cfg, key)
    ensures !bad ==> n == IntSetting(cfg, key, current)
  {
    bad, n := false, current;
    if key in cfg && cfg[key] != "" {
      var parsed := Atoi(cfg[key]);
      if parsed.None? {
        return true, current;
      }
      n := parsed.value;
    }
  }

  /** The `actions` key: when present and non-empty, its parsed list; otherwise `current`. */
  method ReadActions(cfg: map<Key, string>, current: seq<string>) returns (r: Result<seq<string>, ConfigError>)
    ensures !IsSet(cfg, Actions) ==> r == Success(current)
    ensures IsSet(cfg, Actions) ==>
      var entries := ConfiguredActions(cfg[Actions]);
      r == if FirstInvalidAction(entries).Some? then Failure(InvalidAction(FirstInvalidAction(entries).value))
           else Success(entries)
  {
    r := Success(current);
    if Actions in cfg && cfg[Actions] != "" {
      r := ParseActionList(cfg[Actions]);
    }
  }

  /** The part of ParseConfig that reads the map: every field but the environment fallback. */
  method ReadSettings(cfg: map<Key, string>) returns (r: Result<Config, ConfigError>)
    ensures SettingsError(cfg).Some? ==> r == Failure(SettingsError(cfg).value)
    ensures SettingsError(cfg).None? ==> r == Success(ExplicitConfig(cfg))
  {
    var config := DefaultConfig();

    var ledgerHost := ReadSetting(cfg, LedgerHost, config.ledgerHost);
    config := config.(ledgerHost := ledgerHost);
    if config.ledgerHost == "" {
      return Failure(MissingLedgerHost);
    }

    if Role in cfg && cfg[Role] != "" && !IsValidRole(cfg[Role]) {
      return Failure(InvalidRole(cfg[Role]));
    }
    var role := ReadSetting(cfg, Role, config.role);
    config := config.(role := role);

    var actions := ReadActions(cfg, config.actions);
    if actions.Failure? {
      return Failure(actions.error);
    }
    config := config.(actions := actions.value);

    var enabled := ReadFlag(cfg, Enabled, config.enabled);
    config := config.(enabled := enabled);

    var badTimeout, ms := ReadInt(cfg, AsyncTimeout, 0);
    if badTimeout {
      return Failure(InvalidAsyncTimeout(cfg[AsyncTimeout]));
    }
    config := config.(asyncTimeout := if IsSet(cfg, AsyncTimeout) then Milliseconds(ms) else config.asyncTimeout);

    var badRetry, count := ReadInt(cfg, RetryCount, config.retryCount);
    if badRetry {
      return Failure(InvalidRetryCount(cfg[RetryCount]));
    }
    config := config.(retryCount := count);

    config := config.(apiKey := if APIKey in cfg then cfg[APIKey] else config.apiKey);
    var authHeader := ReadSetting(cfg, AuthHeader, config.authHeader);
    var debugLogging := ReadFlag(cfg, DebugLogging, config.debugLogging);
    config := config.(authHeader := authHeader, debugLogging := debugLogging);

    // Explicit keys first, then the simplekeymanager-style aliases.
    var signingKey := ReadSetting(cfg, SigningPrivateKey, config.signingPrivateKey);
    var alias := ReadSetting(cfg, NetworkParticipant, config.subscriberID);
    var subscriberID := ReadSetting(cfg, SubscriberId, alias);
    var keyAlias := ReadSetting(cfg, KeyId, config.uniqueKeyID);
    var uniqueKeyID := ReadSetting(cfg, UniqueKeyId, keyAlias);
    config := config.(signingPrivateKey := signingKey, subscriberID := subscriberID, uniqueKeyID := uniqueKeyID);

    var badValidity, seconds := ReadInt(cfg, SignatureValiditySeconds, config.signatureValiditySeconds);
    if badValidity {
      return Failure(InvalidSignatureValidity(cfg[SignatureValiditySeconds]));
    }
    config := config.(signatureValiditySeconds := seconds);
    return Success(config);
  }

  /**
   * ParseConfig: starts from DefaultConfig and overwrites it field by field
   * from the map, stopping at the first invalid value, then fills the signing
   * fields from the environment and applies the all-or-nothing rule. `env`
   * stands for the process environment.
   */
  method ParseConfig(cfg: map<Key, string>, env: map<EnvVar, string>) returns (r: Result<Config, ConfigError>)
    ensures r == ParseOutcome(cfg, env)
  {
    var settings := ReadSettings(cfg);
    if settings.Failure? {
      return Failure(settings.error);
    }
    var config := settings.value;

    // The environment fills whatever is still empty.
    var signingFromEnv := false;
    if config.signingPrivateKey == "" {
      var envVal := Getenv(env, SigningPrivateKeyVar);
      if envVal != "" {
        config := config.(signingPrivateKey := envVal);
        signingFromEnv := true;
      }
    }
    if config.subscriberID == "" {
      var envVal := Getenv(env, SubscriberIDVar);
      if envVal != "" {
        config := config.(subscriberID := envVal);
        signingFromEnv := true;
      }
    }
    if config.uniqueKeyID == "" {
      var envVal := Getenv(env, UniqueKeyIDVar);
      if envVal != "" {
        config := config.(uniqueKeyID := envVal);
        signingFromEnv := true;
      }
    }
    config := config.(signingFromEnv := signingFromEnv);

    var signingConfigured := config.signingPrivateKey != "" || config.subscriberID != "" || config.uniqueKeyID != "";
    if signingConfigured {
      if config.signingPrivateKey == "" {
        return Failure(MissingSigningPrivateKey);
      }
      if config.subscriberID == "" {
        return Failure(MissingSubscriberID);
      }
      if config.uniqueKeyID == "" {
        return Failure(MissingUniqueKeyID);
      }
    }

    return Success(config);
  }

  // ---------------------------------------------------------------------------
  // Lemmas used by ParseConfig's loop
  // ---------------------------------------------------------------------------

  lemma {:induction false} EntriesAppend(xs: seq<string>, ys: seq<string>)
    ensures ActionEntries(xs + ys) == ActionEntries(xs) + ActionEntries(ys)
    decreases |xs|
  {
    if xs != [] {
      assert (xs + ys)[1..] == xs[1..] + ys;
      EntriesAppend(xs[1..], ys);
    } else {
      assert xs + ys == ys;
    }
  }

  /** The entries of a prefix grow by the entry of the next piece. */
  lemma EntriesGrow(pieces: seq<string>, i: nat)
    requires i < |pieces|
    ensures ActionEntries(pieces[..i + 1]) == ActionEntries(pieces[..i]) + Entry(pieces[i])
  {
    assert pieces[..i + 1] == pieces[..i] + [pieces[i]];
    EntriesAppend(pieces[..i], [pieces[i]]);
    assert ActionEntries([pieces[i]]) == Entry(pieces[i]) by {
      assert [pieces[i]][1..] == [];
    }
  }

  /** The entries of the whole are those of a prefix followed by those of the rest. */
  lemma EntriesSplit(pieces: seq<string>, i: nat)
    requires i <= |pieces|
    ensures ActionEntries(pieces) == ActionEntries(pieces[..i]) + ActionEntries(pieces[i..])
  {
    assert pieces == pieces[..i] + pieces[i..];
    EntriesAppend(pieces[..i], pieces[i..]);
  }

  /** How a prefix's entries grow by one piece, and how the whole decomposes at piece i. */
  lemma EntriesAt(pieces: seq<string>, i: nat)
    requires i < |pieces|
    ensures ActionEntries(pieces[..i + 1]) == ActionEntries(pieces[..i]) + Entry(pieces[i])
    ensures ActionEntries(pieces) == ActionEntries(pieces[..i]) + Entry(pieces[i]) + ActionEntries(pieces[i + 1..])
  {
    EntriesGrow(pieces, i);
    EntriesSplit(pieces, i + 1);
  }

  /** One valid iteration of ParseActionList's loop: the prefix grows by the entry of piece i. */
  lemma ActionStep(pieces: seq<string>, i: nat, valid: seq<string>, entry: seq<string>)
    requires i < |pieces| && valid == ActionEntries(pieces[..i]) && entry == Entry(pieces[i])
    requires FirstInvalidAction(valid).None? && |entry| == 1 && IsValidAction(entry[0])
    ensures ActionEntries(pieces[..i + 1]) == valid + entry
    ensures FirstInvalidAction(valid + entry).None?
  {
    EntriesGrow(pieces, i);
    FirstInvalidAfterValid(valid, entry);
  }

  /** An invalid entry after valid ones is the first invalid entry of the whole list. */
  lemma InvalidEntryIsFirst(valid: seq<string>, entry: seq<string>, rest: seq<string>)
    requires FirstInvalidAction(valid).None? && |entry| == 1 && !IsValidAction(entry[0])
    ensures FirstInvalidAction(valid + entry + rest) == Some(entry[0])
  {
    assert valid + entry + rest == valid + (entry + rest) by {
      var lhs, rhs := valid + entry + rest, valid + (entry + rest);
      forall k | 0 <= k < |lhs| ensures lhs[k] == rhs[k] {
      }
    }
    FirstInvalidAfterValid(valid, entry + rest);
    assert (entry + rest)[0] == entry[0];
  }

  lemma {:induction false} FirstInvalidAfterValid(valid: seq<string>, rest: seq<string>)
    requires FirstInvalidAction(valid).None?
    ensures FirstInvalidAction(valid + rest) == FirstInvalidAction(rest)
    decreases |valid|
  {
    if valid == [] {
      assert valid + rest == rest;
    } else {
      assert (valid + rest)[1..] == valid[1..] + rest;
      FirstInvalidAfterValid(valid[1..], rest);
    }
  }
}
