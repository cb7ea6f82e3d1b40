/**
 * What ParseConfig promises, stated over its outcome: each configuration key's
 * rule, the order of the checks, the precedence of aliases and environment
 * variables, and the all-or-nothing rule for the signing identity.
 */
module ConfigProperties {
  import opened Wrappers
  import opened GoText
  import opened LedgerConfig

  // ---------------------------------------------------------------------------
  // Keys and the action list
  // ---------------------------------------------------------------------------

  /** No two keys share a spelling, so a map keyed by Key loses nothing of the string map. */
  lemma KeyNamesDistinct(a: Key, b: Key)
    ensures KeyName(a) == KeyName(b) ==> a == b
  {
    if KeyName(a) == KeyName(b) {
      var n := KeyName(a);
      assert |n| == |KeyName(b)|;
      assert n[0] == KeyName(b)[0];
      if |n| > 1 {
        assert n[1] == KeyName(b)[1];
      }
      if |n| > 2 {
        assert n[2] == KeyName(b)[2];
      }
    }
  }

  /** FirstInvalidAction finds an unsupported entry exactly when there is one. */
  lemma {:induction false} FirstInvalidActionSpec(entries: seq<string>)
    ensures FirstInvalidAction(entries).None? <==> forall a :: a in entries ==> IsValidAction(a)
    ensures FirstInvalidAction(entries).Some? ==>
      FirstInvalidAction(entries).value in entries && !IsValidAction(FirstInvalidAction(entries).value)
  {
    if entries != [] {
      FirstInvalidActionSpec(entries[1..]);
      assert forall a :: a in entries <==> a == entries[0] || a in entries[1..];
    }
  }

  /** Every entry of a parsed list is non-empty and already trimmed. */
  lemma {:induction false} ActionEntriesTrimmed(pieces: seq<string>)
    ensures forall a :: a in ActionEntries(pieces) ==> a != "" && TrimSpace(a) == a
    decreases |pieces|
  {
    if pieces != [] {
      ActionEntriesTrimmed(pieces[1..]);
      TrimSpaceIdempotent(pieces[0]);
      assert ActionEntries(pieces) == Entry(pieces[0]) + ActionEntries(pieces[1..]);
    }
  }

  /** No two environment variables share a name, so a map keyed by EnvVar loses nothing of os.Getenv. */
  lemma EnvNamesDistinct(a: EnvVar, b: EnvVar)
    ensures EnvName(a) == EnvName(b) ==> a == b
  {
    if EnvName(a) == EnvName(b) {
      assert EnvName(a)[1] == EnvName(b)[1];
    }
  }

  /** Pieces that are already trimmed and non-empty are their own entries. */
  lemma {:induction false} ActionEntriesOfTrimmed(xs: seq<string>)
    requires forall i :: 0 <= i < |xs| ==> xs[i] != "" && TrimSpace(xs[i]) == xs[i]
    ensures ActionEntries(xs) == xs
    decreases |xs|
  {
    if xs != [] {
      assert ActionEntries(xs) == Entry(xs[0]) + ActionEntries(xs[1..]);
      ActionEntriesOfTrimmed(xs[1..]);
      assert Entry(xs[0]) == [xs[0]];
      assert [xs[0]] + xs[1..] == xs;
    }
  }

  /**
   * Writing trimmed, comma-free actions as a comma-separated list and parsing
   * the list gives the actions back, in order.
   */
  lemma ActionListRoundTrip(xs: seq<string>)
    requires |xs| >= 1
    requires forall i :: 0 <= i < |xs| ==> xs[i] != "" && TrimSpace(xs[i]) == xs[i] && ',' !in xs[i]
    ensures ConfiguredActions(Join(xs, ',')) == xs
  {
    SplitJoin(xs, ',');
    ActionEntriesOfTrimmed(xs);
  }

  // ---------------------------------------------------------------------------
  // The rule for each key
  // ---------------------------------------------------------------------------

  /** A missing or empty ledgerHost is rejected first; an accepted configuration has the map's host. */
  lemma LedgerHostRequired(cfg: map<Key, string>, env: map<EnvVar, string>)
    ensures !IsSet(cfg, LedgerHost) ==> ParseOutcome(cfg, env) == Failure(MissingLedgerHost)
    ensures ParseOutcome(cfg, env).Success? ==>
      IsSet(cfg, LedgerHost) && ParseOutcome(cfg, env).value.ledgerHost == cfg[LedgerHost]
  {
  }

  /** A set role outside the four known ones is rejected; an unset role leaves "BUYER". */
  lemma RoleRule(cfg: map<Key, string>, env: map<EnvVar, string>)
    ensures IsSet(cfg, LedgerHost) && IsSet(cfg, Role) && !IsValidRole(cfg[Role]) ==>
      ParseOutcome(cfg, env) == Failure(InvalidRole(cfg[Role]))
    ensures ParseOutcome(cfg, env).Success? ==>
      ParseOutcome(cfg, env).value.role == SettingOr(cfg, Role, "BUYER")
      && IsValidRole(ParseOutcome(cfg, env).value.role)
  {
  }

  /**
   * A set action list becomes exactly its trimmed, non-empty entries, in order;
   * any unsupported entry is rejected, naming the first one; an unset list
   * leaves ["on_confirm"].
   */
  lemma ActionsRule(cfg: map<Key, string>, env: map<EnvVar, string>)
    ensures ParseOutcome(cfg, env).Success? ==>
      ParseOutcome(cfg, env).value.actions ==
        (if IsSet(cfg, Actions) then ConfiguredActions(cfg[Actions]) else [ActionOnConfirm])
    ensures
      (&& IsSet(cfg, LedgerHost) && !(IsSet(cfg, Role) && !IsValidRole(cfg[Role])) && IsSet(cfg, Actions)
       && (exists a :: a in ConfiguredActions(cfg[Actions]) && !IsValidAction(a))) ==>
      && ParseOutcome(cfg, env).Failure?
      && ParseOutcome(cfg, env).error.InvalidAction?
      && ParseOutcome(cfg, env).error.action in ConfiguredActions(cfg[Actions])
      && !IsValidAction(ParseOutcome(cfg, env).error.action)
  {
    if IsSet(cfg, Actions) {
      FirstInvalidActionSpec(ConfiguredActions(cfg[Actions]));
    }
  }

  /** enabled and debugLogging: when the key is present, true exactly for "true" or "1"; else the default. */
  lemma FlagRule(cfg: map<Key, string>, env: map<EnvVar, string>)
    ensures ParseOutcome(cfg, env).Success? ==>
      && (ParseOutcome(cfg, env).value.enabled <==> Enabled !in cfg || cfg[Enabled] == "true" || cfg[Enabled] == "1")
      && (ParseOutcome(cfg, env).value.debugLogging <==>
           DebugLogging in cfg && (cfg[DebugLogging] == "true" || cfg[DebugLogging] == "1"))
  {
  }

  /**
   * A set integer key that strconv.Atoi rejects always makes ParseConfig fail;
   * on success each integer field is the parsed value (asyncTimeout in
   * milliseconds) or its default.
   */
  lemma IntegerRule(cfg: map<Key, string>, env: map<EnvVar, string>)
    ensures BadInt(cfg, AsyncTimeout) || BadInt(cfg, RetryCount) || BadInt(cfg, SignatureValiditySeconds) ==>
      ParseOutcome(cfg, env).Failure?
    ensures ParseOutcome(cfg, env).Success? ==>
      && (ParseOutcome(cfg, env).value.asyncTimeout ==
           if IsSet(cfg, AsyncTimeout) then Atoi(cfg[AsyncTimeout]).value * Millisecond else 5 * Second)
      && (ParseOutcome(cfg, env).value.retryCount ==
           if IsSet(cfg, RetryCount) then Atoi(cfg[RetryCount]).value else 0)
      && (ParseOutcome(cfg, env).value.signatureValiditySeconds ==
           if IsSet(cfg, SignatureValiditySeconds) then Atoi(cfg[SignatureValiditySeconds]).value else 30)
  {
  }

  /**
   * Explicit keys win over their simplekeymanager aliases, which win over the
   * environment; SigningFromEnv records whether any field came from the
   * environment.
   */
  lemma SigningSourcePrecedence(cfg: map<Key, string>, env: map<EnvVar, string>)
    ensures ParseOutcome(cfg, env).Success? ==>
      var c := ParseOutcome(cfg, env).value;
      && c.signingPrivateKey == SettingOr(cfg, SigningPrivateKey, Getenv(env, SigningPrivateKeyVar))
      && c.subscriberID ==
           SettingOr(cfg, SubscriberId, SettingOr(cfg, NetworkParticipant, Getenv(env, SubscriberIDVar)))
      && c.uniqueKeyID == SettingOr(cfg, UniqueKeyId, SettingOr(cfg, KeyId, Getenv(env, UniqueKeyIDVar)))
      && (c.signingFromEnv <==>
           (!IsSet(cfg, SigningPrivateKey) && Getenv(env, SigningPrivateKeyVar) != "")
           || (!IsSet(cfg, SubscriberId) && !IsSet(cfg, NetworkParticipant) && Getenv(env, SubscriberIDVar) != "")
           || (!IsSet(cfg, UniqueKeyId) && !IsSet(cfg, KeyId) && Getenv(env, UniqueKeyIDVar) != ""))
  {
  }

  /**
   * Once the map's values pass, a partly configured signing identity is
   * rejected, naming the first missing field in the order key, subscriber,
   * unique key.
   */
  lemma SigningAllOrNothingRule(cfg: map<Key, string>, env: map<EnvVar, string>)
    requires SettingsError(cfg).None?
    ensures var c := ResolvedConfig(cfg, env);
      && (c.SigningAllOrNothing() <==> ParseOutcome(cfg, env).Success?)
      && (!c.SigningAllOrNothing() && c.signingPrivateKey == "" ==>
           ParseOutcome(cfg, env) == Failure(MissingSigningPrivateKey))
      && (!c.SigningAllOrNothing() && c.signingPrivateKey != "" && c.subscriberID == "" ==>
           ParseOutcome(cfg, env) == Failure(MissingSubscriberID))
      && (!c.SigningAllOrNothing() && c.signingPrivateKey != "" && c.subscriberID != "" ==>
           ParseOutcome(cfg, env) == Failure(MissingUniqueKeyID))
  {
  }

  /** Every configuration ParseConfig accepts satisfies Config.Valid. */
  lemma ParsedConfigIsValid(cfg: map<Key, string>, env: map<EnvVar, string>)
    ensures ParseOutcome(cfg, env).Success? ==> ParseOutcome(cfg, env).value.Valid()
  {
    if SettingsError(cfg).None? {
      ExplicitActionsValid(cfg);
      assert ResolvedConfig(cfg, env).actions == ExplicitConfig(cfg).actions;
    }
  }

  /** Once the settings pass, every action is supported and non-empty. */
  lemma ExplicitActionsValid(cfg: map<Key, string>)
    requires SettingsError(cfg).None?
    ensures forall a :: a in ExplicitConfig(cfg).actions ==> IsValidAction(a) && a != ""
  {
    if IsSet(cfg, Actions) {
      FirstInvalidActionSpec(ConfiguredActions(cfg[Actions]));
      ActionEntriesTrimmed(Split(cfg[Actions], ','));
    }
  }

  /** A map holding only a host yields the defaults with that host. */
  lemma HostOnlyGivesDefaults(host: string)
    requires host != ""
    ensures ParseOutcome(map[LedgerHost := host], map[]) == Success(DefaultConfig().(ledgerHost := host))
  {
  }

  /** The defaults with a non-empty host satisfy Config.Valid. */
  lemma DefaultsWithHostAreValid(host: string)
    requires host != ""
    ensures DefaultConfig().(ledgerHost := host).Valid()
  {
    var c := DefaultConfig().(ledgerHost := host);
    assert forall a :: a in c.actions ==> a == ActionOnConfirm;
  }

  /** retryCount is taken as parsed: every negative count is accepted unchanged. */
  lemma NegativeRetryCountAccepted(n: int, host: string)
    requires MinInt64 <= n < 0 && host != ""
    ensures ParseOutcome(map[LedgerHost := host, RetryCount := FormatInt(n)], map[]).Success?
    ensures ParseOutcome(map[LedgerHost := host, RetryCount := FormatInt(n)], map[]).value.retryCount == n
  {
    AtoiFormatInt(n);
  }

  // ---------------------------------------------------------------------------
  // The role predicates
  // ---------------------------------------------------------------------------

  /** For a known role, the buyer-side and discom predicates together name it exactly. */
  lemma RoleClassification(c: Config)
    requires IsValidRole(c.role)
    ensures c.role ==
      if c.IsBuyerSide() then (if c.IsDiscomRole() then "BUYER_DISCOM" else "BUYER")
      else (if c.IsDiscomRole() then "SELLER_DISCOM" else "SELLER")
  {
  }
}
