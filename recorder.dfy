/**
 * The DEG ledger recorder step: construction (configuration, then the choice
 * of signing, API-key or no authentication), routing of a request to the
 * on_confirm or on_status handler, and the WaitGroup that counts the
 * fire-and-forget units sending records to the ledger.
 *
 * The request's action and the records the payload parsers and mappers
 * produce arrive as a Request value; the ledger client's answer to a unit
 * arrives as a boolean.
 */
module LedgerRecorder {
  import opened Wrappers
  import opened LedgerConfig
  import opened BecknSigning

  /** A /ledger/put body, one per order item of an on_confirm. */
  datatype LedgerPutRequest = LedgerPutRequest(transactionID: string, orderItemID: string)

  /** A /ledger/record body, one per order item with meter readings of an on_status. */
  datatype LedgerRecordRequest = LedgerRecordRequest(transactionID: string, orderItemID: string)

  /**
   * What Run sees of a request: the action ExtractAction finds, and what
   * ParseOnConfirm + MapToLedgerRecords and ParseOnStatus +
   * MapToLedgerRecordRequests give for its body (None when the body does not
   * parse).
   */
  datatype Request = Request(
    action: string,
    onConfirm: Option<seq<LedgerPutRequest>>,
    onStatus: Option<seq<LedgerRecordRequest>>)

  /** One background send registered with the WaitGroup. */
  datatype Unit = PutUnit(put: LedgerPutRequest) | RecordUnit(record: LedgerRecordRequest)

  /**
   * The authentication branch New takes: a signer was built, the API-key
   * branch, or neither. New hands the configured API key to the ledger client
   * on every branch; which header a request carries is the client's decision.
   */
  datatype AuthMode = SignedAuth(signer: BecknSigner) | APIKeyAuth(apiKey: string) | NoAuth

  datatype RecorderError = ConfigInvalid(config: ConfigError) | SignerFailed(signer: SignerError)

  // ---------------------------------------------------------------------------
  // Construction
  // ---------------------------------------------------------------------------

  /** The three signing fields are all set. */
  predicate SigningConfigured(c: Config) {
    c.signingPrivateKey != "" && c.subscriberID != "" && c.uniqueKeyID != ""
  }

  /**
   * New's authentication branch: a signer when the signing identity is
   * complete (failing if the signer cannot be built), else the API-key branch
   * when a key is set, else the branch with no authentication.
   */
  function SelectAuth(crypto: Crypto, c: Config): (r: Result<AuthMode, RecorderError>)
    ensures r.Failure? <==>
      SigningConfigured(c)
      && NewBecknSigner(crypto, c.subscriberID, c.uniqueKeyID, c.signingPrivateKey, c.signatureValiditySeconds).Failure?
    ensures r.Failure? ==> r.error.SignerFailed?
    ensures r.Success? && r.value.SignedAuth? ==>
      && SigningConfigured(c)
      && IsConfigured(Some(r.value.signer))
      && r.value.signer.subscriberID == c.subscriberID
      && r.value.signer.uniqueKeyID == c.uniqueKeyID
    ensures r.Success? && r.value.APIKeyAuth? ==>
      !SigningConfigured(c) && c.apiKey != "" && r.value.apiKey == c.apiKey
    ensures r.Success? && r.value.NoAuth? ==> !SigningConfigured(c) && c.apiKey == ""
  {
    if SigningConfigured(c) then
      match NewBecknSigner(crypto, c.subscriberID, c.uniqueKeyID, c.signingPrivateKey, c.signatureValiditySeconds)
      case Failure(e) => Failure(SignerFailed(e))
      case Success(s) => Success(SignedAuth(s))
    else if c.apiKey != "" then Success(APIKeyAuth(c.apiKey))
    else Success(NoAuth)
  }

  /** What New yields: the parsed configuration and the authentication, or the first error. */
  function NewOutcome(crypto: Crypto, cfg: map<Key, string>, env: map<EnvVar, string>): Result<(Config, AuthMode), RecorderError> {
    match ParseOutcome(cfg, env)
    case Failure(e) => Failure(ConfigInvalid(e))
    case Success(c) =>
      match SelectAuth(crypto, c)
      case Failure(e) => Failure(e)
      case Success(auth) => Success((c, auth))
  }

  // ---------------------------------------------------------------------------
  // Routing
  // ---------------------------------------------------------------------------

  datatype Route = SkipDisabled | SkipNotEnabled | OnConfirmRoute | OnStatusRoute | SkipNoHandler

  /** Run's decision for an action: disabled plugin, unlisted action, one of the two handlers, or no handler. */
  function RouteOf(c: Config, action: string): (route: Route)
    ensures route == SkipDisabled <==> !c.enabled
    ensures route == SkipNotEnabled <==> c.enabled && action !in c.actions
    ensures route == OnConfirmRoute <==> c.enabled && action in c.actions && action == ActionOnConfirm
    ensures route == OnStatusRoute <==> c.enabled && action in c.actions && action == ActionOnStatus
    ensures route == SkipNoHandler <==> c.enabled && action in c.actions && !IsValidAction(action)
  {
    if !c.enabled then SkipDisabled
    else if action !in c.actions then SkipNotEnabled
    else if action == ActionOnConfirm then OnConfirmRoute
    else if action == ActionOnStatus then OnStatusRoute
    else SkipNoHandler
  }

  function PutUnits(records: seq<LedgerPutRequest>): (units: seq<Unit>)
  {
    seq(|records|, i requires 0 <= i < |records| => PutUnit(records[i]))
  }

  function RecordUnits(records: seq<LedgerRecordRequest>): (units: seq<Unit>)
  {
    seq(|records|, i requires 0 <= i < |records| => RecordUnit(records[i]))
  }

  /** The units a handled request starts, in the order the records come. */
  function SpawnedUnits(c: Config, req: Request): seq<Unit> {
    match RouteOf(c, req.action)
    case OnConfirmRoute =>
      if req.onConfirm.Some? then PutUnits(req.onConfirm.value) else []
    case OnStatusRoute =>
      if c.IsDiscomRole() && req.onStatus.Some? then RecordUnits(req.onStatus.value) else []
    case _ => []
  }

  // ---------------------------------------------------------------------------
  // The recorder
  // ---------------------------------------------------------------------------

  class Recorder {
    const config: Config
    const auth: AuthMode
    /** The WaitGroup counter. */
    var inFlight: nat
    /** The units started and not yet finished, in the order they were started. */
    var pending: seq<Unit>

    /** The counter is the number of unfinished units. */
    predicate Valid()
      reads this
    {
      inFlight == |pending|
    }

    constructor (config: Config, auth: AuthMode)
      ensures this.config == config && this.auth == auth
      ensures inFlight == 0 && pending == []
      ensures Valid()
    {
      this.config := config;
      this.auth := auth;
      inFlight := 0;
      pending := [];
    }

    /** sendPutRecordsAsync: one wg.Add(1) and one started unit per record. */
    method SendPutRecordsAsync(records: seq<LedgerPutRequest>)
      requires Valid()
      modifies this
      ensures Valid()
      ensures pending == old(pending) + PutUnits(records)
      ensures inFlight == old(inFlight) + |records|
    {
      for i := 0 to |records|
        invariant Valid()
        invariant pending == old(pending) + PutUnits(records[..i])
      {
        assert PutUnits(records[..i + 1]) == PutUnits(records[..i]) + [PutUnit(records[i])];
        inFlight := inFlight + 1;
        pending := pending + [PutUnit(records[i])];
      }
      assert records[..|records|] == records;
    }

    /** sendRecordActualsAsync: one wg.Add(1) and one started unit per record. */
    method SendRecordActualsAsync(records: seq<LedgerRecordRequest>)
      requires Valid()
      modifies this
      ensures Valid()
      ensures pending == old(pending) + RecordUnits(records)
      ensures inFlight == old(inFlight) + |records|
    {
      for i := 0 to |records|
        invariant Valid()
        invariant pending == old(pending) + RecordUnits(records[..i])
      {
        assert RecordUnits(records[..i + 1]) == RecordUnits(records[..i]) + [RecordUnit(records[i])];
        inFlight := inFlight + 1;
        pending := pending + [RecordUnit(records[i])];
      }
      assert records[..|records|] == records;
    }

    /**
     * The body of one started unit, the i-th unfinished one, given whether the
     * ledger client delivered its record: on both paths the deferred wg.Done()
     * finishes it.
     */
    method RunUnit(i: nat, delivered: bool)
      requires Valid() && i < |pending|
      modifies this
      ensures Valid()
      ensures pending == old(pending[..i] + pending[i + 1..])
      ensures inFlight == old(inFlight) - 1
    {
      if !delivered {
        inFlight := inFlight - 1;
        pending := pending[..i] + pending[i + 1..];
        return;
      }
      inFlight := inFlight - 1;
      pending := pending[..i] + pending[i + 1..];
    }

    /**
     * Close's wg.Wait(), run sequentially: every unfinished unit runs to its
     * end (with the client's answer from `delivered`), after which the counter
     * is zero.
     */
    method Close(delivered: seq<bool>)
      requires Valid() && |delivered| == |pending|
      modifies this
      ensures Valid()
      ensures inFlight == 0 && pending == []
    {
      var k := 0;
      while pending != []
        invariant Valid()
        invariant k + |pending| == |delivered|
        decreases |pending|
      {
        RunUnit(0, delivered[k]);
        k := k + 1;
      }
    }

    /** handleOnConfirm: nothing is sent for a body that does not parse or maps to no records. */
    method HandleOnConfirm(parsed: Option<seq<LedgerPutRequest>>) returns (err: Option<string>)
      requires Valid()
      modifies this
      ensures Valid() && err.None?
      ensures pending == old(pending) + (if parsed.Some? then PutUnits(parsed.value) else [])
    {
      if parsed.None? {
        return None;
      }
      var records := parsed.value;
      if |records| == 0 {
        return None;
      }
      SendPutRecordsAsync(records);
      return None;
    }

    /**
     * handleOnStatus: only the discom roles may record actuals, checked before
     * the body is looked at; nothing is sent for a body that does not parse or
     * maps to no records.
     */
    method HandleOnStatus(parsed: Option<seq<LedgerRecordRequest>>) returns (err: Option<string>)
      requires Valid()
      modifies this
      ensures Valid() && err.None?
      ensures pending == old(pending) + (if config.IsDiscomRole() && parsed.Some? then RecordUnits(parsed.value) else [])
    {
      if !config.IsDiscomRole() {
        return None;
      }
      if parsed.None? {
        return None;
      }
      var records := parsed.value;
      if |records| == 0 {
        return None;
      }
      SendRecordActualsAsync(records);
      return None;
    }

    /** Run: always returns nil; starts exactly the units SpawnedUnits names. */
    method Run(req: Request) returns (err: Option<string>)
      requires Valid()
      modifies this
      ensures Valid() && err.None?
      ensures pending == old(pending) + SpawnedUnits(config, req)
      ensures inFlight == old(inFlight) + |SpawnedUnits(config, req)|
    {
      if !config.enabled {
        return None;
      }
      var enabled := config.IsActionEnabled(req.action);
      if !enabled {
        return None;
      }
      if req.action == ActionOnConfirm {
        err := HandleOnConfirm(req.onConfirm);
      } else if req.action == ActionOnStatus {
        err := HandleOnStatus(req.onStatus);
      } else {
        err := None;
      }
    }
  }

  /** New: parses the configuration, chooses the authentication and starts with no unit in flight. */
  method New(crypto: Crypto, cfg: map<Key, string>, env: map<EnvVar, string>) returns (r: Result<Recorder, RecorderError>)
    ensures NewOutcome(crypto, cfg, env).Failure? ==> r.Failure? && r.error == NewOutcome(crypto, cfg, env).error
    ensures NewOutcome(crypto, cfg, env).Success? ==>
      && r.Success? && fresh(r.value)
      && r.value.config == NewOutcome(crypto, cfg, env).value.0
      && r.value.auth == NewOutcome(crypto, cfg, env).value.1
      && r.value.inFlight == 0 && r.value.pending == [] && r.value.Valid()
  {
    var parsed := ParseConfig(cfg, env);
    if parsed.Failure? {
      return Failure(ConfigInvalid(parsed.error));
    }
    var config := parsed.value;
    var auth: AuthMode;
    if config.signingPrivateKey != "" && config.subscriberID != "" && config.uniqueKeyID != "" {
      var signer := NewBecknSigner(crypto, config.subscriberID, config.uniqueKeyID,
                                   config.signingPrivateKey, config.signatureValiditySeconds);
      if signer.Failure? {
        return Failure(SignerFailed(signer.error));
      }
      auth := SignedAuth(signer.value);
    } else if config.apiKey != "" {
      auth := APIKeyAuth(config.apiKey);
    } else {
      auth := NoAuth;
    }
    var recorder := new Recorder(config, auth);
    return Success(recorder);
  }

  // ---------------------------------------------------------------------------
  // Properties
  // ---------------------------------------------------------------------------

  /** A configuration error makes New fail with that error, before any signer is built. */
  lemma NewRejectsBadConfig(crypto: Crypto, cfg: map<Key, string>, env: map<EnvVar, string>)
    ensures ParseOutcome(cfg, env).Failure? ==>
      NewOutcome(crypto, cfg, env) == Failure(ConfigInvalid(ParseOutcome(cfg, env).error))
  {
  }

  /**
   * For a parsed configuration, a signer is used exactly when a signing key is
   * set (and then it carries the configured identity), the API key exactly
   * when no key is set and an API key is; New fails after parsing only when
   * the signer cannot be built.
   */
  lemma AuthSelection(crypto: Crypto, cfg: map<Key, string>, env: map<EnvVar, string>)
    requires ParseOutcome(cfg, env).Success?
    ensures
      var c := ParseOutcome(cfg, env).value;
      var n := NewBecknSigner(crypto, c.subscriberID, c.uniqueKeyID, c.signingPrivateKey, c.signatureValiditySeconds);
      && (NewOutcome(crypto, cfg, env).Failure? <==> c.signingPrivateKey != "" && n.Failure?)
      && (NewOutcome(crypto, cfg, env).Failure? ==> NewOutcome(crypto, cfg, env).error == SignerFailed(n.error))
      && (NewOutcome(crypto, cfg, env).Success? ==>
           && NewOutcome(crypto, cfg, env).value.0 == c
           && (NewOutcome(crypto, cfg, env).value.1.SignedAuth? <==> c.signingPrivateKey != "")
           && (NewOutcome(crypto, cfg, env).value.1.APIKeyAuth? <==> c.signingPrivateKey == "" && c.apiKey != "")
           && (NewOutcome(crypto, cfg, env).value.1.SignedAuth? ==>
                && IsConfigured(Some(NewOutcome(crypto, cfg, env).value.1.signer))
                && NewOutcome(crypto, cfg, env).value.1.signer.subscriberID == c.subscriberID
                && NewOutcome(crypto, cfg, env).value.1.signer.uniqueKeyID == c.uniqueKeyID))
  {
    var c := ParseOutcome(cfg, env).value;
    ParsedSigningAllOrNothing(cfg, env);
    ConstructedSignerIsConfigured(crypto, c.subscriberID, c.uniqueKeyID, c.signingPrivateKey, c.signatureValiditySeconds);
    NewSignerAccepts(crypto, c.subscriberID, c.uniqueKeyID, c.signingPrivateKey, c.signatureValiditySeconds);
  }

  /** An accepted configuration has all three signing fields or none. */
  lemma ParsedSigningAllOrNothing(cfg: map<Key, string>, env: map<EnvVar, string>)
    requires ParseOutcome(cfg, env).Success?
    ensures ParseOutcome(cfg, env).value.SigningAllOrNothing()
  {
  }

  /** New takes the signing branch whenever the identity is complete, even when an API key is set. */
  lemma SigningBeatsAPIKey(crypto: Crypto, c: Config)
    requires SigningConfigured(c) && c.apiKey != ""
    ensures SelectAuth(crypto, c).Success? ==> SelectAuth(crypto, c).value.SignedAuth?
  {
  }

  /** A disabled recorder starts nothing, whatever the request. */
  lemma DisabledSpawnsNothing(c: Config, req: Request)
    requires !c.enabled
    ensures SpawnedUnits(c, req) == []
  {
  }

  /** An action outside the configured list starts nothing. */
  lemma UnlistedActionSpawnsNothing(c: Config, req: Request)
    requires req.action !in c.actions
    ensures SpawnedUnits(c, req) == []
  {
  }

  /** Only an enabled on_confirm or on_status reaches a handler. */
  lemma RoutesOnlyListedActions(c: Config, action: string)
    ensures RouteOf(c, action) == OnConfirmRoute <==> c.enabled && action == ActionOnConfirm && action in c.actions
    ensures RouteOf(c, action) == OnStatusRoute <==> c.enabled && action == ActionOnStatus && action in c.actions
  {
  }

  /** on_status under a non-discom role starts nothing, whatever its body. */
  lemma StatusNeedsDiscomRole(c: Config, req: Request)
    requires req.action == ActionOnStatus && !c.IsDiscomRole()
    ensures SpawnedUnits(c, req) == []
  {
  }

  /**
   * A handled request starts one unit per mapped record, each for that
   * record in the same position, and starts units only on the two handled
   * routes.
   */
  lemma OneUnitPerRecord(c: Config, req: Request)
    ensures RouteOf(c, req.action) == OnConfirmRoute && req.onConfirm.Some? ==>
      && |SpawnedUnits(c, req)| == |req.onConfirm.value|
      && forall i :: 0 <= i < |req.onConfirm.value| ==> SpawnedUnits(c, req)[i] == PutUnit(req.onConfirm.value[i])
    ensures RouteOf(c, req.action) == OnStatusRoute && c.IsDiscomRole() && req.onStatus.Some? ==>
      && |SpawnedUnits(c, req)| == |req.onStatus.value|
      && forall i :: 0 <= i < |req.onStatus.value| ==> SpawnedUnits(c, req)[i] == RecordUnit(req.onStatus.value[i])
    ensures SpawnedUnits(c, req) != [] ==> RouteOf(c, req.action) in {OnConfirmRoute, OnStatusRoute}
  {
  }
}
