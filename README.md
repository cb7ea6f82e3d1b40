# DEG ledger recorder — a Dafny model

The DEG ledger recorder is a step plugin of beckn-onix. After an `on_confirm`
it records the trade on the DEG Ledger (`/ledger/put`). For a discom role, after
an `on_status` it records the meter readings (`/ledger/record`). Each record is
sent by a fire-and-forget unit that a `sync.WaitGroup` counts. Requests to the
ledger are authenticated by a Beckn `Signature` Authorization header
(Ed25519 over a BLAKE2b-512 digest), by an API key, or not at all.

This project models three parts of the plugin:

- `config.dfy` (module `LedgerConfig`) models `plugins/degledgerrecorder/config.go`.
  - `ParseConfig` is an imperative method. It reads the settings one after another, builds the action list in a loop, applies the environment fallback and checks the signing identity.
  - It is proved equal to the specification function `ParseOutcome`.
  - `config_props.dfy` (module `ConfigProperties`) proves what each key's rule promises about that outcome.
- `signer.dfy` (module `BecknSigning`) models `plugins/degledgerrecorder/signer.go` as pure functions.
  - The functions are `NewBecknSigner`, the signing string, `sign`, the header and `IsConfigured`.
  - Parsers for the signing string and the header are proved to be their inverses under three conditions: both timestamps fit in 64 bits, the subscriber and unique key ids contain no `|`, and hashing succeeds. Under those conditions a generated header names exactly the timestamps and the payload digest that its signature covers.
  - `NewBecknSigner` does not reject ids containing `|`. Such a header cannot be read back unambiguously, so the round trip is not claimed for them.
- `recorder.dfy` (module `LedgerRecorder`) models `plugins/degledgerrecorder/recorder.go`.
  - `New`'s authentication branch (signer, API key or none) and `Run`'s routing are functions.
  - The recorder is a class whose `inFlight` field is the WaitGroup counter and whose `pending` field lists the units started and not yet finished.
  - Every method keeps `inFlight == |pending|`.
- `text.dfy` (module `GoText`) defines the Go library behaviour the core relies on: `unicode.IsSpace`, `strings.TrimSpace`, `strings.Split`, `%d` and `strconv.Atoi` on a 64-bit platform.
- `wrappers.dfy` holds `Option` and `Result`.

Two modelling choices follow from how the plugin receives its inputs:

- The configuration map `map[string]string` is a `map<Key, string>`.
  - `Key` has one constructor per key the plugin reads, and `KeyName` gives its spelling. `ConfigProperties.KeyNamesDistinct` proves that no two constructors share a spelling.
  - Keys the plugin does not read are ignored by the source, so they are absent from the model.
- The process environment is a `map<EnvVar, string>`, read through `Getenv`. An unset variable reads as "".

## Model

| member | source | states |
|---|---|---|
| GoText.TrimSpace | plugins/degledgerrecorder/config.go:123 | the trimmed action neither starts nor ends with white space |
| GoText.TrimSpaceSlice | plugins/degledgerrecorder/config.go:123 | the trimmed action is a contiguous slice of the entry, and everything of the entry before and after that slice is white space |
| GoText.TrimSpaceIdempotent | plugins/degledgerrecorder/config.go:123 | trimming an already trimmed entry changes nothing |
| GoText.Split | plugins/degledgerrecorder/config.go:120 | the pieces contain no comma and joined with commas give back the list |
| GoText.SplitJoin | plugins/degledgerrecorder/config.go:120 | splitting a comma-joined list of comma-free pieces returns the pieces |
| GoText.Atoi | plugins/degledgerrecorder/config.go:138 | an accepted integer lies in the 64-bit range |
| GoText.AtoiFormatInt | plugins/degledgerrecorder/config.go:193 | Atoi reads back every 64-bit integer that %d writes |
| GoText.FormatIntRoundTrip | plugins/degledgerrecorder/signer.go:108 | the decimal text %d writes for a timestamp denotes that timestamp |
| LedgerConfig.DefaultConfig | plugins/degledgerrecorder/config.go:82-98 | the defaults have no ledger host, so they are not valid on their own; everything else validity asks for holds: a known role, the non-empty supported action list, an auth header and an empty signing identity; enabled, with positive timeout and validity |
| LedgerConfig.RoleTableLookup | plugins/degledgerrecorder/config.go:244-252 | looking a role up in isValidRole's table (a missing key reading as false) accepts exactly BUYER, SELLER, BUYER_DISCOM and SELLER_DISCOM, the roles IsValidRole names |
| LedgerConfig.ActionTableLookup | plugins/degledgerrecorder/config.go:255-261 | looking an action up in isValidAction's table accepts exactly on_confirm and on_status, the actions IsValidAction names |
| LedgerConfig.Config.IsDiscomRole | plugins/degledgerrecorder/config.go:274-276 | the discom roles are exactly the valid roles other than BUYER and SELLER |
| LedgerConfig.Config.IsBuyerSide | plugins/degledgerrecorder/config.go:279-281 | the buyer-side roles are exactly the valid roles other than SELLER and SELLER_DISCOM |
| LedgerConfig.Config.IsActionEnabled | plugins/degledgerrecorder/config.go:264-271 | the linear search answers true exactly when the action is in the configured list |
| LedgerConfig.Entry | plugins/degledgerrecorder/config.go:123-124 | a piece contributes at most one entry, and never an empty one |
| LedgerConfig.SettingsError | plugins/degledgerrecorder/config.go:104-198 | when no setting is rejected, every integer setting is well formed |
| LedgerConfig.ParseActionList | plugins/degledgerrecorder/config.go:119-131 | the loop succeeds exactly when no trimmed entry is unsupported; it then returns the trimmed non-empty entries in order, and otherwise names the first unsupported one |
| LedgerConfig.ReadSetting | plugins/degledgerrecorder/config.go:157-159 | a present non-empty value replaces the current one |
| LedgerConfig.ReadFlag | plugins/degledgerrecorder/config.go:133-135 | a present flag is true exactly for "true" or "1"; an absent one keeps the current value |
| LedgerConfig.ReadInt | plugins/degledgerrecorder/config.go:137-151 | a present non-empty value is rejected exactly when Atoi rejects it, and otherwise gives its integer |
| LedgerConfig.ReadActions | plugins/degledgerrecorder/config.go:119-131 | an unset list keeps the current actions; a set one gives its entries or the first unsupported entry |
| LedgerConfig.ReadSettings | plugins/degledgerrecorder/config.go:101-198 | the map's settings give the first error in source order, or the configuration they describe |
| LedgerConfig.ParseConfig | plugins/degledgerrecorder/config.go:101-241 | the method's result is the checks in source order followed by the environment fallback and the all-or-nothing rule |
| ConfigProperties.KeyNamesDistinct | plugins/degledgerrecorder/config.go:104-192 | distinct keys have distinct spellings |
| ConfigProperties.EnvNamesDistinct | plugins/degledgerrecorder/config.go:15-19 | the three environment variables SIGNING_PRIVATE_KEY, SUBSCRIBER_ID and UNIQUE_KEY_ID have distinct names |
| ConfigProperties.FirstInvalidActionSpec | plugins/degledgerrecorder/config.go:125-127 | an unsupported entry is reported exactly when one exists, and the reported one is an unsupported entry of the list |
| ConfigProperties.ActionEntriesTrimmed | plugins/degledgerrecorder/config.go:122-129 | every parsed action is non-empty and already trimmed |
| ConfigProperties.ActionEntriesOfTrimmed | plugins/degledgerrecorder/config.go:122-129 | trimmed non-empty pieces are kept as they are, in order |
| ConfigProperties.ActionListRoundTrip | plugins/degledgerrecorder/config.go:119-131 | parsing a comma-joined list of trimmed, comma-free actions gives back those actions |
| ConfigProperties.LedgerHostRequired | plugins/degledgerrecorder/config.go:104-109 | a missing or empty ledgerHost is the first error; an accepted configuration carries the map's host |
| ConfigProperties.RoleRule | plugins/degledgerrecorder/config.go:111-116 | a set unknown role is rejected by name; an accepted role is the set one or "BUYER", and is one of the four roles |
| ConfigProperties.ActionsRule | plugins/degledgerrecorder/config.go:119-131 | accepted actions are the set list's entries or ["on_confirm"]; a list holding an unsupported entry fails naming an unsupported entry of it |
| ConfigProperties.FlagRule | plugins/degledgerrecorder/config.go:133-135 | enabled holds iff the key is absent or "true"/"1"; debugLogging holds iff the key is present and "true"/"1" (also lines 161-163) |
| ConfigProperties.IntegerRule | plugins/degledgerrecorder/config.go:137-151 | any malformed integer setting makes parsing fail; accepted values are the parsed ones (asyncTimeout in ms) or the defaults 5 s, 0 and 30 (also lines 192-198) |
| ConfigProperties.SigningSourcePrecedence | plugins/degledgerrecorder/config.go:174-224 | explicit keys beat their aliases, which beat the environment; signingFromEnv holds iff some field was filled from the environment |
| ConfigProperties.SigningAllOrNothingRule | plugins/degledgerrecorder/config.go:227-238 | once the settings pass, parsing succeeds iff the signing fields are all set or all empty, and otherwise names the first missing one (key, subscriber, unique key) |
| ConfigProperties.ParsedConfigIsValid | plugins/degledgerrecorder/config.go:101-241 | every accepted configuration has a host, a known role, a list of actions each of which is supported and non-empty (the list itself may be empty: `actions: ","` gives []), an auth header and an all-or-nothing signing identity |
| ConfigProperties.HostOnlyGivesDefaults | plugins/degledgerrecorder/config.go:82-98 | a map holding only a host yields the defaults with that host |
| ConfigProperties.DefaultsWithHostAreValid | plugins/degledgerrecorder/config.go:82-98 | the defaults with a host satisfy the validity invariant |
| ConfigProperties.NegativeRetryCountAccepted | plugins/degledgerrecorder/config.go:145-151 | with a host set, every negative 64-bit retryCount written in decimal is accepted unchanged |
| ConfigProperties.RoleClassification | plugins/degledgerrecorder/config.go:274-281 | for a known role, IsBuyerSide and IsDiscomRole together determine it |
| BecknSigning.NewBecknSigner | plugins/degledgerrecorder/signer.go:23-54 | a constructed signer holds a 32-byte seed and a positive validity |
| BecknSigning.NewSignerErrors | plugins/degledgerrecorder/signer.go:24-41 | the checks and their errors in order: subscriber, unique key id, key text, base64, seed length |
| BecknSigning.NewSignerAccepts | plugins/degledgerrecorder/signer.go:23-54 | construction succeeds iff all checks pass; the signer keeps the identity and decoded seed, with validity v when positive and 30 otherwise |
| BecknSigning.IsConfigured | plugins/degledgerrecorder/signer.go:118-120 | a nil signer is never configured, and a signer holding a full 32-byte seed always is |
| BecknSigning.Sign | plugins/degledgerrecorder/signer.go:112-115 | signing never fails: its error result is always nil |
| BecknSigning.ConstructedSignerIsConfigured | plugins/degledgerrecorder/signer.go:118-120 | every constructed signer is configured; a nil signer is not |
| BecknSigning.CreateSigningString | plugins/degledgerrecorder/signer.go:94-109 | building the signing string fails exactly when hashing fails |
| BecknSigning.SigningStringRoundTrip | plugins/degledgerrecorder/signer.go:108 | the signing string reads back as exactly its created, expires and digest |
| BecknSigning.SigningStringInjective | plugins/degledgerrecorder/signer.go:94-108 | different timestamps or digests give different signing strings |
| BecknSigning.AuthHeaderRoundTrip | plugins/degledgerrecorder/signer.go:80-87 | the header reads back as exactly its subscriber, key id, timestamps and signature |
| BecknSigning.HeaderLifetime | plugins/degledgerrecorder/signer.go:59-62 | the generated header reads back as created at now and expiring exactly signatureValidity seconds later, so strictly later |
| BecknSigning.GenerateAuthHeader | plugins/degledgerrecorder/signer.go:59-90 | header generation fails exactly when hashing fails |
| BecknSigning.GeneratedHeaderCoversPayload | plugins/degledgerrecorder/signer.go:59-90 | the header carries the identity, now and its expiry, and the signature over the signing string of those same timestamps and this payload's digest |
| LedgerRecorder.New | plugins/degledgerrecorder/recorder.go:24-74 | New fails with the configuration or signer error, or returns a fresh recorder with the chosen authentication and nothing in flight |
| LedgerRecorder.SelectAuth | plugins/degledgerrecorder/recorder.go:31-54 | the branch fails exactly when a complete signing identity does not give a signer; the signing branch is taken only for a complete identity and its signer carries that identity; the API-key branch only when no identity is complete and the key is set; the no-authentication branch otherwise |
| LedgerRecorder.RouteOf | plugins/degledgerrecorder/recorder.go:80-103 | a disabled recorder skips; an enabled one skips unlisted actions, sends listed on_confirm and on_status to their handlers, and has no handler for any other listed action |
| LedgerRecorder.NewRejectsBadConfig | plugins/degledgerrecorder/recorder.go:25-28 | a configuration error makes New fail with it |
| LedgerRecorder.AuthSelection | plugins/degledgerrecorder/recorder.go:31-54 | New takes the signing branch iff a signing key is configured, the API-key branch iff none is and a key is set; a signer error fails New; the signer carries the configured identity and is configured |
| LedgerRecorder.ParsedSigningAllOrNothing | plugins/degledgerrecorder/recorder.go:32 | the configuration New receives has all three signing fields or none |
| LedgerRecorder.SigningBeatsAPIKey | plugins/degledgerrecorder/recorder.go:32-50 | with a complete signing identity, New never takes the API-key branch |
| LedgerRecorder.DisabledSpawnsNothing | plugins/degledgerrecorder/recorder.go:80-83 | a disabled recorder starts no unit |
| LedgerRecorder.UnlistedActionSpawnsNothing | plugins/degledgerrecorder/recorder.go:89-92 | an action outside the configured list starts no unit |
| LedgerRecorder.RoutesOnlyListedActions | plugins/degledgerrecorder/recorder.go:89-103 | a handler is reached iff the recorder is enabled and the action is listed and is on_confirm or on_status |
| LedgerRecorder.StatusNeedsDiscomRole | plugins/degledgerrecorder/recorder.go:158-161 | on_status under a non-discom role starts no unit |
| LedgerRecorder.OneUnitPerRecord | plugins/degledgerrecorder/recorder.go:209-212 | a handled request starts one unit per mapped record, in order, and only the two handlers start units (also lines 236-239) |
| LedgerRecorder.Recorder.constructor | plugins/degledgerrecorder/recorder.go:70-73 | a new recorder has nothing in flight |
| LedgerRecorder.Recorder.SendPutRecordsAsync | plugins/degledgerrecorder/recorder.go:209-232 | one wg.Add and one started unit per record, in order; the counter still equals the unfinished units |
| LedgerRecorder.Recorder.SendRecordActualsAsync | plugins/degledgerrecorder/recorder.go:236-259 | one wg.Add and one started unit per record, in order; the counter still equals the unfinished units |
| LedgerRecorder.Recorder.RunUnit | plugins/degledgerrecorder/recorder.go:212-230 | a unit finishes with exactly one wg.Done on both the success and failure paths |
| LedgerRecorder.Recorder.Close | plugins/degledgerrecorder/recorder.go:262-270 | once every unfinished unit has run, the counter is zero |
| LedgerRecorder.Recorder.HandleOnConfirm | plugins/degledgerrecorder/recorder.go:107-151 | returns nil; a body that does not parse or maps to no record starts nothing; otherwise one unit per record |
| LedgerRecorder.Recorder.HandleOnStatus | plugins/degledgerrecorder/recorder.go:154-205 | returns nil; a non-discom role, a body that does not parse or no record starts nothing; otherwise one unit per record |
| LedgerRecorder.Recorder.Run | plugins/degledgerrecorder/recorder.go:78-104 | returns nil on every path and starts exactly the units of the chosen route |

## Left out

- Goroutines, `sync.WaitGroup.Wait` blocking and `context.WithTimeout`/cancel are not modelled. Units run one at a time, in whatever order `RunUnit`'s index picks, and `Close` runs the remaining ones.
- The `LedgerClient` is not part of this model: `NewLedgerClient`, `PutRecord`, `RecordActuals`, retries, HTTP and `Close`. A unit receives the client's answer as a boolean.
- `ExtractAction`, `ParseOnConfirm`, `ParseOnStatus`, `MapToLedgerRecords` and `MapToLedgerRecordRequests` are not part of this model. Their results arrive in a `Request`.
- The `transactionID` parameter of `sendPutRecordsAsync` and `sendRecordActualsAsync` is never used by them (the log lines print each record's own `TransactionID`), so the send methods do not take it.
- BLAKE2b-512, Ed25519 key derivation and signing, base64 and Go's `[]byte(string)` are uninterpreted fields of `Crypto`.
  - Decoding and hashing may fail.
  - With a nil key, Go's BLAKE2b never reports an error, but the source still handles one, and so does the model.
- The clock is the parameter `now`, in Unix seconds. Since whole seconds are added, `now.Add(validity).Unix()` is `now + validity`.
- `os.Getenv` is the `env` map.
- Strings are sequences of Unicode characters, while Go strings are bytes. Invalid UTF-8 in a setting, and how `strings.TrimSpace` treats such bytes, are not represented.
- Logging (`fmt.Printf`, `log.*`) and the debug truncation of the body are not modelled.
- ConfigProperties.IntegerRule: does not model `time.Duration` overflow of `asyncTimeout` for very large millisecond counts, because durations are unbounded integers.
- BecknSigning.NewBecknSigner: does not model `time.Duration` overflow of `validitySeconds * time.Second`. With overflow, the positivity test can differ from `validitySeconds > 0`.
- Keys of the configuration map that the plugin never reads are not represented.
- `New` hands `config.APIKey` to `NewLedgerClient` whether or not it builds a signer (recorder.go:60-68). `AuthMode` records only the branch `New` takes, so `SignedAuth` means that a signer was built. Which header a request carries is decided by the ledger client, which is not part of this model.

Two observations about the code, which the model follows:

- The `RetryCount` field comment (config.go:46) says only "0 = no retry". Nothing rejects a negative count: the parser accepts any integer Atoi accepts (`ConfigProperties.NegativeRetryCountAccepted`).
- `NewBecknSigner` decodes the key text as base64 before it checks the seed length (signer.go:33-41), so a key that is not base64 is reported as such whatever its length.
