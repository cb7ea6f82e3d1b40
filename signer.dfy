/**
 * The Beckn signer: construction of a BecknSigner from the configured identity,
 * the signing string over a payload's BLAKE2b-512 digest, and the
 * `Authorization: Signature …` header of section 4.1 of
 * draft-cavage-http-signatures carrying the Ed25519 signature of that string.
 *
 * BLAKE2b-512 (RFC 7693), Ed25519 (section 5.1 of RFC 8032), padded base64
 * (section 4 of RFC 4648) and Go's string-to-bytes conversion are not modelled
 * here: they arrive as the uninterpreted functions of a Crypto value. The
 * clock arrives as `now`, in Unix seconds.
 */
module BecknSigning {
  import opened Wrappers
  import opened GoText

  newtype byte = x: int | 0 <= x < 0x100

  /** ed25519.SeedSize: the length of a decoded private-key seed. */
  const SeedSize: nat := 32

  /** The validity used when the configured one is not positive. */
  const DefaultValiditySeconds: int := 30

  /** The library calls the signer makes, as functions. */
  datatype Crypto = Crypto(
    /** blake2b.New512(nil) followed by Write and Sum; None when the library reports an error. */
    blake2b512: seq<byte> -> Option<seq<byte>>,
    /** base64.StdEncoding.EncodeToString */
    base64Encode: seq<byte> -> string,
    /** base64.StdEncoding.DecodeString; None when the text is not valid base64. */
    base64Decode: string -> Option<seq<byte>>,
    /** ed25519.Sign(ed25519.NewKeyFromSeed(seed), message) */
    ed25519Sign: (seq<byte>, seq<byte>) -> seq<byte>,
    /** Go's []byte(s): the UTF-8 bytes of a string. */
    utf8: string -> seq<byte>)

  datatype SignerError =
    | MissingSubscriberID
    | MissingUniqueKeyID
    | MissingSigningKey
    | KeyNotBase64
    | WrongKeyLength(got: nat)
    | HashFailed

  /** A constructed signer; signatureValidity is the time.Duration field, counted in seconds. */
  datatype BecknSigner = BecknSigner(
    subscriberID: string,
    uniqueKeyID: string,
    signingPrivateKey: seq<byte>,
    signatureValidity: int)

  // ---------------------------------------------------------------------------
  // NewBecknSigner and IsConfigured
  // ---------------------------------------------------------------------------

  /**
   * NewBecknSigner: rejects an empty subscriber, unique key id or key text (in
   * that order), then a key that is not base64 or does not decode to a 32-byte
   * seed; a validity that is not positive becomes 30 seconds.
   */
  function NewBecknSigner(crypto: Crypto, subscriberID: string, uniqueKeyID: string,
                          signingPrivateKeyBase64: string, validitySeconds: int): (r: Result<BecknSigner, SignerError>)
    ensures r.Success? ==> |r.value.signingPrivateKey| == SeedSize && r.value.signatureValidity > 0
  {
    if subscriberID == "" then Failure(MissingSubscriberID)
    else if uniqueKeyID == "" then Failure(MissingUniqueKeyID)
    else if signingPrivateKeyBase64 == "" then Failure(MissingSigningKey)
    else
      match crypto.base64Decode(signingPrivateKeyBase64)
      case None => Failure(KeyNotBase64)
      case Some(seed) =>
        if |seed| != SeedSize then Failure(WrongKeyLength(|seed|))
        else
          var validity := if validitySeconds <= 0 then DefaultValiditySeconds else validitySeconds;
          Success(BecknSigner(subscriberID, uniqueKeyID, seed, validity))
  }

  /**
   * IsConfigured, whose receiver may be nil (None here): a signer holding a
   * non-empty key, so never a nil one and always one holding a full seed.
   */
  function IsConfigured(s: Option<BecknSigner>): (configured: bool)
    ensures configured ==> s.Some?
    ensures s.Some? && |s.value.signingPrivateKey| == SeedSize ==> configured
  {
    s.Some? && |s.value.signingPrivateKey| > 0
  }

  // ---------------------------------------------------------------------------
  // The signing string
  // ---------------------------------------------------------------------------

  /**
   * "(created): <c>\n(expires): <e>\ndigest: BLAKE-512=<digest>", with no
   * trailing newline.
   */
  function SigningString(created: int, expires: int, digestB64: string): string {
    "(created): " + (FormatInt(created) + ['\n']
      + ("(expires): " + (FormatInt(expires) + ['\n']
      + ("digest: BLAKE-512=" + digestB64))))
  }

  datatype SigningFields = SigningFields(created: int, expires: int, digestB64: string)

  /** Reads a signing string back into its timestamps and digest. */
  function ParseSigningString(s: string): Option<SigningFields> {
    var afterCreated :- StripPrefix(s, "(created): ");
    var createdLine :- SplitAt(afterCreated, '\n');
    var created :- Atoi(createdLine.0);
    var afterExpires :- StripPrefix(createdLine.1, "(expires): ");
    var expiresLine :- SplitAt(afterExpires, '\n');
    var expires :- Atoi(expiresLine.0);
    var digest :- StripPrefix(expiresLine.1, "digest: BLAKE-512=");
    Some(SigningFields(created, expires, digest))
  }

  /** createSigningString: the signing string over the base64 of the payload's digest. */
  function CreateSigningString(crypto: Crypto, payload: seq<byte>, createdAt: int, expiresAt: int): (r: Result<string, SignerError>)
    ensures r.Failure? <==> crypto.blake2b512(payload).None?
    ensures r.Failure? ==> r.error == HashFailed
  {
    match crypto.blake2b512(payload)
    case None => Failure(HashFailed)
    case Some(hashSum) => Success(SigningString(createdAt, expiresAt, crypto.base64Encode(hashSum)))
  }

  /**
   * sign: the Ed25519 signature, under the key derived from the signer's seed,
   * of the given bytes; its error result is never an error.
   */
  function Sign(crypto: Crypto, s: BecknSigner, data: seq<byte>): (r: Result<seq<byte>, SignerError>)
    ensures r.Success?
  {
    Success(crypto.ed25519Sign(s.signingPrivateKey, data))
  }

  // ---------------------------------------------------------------------------
  // The Authorization header
  // ---------------------------------------------------------------------------

  /**
   * Signature keyId="<sub>|<key>|ed25519",algorithm="ed25519",created="<c>",
   * expires="<e>",headers="(created) (expires) digest",signature="<sig>"
   */
  function AuthHeader(subscriberID: string, uniqueKeyID: string, created: int, expires: int, signatureB64: string): string {
    "Signature keyId=\"" + (subscriberID + ['|'] + (uniqueKeyID + ['|']
      + ("ed25519\",algorithm=\"ed25519\",created=\"" + (FormatInt(created) + ['"']
      + (",expires=\"" + (FormatInt(expires) + ['"']
      + (",headers=\"(created) (expires) digest\",signature=\"" + (signatureB64 + ['"']))))))))
  }

  datatype HeaderFields = HeaderFields(
    subscriberID: string, uniqueKeyID: string, created: int, expires: int, signatureB64: string)

  /** Reads an Authorization header back into the fields it carries. */
  function ParseAuthHeader(h: string): Option<HeaderFields> {
    var afterPrefix :- StripPrefix(h, "Signature keyId=\"");
    var subscriber :- SplitAt(afterPrefix, '|');
    var keyId :- SplitAt(subscriber.1, '|');
    var afterAlgorithm :- StripPrefix(keyId.1, "ed25519\",algorithm=\"ed25519\",created=\"");
    var createdText :- SplitAt(afterAlgorithm, '"');
    var created :- Atoi(createdText.0);
    var afterCreated :- StripPrefix(createdText.1, ",expires=\"");
    var expiresText :- SplitAt(afterCreated, '"');
    var expires :- Atoi(expiresText.0);
    var quoted :- StripPrefix(expiresText.1, ",headers=\"(created) (expires) digest\",signature=\"");
    if quoted != [] && quoted[|quoted| - 1] == '"' then
      Some(HeaderFields(subscriber.0, keyId.0, created, expires, quoted[..|quoted| - 1]))
    else None
  }

  /** The Unix time at which a header generated at `now` stops being valid. */
  function ExpiresAt(s: BecknSigner, now: int): int {
    now + s.signatureValidity
  }

  /**
   * GenerateAuthHeader at Unix time `now`: signs the signing string over the
   * payload's digest and puts the signature, the signer's identity and the
   * same two timestamps into the header.
   */
  function GenerateAuthHeader(crypto: Crypto, s: BecknSigner, payload: seq<byte>, now: int): (r: Result<string, SignerError>)
    ensures r.Failure? <==> crypto.blake2b512(payload).None?
  {
    var createdAt := now;
    var expiresAt := ExpiresAt(s, now);
    var signingString :- CreateSigningString(crypto, payload, createdAt, expiresAt);
    match Sign(crypto, s, crypto.utf8(signingString))
    case Failure(e) => Failure(e)
    case Success(signature) =>
      Success(AuthHeader(s.subscriberID, s.uniqueKeyID, createdAt, expiresAt, crypto.base64Encode(signature)))
  }

  // ---------------------------------------------------------------------------
  // Properties
  // ---------------------------------------------------------------------------

  /** NewBecknSigner's checks, in order, and the error each one reports. */
  lemma NewSignerErrors(crypto: Crypto, sub: string, uk: string, key: string, v: int)
    ensures sub == "" ==> NewBecknSigner(crypto, sub, uk, key, v) == Failure(MissingSubscriberID)
    ensures sub != "" && uk == "" ==> NewBecknSigner(crypto, sub, uk, key, v) == Failure(MissingUniqueKeyID)
    ensures sub != "" && uk != "" && key == "" ==> NewBecknSigner(crypto, sub, uk, key, v) == Failure(MissingSigningKey)
    ensures sub != "" && uk != "" && key != "" && crypto.base64Decode(key).None? ==>
      NewBecknSigner(crypto, sub, uk, key, v) == Failure(KeyNotBase64)
    ensures
      (sub != "" && uk != "" && key != "" && crypto.base64Decode(key).Some?
       && |crypto.base64Decode(key).value| != SeedSize) ==>
      NewBecknSigner(crypto, sub, uk, key, v) == Failure(WrongKeyLength(|crypto.base64Decode(key).value|))
  {
  }

  /**
   * Construction succeeds exactly for a complete identity whose key decodes to
   * a seed; the signer keeps the identity and the decoded seed, and its
   * validity is the given one when positive and 30 seconds otherwise.
   */
  lemma NewSignerAccepts(crypto: Crypto, sub: string, uk: string, key: string, v: int)
    ensures NewBecknSigner(crypto, sub, uk, key, v).Success? <==>
      sub != "" && uk != "" && key != "" && crypto.base64Decode(key).Some?
      && |crypto.base64Decode(key).value| == SeedSize
    ensures NewBecknSigner(crypto, sub, uk, key, v).Success? ==>
      var s := NewBecknSigner(crypto, sub, uk, key, v).value;
      && s.subscriberID == sub && s.uniqueKeyID == uk
      && s.signingPrivateKey == crypto.base64Decode(key).value
      && (v > 0 ==> s.signatureValidity == v)
      && (v <= 0 ==> s.signatureValidity == DefaultValiditySeconds)
  {
  }

  /** Every signer NewBecknSigner returns is configured. */
  lemma ConstructedSignerIsConfigured(crypto: Crypto, sub: string, uk: string, key: string, v: int)
    ensures NewBecknSigner(crypto, sub, uk, key, v).Success? ==>
      IsConfigured(Some(NewBecknSigner(crypto, sub, uk, key, v).value))
    ensures !IsConfigured(None)
  {
  }

  /** A signing string reads back as the timestamps and digest it was built from. */
  lemma SigningStringRoundTrip(created: int, expires: int, digestB64: string)
    requires MinInt64 <= created <= MaxInt64 && MinInt64 <= expires <= MaxInt64
    ensures ParseSigningString(SigningString(created, expires, digestB64)) == Some(SigningFields(created, expires, digestB64))
  {
    var e := FormatInt(expires);
    var tail := "(expires): " + (e + ['\n'] + ("digest: BLAKE-512=" + digestB64));
    StripPrefixConcat("(created): ", FormatInt(created) + ['\n'] + tail);
    FormatIntAvoids(created, '\n');
    SplitAtConcat(FormatInt(created), '\n', tail);
    AtoiFormatInt(created);
    StripPrefixConcat("(expires): ", e + ['\n'] + ("digest: BLAKE-512=" + digestB64));
    FormatIntAvoids(expires, '\n');
    SplitAtConcat(e, '\n', "digest: BLAKE-512=" + digestB64);
    AtoiFormatInt(expires);
    StripPrefixConcat("digest: BLAKE-512=", digestB64);
  }

  /** Distinct timestamps or digests give distinct signing strings. */
  lemma SigningStringInjective(c1: int, e1: int, d1: string, c2: int, e2: int, d2: string)
    requires MinInt64 <= c1 <= MaxInt64 && MinInt64 <= e1 <= MaxInt64
    requires MinInt64 <= c2 <= MaxInt64 && MinInt64 <= e2 <= MaxInt64
    ensures SigningString(c1, e1, d1) == SigningString(c2, e2, d2) ==> c1 == c2 && e1 == e2 && d1 == d2
  {
    SigningStringRoundTrip(c1, e1, d1);
    SigningStringRoundTrip(c2, e2, d2);
  }

  /** The closing part of a header after the created timestamp reads back. */
  lemma HeaderTailRoundTrip(created: int, expires: int, signatureB64: string)
    requires MinInt64 <= created <= MaxInt64 && MinInt64 <= expires <= MaxInt64
    ensures
      var rest := ",expires=\"" + (FormatInt(expires) + ['"']
        + (",headers=\"(created) (expires) digest\",signature=\"" + (signatureB64 + ['"'])));
      && SplitAt(FormatInt(created) + ['"'] + rest, '"') == Some((FormatInt(created), rest))
      && Atoi(FormatInt(created)) == Some(created)
      && StripPrefix(rest, ",expires=\"") == Some(FormatInt(expires) + ['"']
           + (",headers=\"(created) (expires) digest\",signature=\"" + (signatureB64 + ['"'])))
      && SplitAt(FormatInt(expires) + ['"'] + (",headers=\"(created) (expires) digest\",signature=\"" + (signatureB64 + ['"'])), '"')
           == Some((FormatInt(expires), ",headers=\"(created) (expires) digest\",signature=\"" + (signatureB64 + ['"'])))
      && Atoi(FormatInt(expires)) == Some(expires)
      && StripPrefix(",headers=\"(created) (expires) digest\",signature=\"" + (signatureB64 + ['"']),
           ",headers=\"(created) (expires) digest\",signature=\"") == Some(signatureB64 + ['"'])
  {
    var sigPart := ",headers=\"(created) (expires) digest\",signature=\"" + (signatureB64 + ['"']);
    var rest := ",expires=\"" + (FormatInt(expires) + ['"'] + sigPart);
    FormatIntAvoids(created, '"');
    SplitAtConcat(FormatInt(created), '"', rest);
    AtoiFormatInt(created);
    StripPrefixConcat(",expires=\"", FormatInt(expires) + ['"'] + sigPart);
    FormatIntAvoids(expires, '"');
    SplitAtConcat(FormatInt(expires), '"', sigPart);
    AtoiFormatInt(expires);
    StripPrefixConcat(",headers=\"(created) (expires) digest\",signature=\"", signatureB64 + ['"']);
  }

  /** A header reads back as the identity, timestamps and signature it was built from. */
  lemma AuthHeaderRoundTrip(sub: string, uk: string, created: int, expires: int, signatureB64: string)
    requires '|' !in sub && '|' !in uk
    requires MinInt64 <= created <= MaxInt64 && MinInt64 <= expires <= MaxInt64
    ensures ParseAuthHeader(AuthHeader(sub, uk, created, expires, signatureB64))
      == Some(HeaderFields(sub, uk, created, expires, signatureB64))
  {
    var afterAlgorithm := FormatInt(created) + ['"']
      + (",expires=\"" + (FormatInt(expires) + ['"']
      + (",headers=\"(created) (expires) digest\",signature=\"" + (signatureB64 + ['"']))));
    var afterKey := "ed25519\",algorithm=\"ed25519\",created=\"" + afterAlgorithm;
    StripPrefixConcat("Signature keyId=\"", sub + ['|'] + (uk + ['|'] + afterKey));
    SplitAtConcat(sub, '|', uk + ['|'] + afterKey);
    SplitAtConcat(uk, '|', afterKey);
    StripPrefixConcat("ed25519\",algorithm=\"ed25519\",created=\"", afterAlgorithm);
    HeaderTailRoundTrip(created, expires, signatureB64);
    var quoted := signatureB64 + ['"'];
    assert quoted[..|quoted| - 1] == signatureB64;
  }

  /**
   * What a generated header carries: the signer's identity, `now` and its
   * expiry, and the signature over exactly the signing string that names those
   * same two timestamps and the digest of this payload.
   */
  lemma GeneratedHeaderCoversPayload(crypto: Crypto, s: BecknSigner, payload: seq<byte>, now: int)
    requires '|' !in s.subscriberID && '|' !in s.uniqueKeyID
    requires MinInt64 <= now <= MaxInt64 && MinInt64 <= ExpiresAt(s, now) <= MaxInt64
    requires crypto.blake2b512(payload).Some?
    ensures GenerateAuthHeader(crypto, s, payload, now).Success?
    ensures
      var digest := crypto.base64Encode(crypto.blake2b512(payload).value);
      var signed := SigningString(now, ExpiresAt(s, now), digest);
      && ParseAuthHeader(GenerateAuthHeader(crypto, s, payload, now).value) == Some(HeaderFields(
           s.subscriberID, s.uniqueKeyID, now, ExpiresAt(s, now),
           crypto.base64Encode(crypto.ed25519Sign(s.signingPrivateKey, crypto.utf8(signed)))))
      && ParseSigningString(signed) == Some(SigningFields(now, ExpiresAt(s, now), digest))
  {
    var digest := crypto.base64Encode(crypto.blake2b512(payload).value);
    var signed := SigningString(now, ExpiresAt(s, now), digest);
    AuthHeaderRoundTrip(s.subscriberID, s.uniqueKeyID, now, ExpiresAt(s, now),
      crypto.base64Encode(crypto.ed25519Sign(s.signingPrivateKey, crypto.utf8(signed))));
    SigningStringRoundTrip(now, ExpiresAt(s, now), digest);
  }

  /**
   * A generated header reads back as created at `now` and expiring exactly
   * signatureValidity seconds later, so strictly later for any signer
   * NewBecknSigner returns.
   */
  lemma HeaderLifetime(crypto: Crypto, s: BecknSigner, payload: seq<byte>, now: int)
    requires '|' !in s.subscriberID && '|' !in s.uniqueKeyID
    requires MinInt64 <= now <= MaxInt64 && MinInt64 <= ExpiresAt(s, now) <= MaxInt64
    requires crypto.blake2b512(payload).Some?
    requires s.signatureValidity > 0
    ensures GenerateAuthHeader(crypto, s, payload, now).Success?
    ensures ParseAuthHeader(GenerateAuthHeader(crypto, s, payload, now).value).Some?
    ensures
      var f := ParseAuthHeader(GenerateAuthHeader(crypto, s, payload, now).value).value;
      && f.created == now
      && f.expires - f.created == s.signatureValidity
      && f.created < f.expires
  {
    GeneratedHeaderCoversPayload(crypto, s, payload, now);
  }
}
