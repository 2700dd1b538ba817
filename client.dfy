/** The network operations of `KeyClaimClient` (client.go): CreateChallenge,
    ValidateChallenge, the composite Validate, and `IsValid`.  The HTTP round trip is a
    `Transport` parameter; each call reports the requests it sent with its result. */
module ChallengeClient {
  import opened Wrappers
  import opened GoStrings
  import opened HexEncoding
  import opened KeyClaimTypes
  import opened KeyClaimConfig
  import opened ResponseGenerator
  import opened ErrorNormalizer

  const CreatePath: GoString := Ascii("/api/challenge/create")
  const ValidatePath: GoString := Ascii("/api/challenge/validate")

  const StatusOK: int := 200
  const StatusBadRequest: int := 400
  const StatusUnprocessableEntity: int := 422

  const CreateFailedMessage: GoString := Ascii("Failed to create challenge")
  const ValidateFailedMessage: GoString := Ascii("Failed to validate challenge")

  /** The JSON body of a request. */
  datatype RequestBody =
    | CreateBody(ttl: int)
    | ValidateBody(challenge: GoString, response: GoString, decryptedChallenge: Option<GoString>)

  /** A POST with `Authorization: Bearer <bearer>` and a JSON body. */
  datatype Request = Request(url: GoString, bearer: GoString, body: RequestBody)

  /** What came back: no reply at all (`c.client.Do` failed), or a status and a body,
      the body being nothing when reading it failed. */
  datatype Exchange = NoReply | Reply(status: int, body: Option<GoString>)

  /** The HTTP client with its fixed timeout, seen from outside. */
  type Transport = Request -> Exchange

  /** The requests a call sent, in order, and what it returned. */
  datatype Call<T> = Call(sent: seq<Request>, result: Result<T, Error>)

  /** The create request: the TTL defaulted, the key as bearer token. */
  function CreateRequest(c: Client, ttl: int): (req: Request)
    ensures req.body.CreateBody? && req.body.ttl != 0
    ensures req.body.ttl == (if ttl == 0 then DefaultTtl else ttl)
    ensures req.bearer == c.apiKey && req.url == c.baseURL + CreatePath
  {
    Request(c.baseURL + CreatePath, c.apiKey, CreateBody(EffectiveTtl(ttl)))
  }

  /** `CreateChallenge`. */
  function CreateChallenge<J>(lib: Library<J>, c: Client, ttl: int, send: Transport): (r: Call<ChallengeInfo>)
    ensures r.sent == [CreateRequest(c, ttl)]
    ensures send(CreateRequest(c, ttl)).NoReply? ==> r.result == Failure(TransportFailed(CreateOp))
    ensures send(CreateRequest(c, ttl)).Reply? && send(CreateRequest(c, ttl)).status != StatusOK ==>
              r.result.Failure? && r.result.error.Api? &&
              r.result.error.err == HandleErrorResponse(lib, send(CreateRequest(c, ttl)).body,
                                                        send(CreateRequest(c, ttl)).status, CreateFailedMessage)
    ensures r.result.Success? <==>
              var x := send(CreateRequest(c, ttl));
              x.Reply? && x.status == StatusOK && x.body.Some? && lib.decodeChallenge(x.body.value).Some?
    ensures r.result.Success? ==> Some(r.result.value) == lib.decodeChallenge(send(CreateRequest(c, ttl)).body.value)
    ensures var x := send(CreateRequest(c, ttl));
            x.Reply? && x.status == StatusOK && (x.body.None? || lib.decodeChallenge(x.body.value).None?) ==>
              r.result == Failure(DecodeFailed)
  {
    var req := CreateRequest(c, ttl);
    var result :=
      match send(req)
      case NoReply => Failure(TransportFailed(CreateOp))
      case Reply(status, body) =>
        if status != StatusOK then
          Failure(Api(HandleErrorResponse(lib, body, status, CreateFailedMessage)))
        else if body.None? then
          Failure(DecodeFailed)
        else
          match lib.decodeChallenge(body.value)
          case None => Failure(DecodeFailed)
          case Some(info) => Success(info);
    Call([req], result)
  }

  /** The validate request; the decrypted challenge is sent only when given. */
  function ValidateRequest(c: Client, challenge: GoString, response: GoString,
                           decryptedChallenge: Option<GoString>): (req: Request)
    ensures req.body == ValidateBody(challenge, response, decryptedChallenge)
    ensures req.bearer == c.apiKey && req.url == c.baseURL + ValidatePath
  {
    Request(c.baseURL + ValidatePath, c.apiKey, ValidateBody(challenge, response, decryptedChallenge))
  }

  /** What ValidateChallenge makes of a status and a body it read in full. The body is
      decoded before the status is looked at. */
  function ClassifyValidation<J>(lib: Library<J>, status: int, body: GoString): (r: Result<ValidationResponse, Error>)
    ensures lib.decodeValidation(body).None? ==> r == Failure(DecodeFailed)
    ensures r.Success? <==>
              lib.decodeValidation(body).Some? &&
              (status == StatusOK ||
               ((status == StatusBadRequest || status == StatusUnprocessableEntity) &&
                lib.decodeValidation(body).value.valid.Some?))
    ensures r.Success? ==> Some(r.value) == lib.decodeValidation(body)
    ensures r.Failure? && lib.decodeValidation(body).Some? ==>
              status != StatusOK &&
              r.error == Api(NormalizeError(lib.decodeObject(body), status, ValidateFailedMessage))
  {
    match lib.decodeValidation(body)
    case None => Failure(DecodeFailed)
    case Some(v) =>
      if (status == StatusBadRequest || status == StatusUnprocessableEntity) && v.valid.Some? then
        Success(v)
      else if status != StatusOK then
        Failure(Api(NormalizeError(lib.decodeObject(body), status, ValidateFailedMessage)))
      else
        Success(v)
  }

  /** `ValidateChallenge`. */
  function ValidateChallenge<J>(lib: Library<J>, c: Client, challenge: GoString, response: GoString,
                                decryptedChallenge: Option<GoString>, send: Transport): (r: Call<ValidationResponse>)
    ensures r.sent == [ValidateRequest(c, challenge, response, decryptedChallenge)]
    ensures var x := send(ValidateRequest(c, challenge, response, decryptedChallenge));
            && (x.NoReply? ==> r.result == Failure(TransportFailed(ValidateOp)))
            && (x.Reply? && x.body.None? ==> r.result == Failure(ReadFailed))
            && (x.Reply? && x.body.Some? ==> r.result == ClassifyValidation(lib, x.status, x.body.value))
  {
    var req := ValidateRequest(c, challenge, response, decryptedChallenge);
    var result :=
      match send(req)
      case NoReply => Failure(TransportFailed(ValidateOp))
      case Reply(status, None) => Failure(ReadFailed)
      case Reply(status, Some(body)) => ClassifyValidation(lib, status, body);
    Call([req], result)
  }

  /** `Validate`: create, generate, validate; the first error is returned as it is and
      nothing after it is sent. */
  function Validate<J>(lib: Library<J>, c: Client, m: ResponseMethod, ttl: int, customData: CustomData<J>,
                       send: Transport): (r: Call<ValidationResponse>)
    ensures 1 <= |r.sent| <= 2 && r.sent[0] == CreateRequest(c, ttl)
    ensures |r.sent| == 2 ==> r.sent[1].body.ValidateBody? && r.sent[1].body.decryptedChallenge.None?
  {
    var created := CreateChallenge(lib, c, ttl, send);
    match created.result
    case Failure(e) => Call(created.sent, Failure(e))
    case Success(info) =>
      match GenerateResponse(lib, c, info.challenge, m, customData)
      case Failure(e) => Call(created.sent, Failure(e))
      case Success(response) =>
        var validated := ValidateChallenge(lib, c, info.challenge, response, None, send);
        Call(created.sent + validated.sent, validated.result)
  }

  /** A failed create is the whole story: its error, and no validate request. */
  lemma ValidateStopsOnCreateError<J>(lib: Library<J>, c: Client, m: ResponseMethod, ttl: int,
                                      customData: CustomData<J>, send: Transport)
    requires CreateChallenge(lib, c, ttl, send).result.Failure?
    ensures Validate(lib, c, m, ttl, customData, send) ==
            Call([CreateRequest(c, ttl)], Failure(CreateChallenge(lib, c, ttl, send).result.error))
  {
  }

  /** A failed response derivation is returned unchanged, and no validate request is sent. */
  lemma ValidateStopsOnGenerateError<J>(lib: Library<J>, c: Client, m: ResponseMethod, ttl: int,
                                        customData: CustomData<J>, send: Transport)
    requires CreateChallenge(lib, c, ttl, send).result.Success?
    requires GenerateResponse(lib, c, CreateChallenge(lib, c, ttl, send).result.value.challenge, m, customData).Failure?
    ensures Validate(lib, c, m, ttl, customData, send) ==
            Call([CreateRequest(c, ttl)],
                 Failure(GenerateResponse(lib, c, CreateChallenge(lib, c, ttl, send).result.value.challenge, m, customData).error))
  {
  }

  /** Otherwise the created challenge and its response are validated, with no decrypted
      challenge, and that call's result is the flow's result. */
  lemma ValidateChecksCreatedChallenge<J>(lib: Library<J>, c: Client, m: ResponseMethod, ttl: int,
                                          customData: CustomData<J>, send: Transport)
    requires CreateChallenge(lib, c, ttl, send).result.Success?
    requires GenerateResponse(lib, c, CreateChallenge(lib, c, ttl, send).result.value.challenge, m, customData).Success?
    ensures var challenge := CreateChallenge(lib, c, ttl, send).result.value.challenge;
            var response := GenerateResponse(lib, c, challenge, m, customData).value;
            Validate(lib, c, m, ttl, customData, send) ==
            Call([CreateRequest(c, ttl), ValidateRequest(c, challenge, response, None)],
                 ValidateChallenge(lib, c, challenge, response, None, send).result)
  {
  }

  /** With the HMAC method the flow sends, as the response, the hex HMAC of the created
      challenge under the client's secret. */
  lemma ValidateSendsHmacOfChallenge<J>(lib: Library<J>, c: Client, ttl: int, customData: CustomData<J>, send: Transport)
    requires CreateChallenge(lib, c, ttl, send).result.Success?
    ensures var r := Validate(lib, c, MethodHmac, ttl, customData, send);
            var challenge := CreateChallenge(lib, c, ttl, send).result.value.challenge;
            |r.sent| == 2 &&
            r.sent[1] == ValidateRequest(c, challenge, Hex(lib.hmacSha256(c.secret, challenge)), None)
  {
    var challenge := CreateChallenge(lib, c, ttl, send).result.value.challenge;
    DigestResponseIsHexOfDigest(lib, c, challenge, customData);
  }

  /** `IsValid`: an absent flag and a false flag both read as invalid. */
  function IsValid(v: ValidationResponse): (b: bool)
    ensures b <==> v.valid.Some? && v.valid.value
  {
    v.valid == Some(true)
  }

  /** A non-200 status that is not an error always carries a `valid` flag, so an absent
      flag can only reach the caller with status 200. */
  lemma AcceptedNon200CarriesFlag<J>(lib: Library<J>, status: int, body: GoString)
    requires status != StatusOK
    requires ClassifyValidation(lib, status, body).Success?
    ensures ClassifyValidation(lib, status, body).value.valid.Some?
    ensures status == StatusBadRequest || status == StatusUnprocessableEntity
  {
  }

  /** A body that does not decode hides the status: even a 500 reports a decode error. */
  lemma MalformedBodyHidesStatus<J>(lib: Library<J>, status: int, body: GoString)
    requires lib.decodeValidation(body).None?
    ensures ClassifyValidation(lib, status, body) == Failure(DecodeFailed)
  {
  }

  /** A 400 whose body says `{"valid": false, "error": ...}` is an outcome, not an error,
      and it reads as invalid. */
  lemma StructuredRejectionIsOutcome<J>(lib: Library<J>, body: GoString, reason: GoString)
    requires lib.decodeValidation(body) == Some(ValidationResponse(Some(false), None, None, Some(reason)))
    ensures ClassifyValidation(lib, StatusBadRequest, body).Success?
    ensures !IsValid(ClassifyValidation(lib, StatusBadRequest, body).value)
  {
  }

  /** A 500 whose body is `{"error": "rate_limited"}` is an API error with that code. */
  lemma RateLimitedIsApiError<J>(lib: Library<J>, body: GoString)
    requires lib.decodeValidation(body) == Some(ValidationResponse(None, None, None, Some(Ascii("rate_limited"))))
    requires lib.decodeObject(body) == Some(map[ErrorField := JString(Ascii("rate_limited"))])
    ensures ClassifyValidation(lib, 500, body) ==
            Failure(Api(KeyClaimError(Ascii("rate_limited"), Ascii("rate_limited"), 500)))
  {
  }

  /** A 200 whose body says `{"valid": true}` is a valid outcome. */
  lemma AcceptedIsValid<J>(lib: Library<J>, body: GoString, quota: Option<Quota>)
    requires lib.decodeValidation(body) == Some(ValidationResponse(Some(true), None, quota, None))
    ensures ClassifyValidation(lib, StatusOK, body).Success?
    ensures IsValid(ClassifyValidation(lib, StatusOK, body).value)
  {
  }
}
