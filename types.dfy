/** The entities of the KeyClaim client: configuration, the client record, wire
    payloads, errors, and the library functions the client calls but does not define. */
module KeyClaimTypes {
  import opened Wrappers
  import opened GoStrings

  /** `Config`: the API key and an optional secret ("" when not given). */
  datatype Config = Config(apiKey: GoString, secret: GoString)

  /** `KeyClaimClient`: fields set once by the constructor and only read afterwards.
      The HTTP transport it owns is the `Transport` parameter of each call. */
  datatype Client = Client(apiKey: GoString, baseURL: GoString, secret: GoString)

  /** `ResponseMethod` is a Go string type; these are its four named values. */
  type ResponseMethod = GoString

  const MethodEcho: ResponseMethod := Ascii("echo")
  const MethodHmac: ResponseMethod := Ascii("hmac")
  const MethodHash: ResponseMethod := Ascii("hash")
  const MethodCustom: ResponseMethod := Ascii("custom")

  predicate KnownMethod(m: ResponseMethod)
  {
    m == MethodEcho || m == MethodHmac || m == MethodHash || m == MethodCustom
  }

  /** The `customData interface{}` argument of GenerateResponse: nil, a Go `string`,
      or any other value, which is handed to the JSON marshaller. */
  datatype CustomData<J> = NoData | Str(s: GoString) | Other(v: J)

  /** A SHA-256 or HMAC-SHA-256 output. */
  type Digest = d: seq<byte> | |d| == 32 witness seq(32, _ => 0)

  /** A JSON value as `encoding/json` decodes it into `interface{}`. */
  datatype JsonValue =
    | JNull
    | JBool(b: bool)
    | JNumber(n: real)
    | JString(s: GoString)
    | JArray(items: seq<JsonValue>)
    | JObject(fields: map<GoString, JsonValue>)

  /** `CreateChallengeResponse`. */
  datatype ChallengeInfo = ChallengeInfo(challenge: GoString, expiresIn: int, encrypted: Option<bool>)

  /** `Quota.Quota`: a number or the string "unlimited". */
  datatype QuotaLimit = Limited(n: int) | Unlimited

  datatype Quota = Quota(used: int, remaining: int, limit: QuotaLimit)

  /** `ValidateChallengeResponse`; every pointer field is an Option. */
  datatype ValidationResponse = ValidationResponse(
    valid: Option<bool>,
    signature: Option<GoString>,
    quota: Option<Quota>,
    error: Option<GoString>)

  /** `KeyClaimError`: the normalized form of a failed API call. */
  datatype KeyClaimError = KeyClaimError(message: GoString, code: GoString, statusCode: int)

  /** The call in flight when the transport failed. */
  datatype Operation = CreateOp | ValidateOp

  /** Every error the client returns. */
  datatype Error =
    | InvalidApiKey              // construction: key empty or without the "kc_" prefix
    | CustomDataRequired         // custom method called with nil data
    | CustomDataMarshal          // json.Marshal of the custom data failed
    | UnknownMethod(name: ResponseMethod)
    | TransportFailed(op: Operation)
    | ReadFailed                 // io.ReadAll of the validate response failed
    | DecodeFailed               // the success-path body is not the expected JSON
    | Api(err: KeyClaimError)

  /** The library functions the client relies on, left uninterpreted:
      crypto/sha256, crypto/hmac over SHA-256 (key first), and encoding/json. */
  datatype Library<!J> = Library(
    sha256: GoString -> Digest,
    hmacSha256: (GoString, GoString) -> Digest,
    marshal: J -> Option<GoString>,
    decodeChallenge: GoString -> Option<ChallengeInfo>,
    decodeValidation: GoString -> Option<ValidationResponse>,
    decodeObject: GoString -> Option<map<GoString, JsonValue>>)
}
