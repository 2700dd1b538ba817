/** `handleErrorResponseFromBody` and `handleErrorResponse` (client.go): every failed
    API call becomes one `KeyClaimError` shape. */
module ErrorNormalizer {
  import opened Wrappers
  import opened GoStrings
  import opened KeyClaimTypes

  const ErrorField: GoString := Ascii("error")
  const MessageField: GoString := Ascii("message")

  /** `errorData[key].(string)`: the field's value when it is present and a JSON string. */
  function StringField(fields: map<GoString, JsonValue>, key: GoString): (r: Option<GoString>)
    ensures r.Some? <==> key in fields && fields[key].JString?
    ensures r.Some? ==> fields[key] == JString(r.value)
  {
    if key in fields && fields[key].JString? then Some(fields[key].s) else None
  }

  /** `handleErrorResponseFromBody`, given what `json.Unmarshal` into a map made of the
      body (nothing when the body is not a JSON object). */
  function NormalizeError(parsed: Option<map<GoString, JsonValue>>, statusCode: int,
                          defaultMessage: GoString): (e: KeyClaimError)
    ensures e.statusCode == statusCode
    ensures parsed.None? ==> e.message == defaultMessage && e.code == []
    ensures parsed.Some? && StringField(parsed.value, ErrorField).Some? ==>
              e.message == e.code == StringField(parsed.value, ErrorField).value
    ensures parsed.Some? && StringField(parsed.value, ErrorField).None? && StringField(parsed.value, MessageField).Some? ==>
              e.message == StringField(parsed.value, MessageField).value && e.code == []
    ensures parsed.Some? && StringField(parsed.value, ErrorField).None? && StringField(parsed.value, MessageField).None? ==>
              e.message == defaultMessage && e.code == []
  {
    match parsed
    case None => KeyClaimError(defaultMessage, [], statusCode)
    case Some(fields) =>
      match StringField(fields, ErrorField)
      case Some(err) => KeyClaimError(err, err, statusCode)
      case None =>
        match StringField(fields, MessageField)
        case Some(msg) => KeyClaimError(msg, [], statusCode)
        case None => KeyClaimError(defaultMessage, [], statusCode)
  }

  /** A non-empty code is always the body's string `error` field, and is also the message. */
  lemma CodeComesFromErrorField(parsed: Option<map<GoString, JsonValue>>, statusCode: int, defaultMessage: GoString)
    ensures var e := NormalizeError(parsed, statusCode, defaultMessage);
            e.code != [] ==> parsed.Some? && ErrorField in parsed.value &&
                             parsed.value[ErrorField] == JString(e.code) && e.message == e.code
  {
  }

  /** The message is the default, the `error` string or the `message` string, and the
      default only when neither string field is present. */
  lemma MessageProvenance(parsed: Option<map<GoString, JsonValue>>, statusCode: int, defaultMessage: GoString)
    ensures var e := NormalizeError(parsed, statusCode, defaultMessage);
            e.message == defaultMessage ||
            (parsed.Some? && Some(e.message) in {StringField(parsed.value, ErrorField), StringField(parsed.value, MessageField)})
    ensures var e := NormalizeError(parsed, statusCode, defaultMessage);
            parsed.Some? && (StringField(parsed.value, ErrorField).Some? || StringField(parsed.value, MessageField).Some?) ==>
              Some(e.message) in {StringField(parsed.value, ErrorField), StringField(parsed.value, MessageField)}
  {
  }

  /** A string `error` field wins over a `message` field. */
  lemma ErrorFieldWins(fields: map<GoString, JsonValue>, err: GoString, msg: GoString, statusCode: int,
                       defaultMessage: GoString)
    requires ErrorField in fields && fields[ErrorField] == JString(err)
    requires MessageField in fields && fields[MessageField] == JString(msg)
    ensures NormalizeError(Some(fields), statusCode, defaultMessage) == KeyClaimError(err, err, statusCode)
  {
  }

  /** An `error` field that is not a string is passed over, as the type assertion fails. */
  lemma NonStringErrorFieldIgnored(fields: map<GoString, JsonValue>, statusCode: int, defaultMessage: GoString)
    requires ErrorField in fields && !fields[ErrorField].JString?
    requires MessageField !in fields
    ensures NormalizeError(Some(fields), statusCode, defaultMessage) == KeyClaimError(defaultMessage, [], statusCode)
  {
  }

  /** `handleErrorResponse`: `body` is nothing when reading the body failed. */
  function HandleErrorResponse<J>(lib: Library<J>, body: Option<GoString>, statusCode: int,
                                  defaultMessage: GoString): (e: KeyClaimError)
    ensures e.statusCode == statusCode
    ensures body.None? ==> e.message == defaultMessage && e.code == []
    ensures body.Some? ==> e == NormalizeError(lib.decodeObject(body.value), statusCode, defaultMessage)
  {
    match body
    case None => KeyClaimError(defaultMessage, [], statusCode)
    case Some(bytes) => NormalizeError(lib.decodeObject(bytes), statusCode, defaultMessage)
  }
}
