/** `GenerateResponse` (client.go): the four ways a response is derived from a challenge. */
module ResponseGenerator {
  import opened Wrappers
  import opened GoStrings
  import opened HexEncoding
  import opened KeyClaimTypes

  /** The separator between the challenge and the custom data. */
  const Colon: GoString := Ascii(":")

  /** The four method names are pairwise distinct. */
  lemma MethodNamesDistinct()
    ensures MethodEcho != MethodHmac && MethodEcho != MethodHash && MethodEcho != MethodCustom
    ensures MethodHmac != MethodHash && MethodHmac != MethodCustom && MethodHash != MethodCustom
  {
    assert MethodEcho[0] != MethodHmac[0] && MethodEcho[0] != MethodHash[0];
    assert MethodHmac[1] != MethodHash[1];
    assert |MethodCustom| == 6 && |MethodEcho| == |MethodHmac| == |MethodHash| == 4;
  }

  /** `hex.EncodeToString` of a digest: 64 lowercase digits that decode to the digest. */
  function HexDigest(d: Digest): (r: GoString)
    ensures |r| == 64 && IsLowerHex(r)
    ensures Unhex(r) == Some(d)
  {
    UnhexOfHex(d);
    Hex(d)
  }

  /** The string the custom method hashes: `challenge + ":" + data`, where data is
      the string itself or its JSON encoding; nothing when there is no data or
      marshalling fails. */
  function CustomInput<J>(lib: Library<J>, challenge: GoString, customData: CustomData<J>): (r: Option<GoString>)
    ensures customData.NoData? ==> r.None?
    ensures customData.Str? ==> r == Some(challenge + Colon + customData.s)
    ensures customData.Other? ==> (r.None? <==> lib.marshal(customData.v).None?)
    ensures customData.Other? && r.Some? ==> r.value == challenge + Colon + lib.marshal(customData.v).value
  {
    match customData
    case NoData => None
    case Str(v) => Some(challenge + Colon + v)
    case Other(v) =>
      match lib.marshal(v)
      case None => None
      case Some(json) => Some(challenge + Colon + json)
  }

  /** `GenerateResponse`: the response for `challenge` under method `m` with client `c`'s secret. */
  function GenerateResponse<J>(lib: Library<J>, c: Client, challenge: GoString, m: ResponseMethod,
                               customData: CustomData<J>): (r: Result<GoString, Error>)
    ensures m == MethodEcho ==> r == Success(challenge)
    ensures m == MethodHmac ==> r.Success? && Unhex(r.value) == Some(lib.hmacSha256(c.secret, challenge))
    ensures m == MethodHash ==> r.Success? && Unhex(r.value) == Some(lib.sha256(challenge + c.secret))
    ensures m == MethodCustom && customData.NoData? ==> r == Failure(CustomDataRequired)
    ensures m == MethodCustom && customData.Str? ==>
              r.Success? && Unhex(r.value) == Some(lib.sha256(challenge + Colon + customData.s))
    ensures m == MethodCustom && customData.Other? && lib.marshal(customData.v).None? ==>
              r == Failure(CustomDataMarshal)
    ensures m == MethodCustom && customData.Other? && lib.marshal(customData.v).Some? ==>
              r.Success? && Unhex(r.value) == Some(lib.sha256(challenge + Colon + lib.marshal(customData.v).value))
    ensures !KnownMethod(m) ==> r == Failure(UnknownMethod(m))
    ensures r.Success? && m != MethodEcho ==> |r.value| == 64 && IsLowerHex(r.value)
  {
    MethodNamesDistinct();
    if m == MethodEcho then
      Success(challenge)
    else if m == MethodHmac then
      Success(HexDigest(lib.hmacSha256(c.secret, challenge)))
    else if m == MethodHash then
      Success(HexDigest(lib.sha256(challenge + c.secret)))
    else if m == MethodCustom then
      if customData.NoData? then
        Failure(CustomDataRequired)
      else
        match CustomInput(lib, challenge, customData)
        case None => Failure(CustomDataMarshal)
        case Some(data) => Success(HexDigest(lib.sha256(data)))
    else
      Failure(UnknownMethod(m))
  }

  /** Exactly these calls fail: an unknown method, and the custom method without
      data or with data the marshaller rejects. */
  lemma GenerateFailsExactly<J>(lib: Library<J>, c: Client, challenge: GoString, m: ResponseMethod,
                                customData: CustomData<J>)
    ensures GenerateResponse(lib, c, challenge, m, customData).Failure? <==>
              !KnownMethod(m) ||
              (m == MethodCustom && (customData.NoData? || (customData.Other? && lib.marshal(customData.v).None?)))
  {
    MethodNamesDistinct();
  }

  /** A digest-derived response is the one and only hex encoding of its digest. */
  lemma DigestResponseIsHexOfDigest<J>(lib: Library<J>, c: Client, challenge: GoString, customData: CustomData<J>)
    ensures GenerateResponse(lib, c, challenge, MethodHash, customData) == Success(Hex(lib.sha256(challenge + c.secret)))
    ensures GenerateResponse(lib, c, challenge, MethodHmac, customData) == Success(Hex(lib.hmacSha256(c.secret, challenge)))
  {
    var h := GenerateResponse(lib, c, challenge, MethodHash, customData).value;
    HexOfUnhex(h);
    var m := GenerateResponse(lib, c, challenge, MethodHmac, customData).value;
    HexOfUnhex(m);
  }

  /** Echo ignores the secret and the custom data. */
  lemma EchoIgnoresSecretAndData<J>(lib: Library<J>, c1: Client, c2: Client, challenge: GoString,
                                    d1: CustomData<J>, d2: CustomData<J>)
    ensures GenerateResponse(lib, c1, challenge, MethodEcho, d1) == GenerateResponse(lib, c2, challenge, MethodEcho, d2)
  {
  }

  /** The custom method never reads the secret. */
  lemma CustomIgnoresSecret<J>(lib: Library<J>, c1: Client, c2: Client, challenge: GoString, customData: CustomData<J>)
    ensures GenerateResponse(lib, c1, challenge, MethodCustom, customData) ==
            GenerateResponse(lib, c2, challenge, MethodCustom, customData)
  {
    MethodNamesDistinct();
  }

  /** Hash and HMAC ignore the custom data. */
  lemma DigestMethodsIgnoreData<J>(lib: Library<J>, c: Client, challenge: GoString, d1: CustomData<J>, d2: CustomData<J>)
    ensures GenerateResponse(lib, c, challenge, MethodHash, d1) == GenerateResponse(lib, c, challenge, MethodHash, d2)
    ensures GenerateResponse(lib, c, challenge, MethodHmac, d1) == GenerateResponse(lib, c, challenge, MethodHmac, d2)
  {
    DigestResponseIsHexOfDigest(lib, c, challenge, d1);
    DigestResponseIsHexOfDigest(lib, c, challenge, d2);
  }

  /** Responses differ whenever the digests behind them differ: hex encoding loses nothing. */
  lemma HmacSeparatesSecrets<J>(lib: Library<J>, c1: Client, c2: Client, challenge: GoString, customData: CustomData<J>)
    requires lib.hmacSha256(c1.secret, challenge) != lib.hmacSha256(c2.secret, challenge)
    ensures GenerateResponse(lib, c1, challenge, MethodHmac, customData) !=
            GenerateResponse(lib, c2, challenge, MethodHmac, customData)
  {
  }

  /** The hash method sees only the concatenation: no separator stands between
      challenge and secret, so splits of the same bytes give the same response. */
  lemma HashSeesOnlyConcatenation<J>(lib: Library<J>, c1: Client, c2: Client, ch1: GoString, ch2: GoString,
                                     customData: CustomData<J>)
    requires ch1 + c1.secret == ch2 + c2.secret
    ensures GenerateResponse(lib, c1, ch1, MethodHash, customData) == GenerateResponse(lib, c2, ch2, MethodHash, customData)
  {
    DigestResponseIsHexOfDigest(lib, c1, ch1, customData);
    DigestResponseIsHexOfDigest(lib, c2, ch2, customData);
  }
}
