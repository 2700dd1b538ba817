# KeyClaim Go SDK client, modelled in Dafny

This project models the decision logic of the KeyClaim Go client (`client.go`). The client
talks to a challenge-response API. It creates a challenge, derives a response from it with one
of four methods (`echo`, `hmac`, `hash`, `custom`), and has the server validate the pair.
Everything is modelled as datatypes, functions and lemmas. The source has no state that
changes after construction, so there are no classes and no loops.

Modules, leaf first:

- `Wrappers` (wrappers.dfy): `Option` and `Result`. They stand for Go's nil pointers and its
  `(value, error)` returns.
- `GoStrings` (gostrings.dfy): Go strings as byte sequences, and `hasPrefix`.
- `HexEncoding` (hex.dfy): `hex.EncodeToString` (lowercase hex) and a strict lowercase
  decoder `Unhex`. The decoder is the partner used to state what a response carries.
  The two are proved inverse in both directions.
- `KeyClaimTypes` (types.dfy): `Config`, the client record, the wire payloads, `KeyClaimError`,
  the error taxonomy, and `Library`. `Library` is a record of the library functions the
  client calls: SHA-256, HMAC-SHA-256 and the JSON encoders and decoders. They are
  uninterpreted, and every digest has 32 bytes.
- `KeyClaimConfig` (config.dfy): the three constructors and the TTL default.
- `ResponseGenerator` (response.dfy): `GenerateResponse`.
- `ErrorNormalizer` (errors.dfy): `handleErrorResponseFromBody` and `handleErrorResponse`.
- `ChallengeClient` (client.dfy): `CreateChallenge`, `ValidateChallenge`, `Validate` and
  `IsValid`. The HTTP round trip is a `Transport` parameter, a function from a request to
  a reply. Each call returns the requests it sent along with its result. So "nothing after
  the first error runs" is stated as "no further request is sent".

`ValidateChallenge` decodes the response body before it looks at the status
(client.go:237-250). A body that does not decode therefore gives a decode error on any
status, 500 included, and never reaches the error normalizer
(`ChallengeClient.MalformedBodyHidesStatus`).

## Model

| member | source | states |
|---|---|---|
| GoStrings.HasPrefix | client.go:330-332 | `hasPrefix(s, p)` holds exactly when `s` is `p` followed by some rest |
| HexEncoding.Hex | client.go:149 | the encoding has twice as many characters as there are bytes, all in `0-9a-f` |
| HexEncoding.UnhexOfHex | client.go:153 | decoding the hex encoding of any bytes returns those bytes |
| HexEncoding.HexOfUnhex | client.go:173 | encoding whatever the strict decoder accepts returns the same string, so the encoding is onto lowercase even-length hex |
| HexEncoding.UnhexAccepts | client.go:149 | the strict decoder accepts a string exactly when it has even length and only lowercase hex digits |
| HexEncoding.HexInjective | client.go:149 | two byte strings with the same hex encoding are equal |
| KeyClaimConfig.NewClientWithConfig | client.go:60-85 | fails with the invalid-key error exactly when the key is not "kc_" followed by something; on success it keeps the key, fixes the base URL, keeps a non-empty secret and otherwise uses the key as the secret |
| KeyClaimConfig.NewClientWithSecret | client.go:52-57 | succeeds exactly for well-formed keys; the secret is the given one, or the key when the given one is empty |
| KeyClaimConfig.NewClient | client.go:47-49 | succeeds exactly for well-formed keys and stores the key as the secret |
| KeyClaimConfig.EmptyKeyLacksPrefix | client.go:61 | the empty key is already rejected by the prefix test, so the `== ""` disjunct adds nothing |
| KeyClaimConfig.ConstructionExamples | client_test.go:10-32 | "invalid-key" and "" are rejected; a "kc_" key is accepted and becomes the secret |
| KeyClaimConfig.EffectiveTtl | client.go:101-103 | the TTL sent is never 0: 30 for an argument of 0, the argument itself otherwise |
| ResponseGenerator.MethodNamesDistinct | client.go:25-30 | the four method names are pairwise different, so the dispatch is unambiguous |
| ResponseGenerator.CustomInput | client.go:160-170 | the custom input is challenge ":" data for a Go string, challenge ":" JSON for other data, nothing for nil data or a marshal failure |
| ResponseGenerator.GenerateResponse | client.go:141-178 | echo returns the challenge; hmac, hash and custom return 64 lowercase hex digits that decode to HMAC(secret, challenge), SHA-256(challenge ++ secret) and SHA-256(challenge ++ ":" ++ data); nil custom data, a marshal failure and an unknown method are errors |
| ResponseGenerator.GenerateFailsExactly | client.go:141-178 | an error comes exactly from an unknown method, or from the custom method with nil data or unmarshallable data |
| ResponseGenerator.DigestResponseIsHexOfDigest | client.go:146-153 | the hash and hmac responses are exactly the hex encodings of their digests |
| ResponseGenerator.EchoIgnoresSecretAndData | client.go:143-144 | echo does not depend on the secret or on the custom data |
| ResponseGenerator.CustomIgnoresSecret | client.go:155-173 | the custom method does not depend on the secret |
| ResponseGenerator.DigestMethodsIgnoreData | client.go:146-153 | hash and hmac do not depend on the custom data |
| ResponseGenerator.HmacSeparatesSecrets | client.go:146-149 | two secrets whose HMACs of the challenge differ give different hmac responses |
| ResponseGenerator.HashSeesOnlyConcatenation | client.go:151-153 | the hash response depends only on challenge ++ secret, as no separator stands between them |
| ErrorNormalizer.StringField | client.go:313-316 | a field counts only when it is present and a JSON string |
| ErrorNormalizer.NormalizeError | client.go:301-327 | the status is kept; an unparsable body gives the default message and no code; a string `error` gives message = code = that string; otherwise a string `message` gives the message and no code; otherwise the default message |
| ErrorNormalizer.CodeComesFromErrorField | client.go:310-326 | a non-empty code is the body's string `error` field and equals the message |
| ErrorNormalizer.MessageProvenance | client.go:310-320 | the message is the default, the `error` string or the `message` string, and it is one of the two strings whenever either is present |
| ErrorNormalizer.ErrorFieldWins | client.go:313-316 | when both fields are strings, `error` decides message and code |
| ErrorNormalizer.NonStringErrorFieldIgnored | client.go:313-320 | a non-string `error` field gives no code, and with no `message` field the message is the default |
| ErrorNormalizer.HandleErrorResponse | client.go:290-299 | a body that cannot be read gives the default message with the status kept; a body that can be read is normalized |
| ChallengeClient.CreateRequest | client.go:100-120 | the create request carries the defaulted, non-zero TTL and the API key as bearer token, posted to the create path |
| ChallengeClient.CreateChallenge | client.go:100-138 | sends exactly the create request; succeeds exactly on 200 with a body that decodes, returning the decoded challenge; a 200 whose body cannot be read or does not decode gives the decode error; a non-200 status gives the normalized error; no reply gives a transport error |
| ChallengeClient.ValidateRequest | client.go:203-224 | the validate request carries the challenge, the response and the optional decrypted challenge, with the API key as bearer token |
| ChallengeClient.ClassifyValidation | client.go:237-253 | an undecodable body is a decode error on any status; otherwise the result is the decoded outcome exactly on 200, or on 400/422 with `valid` present; any other status gives the normalized error with that status |
| ChallengeClient.ValidateChallenge | client.go:203-254 | sends exactly the validate request; no reply is a transport error, an unreadable body a read error, and a read body is classified |
| ChallengeClient.Validate | client.go:257-272 | always sends the create request first, and at most one more request, a validate request without decrypted challenge |
| ChallengeClient.ValidateStopsOnCreateError | client.go:259-262 | a create error is returned unchanged and no validate request is sent |
| ChallengeClient.ValidateStopsOnGenerateError | client.go:264-268 | a response-generation error is returned unchanged and no validate request is sent |
| ChallengeClient.ValidateChecksCreatedChallenge | client.go:270-271 | otherwise the created challenge and its response are validated with no decrypted challenge, and that result is returned |
| ChallengeClient.ValidateSendsHmacOfChallenge | client.go:257-272 | with hmac, the flow sends the hex HMAC of the created challenge under the client secret |
| ChallengeClient.IsValid | client.go:275-277 | true exactly when the flag is present and true; absent and false both read as invalid |
| ChallengeClient.AcceptedNon200CarriesFlag | client.go:243-251 | a non-200 outcome that is not an error has status 400 or 422 and a `valid` flag |
| ChallengeClient.MalformedBodyHidesStatus | client.go:237-240 | an undecodable body gives a decode error whatever the status |
| ChallengeClient.StructuredRejectionIsOutcome | client_test.go:154-176 | a 400 with `valid: false` and an error string is an outcome that reads as invalid, not an error |
| ChallengeClient.RateLimitedIsApiError | client.go:249-250 | a 500 with `{"error": "rate_limited"}` is an API error with that message and code and status 500 |
| ChallengeClient.AcceptedIsValid | client_test.go:127-152 | a 200 with `valid: true` is an outcome that reads as valid |

## Left out

- HTTP request construction and sending, headers other than the bearer token, `defer Body.Close` and the 30-second timeout: the round trip is the `Transport` parameter.
- The base64 decoding of the default base URL: it is the constant "https://keyclaim.org", since decoding a fixed valid literal cannot fail.
- The failure branches of `json.Marshal` on the request bodies and of `http.NewRequest`: a map of one int, a struct of strings and a fixed valid URL cannot make them fail.
- The internals of SHA-256, HMAC and `encoding/json`: they are uninterpreted fields of `Library`, and only the 32-byte digest length is assumed. `json.NewDecoder` (create) and `json.Unmarshal` (validate) are both abstract decoders; their difference on trailing data is not modelled.
- Go's type switch on the custom data: a value of a named string type goes to the marshaller, as in Go, and is represented by `Other`; a typed nil pointer is also `Other`, not `NoData`.
- The text of the errors built with `fmt.Errorf`, and `KeyClaimError.Error()`, which returns the message: errors are constructors of `Error`.
- Go's 64-bit `int` for the TTL and the status: no operation here does arithmetic on them.
