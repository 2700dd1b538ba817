/** Client construction and the create-challenge TTL default (client.go). */
module KeyClaimConfig {
  import opened Wrappers
  import opened GoStrings
  import opened KeyClaimTypes

  /** Every API key starts with this. */
  const KeyPrefix: GoString := Ascii("kc_")

  /** The decoded `defaultBaseURLB64`. */
  const DefaultBaseURL: GoString := Ascii("https://keyclaim.org")

  /** `defaultTTL`, in seconds. */
  const DefaultTtl: int := 30

  /** A well-formed API key: "kc_" followed by anything. */
  ghost predicate WellFormedKey(k: GoString)
  {
    exists rest :: k == KeyPrefix + rest
  }

  /** What every constructed client satisfies. */
  ghost predicate ValidClient(c: Client)
  {
    WellFormedKey(c.apiKey) && c.secret != [] && c.baseURL == DefaultBaseURL
  }

  /** `NewClientWithConfig`: rejects a malformed key, fixes the base URL and
      defaults an empty secret to the key. */
  function NewClientWithConfig(config: Config): (r: Result<Client, Error>)
    ensures r.Failure? <==> !WellFormedKey(config.apiKey)
    ensures r.Failure? ==> r.error == InvalidApiKey
    ensures r.Success? ==> ValidClient(r.value) && r.value.apiKey == config.apiKey
    ensures r.Success? && config.secret != [] ==> r.value.secret == config.secret
    ensures r.Success? && config.secret == [] ==> r.value.secret == config.apiKey
  {
    if config.apiKey == [] || !HasPrefix(config.apiKey, KeyPrefix) then
      Failure(InvalidApiKey)
    else
      var secret := if config.secret == [] then config.apiKey else config.secret;
      Success(Client(config.apiKey, DefaultBaseURL, secret))
  }

  /** `NewClientWithSecret`. */
  function NewClientWithSecret(apiKey: GoString, secret: GoString): (r: Result<Client, Error>)
    ensures r.Success? <==> WellFormedKey(apiKey)
    ensures r.Success? ==> r.value.apiKey == apiKey && ValidClient(r.value)
    ensures r.Success? ==> r.value.secret == if secret == [] then apiKey else secret
  {
    NewClientWithConfig(Config(apiKey, secret))
  }

  /** `NewClient`: the key is also the secret. */
  function NewClient(apiKey: GoString): (r: Result<Client, Error>)
    ensures r.Success? <==> WellFormedKey(apiKey)
    ensures r.Success? ==> r.value.apiKey == apiKey && r.value.secret == apiKey && ValidClient(r.value)
  {
    NewClientWithSecret(apiKey, apiKey)
  }

  /** The source's guard `key == "" || !hasPrefix(key, "kc_")`: its first disjunct is
      subsumed by the second, since "" is shorter than the prefix. */
  lemma EmptyKeyLacksPrefix()
    ensures !WellFormedKey([])
  {
    assert !HasPrefix([], KeyPrefix);
  }

  /** The construction cases the tests pin down. */
  lemma ConstructionExamples()
    ensures NewClient(Ascii("invalid-key")).Failure?
    ensures NewClient([]).Failure?
    ensures NewClient(Ascii("kc_test123")).Success?
    ensures NewClient(Ascii("kc_test123")).value.secret == Ascii("kc_test123")
  {
    var bad := Ascii("invalid-key");
    assert bad[0] != KeyPrefix[0];
    EmptyKeyLacksPrefix();
    var good := Ascii("kc_test123");
    assert good == KeyPrefix + good[3..];
  }

  /** The TTL CreateChallenge sends: the default when the argument is 0. */
  function EffectiveTtl(ttl: int): (t: int)
    ensures t != 0
    ensures ttl != 0 ==> t == ttl
    ensures ttl == 0 ==> t == DefaultTtl
  {
    if ttl == 0 then DefaultTtl else ttl
  }
}
