/** The client factory `getApi` and the client function it returns: checking
    the credentials, classifying the method, building the path, URL, body and
    headers, and handing the request to the transport. */
module Client {
  import opened Wrappers
  import opened Objects
  import Registry
  import Transport

  const ApiHost: string := "https://api.kraken.com"
  /** `API_VERSION` is the number 0; this is how it reads inside the path. */
  const ApiVersion: string := "0"
  const TimeoutMs: nat := 5000
  const UserAgent: string :=
    "kraken-com-api-node-ts/1.0.0 (NodeJS, Typescript, Repo - https://github.com/gbili/kraken-com-api-node-ts)"
  const MissingCredentials: string := "Could not find or load .env.API_KEY or .env.API_SECRET"

  /** A body parameter value: the source allows strings and numbers. */
  datatype ParamValue = Str(s: string) | Number(n: int)

  type Params = Entries<ParamValue>
  type Headers = Entries<string>

  /** The environment the factory reads: `API_KEY`, `API_SECRET`, `OTP_KRAKEN`. */
  datatype Env = Env(apiKey: Option<string>, apiSecret: Option<string>, otpKraken: Option<string>)

  /** What the returned closure captures: the credential pair and the chosen
      one-time password (which may still be falsy). */
  datatype Client = Client(key: string, secret: string, otp: Option<string>)

  /** The arguments `makeRequest` receives. */
  datatype Request = Request(url: string, headers: Headers, body: Params, timeout: nat)

  /** The HMAC signer, `getFullBodySignature(path, body, secret)`, as a given function. */
  type Signer = (string, Params, string) -> string

  /** JavaScript truthiness of an optional string: defined and non-empty. */
  predicate Truthy(s: Option<string>)
  {
    s.Some? && s.value != ""
  }

  /** `(otpParam && otpParam) || process.env.OTP_KRAKEN`. */
  function ChooseOtp(otpParam: Option<string>, envOtp: Option<string>): (otp: Option<string>)
    ensures Truthy(otp) <==> Truthy(otpParam) || Truthy(envOtp)
    ensures Truthy(otp) ==> otp == otpParam || otp == envOtp
  {
    if Truthy(otpParam) then otpParam else envOtp
  }

  /** `getApi(otpParam)`: fails when the key or the secret is undefined,
      before any client exists; otherwise captures them and the chosen OTP. */
  function GetApi(otpParam: Option<string>, env: Env): (r: Result<Client, string>)
    ensures r.Failure? <==> env.apiKey.None? || env.apiSecret.None?
    ensures r.Failure? ==> r.error == MissingCredentials
    ensures r.Success? ==> r.value.key == env.apiKey.value && r.value.secret == env.apiSecret.value
    ensures r.Success? ==> (Truthy(r.value.otp) <==> Truthy(otpParam) || Truthy(env.otpKraken))
    ensures r.Success? && Truthy(otpParam) ==> r.value.otp == otpParam
    ensures r.Success? && !Truthy(otpParam) ==> r.value.otp == env.otpKraken
  {
    if env.apiKey.None? || env.apiSecret.None? then Failure(MissingCredentials)
    else Success(Client(env.apiKey.value, env.apiSecret.value, ChooseOtp(otpParam, env.otpKraken)))
  }

  /** `Date.now() * 1000`, from the clock reading in milliseconds. */
  function Nonce(nowMillis: nat): nat
  {
    nowMillis * 1000
  }

  /** `/${API_VERSION}/${methodType}/${methodName}`. */
  function ApiPath(p: Registry.Privacy, name: string): (path: string)
    ensures |path| > |name| && path[0] == '/' && path[|path| - |name|..] == name
  {
    "/" + ApiVersion + "/" + Registry.PrivacyName(p) + "/" + name
  }

  /** `{...methodParams, nonce}`, then `otp` on top when the client's OTP is
      truthy. Every caller parameter survives except `nonce`, which is always
      replaced, and `otp`, which is replaced only when an OTP is set; the
      caller's parameters keep their order. */
  function RequestBody(client: Client, params: Params, nowMillis: nat): (body: Params)
    requires DistinctKeys(params)
    ensures DistinctKeys(body)
    ensures Lookup(body, "nonce") == Some(Number(nowMillis * 1000))
    ensures Truthy(client.otp) ==> Lookup(body, "otp") == Some(Str(client.otp.value))
    ensures !Truthy(client.otp) ==> Lookup(body, "otp") == Lookup(params, "otp")
    ensures forall k :: k != "nonce" && k != "otp" ==> Lookup(body, k) == Lookup(params, k)
    ensures |Keys(params)| <= |Keys(body)| && Keys(body)[..|Keys(params)|] == Keys(params)
  {
    var withNonce := Put(params, "nonce", Number(Nonce(nowMillis)));
    if Truthy(client.otp) then Put(withNonce, "otp", Str(client.otp.value)) else withNonce
  }

  /** `{'API-Key': key, 'User-Agent': userAgent, ...privateMethodRequestHeaders}`,
      where the spread object holds `API-Sign` only for a private method. */
  function RequestHeaders(client: Client, p: Registry.Privacy, path: string, body: Params, sign: Signer)
    : (headers: Headers)
    ensures DistinctKeys(headers)
    ensures Lookup(headers, "API-Key") == Some(client.key)
    ensures Lookup(headers, "User-Agent") == Some(UserAgent)
    ensures Lookup(headers, "API-Sign")
         == if p == Registry.Private then Some(sign(path, body, client.secret)) else None
    ensures Keys(headers)
         == ["API-Key", "User-Agent"] + if p == Registry.Private then ["API-Sign"] else []
  {
    var signature: Headers :=
      if p == Registry.Private then [("API-Sign", sign(path, body, client.secret))] else [];
    var fixed: Headers := [("API-Key", client.key), ("User-Agent", UserAgent)];
    assert fixed[1..] == [("User-Agent", UserAgent)] && fixed[1..][1..] == [];
    assert Keys(fixed[1..][1..]) == [];
    assert Keys(fixed[1..]) == ["User-Agent"];
    assert Keys(fixed) == ["API-Key", "User-Agent"];
    assert DistinctKeys(fixed);
    assert "API-Sign" !in Keys(fixed);
    assert p == Registry.Private ==> Spread(fixed, signature) == Put(fixed, "API-Sign", signature[0].1) by {
      if p == Registry.Private {
        assert signature[1..] == [];
      }
    }
    Spread(fixed, signature)
  }

  /** The path and URL of a public method; the URL joins the host and the
      path with a slash although the path starts with one. */
  lemma PublicLocation(name: string)
    ensures ApiPath(Registry.Public, name) == "/0/public/" + name
    ensures ApiHost + "/" + ApiPath(Registry.Public, name) == "https://api.kraken.com//0/public/" + name
    ensures "https://api.kraken.com//0/" + Registry.PrivacyName(Registry.Public) + "/" + name
         == "https://api.kraken.com//0/public/" + name
  {
  }

  /** The URL joins the host and the path of either class with a slash. */
  lemma UrlOfPath(p: Registry.Privacy, name: string)
    ensures ApiHost + "/" + ApiPath(p, name) == "https://api.kraken.com//0/" + Registry.PrivacyName(p) + "/" + name
  {
  }

  /** The path and URL of a private method. */
  lemma PrivateLocation(name: string)
    ensures ApiPath(Registry.Private, name) == "/0/private/" + name
    ensures ApiHost + "/" + ApiPath(Registry.Private, name) == "https://api.kraken.com//0/private/" + name
    ensures "https://api.kraken.com//0/" + Registry.PrivacyName(Registry.Private) + "/" + name
         == "https://api.kraken.com//0/private/" + name
  {
  }

  /** The message thrown for a name the registry does not know. */
  function InvalidMethod(name: string): (message: string)
    ensures |message| > |name| && message[..|name|] == name
  {
    name + " is not a valid API method."
  }

  /** The client function up to the transport call: an unknown name fails
      with its message and builds nothing; a known name yields the request
      `makeRequest` would receive. */
  function BuildRequest(client: Client, name: string, params: Params, nowMillis: nat, sign: Signer)
    : (r: Result<Request, string>)
    requires DistinctKeys(params)
    ensures r.Failure? <==> Registry.GetMethodType(name).None?
    ensures r.Failure? ==> r.error == name + " is not a valid API method."
    ensures r.Success? ==> r.value.body == RequestBody(client, params, nowMillis) && r.value.timeout == 5000
    ensures r.Success? ==>
      (Lookup(r.value.headers, "API-Sign").Some? <==> Registry.GetMethodType(name) == Some(Registry.Private))
  {
    match Registry.GetMethodType(name)
    case None => Failure(InvalidMethod(name))
    case Some(p) =>
      var path := ApiPath(p, name);
      var body := RequestBody(client, params, nowMillis);
      var headers := RequestHeaders(client, p, path, body, sign);
      Success(Request(ApiHost + "/" + path, headers, body, TimeoutMs))
  }

  /** One call of the client function. The transport (`got` and
      `JSON.parse`) is the given `send`; its failures propagate unchanged. */
  function Call<T>(client: Client, name: string, params: Params, nowMillis: nat, sign: Signer,
                   send: Request -> Result<Transport.Envelope<T>, string>): (r: Result<T, string>)
    requires DistinctKeys(params)
    ensures Registry.GetMethodType(name).None? ==> r == Failure(name + " is not a valid API method.")
    ensures r.Success? ==>
      && BuildRequest(client, name, params, nowMillis, sign).Success?
      && var response := send(BuildRequest(client, name, params, nowMillis, sign).value);
         response.Success? && (response.value.error.None? || response.value.error.value == [])
         && r.value == response.value.result
  {
    match BuildRequest(client, name, params, nowMillis, sign)
    case Failure(e) => Failure(e)
    case Success(request) =>
      match send(request)
      case Failure(e) => Failure(e)
      case Success(response) => Transport.Interpret(response)
  }

  /** A name in neither list fails with "<name> is not a valid API method."
      whatever the transport would have answered: no request is sent. */
  lemma UnknownMethodRejected<T>(client: Client, name: string, params: Params, nowMillis: nat,
                                 sign: Signer, send: Request -> Result<Transport.Envelope<T>, string>)
    requires DistinctKeys(params)
    requires name !in Registry.PublicNames && name !in Registry.PrivateNames
    ensures BuildRequest(client, name, params, nowMillis, sign) == Failure(name + " is not a valid API method.")
    ensures Call(client, name, params, nowMillis, sign, send) == Failure(name + " is not a valid API method.")
  {
    Registry.GetMethodTypeSpec(name);
  }

  /** A name of class `p` yields a request to the double-slash URL of that
      class, carrying the body `RequestBody` describes, the 5000 ms timeout,
      `API-Key` and `User-Agent`, and, for a private method only, `API-Sign`
      computed over the path and that body. */
  lemma KnownMethodRequest(client: Client, name: string, params: Params, nowMillis: nat, sign: Signer,
                           p: Registry.Privacy)
    requires DistinctKeys(params)
    requires Registry.GetMethodType(name) == Some(p)
    ensures BuildRequest(client, name, params, nowMillis, sign).Success?
    ensures var rq := BuildRequest(client, name, params, nowMillis, sign).value;
      && rq.url == "https://api.kraken.com//0/" + Registry.PrivacyName(p) + "/" + name
      && rq.body == RequestBody(client, params, nowMillis)
      && rq.timeout == 5000
      && Lookup(rq.headers, "API-Key") == Some(client.key)
      && Lookup(rq.headers, "User-Agent") == Some(UserAgent)
      && Lookup(rq.headers, "API-Sign")
         == (if p == Registry.Private then Some(sign("/0/private/" + name, rq.body, client.secret)) else None)
      && Keys(rq.headers) == ["API-Key", "User-Agent"] + (if p == Registry.Private then ["API-Sign"] else [])
  {
    var path := ApiPath(p, name);
    var body := RequestBody(client, params, nowMillis);
    var rq := BuildRequest(client, name, params, nowMillis, sign).value;
    assert rq == Request(ApiHost + "/" + path, RequestHeaders(client, p, path, body, sign), body, TimeoutMs);
    UrlOfPath(p, name);
    if p == Registry.Private {
      PrivateLocation(name);
    }
  }

  /** A public name yields a request to `https://api.kraken.com//0/public/<name>`
      (the host and the path are joined with a slash, and the path starts
      with one) with no `API-Sign` header. */
  lemma PublicMethodRequest(client: Client, name: string, params: Params, nowMillis: nat, sign: Signer)
    requires DistinctKeys(params)
    requires name in Registry.PublicNames
    ensures BuildRequest(client, name, params, nowMillis, sign).Success?
    ensures BuildRequest(client, name, params, nowMillis, sign).value.url
         == "https://api.kraken.com//0/public/" + name
    ensures Lookup(BuildRequest(client, name, params, nowMillis, sign).value.headers, "API-Sign") == None
    ensures BuildRequest(client, name, params, nowMillis, sign).value.timeout == 5000
  {
    assert Registry.GetMethodType(name) == Some(Registry.Public) by {
      Registry.GetMethodTypeSpec(name);
    }
    KnownMethodRequest(client, name, params, nowMillis, sign, Registry.Public);
    PublicLocation(name);
  }

  /** A private name yields a request to `https://api.kraken.com//0/private/<name>`
      whose `API-Sign` header is the signature of the path and of the final
      body, `nonce` and `otp` included. */
  lemma PrivateMethodRequest(client: Client, name: string, params: Params, nowMillis: nat, sign: Signer)
    requires DistinctKeys(params)
    requires name in Registry.PrivateNames
    ensures BuildRequest(client, name, params, nowMillis, sign).Success?
    ensures BuildRequest(client, name, params, nowMillis, sign).value.url
         == "https://api.kraken.com//0/private/" + name
    ensures Lookup(BuildRequest(client, name, params, nowMillis, sign).value.headers, "API-Sign")
         == Some(sign("/0/private/" + name, RequestBody(client, params, nowMillis), client.secret))
    ensures BuildRequest(client, name, params, nowMillis, sign).value.body
         == RequestBody(client, params, nowMillis)
  {
    assert Registry.GetMethodType(name) == Some(Registry.Private) by {
      Registry.GetMethodTypeSpec(name);
    }
    KnownMethodRequest(client, name, params, nowMillis, sign, Registry.Private);
    PrivateLocation(name);
  }

  /** For a known name, the request is sent and its envelope decides the
      outcome; a transport failure comes back unchanged. */
  lemma KnownMethodSent<T>(client: Client, name: string, params: Params, nowMillis: nat,
                           sign: Signer, send: Request -> Result<Transport.Envelope<T>, string>)
    requires DistinctKeys(params)
    requires name in Registry.PublicNames || name in Registry.PrivateNames
    ensures BuildRequest(client, name, params, nowMillis, sign).Success?
    ensures var request := BuildRequest(client, name, params, nowMillis, sign).value;
      Call(client, name, params, nowMillis, sign, send)
        == if send(request).Failure? then Failure(send(request).error)
           else Transport.Interpret(send(request).value)
  {
    Registry.GetMethodTypeSpec(name);
  }

  /** Two calls in the same millisecond carry the same nonce, and a later
      millisecond gives a larger one. */
  lemma NonceFollowsClock(client: Client, params: Params, t1: nat, t2: nat)
    requires DistinctKeys(params)
    ensures t1 == t2 ==>
      Lookup(RequestBody(client, params, t1), "nonce") == Lookup(RequestBody(client, params, t2), "nonce")
    ensures t1 < t2 ==>
      Lookup(RequestBody(client, params, t1), "nonce").value.n
        < Lookup(RequestBody(client, params, t2), "nonce").value.n
  {
  }
}
