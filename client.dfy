/** The API client: how the vendor SDK's exceptions are classified into the
    client's own error hierarchy, the failure path of client construction,
    the shape shared by every endpoint call, and the batch of domain
    profiles. The vendor SDK itself is a parameter: a function from the
    request the client makes to the data of the response, or the exception
    the call raised. */
module Client {
  import opened Wrappers
  import opened Text
  import opened Json

  /** The exceptions the client tells apart: the vendor SDK's
      NotAuthorizedException, BadRequestException and ServiceException, and
      every other exception. `message` is str(e). */
  datatype VendorException =
    | NotAuthorized(message: string)
    | BadRequest(message: string)
    | ServiceFailure(message: string)
    | OtherException(message: string)

  /** DomainToolsError and its four subclasses. */
  datatype ErrorKind =
    | DomainToolsError
    | AuthenticationError
    | RateLimitError
    | InvalidRequestError
    | NotFoundError

  /** isinstance(e, of) for an error of kind k: every kind is a
      DomainToolsError, and each subclass is only itself. */
  predicate IsInstance(k: ErrorKind, of: ErrorKind) {
    of == DomainToolsError || k == of
  }

  /** An exception the client raises: its class and str() of it. */
  datatype ClientError = ClientError(kind: ErrorKind, message: string)

  /** The message mentions a rate limit, in any letter case. */
  predicate MentionsRateLimit(message: string) {
    Contains(Lower(message), "rate limit")
  }

  /** _handle_exception: the error the client raises for exception e. It
      never returns normally, so the model returns the error raised. */
  function HandleException(e: VendorException): (r: ClientError)
    ensures r.kind == AuthenticationError <==> e.NotAuthorized?
    ensures r.kind == InvalidRequestError <==> e.BadRequest?
    ensures r.kind == RateLimitError <==> e.ServiceFailure? && MentionsRateLimit(e.message)
    ensures r.kind == DomainToolsError <==>
      e.OtherException? || (e.ServiceFailure? && !MentionsRateLimit(e.message))
    ensures r.kind != NotFoundError
    ensures !e.OtherException? ==> r.message == e.message
    ensures e.OtherException? ==> r.message == "Unexpected error: " + e.message
  {
    match e
    case NotAuthorized(m) => ClientError(AuthenticationError, m)
    case BadRequest(m) => ClientError(InvalidRequestError, m)
    case ServiceFailure(m) =>
      if MentionsRateLimit(m) then ClientError(RateLimitError, m) else ClientError(DomainToolsError, m)
    case OtherException(m) => ClientError(DomainToolsError, "Unexpected error: " + m)
  }

  /** Lower-casing twice is lower-casing once. */
  lemma LowerIdempotent(s: string)
    ensures Lower(Lower(s)) == Lower(s)
  {
    assert forall i :: 0 <= i < |s| ==> ToLower(ToLower(s[i])) == ToLower(s[i]);
  }

  /** The rate-limit test ignores letter case: a service exception is
      classified the same whatever the case of its message. */
  lemma RateLimitIgnoresCase(m: string)
    ensures HandleException(ServiceFailure(Lower(m))).kind == HandleException(ServiceFailure(m)).kind
  {
    LowerIdempotent(m);
  }

  /** A service exception whose message holds "rate limit" in any mix of
      letter cases ("Rate limit exceeded", "RATE LIMIT") is a
      RateLimitError. */
  lemma RateLimitAnyCase(m: string, w: string, i: nat)
    requires OccursAt(m, w, i) && Lower(w) == "rate limit"
    ensures HandleException(ServiceFailure(m)).kind == RateLimitError
  {
    var low := Lower(m);
    assert low[i..i + |w|] == Lower(w) by {
      assert forall j :: 0 <= j < |w| ==> low[i + j] == ToLower(m[i + j]) && m[i + j] == w[j];
    }
    assert OccursAt(low, "rate limit", i);
  }

  // ---------------------------------------------------------------------
  // Construction and the endpoint calls

  /** The SDK endpoints the client wraps, one per client method. */
  datatype Endpoint =
    | DomainProfile | DomainSearch | IrisInvestigate | IrisEnrich | IrisDetect
    | Whois | WhoisHistory | ReverseIp | ReverseWhois | HostDomains
    | NameServerMonitor | RegistrantMonitor | Reputation | ParsedWhois | BrandMonitor

  /** Every endpoint but iris_detect takes a domain, query, IP or
      nameserver first. */
  predicate TakesQuery(e: Endpoint) {
    e != IrisDetect
  }

  /** Every endpoint but domain_profile forwards keyword arguments. */
  predicate TakesKeywords(e: Endpoint) {
    e != DomainProfile
  }

  /** One SDK call: the endpoint, its positional argument and its keyword
      arguments. */
  datatype Request = Request(endpoint: Endpoint, query: Option<string>, kwargs: Entries)

  /** The SDK as the client sees it: for each request, `response.data()` of
      the call, or the exception the call or `data()` raised. */
  type Sdk = Request -> Result<Json, VendorException>

  datatype Credentials = Credentials(apiKey: string, apiSecret: string, apiUrl: Option<string>)

  datatype DomainToolsClient = DomainToolsClient(credentials: Credentials, api: Sdk)

  /** DomainToolsClient(...): `connect` stands for the SDK's constructor,
      which yields the SDK or raises with a message; a failure becomes an
      AuthenticationError. */
  function NewClient(creds: Credentials, connect: Credentials -> Result<Sdk, string>): (r: Result<DomainToolsClient, ClientError>)
    ensures r.Ok? <==> connect(creds).Ok?
    ensures r.Ok? ==> r.value.credentials == creds
    ensures r.Ok? ==> forall q :: r.value.api(q) == connect(creds).value(q)
    ensures r.Err? ==>
      r.error == ClientError(AuthenticationError, "Failed to initialize API client: " + connect(creds).error)
  {
    match connect(creds)
    case Ok(api) => Ok(DomainToolsClient(creds, api))
    case Err(m) => Err(ClientError(AuthenticationError, "Failed to initialize API client: " + m))
  }

  /** Any endpoint method: the request goes to the SDK with the query and
      keyword arguments unchanged, the data comes back as is, and an
      exception is re-raised as classified by HandleException. */
  function Call(client: DomainToolsClient, e: Endpoint, query: Option<string>, kwargs: Entries): (r: Result<Json, ClientError>)
    requires query.Some? <==> TakesQuery(e)
    requires TakesKeywords(e) || kwargs == []
    ensures var out := client.api(Request(e, query, kwargs));
      (out.Ok? ==> r == Ok(out.value)) && (out.Err? ==> r == Err(HandleException(out.error)))
    ensures r.Err? ==> IsInstance(r.error.kind, DomainToolsError) && r.error.kind != NotFoundError
  {
    match client.api(Request(e, query, kwargs))
    case Ok(data) => Ok(data)
    case Err(x) => Err(HandleException(x))
  }

  /** domain_profile(domain), which async_domain_profile runs in an
      executor. */
  function ProfileOf(client: DomainToolsClient, domain: string): Result<Json, ClientError> {
    Call(client, DomainProfile, Some(domain), [])
  }

  /** batch_domain_profiles: one slot per domain, in the order given,
      holding that domain's profile or the error its call raised. */
  function BatchDomainProfiles(client: DomainToolsClient, domains: seq<string>): (r: seq<Result<Json, ClientError>>)
    ensures |r| == |domains|
    ensures forall i :: 0 <= i < |domains| ==> r[i] == ProfileOf(client, domains[i])
  {
    if domains == [] then []
    else BatchDomainProfiles(client, domains[..|domains| - 1]) + [ProfileOf(client, domains[|domains| - 1])]
  }

  /** A batch over two lists of domains is the two batches one after the
      other: a slot depends only on its own domain. */
  lemma BatchConcat(client: DomainToolsClient, a: seq<string>, b: seq<string>)
    ensures BatchDomainProfiles(client, a + b) ==
            BatchDomainProfiles(client, a) + BatchDomainProfiles(client, b)
  {
    var r := BatchDomainProfiles(client, a + b);
    var s := BatchDomainProfiles(client, a) + BatchDomainProfiles(client, b);
    assert forall i :: 0 <= i < |a| + |b| ==> r[i] == s[i] by {
      forall i | 0 <= i < |a| + |b|
        ensures r[i] == s[i]
      {
        if i < |a| {
          assert (a + b)[i] == a[i];
        } else {
          assert (a + b)[i] == b[i - |a|];
        }
      }
    }
  }
}
