/** The IBM Cloud Functions REST client
    (`pywren_ibm_cloud/libs/ibm_cloudfunctions/client.py`): how the constructor picks
    the endpoint, the namespace and the credentials, how request URLs are assembled,
    and how the answers to `invoke`, `list_actions` and `list_packages` are classified.
    The HTTP exchange itself is a parameter: what the transport did for each attempt. */
module CloudFunctions {
  import opened Wrappers
  import opened PyStr
  import opened PyValues

  /** The credential a client authenticates with: an API key sent as HTTP Basic
      authentication, or the token of a token manager sent as a bearer token. */
  datatype Auth = Basic(apiKey: string) | Bearer(token: string)

  /** The state a constructed `CloudFunctionsClient` works with. `effectiveNamespace`
      is `None` when it was chosen from a `namespace_id` that was not given. */
  datatype Client = Client(endpoint: string, namespace: string, namespaceId: Option<string>,
                           effectiveNamespace: Option<string>, auth: Auth)

  /** Why a client operation raised. */
  datatype ClientError =
    | NoCredentials          // neither an API key nor a token manager: `auth` is unbound
    | NoNamespace            // `'/'.join` over a `None` namespace
    | TransportFailed(reason: string)
    | MalformedBody          // `in` or `[...]` on a body that is not a dict
    | Unauthorized           // 401
    | NotDeployed(action: string)   // 404
    | ServiceError(error: Option<Value>)   // `data['error']` (`None` when it is absent)
    | UnableToListPackages

  /** What the transport did for one request: it raised (a connection error, or a body
      that is not JSON), or it delivered a status and a decoded body. */
  datatype Transport = Failed(reason: string) | Responded(status: int, body: Value)

  /** Why `invoke` returned no activation id. */
  datatype NoActivation = TooManyRequests | RetryFailed(reason: string)

  /** The message `invoke` returns with status 429. */
  const TooManyRequestsMessage: string := "Too many concurrent requests in flight"

  /** An optional string setting is truthy. */
  predicate Given(s: Option<string>) {
    s.Some? && s.value != ""
  }

  /** Lines 30-51, the constructor: every `http:` of the endpoint becomes `https:`;
      an API key takes precedence over a token manager and selects `namespace`, a token
      manager selects `namespace_id`; with neither the constructor raises. */
  function NewClient(endpoint: string, namespace: string, namespaceId: Option<string>,
                     apiKey: Option<string>, tokenManager: Option<string>): (r: Result<Client, ClientError>)
    ensures r.Ok? <==> Given(apiKey) || tokenManager.Some?
    ensures r.Err? ==> r == Err(NoCredentials)
    ensures r.Ok? ==> r.value.endpoint == Replace(endpoint, "http:", "https:")
    ensures r.Ok? ==> r.value.namespace == namespace && r.value.namespaceId == namespaceId
    ensures Given(apiKey) ==>
              r.Ok? && r.value.effectiveNamespace == Some(namespace) && r.value.auth == Basic(apiKey.value)
    ensures !Given(apiKey) && tokenManager.Some? ==>
              r.Ok? && r.value.effectiveNamespace == namespaceId && r.value.auth == Bearer(tokenManager.value)
  {
    var secure := Replace(endpoint, "http:", "https:");
    if Given(apiKey) then Ok(Client(secure, namespace, namespaceId, Some(namespace), Basic(apiKey.value)))
    else if tokenManager.Some? then Ok(Client(secure, namespace, namespaceId, namespaceId, Bearer(tokenManager.value)))
    else Err(NoCredentials)
  }

  /** `'/'.join(...)` of a resource under the client's namespace: the endpoint, the
      fixed `api/v1/namespaces` path, the namespace, then `segments`. */
  function ResourceUrl(client: Client, segments: seq<string>): (r: Result<string, ClientError>)
    ensures client.effectiveNamespace.None? <==> r == Err(NoNamespace)
    ensures r.Ok? ==> r.value == Join("/", [client.endpoint, "api", "v1", "namespaces",
                                            client.effectiveNamespace.value] + segments)
  {
    if client.effectiveNamespace.None? then Err(NoNamespace)
    else Ok(Join("/", [client.endpoint, "api", "v1", "namespaces", client.effectiveNamespace.value] + segments))
  }

  lemma JoinCons(sep: string, x: string, rest: seq<string>)
    requires rest != []
    ensures Join(sep, [x] + rest) == x + sep + Join(sep, rest)
  {
    assert ([x] + rest)[1..] == rest;
  }

  /** The fixed path between the endpoint and the namespace. */
  lemma ApiPath(e: string, tail: string)
    ensures e + "/" + ("api" + "/" + ("v1" + "/" + ("namespaces" + "/" + tail))) == e + "/api/v1/namespaces/" + tail
  {
    var p := "/" + "api" + "/" + "v1" + "/" + "namespaces" + "/";
    assert p == "/api/v1/namespaces/";
    assert e + "/" + ("api" + "/" + ("v1" + "/" + ("namespaces" + "/" + tail))) == e + p + tail;
  }

  /** `'/'.join` of the endpoint, the fixed path, the namespace and more segments. */
  lemma JoinResource(endpoint: string, ns: string, segments: seq<string>)
    requires segments != []
    ensures Join("/", [endpoint, "api", "v1", "namespaces", ns] + segments) ==
              endpoint + "/api/v1/namespaces/" + (ns + "/" + Join("/", segments))
  {
    var p4 := [ns] + segments;
    var p3 := ["namespaces"] + p4;
    var p2 := ["v1"] + p3;
    var p1 := ["api"] + p2;
    assert [endpoint, "api", "v1", "namespaces", ns] + segments == [endpoint] + p1;
    JoinCons("/", ns, segments);
    JoinCons("/", "namespaces", p4);
    JoinCons("/", "v1", p3);
    JoinCons("/", "api", p2);
    JoinCons("/", endpoint, p1);
    ApiPath(endpoint, ns + "/" + Join("/", segments));
  }

  /** Line 194: the invoke URL is `<endpoint>/api/v1/namespaces/<ns>/actions/<package>/<action>`. */
  lemma ActionUrlShape(client: Client, package: string, action: string)
    requires client.effectiveNamespace.Some?
    ensures ResourceUrl(client, ["actions", package, action]) ==
              Ok(client.endpoint + "/api/v1/namespaces/" + (client.effectiveNamespace.value +
                 "/actions/" + package + "/" + action))
  {
    var ns := client.effectiveNamespace.value;
    JoinResource(client.endpoint, ns, ["actions", package, action]);
    assert ["actions", package, action] == ["actions"] + [package, action];
    JoinCons("/", "actions", [package, action]);
    assert [package, action] == [package] + [action];
    JoinCons("/", package, [action]);
    assert ns + "/" + ("actions" + "/" + (package + "/" + action)) == ns + ("/" + "actions" + "/") + package + "/" + action;
    assert "/" + "actions" + "/" == "/actions/";
  }

  /** Line 112: the action listing URL ends with '/' (the empty last segment). */
  lemma ListActionsUrlShape(client: Client, package: string)
    requires client.effectiveNamespace.Some?
    ensures ResourceUrl(client, ["actions", package, ""]) ==
              Ok(client.endpoint + "/api/v1/namespaces/" + (client.effectiveNamespace.value +
                 "/actions/" + package + "/"))
  {
    var ns := client.effectiveNamespace.value;
    JoinResource(client.endpoint, ns, ["actions", package, ""]);
    assert ["actions", package, ""] == ["actions"] + [package, ""];
    JoinCons("/", "actions", [package, ""]);
    assert [package, ""] == [package] + [""];
    JoinCons("/", package, [""]);
    assert ns + "/" + ("actions" + "/" + (package + "/" + "")) == ns + ("/" + "actions" + "/") + package + "/";
    assert "/" + "actions" + "/" == "/actions/";
  }

  /** Lines 219-230: classify the answer to an invocation of `action`. Status 202 with
      an `activationId` yields that id; 429 yields no id and the throttling message;
      every other answer raises. */
  function ClassifyInvoke(status: int, body: Value, action: string): (r: Result<(Option<Value>, Option<NoActivation>), ClientError>)
    ensures r.Ok? && r.value.0.Some? <==> status == 202 && GetItem(body, "activationId").Some?
    ensures r.Ok? && r.value.0.Some? ==> r.value == (GetItem(body, "activationId"), None)
    ensures r.Ok? && r.value.0.None? <==> status == 429
    ensures status == 429 ==> r == Ok((None, Some(TooManyRequests)))
    ensures status == 401 ==> r == Err(Unauthorized)
    ensures status == 404 ==> r == Err(NotDeployed(action))
    ensures status == 202 && GetItem(body, "activationId").None? ==> r.Err?
  {
    if status == 202 && ContainsKey(body, "activationId") != Ok(false) then
      match ContainsKey(body, "activationId")
      case Err(_) => Err(MalformedBody)
      case Ok(_) =>
        match GetItem(body, "activationId")
        case None => Err(MalformedBody)
        case Some(id) => Ok((Some(id), None))
    else if status == 429 then Ok((None, Some(TooManyRequests)))
    else if status == 401 then Err(Unauthorized)
    else if status == 404 then Err(NotDeployed(action))
    else Err(ServiceError(GetItem(body, "error")))
  }

  /** Lines 190-230, `invoke`: build the URL, post the payload, and classify the answer.
      A transport failure is retried once (`selfInvoked` marks the retry); a failure of
      the retry is returned as the reason instead of raised. `attempt(false)` is what the
      transport does for the first request, `attempt(true)` for the retry. */
  function Invoke(client: Client, package: string, action: string,
                  attempt: bool -> Transport, selfInvoked: bool := false):
    (r: Result<(Option<Value>, Option<NoActivation>), ClientError>)
    ensures client.effectiveNamespace.None? ==> r == Err(NoNamespace)
    ensures client.effectiveNamespace.Some? && attempt(selfInvoked).Responded? ==>
              r == ClassifyInvoke(attempt(selfInvoked).status, attempt(selfInvoked).body, action)
    ensures client.effectiveNamespace.Some? && attempt(true).Failed? && (selfInvoked || attempt(false).Failed?) ==>
              r == Ok((None, Some(RetryFailed(attempt(true).reason))))
    ensures r.Ok? && r.value.0.None? ==> r.value.1.Some?
    decreases if selfInvoked then 0 else 1
  {
    match ResourceUrl(client, ["actions", package, action])
    case Err(e) => Err(e)
    case Ok(_) =>
      match attempt(selfInvoked)
      case Failed(reason) =>
        if selfInvoked then Ok((None, Some(RetryFailed(reason))))
        else Invoke(client, package, action, attempt, true)
      case Responded(status, body) => ClassifyInvoke(status, body, action)
  }

  /** The request is sent at most twice: an answer to the first request is classified
      without a retry, a transport failure leads to exactly one retry, and two failures
      return the second failure's reason. */
  lemma InvokeRetriesOnce(client: Client, package: string, action: string, attempt: bool -> Transport)
    requires client.effectiveNamespace.Some?
    ensures attempt(false).Responded? ==>
              Invoke(client, package, action, attempt) ==
                ClassifyInvoke(attempt(false).status, attempt(false).body, action)
    ensures attempt(false).Failed? && attempt(true).Responded? ==>
              Invoke(client, package, action, attempt) ==
                ClassifyInvoke(attempt(true).status, attempt(true).body, action)
    ensures attempt(false).Failed? && attempt(true).Failed? ==>
              Invoke(client, package, action, attempt) == Ok((None, Some(RetryFailed(attempt(true).reason))))
    ensures Invoke(client, package, action, attempt).Ok? &&
            Invoke(client, package, action, attempt).value.0.None? ==>
              Invoke(client, package, action, attempt).value.1.Some?
  {
  }

  /** Without a namespace the URL cannot be built, and nothing is sent. */
  lemma InvokeWithoutNamespace(client: Client, package: string, action: string, attempt: bool -> Transport)
    requires client.effectiveNamespace.None?
    ensures Invoke(client, package, action, attempt) == Err(NoNamespace)
  {
  }

  /** Lines 107-117, `list_actions`: the decoded body on status 200, an empty list on
      any other status; a transport failure is not caught. */
  function ListActions(client: Client, package: string, response: Transport): (r: Result<Value, ClientError>)
    ensures client.effectiveNamespace.None? ==> r == Err(NoNamespace)
    ensures client.effectiveNamespace.Some? && response.Failed? ==> r == Err(TransportFailed(response.reason))
    ensures client.effectiveNamespace.Some? && response.Responded? ==>
              r == Ok(if response.status == 200 then response.body else VList([]))
  {
    match ResourceUrl(client, ["actions", package, ""])
    case Err(e) => Err(e)
    case Ok(_) =>
      match response
      case Failed(reason) => Err(TransportFailed(reason))
      case Responded(status, body) => Ok(if status == 200 then body else VList([]))
  }

  /** Lines 145-158, `list_packages`: the decoded body on status 200; any other status
      raises. */
  function ListPackages(client: Client, response: Transport): (r: Result<Value, ClientError>)
    ensures client.effectiveNamespace.None? ==> r == Err(NoNamespace)
    ensures client.effectiveNamespace.Some? && response.Failed? ==> r == Err(TransportFailed(response.reason))
    ensures client.effectiveNamespace.Some? && response.Responded? ==>
              (r.Ok? <==> response.status == 200) &&
              (r.Ok? ==> r.value == response.body) &&
              (r.Err? ==> r == Err(UnableToListPackages))
  {
    match ResourceUrl(client, ["packages"])
    case Err(e) => Err(e)
    case Ok(_) =>
      match response
      case Failed(reason) => Err(TransportFailed(reason))
      case Responded(status, body) => if status == 200 then Ok(body) else Err(UnableToListPackages)
  }

  /** On the same failing status, `list_actions` answers an empty list while
      `list_packages` raises. */
  lemma ListingsDisagreeOnFailure(client: Client, package: string, status: int, body: Value)
    requires client.effectiveNamespace.Some? && status != 200
    ensures ListActions(client, package, Responded(status, body)) == Ok(VList([]))
    ensures ListPackages(client, Responded(status, body)).Err?
  {
  }

  /** `replace("http:", "https:")` only changes characters at an `http:`, so a result that
      starts with a string without 'h' came from a string that starts with it. */
  lemma {:induction false} SecurePrefix(x: string, p: string)
    requires 'h' !in p
    ensures StartsWith(Replace(x, "http:", "https:"), p) ==> StartsWith(x, p)
  {
    var rx := Replace(x, "http:", "https:");
    if p != [] && |x| >= 5 {
      if x[..5] == "http:" {
        assert rx[0] == 'h';
        assert p[0] != 'h';
      } else {
        var t := Replace(x[1..], "http:", "https:");
        assert rx == [x[0]] + t;
        SecurePrefix(x[1..], p[1..]);
        if StartsWith(rx, p) {
          assert p[0] == x[0];
          assert t[..|p| - 1] == rx[..|p|][1..];
          assert x[..|p|] == [x[0]] + x[1..][..|p| - 1];
        }
      }
    }
  }

  /** After the constructor's replacement no `http:` starts at index `j`. */
  lemma {:induction false} SecureAt(s: string, j: nat)
    ensures !OccursAt(Replace(s, "http:", "https:"), "http:", j)
    decreases |s|, 1
  {
    if |s| >= 5 && s[..5] == "http:" {
      SecureAtReplaced(s, j);
    } else if |s| >= 5 {
      SecureAtKept(s, j);
    }
  }

  /** `SecureAt` when `s` starts with `http:`, which becomes `https:`. */
  lemma {:induction false} SecureAtReplaced(s: string, j: nat)
    requires |s| >= 5 && s[..5] == "http:"
    ensures !OccursAt(Replace(s, "http:", "https:"), "http:", j)
    decreases |s|, 0
  {
    var r := Replace(s, "http:", "https:");
    var t := Replace(s[5..], "http:", "https:");
    var h: string := "https:";
    assert |h| == 6 && h[0] == 'h' && h[1] == 't' && h[2] == 't' && h[3] == 'p' && h[4] == 's' && h[5] == ':';
    assert r == h + t;
    if j + 5 <= |r| {
      if j >= 6 {
        SecureAt(s[5..], j - 6);
        assert r[j..j + 5] == t[j - 6..j - 6 + 5];
      } else if j == 0 {
        assert r[4] == 's';
        assert r[j..j + 5][4] == r[4];
      } else {
        assert r[j] == h[j];
        assert r[j..j + 5][0] == r[j];
      }
    }
  }

  /** `SecureAt` when `s` does not start with `http:`: its first character is kept. */
  lemma {:induction false} SecureAtKept(s: string, j: nat)
    requires |s| >= 5 && s[..5] != "http:"
    ensures !OccursAt(Replace(s, "http:", "https:"), "http:", j)
    decreases |s|, 0
  {
    var r := Replace(s, "http:", "https:");
    var t := Replace(s[1..], "http:", "https:");
    assert r == [s[0]] + t;
    if j + 5 <= |r| {
      if j >= 1 {
        SecureAt(s[1..], j - 1);
        assert r[j..j + 5] == t[j - 1..j - 1 + 5];
      } else {
        SecurePrefix(s[1..], "ttp:");
        assert r[..5] == [s[0]] + t[..4];
        assert s[..5] == [s[0]] + s[1..][..4];
        assert "http:" == ['h'] + "ttp:";
        if s[0] != 'h' {
          assert r[..5][0] != "http:"[0];
        } else {
          assert s[1..][..4] != "ttp:";
          assert t[..4] != "ttp:";
          assert r[..5][1..] == t[..4];
        }
      }
    }
  }

  /** After the constructor's replacement the endpoint holds no `http:` at all. */
  lemma SecureEndpoint(s: string)
    ensures forall j: nat :: !OccursAt(Replace(s, "http:", "https:"), "http:", j)
  {
    forall j: nat
      ensures !OccursAt(Replace(s, "http:", "https:"), "http:", j)
    {
      SecureAt(s, j);
    }
  }

  /** Line 35: a constructed client's endpoint holds no `http:`. */
  lemma ClientEndpointIsSecure(endpoint: string, namespace: string, namespaceId: Option<string>,
                               apiKey: Option<string>, tokenManager: Option<string>)
    requires NewClient(endpoint, namespace, namespaceId, apiKey, tokenManager).Ok?
    ensures forall j: nat ::
              !OccursAt(NewClient(endpoint, namespace, namespaceId, apiKey, tokenManager).value.endpoint, "http:", j)
  {
    SecureEndpoint(endpoint);
  }
}
