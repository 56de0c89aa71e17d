/**
 * The callback endpoint that receives the identity provider's redirect, the
 * queue that hands the AWS credentials from the callback to the playbook
 * hook, and the hook that publishes them in the process environment.
 *
 * The two network calls of the callback (the POST to the token endpoint and
 * STS `AssumeRoleWithWebIdentity`) are parameters: functions from the
 * request that is sent to the outcome that comes back, an exception being
 * one possible outcome.
 */
module TokenFetcher {
  import opened Wrappers
  import opened Base64Url
  import opened Query
  import opened Pkce
  import opened Requests

  /** A decoded JSON document, as `response.json()` returns it. */
  datatype Json =
    | JNull
    | JBool(b: bool)
    | JNumber(n: real)
    | JString(s: string)
    | JArray(elements: seq<Json>)
    | JObject(fields: map<string, Json>)

  /** Python truthiness of a decoded JSON value (`not value` is its negation). */
  predicate Truthy(j: Json)
    // The falsy JSON values are exactly null, false, zero and the empty string, array and object.
    ensures !Truthy(j) <==>
              j == JNull || j == JBool(false) || j == JNumber(0.0) || j == JString("") || j == JArray([]) || j == JObject(map[])
  {
    match j
    case JNull => false
    case JBool(b) => b
    case JNumber(n) => n != 0.0
    case JString(s) => s != ""
    case JArray(elements) => elements != []
    case JObject(fields) => fields != map[]
  }

  /** What a call into a foreign library produces: a value, or an exception. */
  datatype Outcome<T> = Returned(value: T) | Raised

  /** The `Credentials` entry of the STS response, reduced to the three keys the plugin reads. */
  datatype Credentials = Credentials(accessKeyId: string, secretAccessKey: string, sessionToken: string)

  /** The arguments of `assume_role_with_web_identity`. */
  datatype AssumeRoleRequest = AssumeRoleRequest(roleArn: string, roleSessionName: string, webIdentityToken: Json)

  /** The POST to the token endpoint: its URL and its form. */
  datatype TokenRequest = TokenRequest(url: string, form: Form)

  /** The HTTP answer of the callback view. */
  datatype Reply =
    | Refused(message: string)  // a text body with status 400
    | Succeeded                 // the page that closes the browser tab, status 200
    | Failed                    // an exception escaped the view: Flask answers 500

  function Status(r: Reply): (code: nat)
    ensures r.Refused? <==> code == 400
    ensures r.Succeeded? <==> code == 200
    ensures r.Failed? <==> code == 500
  {
    match r
    case Refused(_) => 400
    case Succeeded => 200
    case Failed => 500
  }

  const StateMismatch: string := "State parameter mismatch"
  const CodeNotFound: string := "Authorization code not found"
  const IdTokenNotFound: string := "ID Token not found in the response"

  /** Everything one request to `/callback` does: the reply, the calls it makes, what it enqueues. */
  datatype Handling = Handling(
    reply: Reply,
    tokenRequest: Option<TokenRequest>,
    stsRequest: Option<AssumeRoleRequest>,
    enqueued: Option<Credentials>)

  /** The token endpoint's answer read through `token_response.get("id_token")`; None when the call raises. */
  function IdTokenField(response: Outcome<Json>): (r: Option<Json>)
    ensures r.Some? <==> response.Returned? && response.value.JObject?
    ensures r.Some? && Truthy(r.value) ==> "id_token" in response.value.fields && r.value == response.value.fields["id_token"]
    ensures r.Some? && "id_token" !in response.value.fields ==> !Truthy(r.value)
  {
    match response
    case Returned(JObject(fields)) => Some(if "id_token" in fields then fields["id_token"] else JNull)
    case _ => None
  }

  /** True when `state` in the query string is the one this process sent. */
  predicate StateMatches(secrets: Secrets, args: Form)
    // The first `state` field carries this process's state; a request without `state` never matches.
    ensures StateMatches(secrets, args) <==>
              exists i :: 0 <= i < |args| && args[i] == ("state", secrets.state) && forall j :: 0 <= j < i ==> args[j].0 != "state"
  {
    Lookup(args, "state") == Some(secrets.state)
  }

  /** True when the query string carries a non-empty `code`. */
  predicate HasCode(args: Form)
    // The first `code` field is present and not empty.
    ensures HasCode(args) <==>
              exists i :: 0 <= i < |args| && args[i].0 == "code" && args[i].1 != "" && forall j :: 0 <= j < i ==> args[j].0 != "code"
  {
    Lookup(args, "code").Some? && Lookup(args, "code").value != ""
  }

  /**
   * The view `callback()`.  `args` are the query-string fields in order
   * (`request.args.get` reads the first of a repeated name), `post` stands
   * for `requests.post(...).json()` and `sts` for the STS call and the
   * `["Credentials"]` lookup.  The guards are tried in the order of the
   * source, and only a request that passes all of them enqueues anything.
   */
  function HandleCallback(cfg: Config, secrets: Secrets, args: Form,
                          post: TokenRequest -> Outcome<Json>,
                          sts: AssumeRoleRequest -> Outcome<Credentials>): (h: Handling)
    // The state check comes first: a foreign state is refused before any other check or call.
    ensures !StateMatches(secrets, args) ==> h == Handling(Refused(StateMismatch), None, None, None)
    // Then the code: without one, no token request is made.
    ensures StateMatches(secrets, args) && !HasCode(args) ==> h == Handling(Refused(CodeNotFound), None, None, None)
    // The token request is made exactly when both checks pass, with the received code and this process's verifier.
    ensures h.tokenRequest.Some? <==> StateMatches(secrets, args) && HasCode(args)
    ensures h.tokenRequest.Some? ==>
              h.tokenRequest.value == TokenRequest(cfg.tokenUrl, TokenForm(cfg, Lookup(args, "code").value, secrets.verifier))
    // STS is called exactly when the token response is a JSON object with a truthy id_token, and with that token.
    ensures h.stsRequest.Some? <==>
              h.tokenRequest.Some? && IdTokenField(post(h.tokenRequest.value)).Some?
              && Truthy(IdTokenField(post(h.tokenRequest.value)).value)
    ensures h.stsRequest.Some? ==>
              h.stsRequest.value
              == AssumeRoleRequest(RoleArn(cfg.accountId, cfg.roleName), RoleSessionName,
                                   IdTokenField(post(h.tokenRequest.value)).value)
    ensures h.tokenRequest.Some? && IdTokenField(post(h.tokenRequest.value)).Some?
            && !Truthy(IdTokenField(post(h.tokenRequest.value)).value)
            ==> h.reply == Refused(IdTokenNotFound) && h.enqueued.None?
    // Exactly the successful requests enqueue, and what they enqueue is the STS credentials.
    ensures h.enqueued.Some? <==> h.reply == Succeeded
    ensures h.enqueued.Some? <==> h.stsRequest.Some? && sts(h.stsRequest.value).Returned?
    ensures h.enqueued.Some? ==> sts(h.stsRequest.value) == Returned(h.enqueued.value)
    // Status 500 exactly when one of the foreign calls raises or the token response is not an object.
    ensures h.reply == Failed <==>
              (h.tokenRequest.Some? && IdTokenField(post(h.tokenRequest.value)).None?)
              || (h.stsRequest.Some? && sts(h.stsRequest.value).Raised?)
  {
    if !StateMatches(secrets, args) then Handling(Refused(StateMismatch), None, None, None)
    else if !HasCode(args) then Handling(Refused(CodeNotFound), None, None, None)
    else
      var tokenRequest := TokenRequest(cfg.tokenUrl, TokenForm(cfg, Lookup(args, "code").value, secrets.verifier));
      match IdTokenField(post(tokenRequest))
      case None => Handling(Failed, Some(tokenRequest), None, None)
      case Some(idToken) =>
        if !Truthy(idToken) then Handling(Refused(IdTokenNotFound), Some(tokenRequest), None, None)
        else
          var stsRequest := AssumeRoleRequest(RoleArn(cfg.accountId, cfg.roleName), RoleSessionName, idToken);
          match sts(stsRequest)
          case Raised => Handling(Failed, Some(tokenRequest), Some(stsRequest), None)
          case Returned(c) => Handling(Succeeded, Some(tokenRequest), Some(stsRequest), Some(c))
  }

  /**
   * `request.args.get("state")` reads the first `state` of the query: a
   * request whose first `state` is foreign is refused even when a later
   * one is this process's state.
   */
  lemma FirstStateDecides(cfg: Config, secrets: Secrets, foreign: string, rest: Form,
                          post: TokenRequest -> Outcome<Json>, sts: AssumeRoleRequest -> Outcome<Credentials>)
    requires foreign != secrets.state
    ensures HandleCallback(cfg, secrets, [("state", foreign)] + rest, post, sts)
            == Handling(Refused(StateMismatch), None, None, None)
  {
  }

  /** The credentials a handling puts on the queue, as a sequence of zero or one. */
  function Pushed(h: Handling): (s: seq<Credentials>)
    ensures |s| <= 1
    ensures |s| == 1 <==> h.enqueued.Some?
    ensures h.enqueued.Some? ==> s[0] == h.enqueued.value
  {
    if h.enqueued.Some? then [h.enqueued.value] else []
  }

  /** One request to `/callback`, with the answers the two services give. */
  datatype Arrival = Arrival(args: Form, post: TokenRequest -> Outcome<Json>, sts: AssumeRoleRequest -> Outcome<Credentials>)

  /** The queue's contents after the listener has served `arrivals` in order, starting from an empty queue. */
  function Delivered(cfg: Config, secrets: Secrets, arrivals: seq<Arrival>): seq<Credentials>
  {
    if arrivals == [] then []
    else
      var a := arrivals[|arrivals| - 1];
      Delivered(cfg, secrets, arrivals[..|arrivals| - 1]) + Pushed(HandleCallback(cfg, secrets, a.args, a.post, a.sts))
  }

  /**
   * Nothing latches after the first success: every served request that
   * passes the guards and gets credentials from STS adds one more entry,
   * so the queue holds as many credential sets as there were such requests.
   */
  lemma {:induction false} EverySuccessEnqueues(cfg: Config, secrets: Secrets, arrivals: seq<Arrival>)
    requires forall i :: 0 <= i < |arrivals| ==>
               HandleCallback(cfg, secrets, arrivals[i].args, arrivals[i].post, arrivals[i].sts).reply == Succeeded
    ensures |Delivered(cfg, secrets, arrivals)| == |arrivals|
    decreases |arrivals|
  {
    if arrivals != [] {
      EverySuccessEnqueues(cfg, secrets, arrivals[..|arrivals| - 1]);
    }
  }

  /** Only requests carrying this process's state can put anything on the queue. */
  lemma {:induction false} ForeignStateDeliversNothing(cfg: Config, secrets: Secrets, arrivals: seq<Arrival>)
    requires forall i :: 0 <= i < |arrivals| ==> !StateMatches(secrets, arrivals[i].args)
    ensures Delivered(cfg, secrets, arrivals) == []
    decreases |arrivals|
  {
    if arrivals != [] {
      ForeignStateDeliversNothing(cfg, secrets, arrivals[..|arrivals| - 1]);
    }
  }

  /** `aws_credentials`: an unbounded FIFO queue of credential sets. */
  class CredentialQueue {
    var items: seq<Credentials>

    constructor()
      ensures items == []
    {
      items := [];
    }

    /** `put`: appends at the back. */
    method Put(c: Credentials)
      modifies this
      ensures items == old(items) + [c]
    {
      items := items + [c];
    }

    /**
     * `get(timeout=10)`: the front entry, or None for `queue.Empty` when the
     * queue is still empty at the end of the wait.
     */
    method Get() returns (r: Option<Credentials>)
      modifies this
      ensures old(items) == [] ==> r.None? && items == []
      ensures old(items) != [] ==> r == Some(old(items)[0]) && items == old(items)[1..]
    {
      if items == [] {
        r := None;
      } else {
        r := Some(items[0]);
        items := items[1..];
      }
    }
  }

  /** `callback()` run against the shared queue. */
  method Callback(cfg: Config, secrets: Secrets, queue: CredentialQueue, args: Form,
                  post: TokenRequest -> Outcome<Json>, sts: AssumeRoleRequest -> Outcome<Credentials>)
    returns (reply: Reply)
    modifies queue
    ensures reply == HandleCallback(cfg, secrets, args, post, sts).reply
    ensures queue.items == old(queue.items) + Pushed(HandleCallback(cfg, secrets, args, post, sts))
  {
    var h := HandleCallback(cfg, secrets, args, post, sts);
    if h.enqueued.Some? {
      queue.Put(h.enqueued.value);
    }
    reply := h.reply;
  }

  const AccessKeyIdVar: string := "AWS_ACCESS_KEY_ID"
  const SecretAccessKeyVar: string := "AWS_SECRET_ACCESS_KEY"
  const SessionTokenVar: string := "AWS_SESSION_TOKEN"

  /** The environment with the three AWS variables set from `c`. */
  function Published(vars: map<string, string>, c: Credentials): (r: map<string, string>)
    ensures r.Keys == vars.Keys + {AccessKeyIdVar, SecretAccessKeyVar, SessionTokenVar}
    ensures r[AccessKeyIdVar] == c.accessKeyId
    ensures r[SecretAccessKeyVar] == c.secretAccessKey
    ensures r[SessionTokenVar] == c.sessionToken
    ensures forall k :: k in vars && k !in {AccessKeyIdVar, SecretAccessKeyVar, SessionTokenVar} ==> r[k] == vars[k]
  {
    vars[AccessKeyIdVar := c.accessKeyId][SecretAccessKeyVar := c.secretAccessKey][SessionTokenVar := c.sessionToken]
  }

  /** A later publication replaces all three variables: nothing of the earlier credentials survives. */
  lemma PublishedOverrides(vars: map<string, string>, c1: Credentials, c2: Credentials)
    ensures Published(Published(vars, c1), c2) == Published(vars, c2)
  {
  }

  /** `os.environ`: the process environment. */
  class Environment {
    var vars: map<string, string>

    constructor(initial: map<string, string>)
      ensures vars == initial
    {
      vars := initial;
    }

    /** `os.environ[key] = value`. */
    method Set(key: string, value: string)
      modifies this
      ensures vars == old(vars)[key := value]
    {
      vars := vars[key := value];
    }
  }

  /** `CallbackModule`: the Ansible callback, with the module-level state it reads and writes. */
  class CallbackModule {
    const cfg: Config
    const secrets: Secrets
    const credentials: CredentialQueue  // aws_credentials
    const environ: Environment          // os.environ

    constructor(cfg: Config, secrets: Secrets, credentials: CredentialQueue, environ: Environment)
      ensures this.cfg == cfg && this.secrets == secrets
      ensures this.credentials == credentials && this.environ == environ
    {
      this.cfg := cfg;
      this.secrets := secrets;
      this.credentials := credentials;
      this.environ := environ;
    }

    /**
     * `authenticate_user`: the URL handed to the browser.  Unless the
     * configured settings themselves contain `?` or `&`, the identity
     * provider reads back exactly the seven authorization parameters.
     */
    method AuthenticateUser() returns (url: string)
      ensures url == AuthorizationUrl(cfg, secrets.challenge, secrets.state)
      ensures UrlSafeConfig(cfg) && WellFormed(secrets) ==>
                QueryParams(url) == Some(AuthorizationParams(cfg, secrets.challenge, secrets.state))
    {
      url := AuthorizationUrl(cfg, secrets.challenge, secrets.state);
      if UrlSafeConfig(cfg) && WellFormed(secrets) {
        AuthorizationUrlFields(cfg, secrets);
      }
    }

    /**
     * `set_environment_variables`: takes at most one entry off the queue;
     * on a timeout the environment is left as it was, otherwise all three
     * variables are set from that entry and no other variable changes.
     */
    method SetEnvironmentVariables()
      modifies credentials, environ
      ensures old(credentials.items) == [] ==>
                credentials.items == [] && environ.vars == old(environ.vars)
      ensures old(credentials.items) != [] ==>
                credentials.items == old(credentials.items)[1..]
                && environ.vars == Published(old(environ.vars), old(credentials.items)[0])
    {
      var next := credentials.Get();
      if next.None? {
        return;
      }
      var c := next.value;
      environ.Set(AccessKeyIdVar, c.accessKeyId);
      environ.Set(SecretAccessKeyVar, c.secretAccessKey);
      environ.Set(SessionTokenVar, c.sessionToken);
    }
  }
}
