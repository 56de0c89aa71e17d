/**
 * The strings the plugin builds from its configuration and its secrets: the
 * IAM role ARN handed to STS, the form posted to the token endpoint and the
 * authorization URL opened in the browser.
 */
module Requests {
  import opened Wrappers
  import opened Query
  import opened Pkce
  import opened Base64Url

  /** The settings read from the environment at import time (their defaults are not modelled). */
  datatype Config = Config(
    authUrl: string,       // IDP_AUTH_URL
    tokenUrl: string,      // IDP_TOKEN_URL
    clientId: string,      // IDP_CLIENT_ID
    redirectUri: string,   // IDP_REDIRECT_URI
    accountId: string,     // AWS_ACCOUNT_ID
    roleName: string)      // AWS_IAM_ROLE_NAME

  const ResponseType: string := "code"
  const Scope: string := "openid"
  const ChallengeMethod: string := "S256"
  const RoleSessionName: string := "web-identity-session"

  /** What every IAM role ARN of the standard partition in this program starts with. */
  const ArnPrefix: string := "arn:aws:iam::"

  /** `ROLE_ARN`: the ARN of role `roleName` in account `accountId`. */
  function RoleArn(accountId: string, roleName: string): (arn: string)
    ensures |arn| == |ArnPrefix| + |accountId| + |":role/"| + |roleName|
    ensures arn[..|ArnPrefix|] == ArnPrefix
    ensures arn[|ArnPrefix|..|ArnPrefix| + |accountId|] == accountId
    ensures arn[|arn| - |roleName|..] == roleName
  {
    ArnPrefix + accountId + ":role/" + roleName
  }

  /** Reads an IAM role ARN back into its account and role name. */
  function ParseRoleArn(arn: string): (r: Option<(string, string)>)
  {
    if |arn| < |ArnPrefix| || arn[..|ArnPrefix|] != ArnPrefix then None
    else
      match Cut(arn[|ArnPrefix|..], ':')
      case None => None
      case Some((account, resource)) =>
        if |resource| >= 5 && resource[..5] == "role/" then Some((account, resource[5..])) else None
  }

  /** An account id without `:` can be read back out of the ARN, together with the role name. */
  lemma ParseRoleArnInverse(accountId: string, roleName: string)
    requires ':' !in accountId
    ensures ParseRoleArn(RoleArn(accountId, roleName)) == Some((accountId, roleName))
  {
    var arn := RoleArn(accountId, roleName);
    assert arn[|ArnPrefix|..] == accountId + [':'] + ("role/" + roleName);
    CutJoined(accountId, ':', "role/" + roleName);
  }

  /** So distinct (account, role) pairs give distinct ARNs. */
  lemma RoleArnInjective(a1: string, r1: string, a2: string, r2: string)
    requires ':' !in a1 && ':' !in a2
    requires RoleArn(a1, r1) == RoleArn(a2, r2)
    ensures a1 == a2 && r1 == r2
  {
    ParseRoleArnInverse(a1, r1);
    ParseRoleArnInverse(a2, r2);
  }

  /** A form body: the fields in the order of the dict literal that `requests` encodes. */
  type Form = seq<(string, string)>

  /** The value the receiver reads for `key`: that of its first occurrence. */
  function Lookup(form: Form, key: string): (r: Option<string>)
    ensures r.None? <==> forall i :: 0 <= i < |form| ==> form[i].0 != key
    ensures r.Some? ==> exists i :: 0 <= i < |form| && form[i] == (key, r.value) && forall j :: 0 <= j < i ==> form[j].0 != key
  {
    if form == [] then None
    else if form[0].0 == key then Some(form[0].1)
    else Lookup(form[1..], key)
  }

  /** The names of a form's fields, in order. */
  function FieldNames(form: Form): (names: seq<string>)
    ensures |names| == |form|
  {
    seq(|form|, i requires 0 <= i < |form| => form[i].0)
  }

  /**
   * `token_data`: the authorization-code grant of section 4.1.3 of RFC 6749
   * with the PKCE `code_verifier` of section 4.5 of RFC 7636.  It has exactly
   * five fields and the receiver reads each of them as given.
   */
  function TokenForm(cfg: Config, code: string, verifier: string): (form: Form)
    ensures FieldNames(form) == ["grant_type", "code", "redirect_uri", "client_id", "code_verifier"]
    ensures Lookup(form, "grant_type") == Some("authorization_code")
    ensures Lookup(form, "code") == Some(code)
    ensures Lookup(form, "redirect_uri") == Some(cfg.redirectUri)
    ensures Lookup(form, "client_id") == Some(cfg.clientId)
    ensures Lookup(form, "code_verifier") == Some(verifier)
  {
    var form := [("grant_type", "authorization_code"),
                 ("code", code),
                 ("redirect_uri", cfg.redirectUri),
                 ("client_id", cfg.clientId),
                 ("code_verifier", verifier)];
    assert Lookup(form[4..], "code_verifier") == Some(verifier);
    assert Lookup(form[3..], "client_id") == Some(cfg.clientId);
    assert Lookup(form[3..], "code_verifier") == Some(verifier) by { assert form[3..][1..] == form[4..]; }
    assert Lookup(form[2..], "code_verifier") == Some(verifier) by { assert form[2..][1..] == form[3..]; }
    assert Lookup(form[2..], "client_id") == Some(cfg.clientId) by { assert form[2..][1..] == form[3..]; }
    assert Lookup(form[1..], "code_verifier") == Some(verifier) by { assert form[1..][1..] == form[2..]; }
    assert Lookup(form[1..], "client_id") == Some(cfg.clientId) by { assert form[1..][1..] == form[2..]; }
    assert Lookup(form[1..], "redirect_uri") == Some(cfg.redirectUri) by { assert form[1..][1..] == form[2..]; }
    form
  }

  /** The URL `authenticate_user` opens in the browser. */
  function AuthorizationUrl(cfg: Config, challenge: string, state: string): (url: string)
    ensures |url| >= |cfg.authUrl| + |"?client_id="| && url[..|cfg.authUrl| + |"?client_id="|] == cfg.authUrl + "?client_id="
    ensures |url| >= |"&state="| + |state| && url[|url| - |"&state="| - |state|..] == "&state=" + state
  {
    cfg.authUrl + "?client_id=" + cfg.clientId
    + "&redirect_uri=" + cfg.redirectUri + "&response_type=" + ResponseType
    + "&scope=" + Scope + "&code_challenge=" + challenge + "&code_challenge_method=S256"
    + "&state=" + state
  }

  /** The fields of the authorization request (section 4.1.1 of RFC 6749, section 4.3 of RFC 7636), in order. */
  function AuthorizationParams(cfg: Config, challenge: string, state: string): seq<Param> {
    [Param("client_id", cfg.clientId),
     Param("redirect_uri", cfg.redirectUri),
     Param("response_type", ResponseType),
     Param("scope", Scope),
     Param("code_challenge", challenge),
     Param("code_challenge_method", ChallengeMethod),
     Param("state", state)]
  }

  /** Settings that can be written raw into the authorization URL. */
  predicate UrlSafeConfig(cfg: Config) {
    '?' !in cfg.authUrl && '&' !in cfg.clientId && '&' !in cfg.redirectUri
  }

  lemma NoAmpersand(s: string)
    requires AllUrlSafe(s)
    ensures '&' !in s
  {
  }

  /** Re-brackets the authorization URL's fourteen pieces to the right. */
  lemma Rebracket(a: string, p1: string, x1: string, p2: string, x2: string, p3: string, x3: string,
                  p4: string, x4: string, p5: string, x5: string, p6: string, p7: string, x7: string)
    ensures a + p1 + x1 + p2 + x2 + p3 + x3 + p4 + x4 + p5 + x5 + p6 + p7 + x7
         == a + (p1 + (x1 + (p2 + (x2 + (p3 + (x3 + (p4 + (x4 + (p5 + (x5 + (p6 + (p7 + x7))))))))))))
  {
  }

  lemma Append3(a: string, b: string, c: string)
    ensures a + b + c == a + (b + c)
  {
  }

  /** A separator and a field in front of the rest of a query, written with the field's name as one literal. */
  lemma Glue(sep: char, lit: string, name: string, value: string, rest: string)
    requires lit == [sep] + name + "="
    ensures [sep] + (FieldText(Param(name, value)) + rest) == lit + (value + rest)
  {
  }

  /** The seven field names are plain words: no `=` and no `&`. */
  lemma FieldNamesArePlain()
    ensures '=' !in "client_id" && '&' !in "client_id"
    ensures '=' !in "redirect_uri" && '&' !in "redirect_uri"
    ensures '=' !in "response_type" && '&' !in "response_type"
    ensures '=' !in "scope" && '&' !in "scope"
  {
  }

  lemma MoreFieldNamesArePlain()
    ensures '=' !in "code_challenge" && '&' !in "code_challenge"
    ensures '=' !in "code_challenge_method" && '&' !in "code_challenge_method"
    ensures '=' !in "state" && '&' !in "state"
  {
  }

  lemma AuthorizationParamsEmbeddable(cfg: Config, challenge: string, state: string)
    requires UrlSafeConfig(cfg)
    requires '&' !in challenge && '&' !in state
    ensures forall i :: 0 <= i < 7 ==> Embeddable(AuthorizationParams(cfg, challenge, state)[i])
  {
    FieldNamesArePlain();
    MoreFieldNamesArePlain();
    assert '&' !in ResponseType && '&' !in Scope && '&' !in ChallengeMethod;
  }

  /** Each literal of the f-string is a separator, a field name and `=`. */
  lemma Separators()
    ensures "?client_id=" == ['?'] + "client_id" + "="
    ensures "&redirect_uri=" == ['&'] + "redirect_uri" + "="
    ensures "&response_type=" == ['&'] + "response_type" + "="
    ensures "&scope=" == ['&'] + "scope" + "="
  {
  }

  lemma MoreSeparators()
    ensures "&code_challenge=" == ['&'] + "code_challenge" + "="
    ensures "&code_challenge_method=" == ['&'] + "code_challenge_method" + "="
    ensures "&code_challenge_method=S256" == "&code_challenge_method=" + "S256"
    ensures "&state=" == ['&'] + "state" + "="
  {
  }

  /** One step of the query text: a leading `&`, the first field and the `&`-prefixed rest. */
  lemma UnfoldQuery(ps: seq<Param>)
    requires |ps| >= 2
    ensures "&" + QueryText(ps) == "&" + (FieldText(ps[0]) + ("&" + QueryText(ps[1..])))
  {
  }

  /** The query from the code challenge on, bracketed as the f-string's pieces. */
  lemma QueryTailFromChallenge(ps: seq<Param>, ch: string, st: string)
    requires ps == [Param("code_challenge", ch), Param("code_challenge_method", ChallengeMethod), Param("state", st)]
    ensures "&" + QueryText(ps) == "&code_challenge=" + (ch + ("&code_challenge_method=S256" + ("&state=" + st)))
  {
    MoreSeparators();
    var u7 := "&state=" + st;
    assert ps[1..][1..] == [Param("state", st)];
    assert "&" + QueryText(ps[1..][1..]) == u7 by {
      Glue('&', "&state=", "state", st, []);
    }
    var u6 := "&code_challenge_method=S256" + u7;
    assert "&" + QueryText(ps[1..]) == u6 by {
      UnfoldQuery(ps[1..]);
      Glue('&', "&code_challenge_method=", "code_challenge_method", "S256", u7);
      Append3("&code_challenge_method=", "S256", u7);
    }
    UnfoldQuery(ps);
    Glue('&', "&code_challenge=", "code_challenge", ch, u6);
  }

  /** The query from the scope on, bracketed as the f-string's pieces. */
  lemma QueryTailFromScope(ps: seq<Param>, ch: string, st: string)
    requires ps == [Param("scope", Scope), Param("code_challenge", ch), Param("code_challenge_method", ChallengeMethod), Param("state", st)]
    ensures "&" + QueryText(ps)
         == "&scope=" + (Scope + ("&code_challenge=" + (ch + ("&code_challenge_method=S256" + ("&state=" + st)))))
  {
    QueryTailFromChallenge(ps[1..], ch, st);
    UnfoldQuery(ps);
    Separators();
    Glue('&', "&scope=", "scope", Scope, "&code_challenge=" + (ch + ("&code_challenge_method=S256" + ("&state=" + st))));
  }

  /** The query from the redirect URI on, bracketed as the f-string's pieces. */
  lemma QueryTailFromRedirect(cfg: Config, ch: string, st: string)
    ensures "&" + QueryText(AuthorizationParams(cfg, ch, st)[1..])
         == "&redirect_uri=" + (cfg.redirectUri + ("&response_type=" + (ResponseType + ("&scope=" + (Scope
            + ("&code_challenge=" + (ch + ("&code_challenge_method=S256" + ("&state=" + st)))))))))
  {
    var ps := AuthorizationParams(cfg, ch, st)[1..];
    var u4 := "&scope=" + (Scope + ("&code_challenge=" + (ch + ("&code_challenge_method=S256" + ("&state=" + st)))));
    assert "&" + QueryText(ps[1..][1..]) == u4 by {
      QueryTailFromScope(ps[1..][1..], ch, st);
    }
    Separators();
    var u3 := "&response_type=" + (ResponseType + u4);
    assert "&" + QueryText(ps[1..]) == u3 by {
      UnfoldQuery(ps[1..]);
      Glue('&', "&response_type=", "response_type", ResponseType, u4);
    }
    UnfoldQuery(ps);
    Glue('&', "&redirect_uri=", "redirect_uri", cfg.redirectUri, u3);
  }

  /** The f-string of `authenticate_user` is the base URL, `?` and the seven fields joined with `&`. */
  lemma AuthorizationUrlText(cfg: Config, ch: string, st: string)
    ensures AuthorizationUrl(cfg, ch, st) == cfg.authUrl + "?" + QueryText(AuthorizationParams(cfg, ch, st))
  {
    var ps := AuthorizationParams(cfg, ch, st);
    var u1 := "&redirect_uri=" + (cfg.redirectUri + ("&response_type=" + (ResponseType + ("&scope=" + (Scope
              + ("&code_challenge=" + (ch + ("&code_challenge_method=S256" + ("&state=" + st)))))))));
    QueryTailFromRedirect(cfg, ch, st);
    Separators();
    Glue('?', "?client_id=", "client_id", cfg.clientId, u1);
    Rebracket(cfg.authUrl, "?client_id=", cfg.clientId, "&redirect_uri=", cfg.redirectUri, "&response_type=", ResponseType,
              "&scope=", Scope, "&code_challenge=", ch, "&code_challenge_method=S256", "&state=", st);
    Append3(cfg.authUrl, "?", QueryText(ps));
  }

  /**
   * The identity provider reads from the authorization URL exactly the
   * client id, redirect URI, `response_type=code`, `scope=openid`, the code
   * challenge, `code_challenge_method=S256` and the state of this process.
   */
  lemma AuthorizationUrlFields(cfg: Config, secrets: Secrets)
    requires UrlSafeConfig(cfg)
    requires WellFormed(secrets)
    ensures QueryParams(AuthorizationUrl(cfg, secrets.challenge, secrets.state))
            == Some(AuthorizationParams(cfg, secrets.challenge, secrets.state))
  {
    var ch, st := secrets.challenge, secrets.state;
    NoAmpersand(ch);
    NoAmpersand(st);
    AuthorizationParamsEmbeddable(cfg, ch, st);
    AuthorizationUrlText(cfg, ch, st);
    QueryRoundTrip(cfg.authUrl, AuthorizationParams(cfg, ch, st));
  }
}
