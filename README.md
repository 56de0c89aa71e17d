# aws_token_fetcher, modelled in Dafny

`aws_token_fetcher.py` is an Ansible callback plugin. It fetches temporary
AWS credentials at the start of a playbook run, in five steps:

1. It derives a PKCE code verifier, its S256 code challenge and a random
   `state` token (RFC 7636, RFC 6749).
2. It opens the identity provider's authorization URL in a browser.
3. It serves `/callback` for the provider's redirect.
4. In that callback, it exchanges the authorization code for an ID token
   at the token endpoint. It then exchanges the ID token for credentials
   through STS `AssumeRoleWithWebIdentity`, and puts those credentials on
   a queue.
5. It takes the credentials off the queue in `set_environment_variables`
   and publishes them as `AWS_ACCESS_KEY_ID`, `AWS_SECRET_ACCESS_KEY` and
   `AWS_SESSION_TOKEN`.

Modules:

- `Wrappers`: `Option`.
- `Base64Url`: URL-safe base64 (section 5 of RFC 4648) and the stripping
  of `=` padding.
  - The encoding is modelled concretely, in two stages: octets to 6-bit
    values, and 6-bit values to characters.
  - A decoder proves that the encoding loses nothing.
- `Pkce`: the module-level secrets `CODE_VERIFIER`, `CODE_CHALLENGE` and
  `STATE`.
  - SHA-256 is a function parameter that returns 32 octets.
  - The random draws are parameters: the 128 indices picked by
    `secrets.choice`, and the 16 octets behind `secrets.token_urlsafe(16)`.
- `Query`: how a receiver splits a URL's query string into `name=value`
  fields. It is used to show what the identity provider reads from the
  authorization URL.
- `Requests`: the strings the plugin builds:
  - `ROLE_ARN`;
  - the token-endpoint form;
  - the authorization URL.
- `TokenFetcher`: the callback and its effects.
  - The decision of `callback()` is a function over abstract results of the
    token endpoint and of STS. It records the reply, the requests made and
    what is enqueued.
  - `Callback` runs that decision against the shared queue.
  - `CredentialQueue` models `aws_credentials`.
  - `Environment` models `os.environ`.
  - `CallbackModule` holds `authenticate_user` and
    `set_environment_variables`.

Behaviour of the code that the model keeps:

- The view returns status 400 only with its own three messages. Any
  exception inside the view makes Flask answer 500, so the model answers
  `Failed` (status 500) when:
  - the token POST or its JSON decoding fails;
  - the token response is not a JSON object, so it has no `get`;
  - STS fails.
- There is no "already completed" latch, and the queue is unbounded. Every
  callback that passes the guards makes its own token and STS requests and
  enqueues again (`EverySuccessEnqueues`).
- `queue.get(timeout=10)` is modelled as taking the front entry if there
  is one, and timing out otherwise. Callbacks served during the wait are
  `Callback` calls made before `SetEnvironmentVariables`.

## Model

| member | source | states |
|---|---|---|
| Base64Url.Sextets | aws_token_fetcher.py:33 | Each group of three octets becomes four 6-bit values, and a final group of one or two octets becomes two or three, so there are (4n+2)/3 values |
| Base64Url.OctetsOfSextets | aws_token_fetcher.py:33 | Regrouping the 6-bit values gives back exactly the original octets |
| Base64Url.ValueOfDigit | aws_token_fetcher.py:33 | Every URL-safe alphabet character reads back as the 6-bit value it encodes |
| Base64Url.Digit | aws_token_fetcher.py:33 | Every 6-bit value is written as a character of the URL-safe alphabet `[A-Za-z0-9-_]` (table 2 of RFC 4648, with `-` and `_` for 62 and 63) |
| Base64Url.Value | aws_token_fetcher.py:33 | A character has a 6-bit value exactly when it is in the URL-safe alphabet `[A-Za-z0-9-_]` |
| Base64Url.ValuesOfDigits | aws_token_fetcher.py:33 | Reading the digits of a sequence of 6-bit values gives back that sequence |
| Base64Url.EncodeUnpadded | aws_token_fetcher.py:33-34 | The significant digits of the encoding are (4n+2)/3 URL-safe characters |
| Base64Url.Padding | aws_token_fetcher.py:33 | The padding is 0, 2 or 1 `=` characters when n mod 3 is 0, 1 or 2 |
| Base64Url.Encode | aws_token_fetcher.py:33 | `urlsafe_b64encode` output is a whole number of 4-character quanta: 4 * ceil(n/3) characters |
| Base64Url.StripPadding | aws_token_fetcher.py:34 | `rstrip(b"=")` leaves a prefix that does not end in `=`, and everything it removed is `=` |
| Base64Url.DecodeEncode | aws_token_fetcher.py:33-34 | Decoding the unpadded encoding gives back the input octets, so no information is lost |
| Base64Url.StripPaddingAfter | aws_token_fetcher.py:34 | Stripping a run of `=` appended to a string that does not end in `=` gives back that string |
| Base64Url.StrippedEncoding | aws_token_fetcher.py:33-35 | The encoding with `=` stripped is exactly the significant digits: (4n+2)/3 URL-safe characters, none of them `=` |
| Pkce.AsciiLetters | aws_token_fetcher.py:30 | `string.ascii_letters` is 52 distinct characters: the 26 lower-case letters first, then the 26 upper-case ones |
| Pkce.Digits | aws_token_fetcher.py:30 | `string.digits` is the 10 distinct decimal digits |
| Pkce.AlphabetIndex | aws_token_fetcher.py:30 | Every unreserved character occurs in `ascii_letters + digits + "-._~"`, at the returned index |
| Pkce.VerifierAlphabetIsUnreserved | aws_token_fetcher.py:30 | The alphabet has 66 characters, all of them unreserved, and every unreserved character is in it |
| Pkce.CodeVerifier | aws_token_fetcher.py:29-31 | Any 128 draws from the alphabet give a verifier of exactly 128 unreserved characters |
| Pkce.EveryVerifierIsDrawable | aws_token_fetcher.py:29-31 | Conversely, every 128-character unreserved string is the result of some sequence of draws |
| Pkce.AsciiBytes | aws_token_fetcher.py:33 | UTF-8 encoding of an ASCII string gives one octet per character |
| Pkce.VerifierIsAscii | aws_token_fetcher.py:33 | Every verifier character is ASCII, so its UTF-8 encoding is one octet per character |
| Pkce.CodeChallenge | aws_token_fetcher.py:32-36 | The challenge is exactly the significant URL-safe base64 digits of SHA-256 of the verifier's octets: 43 URL-safe characters, none `=`, that decode to the digest |
| Pkce.StateToken | aws_token_fetcher.py:37 | `token_urlsafe(16)` is exactly the significant URL-safe base64 digits of the 16 random octets: 22 URL-safe characters, none `=`, that decode back to them |
| Pkce.NewSecrets | aws_token_fetcher.py:29-37 | The three module-level secrets are well formed, and the challenge is derived from the verifier |
| Query.Cut | aws_token_fetcher.py:140-146 | Splitting at the first occurrence of a separator: none when it is absent; otherwise the part before it contains no separator, and the parts rejoin to the input |
| Query.CutJoined | aws_token_fetcher.py:140-146 | Cutting `before + c + after` when `c` is not in `before` gives back `before` and `after` |
| Query.Split | aws_token_fetcher.py:140-146 | Splitting at every separator gives at least one part, no part contains the separator, and joining the parts gives back the input |
| Query.ParseField | aws_token_fetcher.py:140-146 | A field parsed at its first `=` prints back as the same text |
| Query.ParseFields | aws_token_fetcher.py:140-146 | Parsing a list of fields gives one parameter per field, when every field parses |
| Query.ParseQueryText | aws_token_fetcher.py:140-146 | Fields whose names contain no `=` or `&`, and whose values contain no `&`, are read back exactly after being joined with `&` |
| Query.QueryRoundTrip | aws_token_fetcher.py:140-146 | A URL made of a base without `?`, then `?`, then such fields yields exactly those fields |
| Requests.RoleArn | aws_token_fetcher.py:41 | `ROLE_ARN` starts with `arn:aws:iam::`, the account id comes next, the ARN ends with the role name, and its length is the sum of the parts |
| Requests.ParseRoleArnInverse | aws_token_fetcher.py:41 | The account id (when it has no `:`) and the role name can be read back from the ARN |
| Requests.RoleArnInjective | aws_token_fetcher.py:41 | Distinct (account, role) pairs give distinct ARNs |
| Requests.Lookup | aws_token_fetcher.py:58-62 | A key's value is absent exactly when no field has that key; otherwise it is the value of the first field with that key, as `request.args.get` reads a repeated name |
| Requests.FieldNames | aws_token_fetcher.py:67-73 | One name per form field |
| Requests.TokenForm | aws_token_fetcher.py:67-73 | The token form has exactly the fields `grant_type`, `code`, `redirect_uri`, `client_id` and `code_verifier`, in that order. Their values are `authorization_code`, the received code, the redirect URI, the client id and the verifier |
| Requests.AuthorizationUrl | aws_token_fetcher.py:141-146 | The URL opened in the browser starts with the authorization endpoint followed by `?client_id=`, and ends with `&state=` and the state |
| Requests.AuthorizationParamsEmbeddable | aws_token_fetcher.py:140-146 | With settings free of `?` and `&`, every authorization parameter can be written raw into a query string |
| Requests.AuthorizationUrlText | aws_token_fetcher.py:140-146 | The f-string is the base URL, `?`, and the seven `name=value` fields joined with `&` |
| Requests.AuthorizationUrlFields | aws_token_fetcher.py:140-146 | For well-formed secrets and settings free of `?` and `&`, the provider reads back exactly `client_id`, `redirect_uri`, `response_type=code`, `scope=openid`, `code_challenge`, `code_challenge_method=S256` and `state`, in order |
| TokenFetcher.Status | aws_token_fetcher.py:60-105 | `Refused` is status 400, `Succeeded` is 200, and `Failed` (an escaped exception) is 500 |
| TokenFetcher.Truthy | aws_token_fetcher.py:79 | Python's `not` holds of a decoded JSON value exactly when it is null, false, zero, or an empty string, array or object |
| TokenFetcher.IdTokenField | aws_token_fetcher.py:76-78 | `token_response.get("id_token")` has a value exactly when the token call returned a JSON object; a truthy value is the object's `id_token` entry, and a missing entry reads as falsy `None` |
| TokenFetcher.StateMatches | aws_token_fetcher.py:58-59 | The state check passes exactly when the first `state` field of the query carries this process's state; a request without `state` fails it |
| TokenFetcher.HasCode | aws_token_fetcher.py:62-63 | The code check passes exactly when the first `code` field of the query is present and not empty |
| TokenFetcher.HandleCallback | aws_token_fetcher.py:54-83 | A foreign or missing `state` is refused with 400 before any other check or call. Next, a missing or empty `code` is refused with 400, and no token request is made. The token request is made exactly when both checks pass; it is the token form with the received code and the verifier. STS is called exactly when the token response is an object with a truthy `id_token`, with `ROLE_ARN`, `web-identity-session` and that token. A falsy or missing `id_token` is refused with 400 and nothing is enqueued. Something is enqueued exactly when the reply is a success, which is exactly when STS returned, and what is enqueued is STS's credentials. The reply is 500 exactly when the token call raised or returned a non-object, or STS raised |
| TokenFetcher.FirstStateDecides | aws_token_fetcher.py:58-60 | A request whose first `state` is foreign is refused with the state-mismatch message and no call or enqueue, whatever fields follow, including this process's own state |
| TokenFetcher.Pushed | aws_token_fetcher.py:83 | A callback adds at most one entry to the queue: the enqueued credentials |
| TokenFetcher.EverySuccessEnqueues | aws_token_fetcher.py:51-83 | There is no latch: n successful callbacks leave n credential sets on the queue |
| TokenFetcher.ForeignStateDeliversNothing | aws_token_fetcher.py:58-60 | Callbacks none of which carries this process's state leave the queue empty |
| TokenFetcher.Callback | aws_token_fetcher.py:54-105 | The view returns the decision's reply. The queue becomes its old contents followed by what the decision enqueues |
| TokenFetcher.CredentialQueue.constructor | aws_token_fetcher.py:51 | `aws_credentials` starts empty |
| TokenFetcher.CredentialQueue.Put | aws_token_fetcher.py:83 | `put` appends at the back |
| TokenFetcher.CredentialQueue.Get | aws_token_fetcher.py:156-160 | `get` removes and returns the front entry. When the queue is empty it times out, and the queue stays empty |
| TokenFetcher.Published | aws_token_fetcher.py:162-164 | After publication, the three AWS variables hold the three credential fields. No other variable is changed, and no variable is removed |
| TokenFetcher.PublishedOverrides | aws_token_fetcher.py:162-164 | A later publication replaces all three variables: the result is as if only the later one had happened |
| TokenFetcher.Environment.constructor | aws_token_fetcher.py:162-164 | `os.environ` holds the process's variables as they were at the start |
| TokenFetcher.Environment.Set | aws_token_fetcher.py:162 | Assigning to `os.environ[key]` updates that key only |
| TokenFetcher.CallbackModule.constructor | aws_token_fetcher.py:121-131 | The plugin shares the module's settings, secrets, queue and environment |
| TokenFetcher.CallbackModule.AuthenticateUser | aws_token_fetcher.py:137-147 | The browser receives the authorization URL. With well-formed secrets and settings free of `?` and `&`, its query is exactly the seven authorization parameters |
| TokenFetcher.CallbackModule.SetEnvironmentVariables | aws_token_fetcher.py:153-164 | On an empty queue it times out: the queue stays empty and the environment is unchanged. Otherwise it removes exactly the front entry and publishes all three of its fields, and changes nothing else |

## Left out

- The Flask application, its routing, the HTML page and the logging
  settings (lines 44-49, 85-105) are not modelled. A successful reply is
  the constructor `Succeeded`.
- The background thread serving the callback, and its daemon flag (lines
  149-151), are not modelled. Served callbacks are `Callback` calls before
  `SetEnvironmentVariables`. Concurrent interleavings inside a callback
  are not modelled.
- `webbrowser.open` is not modelled. `AuthenticateUser` returns the URL it
  would receive.
- `requests.post` with its 10-second timeout, `response.json()` and the
  `boto3` STS client are function parameters from the request sent to the
  outcome received. The outcome is a value or `Raised`.
- `hashlib.sha256` is a function parameter returning 32 octets.
- The randomness of `secrets.choice` and `secrets.token_urlsafe` is
  represented by the drawn indices and octets, which are inputs.
- `queue.get(timeout=10)`: the wall-clock wait is not modelled. A get
  returns the front entry when one is present, and times out otherwise.
- The `print` on timeout is not modelled.
- The defaults of the environment-variable settings (lines 19-25, 39-40)
  are not modelled. `Config` carries the values read.
- `LOCAL_CALLBACK_PORT` and `PID` are not modelled.
- Ansible's `CallbackBase`, the plugin metadata and `v2_playbook_on_start`
  (lines 121-135) are not modelled. `v2_playbook_on_start` only calls the
  two modelled methods in turn.
- Query: the receiver's reading of a query string is raw. There is no
  percent-decoding, and `#` fragments are not handled. The source inserts
  the settings into the URL without escaping, so
  `Requests.AuthorizationUrlFields` assumes settings free of `?` and `&`.
- TokenFetcher.Json: JSON numbers are `real`. `NaN` and `Infinity`, which
  Python's decoder also accepts, are not modelled.
- TokenFetcher.Credentials: the STS `Credentials` dictionary is reduced to
  the three keys the plugin reads. `Expiration` is not modelled. Missing
  keys and non-string values, which boto3 does not produce, are not
  modelled.
- TokenFetcher.HandleCallback: `request.args` is the sequence of decoded
  query fields, and `get` reads the first of a repeated name. Flask's own
  decoding is not modelled.
