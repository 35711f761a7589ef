/**
 * `payloadCmsApiRequest`: assembles the options object handed to the host's
 * HTTP helper. The host calls themselves (`getCredentials`, `helpers.request`)
 * are not part of this module: credentials arrive as a parameter and the
 * assembled options are the result.
 */
module GenericFunctions {
  import opened Wrappers
  import opened JsValue

  /** The credential fields the helper reads; all three are opaque strings. */
  datatype Credentials = Credentials(baseUrl: string, apiKey: string, authCollection: string)

  /** The options object passed to the host's request helper (`verb` is its `method` field); `body` is `None` once deleted. */
  datatype RequestOptions = RequestOptions(
    verb: string,
    qs: map<string, Value>,
    body: Option<Value>,
    uri: string,
    json: bool,
    headers: map<string, Value>)

  /** The `option` argument: every field it carries overrides the assembled one. */
  datatype OptionOverrides = OptionOverrides(
    verb: Option<string>,
    qs: Option<map<string, Value>>,
    body: Option<Value>,
    uri: Option<string>,
    json: Option<bool>,
    headers: Option<map<string, Value>>)

  /** The default `option = {}`. */
  const NoOverrides := OptionOverrides(None, None, None, None, None, None)

  /** `Object.keys(body)` threw: the body argument was null. */
  datatype RequestError = KeysOfNullBody(body: Value)

  const AuthorizationHeader := "Authorization"
  const ContentTypeHeader := "Content-Type"

  /** `baseUrl.replace(/\/$/, '')`: drops one '/' at the very end, if there is one. */
  function TrimTrailingSlash(s: string): (r: string)
    ensures |r| <= |s| && r == s[..|r|]
    ensures |s| > 0 && s[|s| - 1] == '/' ==> |r| == |s| - 1
    ensures !(|s| > 0 && s[|s| - 1] == '/') ==> r == s
  {
    if |s| > 0 && s[|s| - 1] == '/' then s[..|s| - 1] else s
  }

  /** The headers sent unless the caller overrides them. */
  function DefaultHeaders(c: Credentials): (h: map<string, Value>)
    ensures h.Keys == {AuthorizationHeader, ContentTypeHeader}
  {
    map[AuthorizationHeader := Str(c.authCollection + " API-Key " + c.apiKey),
        ContentTypeHeader := Str("application/json")]
  }

  /** The body argument after the parameter default `body = {}` is applied. */
  function BodyArgument(body: Value): Value {
    if body.Undefined? then Obj(map[]) else body
  }

  /**
   * The options `payloadCmsApiRequest` builds: the object literal with
   * `...option` spread last, then `body` deleted when the body argument has no
   * keys. Fails only where `Object.keys` throws, on a null body.
   */
  function BuildOptions(
    creds: Credentials, verb: string, endpoint: string,
    body: Value, qs: map<string, Value>, headers: map<string, Value>,
    option: OptionOverrides): (r: Result<RequestOptions, RequestError>)
    // errors: only a null body argument
    ensures r.Failure? <==> body.Null?
    ensures r.Success? ==> var o := r.value;
      // `method` (here `verb`), qs, json: the argument unless `option` overrides it
      && (option.verb.None? ==> o.verb == verb)
      && (option.verb.Some? ==> o.verb == option.verb.value)
      && (option.qs.None? ==> o.qs == qs)
      && (option.qs.Some? ==> o.qs == option.qs.value)
      && (option.json.None? ==> o.json)
      && (option.json.Some? ==> o.json == option.json.value)
      // uri
      && (option.uri.None? ==> o.uri == TrimTrailingSlash(creds.baseUrl) + "/api" + endpoint)
      && (option.uri.Some? ==> o.uri == option.uri.value)
      // headers: the defaults, overridden key by key by the caller's headers
      && (option.headers.None? ==>
            && o.headers.Keys == headers.Keys + {AuthorizationHeader, ContentTypeHeader}
            && (forall k :: k in headers ==> o.headers[k] == headers[k])
            && (AuthorizationHeader !in headers ==>
                  o.headers[AuthorizationHeader]
                  == Str(creds.authCollection + " API-Key " + creds.apiKey))
            && (ContentTypeHeader !in headers ==>
                  o.headers[ContentTypeHeader] == Str("application/json")))
      && (option.headers.Some? ==> o.headers == option.headers.value)
      // body: absent exactly when the body argument has no keys, even if `option` set one
      && (o.body.None? <==> KeyCount(BodyArgument(body)) == Some(0))
      && (o.body.Some? && option.body.None? ==> o.body.value == BodyArgument(body))
      && (o.body.Some? && option.body.Some? ==> o.body == option.body)
  {
    var bodyArg := BodyArgument(body);
    match KeyCount(bodyArg)
    case None => Failure(KeysOfNullBody(bodyArg))
    case Some(keys) =>
      var options := RequestOptions(
        option.verb.GetOr(verb),
        option.qs.GetOr(qs),
        if option.body.Some? then option.body else Some(bodyArg),
        option.uri.GetOr(TrimTrailingSlash(creds.baseUrl) + "/api" + endpoint),
        option.json.GetOr(true),
        option.headers.GetOr(DefaultHeaders(creds) + headers));
      Success(if keys == 0 then options.(body := None) else options)
  }

  /** A string body has one key per character, so only the empty string is dropped. */
  lemma StringBodyKept(
    creds: Credentials, verb: string, endpoint: string, s: string,
    qs: map<string, Value>, headers: map<string, Value>)
    ensures BuildOptions(creds, verb, endpoint, Str(s), qs, headers, NoOverrides).Success?
    ensures BuildOptions(creds, verb, endpoint, Str(s), qs, headers, NoOverrides).value.body
            == if s == "" then None else Some(Str(s))
  {
  }

  /** An `option.body` does not survive an empty body argument. */
  lemma OptionBodyDroppedWithEmptyBody(
    creds: Credentials, verb: string, endpoint: string,
    qs: map<string, Value>, headers: map<string, Value>, option: OptionOverrides)
    requires option.body.Some?
    ensures BuildOptions(creds, verb, endpoint, Obj(map[]), qs, headers, option).Success?
    ensures BuildOptions(creds, verb, endpoint, Obj(map[]), qs, headers, option).value.body.None?
  {
  }
}
