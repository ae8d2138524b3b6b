/** The request layer every operation of the client goes through: the URL of
    an endpoint, the credential merge of `_get_data`, and the classification
    of the response text in `_request`. The HTTP POST itself is not modelled:
    the server's answer is an input, and a request is split into the part that
    runs before the network (`PrepareRequest`, which may raise) and the part
    that runs on the answer (`Classify`). */
module Requests {
  import opened Wrappers
  import opened ApiTables

  /** A form value: the client sends strings and, for the visibility level
      and the result limit, integers. */
  datatype FormValue = Str(s: string) | Int(n: int)

  /** Form-encoded request data (field order is not modelled). */
  type Form = map<string, FormValue>

  /** The exception the client raises: an `APIKeyError` carrying one message. */
  datatype ApiKeyError = ApiKeyError(message: string)

  /** The state of one client instance: the developer key given to the
      constructor and the user key set by `login` (`None` until then). */
  datatype Client = Client(devKey: Option<string>, userKey: Option<string>)

  /** A POST about to be sent: where to and with which form data. */
  datatype HttpPost = HttpPost(url: string, form: Form)

  /** What one operation did: the POST it sent, or `None` when it raised
      before reaching the network, and what it returned or raised. */
  datatype Exchange<+T> = Exchange(sent: Option<HttpPost>, outcome: Result<T, ApiKeyError>)

  const DevKeyField: string := "api_dev_key"
  const UserKeyField: string := "api_user_key"

  /** The two fields `_get_data` adds to every form. */
  const Credentials: set<string> := {DevKeyField, UserKeyField}

  /** The error raised when the developer key is missing or empty. */
  const DevKeyError: ApiKeyError := ApiKeyError(Description(InvalidDevKey))

  /** Python truthiness of the developer key: neither `None` nor empty. */
  predicate HasDevKey(c: Client) {
    c.devKey.Some? && c.devKey.value != ""
  }

  /** The user key as sent: the stored key when truthy, otherwise empty. */
  function SentUserKey(c: Client): (k: string)
    ensures k == "" <==> c.userKey.None? || c.userKey.value == ""
    ensures k != "" ==> c.userKey == Some(k)
  {
    if c.userKey.Some? && c.userKey.value != "" then c.userKey.value else ""
  }

  /** `post` went to the endpoint `path` and carries the client's developer
      key and the user key as sent. */
  predicate Credentialed(post: HttpPost, c: Client, path: string) {
    && post.url == CompleteUrl(path)
    && c.devKey.Some?
    && DevKeyField in post.form && post.form[DevKeyField] == Str(c.devKey.value)
    && UserKeyField in post.form && post.form[UserKeyField] == Str(SentUserKey(c))
  }

  /** The URL of an endpoint: the base URL, a slash, then the path. */
  function CompleteUrl(path: string): (url: string)
    ensures |url| == |BaseUrl| + 1 + |path|
    ensures url[..|BaseUrl|] == BaseUrl
    ensures url[|BaseUrl|] == '/'
    ensures url[|BaseUrl| + 1..] == path
  {
    BaseUrl + "/" + path
  }

  /** The credential merge of `_get_data`: raises when the developer key is
      falsy, otherwise returns the caller's fields with the developer and
      user keys written over any entries of the same names. */
  function GetData(c: Client, params: Form): (r: Result<Form, ApiKeyError>)
    ensures r.Failure? <==> !HasDevKey(c)
    ensures r.Failure? ==> r.error == DevKeyError
    ensures r.Success? ==> r.value.Keys == params.Keys + {DevKeyField, UserKeyField}
    ensures r.Success? ==> r.value[DevKeyField] == Str(c.devKey.value)
    ensures r.Success? ==> r.value[UserKeyField] == Str(SentUserKey(c))
    ensures r.Success? ==> forall k :: k in params && k != DevKeyField && k != UserKeyField ==> r.value[k] == params[k]
  {
    if !HasDevKey(c) then
      Failure(DevKeyError)
    else
      var apiDict := map[DevKeyField := Str(c.devKey.value), UserKeyField := Str(SentUserKey(c))];
      if |params| > 0 then Success(params + apiDict) else Success(apiDict)
  }

  /** Everything `_request` does before the network: the URL of `path` and
      the merged form data, or the developer-key error. */
  function PrepareRequest(c: Client, path: string, params: Form): (r: Result<HttpPost, ApiKeyError>)
    ensures r.Failure? <==> !HasDevKey(c)
    ensures r.Failure? ==> r.error == DevKeyError
    ensures r.Success? ==> r.value.url == CompleteUrl(path) && Success(r.value.form) == GetData(c, params)
  {
    var data :- GetData(c, params);
    Success(HttpPost(CompleteUrl(path), data))
  }

  /** The classification step of `_request`: a response equal to one of the
      error descriptions raises with that text, anything else is returned
      unchanged. */
  function Classify(text: string): (r: Result<string, ApiKeyError>)
    ensures r.Failure? <==> IsErrorText(text)
    ensures r.Failure? ==> r.error == ApiKeyError(text)
    ensures r.Success? ==> r.value == text
  {
    if IsErrorText(text) then Failure(ApiKeyError(text)) else Success(text)
  }

  /** Classification as Python evaluates `text in API_ERRORS.values()`: a
      scan of the descriptions in dictionary order. */
  method ClassifyScan(text: string) returns (r: Result<string, ApiKeyError>)
    ensures r == Classify(text)
  {
    var i := 0;
    while i < |ErrorCodes|
      invariant 0 <= i <= |ErrorCodes|
      invariant forall j :: 0 <= j < i ==> Description(ErrorCodes[j]) != text
    {
      if Description(ErrorCodes[i]) == text {
        return Failure(ApiKeyError(text));
      }
      i := i + 1;
    }
    forall c: ErrorCode ensures Description(c) != text {
      AllCodesListed(c);
    }
    return Success(text);
  }

  /** One whole `_request` call given the server's answer `response`: no
      POST is sent when the developer key is falsy; otherwise the merged form
      is posted to `path` and the answer is classified. */
  function Send(c: Client, path: string, params: Form, response: string): (x: Exchange<string>)
    ensures x.sent.Some? <==> HasDevKey(c)
    ensures x.sent.None? ==> x.outcome == Failure(DevKeyError)
    ensures x.sent.Some? ==> Credentialed(x.sent.value, c, path) && x.outcome == Classify(response)
    ensures x.sent.Some? ==> x.sent.value.form.Keys == params.Keys + Credentials
    ensures x.sent.Some? ==> forall k :: k in params && k !in Credentials ==> x.sent.value.form[k] == params[k]
  {
    match PrepareRequest(c, path, params)
    case Failure(e) => Exchange(None, Failure(e))
    case Success(post) => Exchange(Some(post), Classify(response))
  }
}
