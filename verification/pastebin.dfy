/** The operations of the `Pastebin` client. Each takes the client state and,
    where the operation talks to the server, the server's answer `response`.
    Each returns an `Exchange`: the POST it sent (none when it raised before
    the network) and its outcome or the `APIKeyError` it raises. For `create`
    and `delete` the outcome is what the Python method returns; for
    `trending`, `user_pastes` and `user_info` it is the document handed to
    `xmltodict.parse`; `login` and the constructor return the new client
    state. */
module Pastebin {
  import opened Wrappers
  import opened ApiTables
  import opened Requests

  const OptionField: string := "api_option"
  const PasteCodeField: string := "api_paste_code"
  const PasteNameField: string := "api_paste_name"
  const ExpireDateField: string := "api_paste_expire_date"
  const PrivateField: string := "api_paste_private"
  const FormatField: string := "api_paste_format"
  const PasteKeyField: string := "api_paste_key"
  const ResultsLimitField: string := "api_results_limit"
  const UserNameField: string := "api_user_name"
  const UserPasswordField: string := "api_user_password"

  const PastesOpen: string := "<pastes>"
  const PastesClose: string := "</pastes>"

  /** Invariant of every client state the operations produce: a stored user
      key is never one of the error descriptions. */
  predicate SessionValid(c: Client) {
    c.userKey.Some? ==> !IsErrorText(c.userKey.value)
  }

  // ---------------------------------------------------------------------
  // Session: login and the constructor
  // ---------------------------------------------------------------------

  function LoginForm(login: string, password: string): Form {
    map[UserNameField := Str(login), UserPasswordField := Str(password)]
  }

  /** `login`: posts the credentials to the login endpoint and, when the
      answer is not an error, stores it as the user key. */
  function Login(c: Client, login: string, password: string, response: string): (r: Exchange<Client>)
    ensures r.sent.Some? <==> HasDevKey(c)
    ensures r.sent.None? ==> r.outcome == Failure(DevKeyError)
    ensures r.sent.Some? ==> && Credentialed(r.sent.value, c, LoginPath)
                             && r.sent.value.form.Keys == {UserNameField, UserPasswordField} + Credentials
                             && r.sent.value.form[UserNameField] == Str(login)
                             && r.sent.value.form[UserPasswordField] == Str(password)
    ensures r.outcome.Success? <==> HasDevKey(c) && !IsErrorText(response)
    ensures r.sent.Some? && IsErrorText(response) ==> r.outcome == Failure(ApiKeyError(response))
    ensures r.outcome.Success? ==> r.outcome.value.devKey == c.devKey && r.outcome.value.userKey == Some(response)
    ensures r.outcome.Success? ==> SessionValid(r.outcome.value)
  {
    var x := Send(c, LoginPath, LoginForm(login, password), response);
    Exchange(x.sent, x.outcome.MapValue(key => c.(userKey := Some(key))))
  }

  /** The constructor: stores the developer key, starts without a user key,
      and logs in only when both a login and a password are given (Python's
      `None` for either is `None` here). */
  function Construct(devKey: Option<string>, login: Option<string>, password: Option<string>, response: string)
    : (r: Exchange<Client>)
    ensures login.None? || password.None? ==> r == Exchange(None, Success(Client(devKey, None)))
    ensures login.Some? && password.Some? ==> r == Login(Client(devKey, None), login.value, password.value, response)
    ensures r.outcome.Success? ==> r.outcome.value.devKey == devKey && SessionValid(r.outcome.value)
  {
    var initial := Client(devKey, None);
    if login.Some? && password.Some? then Login(initial, login.value, password.value, response)
    else Exchange(None, Success(initial))
  }

  // ---------------------------------------------------------------------
  // Paste creation
  // ---------------------------------------------------------------------

  predicate ValidExpiration(expiration: Option<string>) {
    expiration.None? || expiration.value in ExpirationChoices
  }

  predicate ValidVisibility(visibility: Option<int>) {
    visibility.None? || visibility.value in VisibilityChoices
  }

  predicate ValidFormat(format: Option<string>, catalogue: set<string>) {
    format.None? || format.value in catalogue
  }

  /** The one-key set `{key}` when the optional argument is supplied, else empty. */
  function SuppliedKey<T>(o: Option<T>, key: string): set<string> {
    if o.Some? then {key} else {}
  }

  /** The validation and form building of `create`, which all happen before
      any request: the expiration is checked first, then the visibility,
      then the format, and the first failing check decides the error. */
  function PrepareCreate(code: string, name: string, format: Option<string>, visibility: Option<int>,
                         expiration: Option<string>, catalogue: set<string>): (r: Result<Form, ApiKeyError>)
    ensures r.Failure? <==> !ValidExpiration(expiration) || !ValidVisibility(visibility) || !ValidFormat(format, catalogue)
    ensures !ValidExpiration(expiration) ==> r == Failure(ApiKeyError(Description(InvalidExpireDate)))
    ensures ValidExpiration(expiration) && !ValidVisibility(visibility) ==>
              r == Failure(ApiKeyError(Description(InvalidPastePrivate)))
    ensures ValidExpiration(expiration) && ValidVisibility(visibility) && !ValidFormat(format, catalogue) ==>
              r == Failure(ApiKeyError(Description(InvalidPasteFormat)))
    ensures r.Success? ==> r.value.Keys == {OptionField, PasteCodeField, PasteNameField}
                                           + SuppliedKey(expiration, ExpireDateField)
                                           + SuppliedKey(visibility, PrivateField)
                                           + SuppliedKey(format, FormatField)
    ensures r.Success? ==> r.value[OptionField] == Str(OptionValue(PasteOption))
                           && r.value[PasteCodeField] == Str(code)
                           && r.value[PasteNameField] == Str(name)
    ensures r.Success? && expiration.Some? ==> r.value[ExpireDateField] == Str(expiration.value)
    ensures r.Success? && visibility.Some? ==> r.value[PrivateField] == Int(visibility.value)
    ensures r.Success? && format.Some? ==> r.value[FormatField] == Str(format.value)
  {
    var base := map[OptionField := Str(OptionValue(PasteOption)), PasteCodeField := Str(code), PasteNameField := Str(name)];
    var withExpiration :-
      match expiration
      case None => Success(base)
      case Some(e) =>
        if e !in ExpirationChoices then Failure(ApiKeyError(Description(InvalidExpireDate)))
        else Success(base[ExpireDateField := Str(e)]);
    var withVisibility :-
      match visibility
      case None => Success(withExpiration)
      case Some(v) =>
        if v !in VisibilityChoices then Failure(ApiKeyError(Description(InvalidPastePrivate)))
        else Success(withExpiration[PrivateField := Int(v)]);
    match format
    case None => Success(withVisibility)
    case Some(f) =>
      if f !in catalogue then Failure(ApiKeyError(Description(InvalidPasteFormat)))
      else Success(withVisibility[FormatField := Str(f)])
  }

  /** True when every supplied optional argument of `create` is in its enumeration. */
  predicate CreateArgsValid(format: Option<string>, visibility: Option<int>, expiration: Option<string>,
                            catalogue: set<string>) {
    ValidExpiration(expiration) && ValidVisibility(visibility) && ValidFormat(format, catalogue)
  }

  /** `create`: validates and builds the form, then posts it to the main
      endpoint and returns the classified answer (the paste URL). The
      syntax catalogue is the parameter `catalogue`; callers relying on
      Python's default name pass `""`. A validation error is raised before
      the developer key is looked at and without any POST. */
  function Create(c: Client, code: string, name: string, format: Option<string>, visibility: Option<int>,
                  expiration: Option<string>, catalogue: set<string>, response: string): (r: Exchange<string>)
    ensures r.sent.Some? <==> CreateArgsValid(format, visibility, expiration, catalogue) && HasDevKey(c)
    ensures !ValidExpiration(expiration) ==> r.outcome == Failure(ApiKeyError(Description(InvalidExpireDate)))
    ensures ValidExpiration(expiration) && !ValidVisibility(visibility) ==>
              r.outcome == Failure(ApiKeyError(Description(InvalidPastePrivate)))
    ensures ValidExpiration(expiration) && ValidVisibility(visibility) && !ValidFormat(format, catalogue) ==>
              r.outcome == Failure(ApiKeyError(Description(InvalidPasteFormat)))
    ensures CreateArgsValid(format, visibility, expiration, catalogue) && !HasDevKey(c) ==>
              r.outcome == Failure(DevKeyError)
    ensures r.sent.Some? ==>
              var data := PrepareCreate(code, name, format, visibility, expiration, catalogue).value;
              && Credentialed(r.sent.value, c, MainPath)
              && r.sent.value.form.Keys == data.Keys + Credentials
              && (forall k :: k in data ==> r.sent.value.form[k] == data[k])
              && r.outcome == Classify(response)
  {
    match PrepareCreate(code, name, format, visibility, expiration, catalogue)
    case Failure(e) => Exchange(None, Failure(e))
    case Success(data) =>
      CreateFieldsAreNotCredentials(code, name, format, visibility, expiration, catalogue);
      Send(c, MainPath, data, response)
  }

  /** No field `create` fills is one of the two credential fields, so the
      merge in `_get_data` keeps all of them. */
  lemma CreateFieldsAreNotCredentials(code: string, name: string, format: Option<string>, visibility: Option<int>,
                                      expiration: Option<string>, catalogue: set<string>)
    requires PrepareCreate(code, name, format, visibility, expiration, catalogue).Success?
    ensures PrepareCreate(code, name, format, visibility, expiration, catalogue).value.Keys !! Credentials
  {
  }

  // ---------------------------------------------------------------------
  // Deletion, listing, trending, user info
  // ---------------------------------------------------------------------

  function DeleteForm(pasteKey: string): Form {
    map[PasteKeyField := Str(pasteKey), OptionField := Str(OptionValue(DeleteOption))]
  }

  /** `delete`: posts the paste key with the delete option and returns the
      classified answer. */
  function Delete(c: Client, pasteKey: string, response: string): (r: Exchange<string>)
    ensures r.sent.Some? <==> HasDevKey(c)
    ensures r.sent.None? ==> r.outcome == Failure(DevKeyError)
    ensures r.sent.Some? ==> && Credentialed(r.sent.value, c, MainPath)
                             && r.sent.value.form.Keys == {PasteKeyField, OptionField} + Credentials
                             && r.sent.value.form[PasteKeyField] == Str(pasteKey)
                             && r.sent.value.form[OptionField] == Str("delete")
                             && r.outcome == Classify(response)
  {
    Send(c, MainPath, DeleteForm(pasteKey), response)
  }

  /** The synthetic root the list operations put around the server's answer. */
  function WrapPastes(text: string): (doc: string)
    ensures |doc| == |PastesOpen| + |text| + |PastesClose|
    ensures doc[..|PastesOpen|] == PastesOpen
    ensures doc[|PastesOpen|..|doc| - |PastesClose|] == text
    ensures doc[|doc| - |PastesClose|..] == PastesClose
  {
    PastesOpen + text + PastesClose
  }

  /** The inverse of `WrapPastes`: the content of a document with the
      synthetic root, or `None` when it has none. */
  function UnwrapPastes(doc: string): (r: Option<string>)
    ensures r.Some? ==> |doc| >= |PastesOpen| + |PastesClose|
  {
    if |doc| >= |PastesOpen| + |PastesClose|
       && doc[..|PastesOpen|] == PastesOpen
       && doc[|doc| - |PastesClose|..] == PastesClose
    then Some(doc[|PastesOpen|..|doc| - |PastesClose|])
    else None
  }

  function TrendingForm(): Form {
    map[OptionField := Str(OptionValue(TrendsOption))]
  }

  /** `trending`: the document handed to the XML parser, the classified
      answer inside the synthetic root. */
  function Trending(c: Client, response: string): (r: Exchange<string>)
    ensures r.sent.Some? <==> HasDevKey(c)
    ensures r.sent.None? ==> r.outcome == Failure(DevKeyError)
    ensures r.sent.Some? ==> && Credentialed(r.sent.value, c, MainPath)
                             && r.sent.value.form.Keys == {OptionField} + Credentials
                             && r.sent.value.form[OptionField] == Str("trends")
    ensures r.outcome.Success? <==> HasDevKey(c) && !IsErrorText(response)
    ensures r.sent.Some? && IsErrorText(response) ==> r.outcome == Failure(ApiKeyError(response))
    ensures r.outcome.Success? ==> UnwrapPastes(r.outcome.value) == Some(response)
  {
    var x := Send(c, MainPath, TrendingForm(), response);
    UnwrapWrapPastes(response);
    Exchange(x.sent, x.outcome.MapValue(WrapPastes))
  }

  /** The effective result limit of `user_pastes`: below 1 becomes the
      default 50, above 1000 becomes the maximum 1000, anything else is kept. */
  function NormalizeLimit(limit: int): (n: int)
    ensures 1 <= n <= 1000
    ensures limit < 1 ==> n == 50
    ensures limit > 1000 ==> n == 1000
    ensures 1 <= limit <= 1000 ==> n == limit
  {
    if limit < 1 then 50
    else if limit > 1000 then 1000
    else limit
  }

  function UserPastesForm(limit: int): Form {
    map[ResultsLimitField := Int(NormalizeLimit(limit)), OptionField := Str(OptionValue(ListOption))]
  }

  /** `user_pastes`: posts the list option with the normalised limit and
      returns the answer inside the synthetic root. Callers relying on
      Python's default limit pass `50`. */
  function UserPastes(c: Client, limit: int, response: string): (r: Exchange<string>)
    ensures r.sent.Some? <==> HasDevKey(c)
    ensures r.sent.None? ==> r.outcome == Failure(DevKeyError)
    ensures r.sent.Some? ==> && Credentialed(r.sent.value, c, MainPath)
                             && r.sent.value.form.Keys == {ResultsLimitField, OptionField} + Credentials
                             && r.sent.value.form[ResultsLimitField] == Int(NormalizeLimit(limit))
                             && r.sent.value.form[OptionField] == Str("list")
    ensures r.outcome.Success? <==> HasDevKey(c) && !IsErrorText(response)
    ensures r.sent.Some? && IsErrorText(response) ==> r.outcome == Failure(ApiKeyError(response))
    ensures r.outcome.Success? ==> UnwrapPastes(r.outcome.value) == Some(response)
  {
    var x := Send(c, MainPath, UserPastesForm(limit), response);
    UnwrapWrapPastes(response);
    Exchange(x.sent, x.outcome.MapValue(WrapPastes))
  }

  function UserInfoForm(): Form {
    map[OptionField := Str(OptionValue(UserDetailsOption))]
  }

  /** `user_info`: the document handed to the XML parser is the classified
      answer itself, without a synthetic root. */
  function UserInfo(c: Client, response: string): (r: Exchange<string>)
    ensures r.sent.Some? <==> HasDevKey(c)
    ensures r.sent.None? ==> r.outcome == Failure(DevKeyError)
    ensures r.sent.Some? ==> && Credentialed(r.sent.value, c, MainPath)
                             && r.sent.value.form.Keys == {OptionField} + Credentials
                             && r.sent.value.form[OptionField] == Str("userdetails")
                             && r.outcome == Classify(response)
  {
    Send(c, MainPath, UserInfoForm(), response)
  }

  // ---------------------------------------------------------------------
  // Wrapping round trip
  // ---------------------------------------------------------------------

  /** Unwrapping a wrapped answer gives the answer back. */
  lemma UnwrapWrapPastes(text: string)
    ensures UnwrapPastes(WrapPastes(text)) == Some(text)
  {
  }

  /** A document that unwraps was produced by wrapping its content. */
  lemma WrapUnwrapPastes(doc: string)
    requires UnwrapPastes(doc).Some?
    ensures WrapPastes(UnwrapPastes(doc).value) == doc
  {
  }
}
