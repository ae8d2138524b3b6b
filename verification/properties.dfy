/** Properties that relate several operations of the client: the lifetime of
    the session key, the developer-key guard shared by every call, the
    validation-before-network order of `create`, and the consequences of
    classifying by description rather than by sentinel. */
module PastebinProperties {
  import opened Wrappers
  import opened ApiTables
  import opened Requests
  import opened Pastebin

  /** One call of `login` as a caller makes it: the credentials and the
      server's answer to them. */
  datatype LoginAttempt = LoginAttempt(login: string, password: string, response: string)

  /** The client state after a sequence of `login` calls, each made on the
      state the previous ones left; a call that raises leaves the state as
      it was. */
  function AfterLogins(c: Client, attempts: seq<LoginAttempt>): Client
    decreases |attempts|
  {
    if |attempts| == 0 then c
    else
      var a := attempts[|attempts| - 1];
      var before := AfterLogins(c, attempts[..|attempts| - 1]);
      match Login(before, a.login, a.password, a.response).outcome
      case Success(next) => next
      case Failure(_) => before
  }

  /** Over any sequence of logins the developer key never changes and the
      stored user key is either the initial one or the answer to one of the
      attempts, never an error description. */
  lemma {:induction false} SessionKeyLifetime(c: Client, attempts: seq<LoginAttempt>)
    requires SessionValid(c)
    ensures AfterLogins(c, attempts).devKey == c.devKey
    ensures SessionValid(AfterLogins(c, attempts))
    ensures AfterLogins(c, attempts).userKey == c.userKey
            || exists i :: 0 <= i < |attempts| && AfterLogins(c, attempts).userKey == Some(attempts[i].response)
    decreases |attempts|
  {
    if |attempts| > 0 {
      var prefix := attempts[..|attempts| - 1];
      SessionKeyLifetime(c, prefix);
      var before := AfterLogins(c, prefix);
      var a := attempts[|attempts| - 1];
      if Login(before, a.login, a.password, a.response).outcome.Failure? {
        if before.userKey != c.userKey {
          var i :| 0 <= i < |prefix| && before.userKey == Some(prefix[i].response);
          assert prefix[i] == attempts[i];
        }
      } else {
        assert AfterLogins(c, attempts).userKey == Some(attempts[|attempts| - 1].response);
      }
    }
  }

  /** A client built without a login keeps no user key until a login succeeds. */
  lemma NoKeyBeforeLogin(devKey: Option<string>, login: Option<string>, password: Option<string>, response: string)
    requires login.None? || password.None?
    ensures Construct(devKey, login, password, response).sent.None?
    ensures Construct(devKey, login, password, response).outcome.Success?
    ensures Construct(devKey, login, password, response).outcome.value.userKey.None?
    ensures SentUserKey(Construct(devKey, login, password, response).outcome.value) == ""
  {
  }

  /** Without a truthy developer key every call raises the developer-key
      error without sending anything, whatever the server would answer. */
  lemma MissingDevKeyFailsEveryCall(c: Client, login: string, password: string, code: string, name: string,
                                    format: Option<string>, visibility: Option<int>, expiration: Option<string>,
                                    pasteKey: string, limit: int, catalogue: set<string>, response: string)
    requires c.devKey.None? || c.devKey == Some("")
    requires CreateArgsValid(format, visibility, expiration, catalogue)
    ensures Login(c, login, password, response) == Exchange(None, Failure(DevKeyError))
    ensures Create(c, code, name, format, visibility, expiration, catalogue, response) == Exchange(None, Failure(DevKeyError))
    ensures Delete(c, pasteKey, response) == Exchange(None, Failure(DevKeyError))
    ensures Trending(c, response) == Exchange(None, Failure(DevKeyError))
    ensures UserPastes(c, limit, response) == Exchange(None, Failure(DevKeyError))
    ensures UserInfo(c, response) == Exchange(None, Failure(DevKeyError))
  {
  }

  /** A constructor call with credentials but no developer key raises. */
  lemma MissingDevKeyFailsLoginInConstructor(devKey: Option<string>, login: string, password: string, response: string)
    requires devKey.None? || devKey == Some("")
    ensures Construct(devKey, Some(login), Some(password), response) == Exchange(None, Failure(DevKeyError))
  {
  }

  /** The outcome of an invalid `create` depends neither on the client nor
      on the server: the validation error is raised before any request. */
  lemma ValidationPrecedesRequest(c1: Client, c2: Client, code: string, name: string, format: Option<string>,
                                  visibility: Option<int>, expiration: Option<string>, catalogue: set<string>,
                                  response1: string, response2: string)
    requires !CreateArgsValid(format, visibility, expiration, catalogue)
    ensures Create(c1, code, name, format, visibility, expiration, catalogue, response1)
            == Create(c2, code, name, format, visibility, expiration, catalogue, response2)
    ensures Create(c1, code, name, format, visibility, expiration, catalogue, response1).sent.None?
    ensures Create(c1, code, name, format, visibility, expiration, catalogue, response1).outcome.Failure?
    ensures IsErrorText(Create(c1, code, name, format, visibility, expiration, catalogue, response1).outcome.error.message)
  {
  }

  /** Every message the client raises is one of the error descriptions. */
  lemma RaisedMessagesAreDescriptions(c: Client, text: string)
    ensures GetData(c, map[]).Failure? ==> IsErrorText(GetData(c, map[]).error.message)
    ensures Classify(text).Failure? ==> IsErrorText(Classify(text).error.message)
  {
  }

  /** With no caller fields the merged data is exactly the two credentials. */
  lemma GetDataWithoutParams(c: Client)
    requires HasDevKey(c)
    ensures GetData(c, map[]) == Success(map[DevKeyField := Str(c.devKey.value), UserKeyField := Str(SentUserKey(c))])
  {
  }

  /** After a login whose answer is a non-empty key, every request made on
      the logged-in state carries that key. */
  lemma LoginKeyIsSent(c: Client, login: string, password: string, response: string,
                        path: string, params: Form, later: string)
    requires Login(c, login, password, response).outcome.Success?
    requires response != ""
    ensures Send(Login(c, login, password, response).outcome.value, path, params, later).sent.Some?
    ensures Send(Login(c, login, password, response).outcome.value, path, params, later).sent.value.form[UserKeyField]
            == Str(response)
  {
  }

  /** The empty answer is not an error: it passes classification in every
      call. `delete` returns it, `user_info` hands it to the parser
      unchanged, the list operations hand it to the parser inside the
      synthetic root, and a login answered with it stores the empty key,
      which is then sent exactly as if no login had happened. */
  lemma EmptyResponseIsSuccess(c: Client, login: string, password: string, pasteKey: string, limit: int)
    requires HasDevKey(c)
    ensures Classify("") == Success("")
    ensures Delete(c, pasteKey, "").outcome == Success("")
    ensures UserInfo(c, "").outcome == Success("")
    ensures Trending(c, "").outcome == Success(PastesOpen + PastesClose)
    ensures UserPastes(c, limit, "").outcome == Success(PastesOpen + PastesClose)
    ensures Login(c, login, password, "").outcome == Success(c.(userKey := Some("")))
    ensures SentUserKey(Login(c, login, password, "").outcome.value) == SentUserKey(c.(userKey := None))
  {
  }

  /** Normalising an already-normalised limit changes nothing. */
  lemma NormalizeLimitIdempotent(limit: int)
    ensures NormalizeLimit(NormalizeLimit(limit)) == NormalizeLimit(limit)
  {
  }

  /** The list operations wrap the answer in the synthetic root, the user
      information request does not. */
  lemma WrappingByOperation(c: Client, limit: int, response: string)
    requires HasDevKey(c) && !IsErrorText(response)
    ensures Trending(c, response).outcome == Success(PastesOpen + response + PastesClose)
    ensures UserPastes(c, limit, response).outcome == Success(PastesOpen + response + PastesClose)
    ensures UserInfo(c, response).outcome == Success(response)
  {
  }

  /** The limit `user_pastes` sends lies in [1, 1000], and two calls send
      the same request exactly when their limits normalise to the same
      value. */
  lemma UserPastesLimitSent(c: Client, limit1: int, limit2: int, response: string)
    requires HasDevKey(c)
    ensures var f := UserPastes(c, limit1, response).sent.value.form;
            f[ResultsLimitField].Int? && 1 <= f[ResultsLimitField].n <= 1000
    ensures UserPastes(c, limit1, response) == UserPastes(c, limit2, response)
            <==> NormalizeLimit(limit1) == NormalizeLimit(limit2)
  {
  }

  /** `login` posts to the login endpoint, every other operation to the
      main one, and the two endpoints differ. */
  lemma RoutingByOperation(c: Client, login: string, password: string, code: string, name: string,
                           format: Option<string>, visibility: Option<int>, expiration: Option<string>,
                           pasteKey: string, limit: int, catalogue: set<string>, response: string)
    requires HasDevKey(c)
    requires CreateArgsValid(format, visibility, expiration, catalogue)
    ensures Login(c, login, password, response).sent.value.url == CompleteUrl(LoginPath)
    ensures Create(c, code, name, format, visibility, expiration, catalogue, response).sent.value.url == CompleteUrl(MainPath)
    ensures Delete(c, pasteKey, response).sent.value.url == CompleteUrl(MainPath)
    ensures Trending(c, response).sent.value.url == CompleteUrl(MainPath)
    ensures UserPastes(c, limit, response).sent.value.url == CompleteUrl(MainPath)
    ensures UserInfo(c, response).sent.value.url == CompleteUrl(MainPath)
    ensures CompleteUrl(LoginPath) != CompleteUrl(MainPath)
  {
  }
}
