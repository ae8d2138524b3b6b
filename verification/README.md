# pastebiner client core in Dafny

This project models the request-building and response-classification layer of
the `Pastebin` client of the pastebiner library (`pastebiner/pastebin.py`). The
client wraps a paste-hosting HTTP API. It checks the arguments of `create`
against fixed enumerations, merges the developer and user keys into every form,
and posts the form. The server signals errors with plain-text answers, so the
client compares each answer with the error descriptions of its `API_ERRORS`
table. The list operations also put a synthetic `<pastes>` root around the
answer before the XML parser sees it.

Layout:

- `wrappers.dfy` (`Wrappers`): `Option` models a Python argument that may be `None`. `Result` is either a return value or the raised `APIKeyError`.
- `api_tables.dfy` (`ApiTables`): the class constants. These are the URLs and paths, the `API_ERRORS` table (one `ErrorCode` per key, with `Sentinel` for the key and `Description` for the value), the expiration tokens, the visibility levels and the `api_option` values.
- `requests.dfy` (`Requests`): the client state (`Client`), `_get_complete_url`, `_get_data` and the classification step of `_request`.
- `pastebin.dfy` (`Pastebin`): `__init__`, `login`, `create`, `delete`, `trending`, `user_pastes` and `user_info`.
- `properties.dfy` (`PastebinProperties`): lemmas that relate several operations.

The HTTP transport is not modelled. Each operation that talks to the server takes the server's answer as a `response: string` parameter. Each returns an `Exchange`: the POST it sent (URL and form), or `None` when it raised before reaching the network, together with its outcome or raised error. For `create` and `delete` the outcome is the method's return value; for `trending`, `user_pastes` and `user_info` it is the document handed to `xmltodict.parse`, not the parsed result; for `login` and the constructor it is the new client state. Contracts therefore state exactly which request each operation sends, and which failures happen before any request. `PrepareCreate` exposes the validated `create` form on its own. The syntax-highlighting catalogue `LANGUAGE_CHOICES` is defined in a module that is not part of this model. It appears as the parameter `catalogue: set<string>`.

Behaviour worth noting:

- `user_pastes` maps a limit above 1000 to the maximum 1000 and a limit below 1 to the default 50 (pastebin.py:245-248). The docstring (pastebin.py:230-231) gives the default 50 and the bounds 1 and 1000; it does not say what a limit below 1 becomes.
- Classification compares the answer with the *values* of `API_ERRORS`, not its keys. The empty answer is a key (pastebin.py:31), not a value, so it is returned as a success. A `login` answered with it stores the empty user key (`PastebinProperties.EmptyResponseIsSuccess`).
- Only `trending` and `user_pastes` wrap the answer in `<pastes>…</pastes>`. `user_info` hands the raw answer to the parser (pastebin.py:285).
- `create` does not check that the paste code is non-empty. The server reports that with its own `empty_paste_code` answer.

## Model

| member | source | states |
|---|---|---|
| ApiTables.AllCodesListed | pastebiner/pastebin.py:19-38 | every entry of the error table is visited by the dictionary-order scan |
| ApiTables.DescriptionShape | pastebiner/pastebin.py:18-38 | every error description is `Bad API request, ` followed by a non-empty detail |
| ApiTables.SentinelIsNotErrorText | pastebiner/pastebin.py:19-38 | no key of the error table, the empty key included, equals any of its descriptions, so no key is ever classified as an error |
| ApiTables.EmptyIsNotErrorText | pastebiner/pastebin.py:31 | the empty string is not an error description even though it is a key of the table |
| Requests.SentUserKey | pastebiner/pastebin.py:107 | the user key sent is empty exactly when no key is stored or the stored key is empty, and is the stored key otherwise |
| Requests.CompleteUrl | pastebiner/pastebin.py:77-92 | the URL splits into the base URL, a slash and the path, with the path recoverable as the suffix |
| Requests.GetData | pastebiner/pastebin.py:94-113 | raises the `invalid_dev_key` description exactly when the developer key is None or empty; otherwise the keys are the caller's plus the two credential fields, `api_dev_key` is the developer key, `api_user_key` is the user key or empty, and every other caller entry is kept |
| Requests.PrepareRequest | pastebiner/pastebin.py:125-126 | the URL and the merged data are built before the request, and the developer-key check is the only failure at that stage |
| Requests.Classify | pastebiner/pastebin.py:132-135 | raises with the answer exactly when it equals an error description, and otherwise returns the answer unchanged |
| Requests.ClassifyScan | pastebiner/pastebin.py:132 | a scan of the table's values in dictionary order classifies every answer the same way as `Classify` |
| Requests.Send | pastebiner/pastebin.py:115-135 | with a falsy developer key nothing is sent and the developer-key error is raised whatever the server would answer; otherwise the merged form (caller fields plus the two credentials) is posted to the path's URL and the answer is classified |
| Pastebin.Login | pastebiner/pastebin.py:137-151 | posts exactly `api_user_name` and `api_user_password` plus the credentials to the login endpoint; succeeds exactly when the developer key is set and the answer is not an error description; on success the user key becomes the answer, the developer key is kept, and the stored key is never an error description |
| Pastebin.Construct | pastebiner/pastebin.py:61-67 | logs in only when both login and password are given; otherwise the client has no user key; a built client's stored key is never an error description |
| Pastebin.PrepareCreate | pastebiner/pastebin.py:153-181 | fails exactly when a supplied expiration, visibility or format is outside its enumeration, checked in that order with the matching description; on success the form holds `api_option=paste`, the code and the name, plus exactly one key per supplied optional argument with its value |
| Pastebin.Create | pastebiner/pastebin.py:153-183 | a POST is sent exactly when the arguments are valid and the developer key is set; validation errors come first, in order, whatever the client and the answer; the POST goes to the main endpoint and carries every field of the validated form plus the credentials; the outcome is then the classified answer |
| Pastebin.CreateFieldsAreNotCredentials | pastebiner/pastebin.py:155-181 | no field `create` fills is a credential field, so the merge keeps every one of them |
| Pastebin.Delete | pastebiner/pastebin.py:185-207 | without a developer key nothing is sent and the developer-key error is raised; otherwise it posts exactly the paste key and `api_option=delete` plus the credentials to the main endpoint and returns the classified answer |
| Pastebin.WrapPastes | pastebiner/pastebin.py:225 | the wrapped document is `<pastes>`, the answer, `</pastes>`, with each part recoverable at its position |
| Pastebin.UnwrapWrapPastes | pastebiner/pastebin.py:225 | stripping the synthetic root from a wrapped answer gives the answer back |
| Pastebin.WrapUnwrapPastes | pastebiner/pastebin.py:257 | a document with the synthetic root is the wrapping of its content |
| Pastebin.Trending | pastebiner/pastebin.py:209-227 | posts exactly `api_option=trends` plus the credentials to the main endpoint; succeeds exactly when the developer key is set and the answer is not an error description; otherwise raises the developer-key error or the answer; on success the parser receives the answer inside the synthetic root |
| Pastebin.NormalizeLimit | pastebiner/pastebin.py:245-250 | the effective limit lies in [1, 1000]: below 1 gives 50, above 1000 gives 1000, and values in range are kept |
| Pastebin.UserPastes | pastebiner/pastebin.py:229-258 | posts exactly `api_option=list` and `api_results_limit` equal to the normalised limit, plus the credentials, to the main endpoint; succeeds exactly when the developer key is set and the answer is not an error description; otherwise raises the developer-key error or the answer; on success the parser receives the answer inside the synthetic root |
| Pastebin.UserInfo | pastebiner/pastebin.py:260-285 | without a developer key nothing is sent and the developer-key error is raised; otherwise it posts exactly `api_option=userdetails` plus the credentials to the main endpoint, and the parser receives the classified answer without any wrapping |
| PastebinProperties.SessionKeyLifetime | pastebiner/pastebin.py:137-151 | over any sequence of login calls, failed ones leaving the state unchanged, the developer key is kept and the stored user key is the initial one or the answer to one of the calls, never an error description |
| PastebinProperties.NoKeyBeforeLogin | pastebiner/pastebin.py:61-67 | a client built without both login and password has no user key and sends an empty one |
| PastebinProperties.MissingDevKeyFailsEveryCall | pastebiner/tests/test_pastebin.py:21-33 | with a None or empty developer key, login, create (with valid arguments), delete, trending, user_pastes and user_info all send nothing and raise the `invalid_dev_key` description, whatever the server would answer |
| PastebinProperties.MissingDevKeyFailsLoginInConstructor | pastebiner/pastebin.py:64-67 | a constructor given credentials but no developer key sends nothing and raises the developer-key error |
| PastebinProperties.ValidationPrecedesRequest | pastebiner/pastebin.py:161-183 | an invalid `create` sends nothing and fails identically for every client and every answer, with a message that is an error description |
| PastebinProperties.RaisedMessagesAreDescriptions | pastebiner/pastebin.py:102-103 | the developer-key and classification errors both carry a value of the error table |
| PastebinProperties.GetDataWithoutParams | pastebiner/pastebin.py:109-113 | with no caller fields the merged data is exactly the two-key credential map |
| PastebinProperties.LoginKeyIsSent | pastebiner/pastebin.py:105-108 | after a login answered with a non-empty key, every request made on the logged-in state carries that key as `api_user_key` |
| PastebinProperties.EmptyResponseIsSuccess | pastebiner/pastebin.py:132-135 | the empty answer passes classification: delete returns it, user_info hands it to the parser unchanged, the list operations hand it to the parser inside the synthetic root, and login stores it, which then sends the same empty key as no login at all |
| PastebinProperties.NormalizeLimitIdempotent | pastebiner/pastebin.py:245-250 | normalising a normalised limit changes nothing |
| PastebinProperties.WrappingByOperation | pastebiner/pastebin.py:222-285 | trending and user_pastes hand `<pastes>` + answer + `</pastes>` to the parser; user_info hands the answer itself |
| PastebinProperties.UserPastesLimitSent | pastebiner/pastebin.py:245-255 | the limit `user_pastes` sends lies in [1, 1000], and two calls send the same request exactly when their limits normalise to the same value |
| PastebinProperties.RoutingByOperation | pastebiner/pastebin.py:115-151 | login posts to the login endpoint, create, delete, trending, user_pastes and user_info post to the main endpoint, and the two URLs differ |

## Left out

- HTTP transport (`requests.post`, `raise_for_status`, setting the response encoding): network I/O. The server's answer is an input string, and transport errors are not modelled.
- XML parsing (`xmltodict.parse`): a foreign library. Only the string handed to it is modelled; a parser error on an answer that is not XML (the empty answer to `user_info`, say) is not modelled.
- The contents of `LANGUAGE_CHOICES`: `syntax_formats` is not part of this model, so the catalogue is a parameter.
- `APIKeyError.__str__`: message formatting only. The error is modelled as its one message.
- Python typing quirks: visibility and limit are modelled as `int`, so `True == 1` and the `int()` truncation of a fractional limit are not modelled. Paste code, name, login and password are modelled as strings.
- The in-place `params.update` of `_get_data`, which also mutates the caller's dictionary: values are immutable here, and only the returned map is modelled.
- Form field order: forms are maps, and the order Python's dictionaries give the encoded body is not modelled.
- The `api_user_key` property getter and setter: modelled as the `userKey` field of the client record.
- Constructing a client with no developer key argument at all: this is a Python `TypeError` from the call itself, not behaviour of the library.
- Python's default arguments (`paste_name=''`, `limit=50`, `None` for the optional `create` arguments): Dafny functions have no defaults here, so callers pass `""`, `50` or `None` explicitly.
