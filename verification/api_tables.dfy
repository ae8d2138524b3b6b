/** The static tables of the `Pastebin` client: endpoint locations, the
    error table that maps server sentinels to the descriptions the server
    actually answers with, the expiration tokens, the visibility levels and
    the `api_option` values. */
module ApiTables {

  const BaseUrl: string := "https://pastebiner.com/api"
  const MainPath: string := "api_post.php"
  const LoginPath: string := "api_login.php"
  const ErrorPrefix: string := "Bad API request, "

  /** The entries of `API_ERRORS`, one constructor per key. */
  datatype ErrorCode =
    | InvalidOption
    | InvalidDevKey
    | IpBlocked
    | MaxNumberUnlistedPastes
    | MaxNumberPrivatePastes
    | EmptyPasteCode
    | MaximumPasteSize
    | InvalidExpireDate
    | InvalidPastePrivate
    | InvalidPasteFormat
    | InvalidUserKey
    | ExpiredUserKey
    | InvalidRequestMethod
    | InvalidLogin
    | AccountInactive
    | InvalidPostParams
    | InvalidPermToRemove
    | InvalidPermToView

  /** The keys of `API_ERRORS` in dictionary order; membership tests on
      `API_ERRORS.values()` visit the entries in this order. */
  const ErrorCodes: seq<ErrorCode> := [
    InvalidOption, InvalidDevKey, IpBlocked, MaxNumberUnlistedPastes,
    MaxNumberPrivatePastes, EmptyPasteCode, MaximumPasteSize, InvalidExpireDate,
    InvalidPastePrivate, InvalidPasteFormat, InvalidUserKey, ExpiredUserKey,
    InvalidRequestMethod, InvalidLogin, AccountInactive, InvalidPostParams,
    InvalidPermToRemove, InvalidPermToView
  ]

  /** The dictionary key of an entry. Note that the entry for an expired
      user key has the empty string as its key. */
  function Sentinel(c: ErrorCode): string {
    match c
    case InvalidOption => "invalid_option"
    case InvalidDevKey => "invalid_dev_key"
    case IpBlocked => "ip_blocked"
    case MaxNumberUnlistedPastes => "max_number_unlisted_pastes"
    case MaxNumberPrivatePastes => "max_number_private_pastes"
    case EmptyPasteCode => "empty_paste_code"
    case MaximumPasteSize => "maximum_paste_size"
    case InvalidExpireDate => "invalid_expire_date"
    case InvalidPastePrivate => "invalid_paste_private"
    case InvalidPasteFormat => "invalid_paste_format"
    case InvalidUserKey => "invalid_user_key"
    case ExpiredUserKey => ""
    case InvalidRequestMethod => "invalid_request_method"
    case InvalidLogin => "invalid_login"
    case AccountInactive => "account_inactive"
    case InvalidPostParams => "invalid_post_params"
    case InvalidPermToRemove => "invalid_perm_to_remove"
    case InvalidPermToView => "invalid_perm_to_view"
  }

  /** The part of an entry's description after `ErrorPrefix`. */
  function Detail(c: ErrorCode): string {
    match c
    case InvalidOption => "invalid api_option"
    case InvalidDevKey => "invalid api_dev_key"
    case IpBlocked => "IP blocked"
    case MaxNumberUnlistedPastes => "maximum number of 25 unlisted pastes for your free account"
    case MaxNumberPrivatePastes => "maximum number of 10 private pastes for your free account"
    case EmptyPasteCode => "api_paste_code was empty"
    case MaximumPasteSize => "maximum paste file size exceeded"
    case InvalidExpireDate => "invalid api_expire_date"
    case InvalidPastePrivate => "invalid api_paste_private"
    case InvalidPasteFormat => "invalid api_paste_format"
    case InvalidUserKey => "invalid api_user_key"
    case ExpiredUserKey => "invalid or expired api_user_key"
    case InvalidRequestMethod => "use POST request, not GET"
    case InvalidLogin => "invalid login"
    case AccountInactive => "account not active"
    case InvalidPostParams => "invalid POST parameters"
    case InvalidPermToRemove => "invalid permission to remove paste"
    case InvalidPermToView => "invalid permission to view this paste or invalid api_paste_key"
  }

  /** The value of an entry of `API_ERRORS`: the exact text the server answers with. */
  function Description(c: ErrorCode): string {
    ErrorPrefix + Detail(c)
  }

  /** True when `text` is one of the values of `API_ERRORS`. */
  predicate IsErrorText(text: string) {
    exists c: ErrorCode :: Description(c) == text
  }

  /** The expiration tokens accepted by `create`, in declaration order. */
  const ExpirationChoices: seq<string> := ["N", "10M", "1H", "1D", "1W", "2W", "1M", "6M", "1Y"]

  const Public: int := 0
  const Unlisted: int := 1
  const Private: int := 2

  /** The visibility levels accepted by `create`. */
  const VisibilityChoices: seq<int> := [Public, Unlisted, Private]

  /** The keys of `OPTION_CHOICES`. */
  datatype ApiOption = PasteOption | ListOption | TrendsOption | DeleteOption | UserDetailsOption

  /** The `api_option` value the server expects for each operation. */
  function OptionValue(o: ApiOption): string {
    match o
    case PasteOption => "paste"
    case ListOption => "list"
    case TrendsOption => "trends"
    case DeleteOption => "delete"
    case UserDetailsOption => "userdetails"
  }

  /** Every key of the error table is listed in `ErrorCodes`. */
  lemma AllCodesListed(c: ErrorCode)
    ensures c in ErrorCodes
  {
  }

  /** Every error description is the prefix followed by a non-empty detail.
      The first-character clause follows from the prefix clause; it is stated
      separately because `SentinelIsNotErrorText` needs exactly that fact: no
      key of the table starts with 'B', so none equals a description. */
  lemma DescriptionShape(c: ErrorCode)
    ensures |Description(c)| > |ErrorPrefix|
    ensures Description(c)[..|ErrorPrefix|] == ErrorPrefix
    ensures Description(c)[0] == 'B'
  {
  }

  /** No key of the error table is itself an error text: the server's
      sentinel keys, including the empty string, are not what classification
      looks for. */
  lemma SentinelIsNotErrorText(c: ErrorCode)
    ensures !IsErrorText(Sentinel(c))
  {
    if IsErrorText(Sentinel(c)) {
      var d :| Description(d) == Sentinel(c);
      DescriptionShape(d);
      SentinelShape(c);
    }
  }

  /** No key of the error table starts with the first letter of the prefix. */
  lemma SentinelShape(c: ErrorCode)
    ensures Sentinel(c) == "" || Sentinel(c)[0] != 'B'
  {
  }

  /** The empty response in particular is not an error text. */
  lemma EmptyIsNotErrorText()
    ensures !IsErrorText("")
  {
  }
}
