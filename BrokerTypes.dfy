/** Values exchanged between MSAL's WAM broker adapter, the provider plugins and
    the Windows Web Account Manager. Every WinRT object the adapter only reads is a
    value here. The plugins and the WinRT entry points, whose code is not part of
    this model, are records of functions: every property below is proved for all
    of them. */
module BrokerTypes {
  import opened Wrappers
  import opened Strings

  // ---------------------------------------------------------------------------
  // Authorities and MSAL-side request data
  // ---------------------------------------------------------------------------

  /** MSAL's `AuthorityType`. Only `Aad` authorities are brokered. */
  datatype AuthorityType = Aad | Adfs | B2C

  /** The resolved authority of a request: its type, its tenant segment and its
      canonical URL (`AuthorityInfo.CanonicalAuthority`). */
  datatype Authority = Authority(authorityType: AuthorityType, tenantId: string, canonicalAuthority: string)

  /** The parts of MSAL's `AuthenticationRequestParameters` the silent flow reads.
      `accountId` is `Account.HomeAccountId.Identifier` (a nullable string);
      `extraQueryParameters` is the nullable extra-parameter dictionary, as its
      enumeration sequence. */
  datatype RequestParameters = RequestParameters(
    authority: Authority,
    clientId: string,
    accountId: Option<string>,
    loginHint: Option<string>,
    extraQueryParameters: Option<seq<(string, string)>>)

  // ---------------------------------------------------------------------------
  // Web Account Manager values
  // ---------------------------------------------------------------------------

  /** A `WebAccount` known to WAM: its opaque identity and its `UserName`. */
  datatype WebAccount = WebAccount(id: string, userName: string)

  /** A `WebAccountProvider` returned by `FindAccountProviderAsync`. */
  datatype WebAccountProvider = WebAccountProvider(id: string, authority: string)

  /** An element of `WebTokenRequestResult.ResponseData`. */
  datatype WebTokenResponse = WebTokenResponse(token: string)

  /** `WebTokenRequestStatus`, the outcome kinds WAM reports. */
  datatype WebTokenRequestStatus =
    | Success
    | UserCancel
    | AccountSwitch
    | UserInteractionRequired
    | AccountProviderNotAvailable
    | ProviderError

  /** The enum member's name, as string interpolation renders it. */
  function StatusName(s: WebTokenRequestStatus): string {
    match s
    case Success => "Success"
    case UserCancel => "UserCancel"
    case AccountSwitch => "AccountSwitch"
    case UserInteractionRequired => "UserInteractionRequired"
    case AccountProviderNotAvailable => "AccountProviderNotAvailable"
    case ProviderError => "ProviderError"
  }

  /** `WebProviderError`: a raw numeric code and a message. */
  datatype WebProviderError = WebProviderError(errorCode: uint32, errorMessage: string)

  /** `WebTokenRequestResult`. */
  datatype WebTokenRequestResult = WebTokenRequestResult(
    responseStatus: WebTokenRequestStatus,
    responseData: seq<WebTokenResponse>,
    responseError: WebProviderError)

  /** A string dictionary as its enumeration sequence: no key occurs twice. */
  predicate DistinctKeys(entries: seq<(string, string)>) {
    forall i, j :: 0 <= i < j < |entries| ==> entries[i].0 != entries[j].0
  }

  type Dictionary = entries: seq<(string, string)> | DistinctKeys(entries)

  predicate HasKey(entries: seq<(string, string)>, key: string) {
    exists i :: 0 <= i < |entries| && entries[i].0 == key
  }

  /** The value of a `WebTokenRequest` at the moment it is handed to WAM. */
  datatype WebTokenRequestData = WebTokenRequestData(
    provider: WebAccountProvider,
    scope: string,
    clientId: string,
    appProperties: Dictionary)

  // ---------------------------------------------------------------------------
  // MSAL-side response
  // ---------------------------------------------------------------------------

  /** The fields of `MsalTokenResponse` that the adapter sets or forwards.
      `tokens` stands for everything a plugin parses out of a successful WAM
      response (access token, id token, client info, ...). */
  datatype MsalTokenResponse = MsalTokenResponse(
    error: Option<string>,
    errorCodes: Option<seq<string>>,
    errorDescription: Option<string>,
    tokens: Option<string>)

  /** A response that carries only error fields. */
  function ErrorResponse(error: string, errorCodes: Option<seq<string>>, description: string): (r: MsalTokenResponse)
    ensures r.error == Some(error) && r.errorCodes == errorCodes && r.errorDescription == Some(description)
    ensures r.tokens.None?
  {
    MsalTokenResponse(Some(error), errorCodes, Some(description), None)
  }

  /** `MsalError` codes and `MsalErrorMessage` texts the adapter uses. */
  const InteractionRequired: string := "interaction_required"
  const AuthenticationCanceledError: string := "authentication_canceled"
  const UnknownBrokerError: string := "unknown_broker_error"
  const AuthenticationCanceledMessage: string := "User canceled authentication."

  /** The WAM broker is only ever asked about this cloud. */
  const LoginMicrosoftUrl: string := "https://login.microsoft.com"

  // ---------------------------------------------------------------------------
  // Abstract collaborators
  // ---------------------------------------------------------------------------

  /** `IWamPlugin`: one implementation for AAD accounts, one for Microsoft
      accounts. `typeName` is what `GetType()` renders. */
  datatype WamPlugin = WamPlugin(
    typeName: string,
    getHomeAccountIdOrNull: WebAccount -> Option<string>,
    mapTokenRequestError: (WebTokenRequestStatus, uint32, bool) -> string,
    parseSuccessfulWamResponse: WebTokenResponse -> MsalTokenResponse,
    createWebTokenRequest: (WebAccountProvider, bool, bool, RequestParameters) -> WebTokenRequestData)

  /** The platform calls the adapter makes: `AadAuthority.IsCommonOrganizationsOrConsumersTenant`,
      `WebAuthenticationCoreManager.FindAccountProviderAsync(authority, tenant)`,
      `WamProxy.FindAllWebAccountsAsync(clientId)` on a provider, and
      `WebAuthenticationCoreManager.GetTokenSilentlyAsync(request, account)`.
      Each WinRT call may fail. */
  datatype WamPlatform = WamPlatform(
    isCommonOrganizationsOrConsumersTenant: Authority -> bool,
    findAccountProvider: (string, string) -> Outcome<WebAccountProvider>,
    findAllWebAccounts: (WebAccountProvider, string) -> Outcome<seq<WebAccount>>,
    getTokenSilently: (WebTokenRequestData, WebAccount) -> Outcome<WebTokenRequestResult>)
}
