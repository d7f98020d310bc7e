/** The silent path of MSAL's WAM broker adapter (`WamBroker`): choosing the AAD
    or MSA plugin for an authority, finding the WAM account that corresponds to
    the MSAL account, copying the extra query parameters onto the WAM request,
    calling WAM once and translating its status into an `MsalTokenResponse`. */
module WamBroker {
  import opened Wrappers
  import opened Strings
  import opened BrokerTypes

  /** The AAD tenant in which Microsoft accounts are authenticated. */
  const MsaTenantId: string := "9188040d-6c67-4c5b-b112-36a304b66dad"

  const NonAadAuthorityMessage: string := "Broker is only supported for AAD authorities, not ADFS or B2C"
  const NoWamAccountDescription: string := "Could not find a WAM account for the silent requst"
  const WamErrorPrefix: string := "WAM Error"
  const AccountSwitchError: string := "account_switch"
  const AccountSwitchMessage: string := "WAM returned AccountSwitch"

  /** The broker's two plugins (`_aadPlugin`, `_msaPlugin`), fixed at construction. */
  datatype Broker = Broker(aadPlugin: WamPlugin, msaPlugin: WamPlugin)

  // ===========================================================================
  // Plugin and tenant routing
  // ===========================================================================

  /** The tenant names that mean "Microsoft account", compared ignoring case. */
  predicate IsConsumersTenant(tenantId: string) {
    EqualsIgnoreCase("consumers", tenantId) || EqualsIgnoreCase(MsaTenantId, tenantId)
  }

  /** Whether the silent request goes to the MSA plugin. Non-AAD authorities are
      rejected first; a tenant that is still common/organizations/consumers goes
      to AAD; otherwise the MSA tenant names select MSA. */
  function IsMsaSilentRequest(platform: WamPlatform, authority: Authority): (r: Outcome<bool>)
    ensures r.Threw? <==> authority.authorityType != Aad
    ensures r.Threw? ==> r.exception == MsalClientException(NonAadAuthorityMessage)
    ensures r == Returned(true) <==>
      && authority.authorityType == Aad
      && !platform.isCommonOrganizationsOrConsumersTenant(authority)
      && IsConsumersTenant(authority.tenantId)
  {
    if authority.authorityType != Aad then
      Threw(MsalClientException(NonAadAuthorityMessage))
    else if platform.isCommonOrganizationsOrConsumersTenant(authority) then
      Returned(false)
    else
      Returned(IsConsumersTenant(authority.tenantId))
  }

  /** The tenant handed to `FindAccountProviderAsync`: "consumers" for MSA, the
      authority's own tenant for AAD. */
  function SilentTenantId(isMsa: bool, authority: Authority): string {
    if isMsa then "consumers" else authority.tenantId
  }

  function SilentPlugin(broker: Broker, isMsa: bool): WamPlugin {
    if isMsa then broker.msaPlugin else broker.aadPlugin
  }

  /** Routing depends on the tenant only up to the case of its letters. */
  lemma RoutingIgnoresTenantCase(platform: WamPlatform, a: Authority, b: Authority)
    requires a.authorityType == b.authorityType
    requires EqualsIgnoreCase(a.tenantId, b.tenantId)
    requires platform.isCommonOrganizationsOrConsumersTenant(a) == platform.isCommonOrganizationsOrConsumersTenant(b)
    ensures IsMsaSilentRequest(platform, a) == IsMsaSilentRequest(platform, b)
  {
    EqualsIgnoreCaseIsEquivalence("consumers", a.tenantId, b.tenantId);
    EqualsIgnoreCaseIsEquivalence("consumers", b.tenantId, a.tenantId);
    EqualsIgnoreCaseIsEquivalence(MsaTenantId, a.tenantId, b.tenantId);
    EqualsIgnoreCaseIsEquivalence(MsaTenantId, b.tenantId, a.tenantId);
  }

  /** Where an AAD request is routed, as the (plugin, tenant) pair the silent flow
      uses: an unresolved multi-tenant authority goes to the AAD plugin with its
      own tenant, whatever its tenant text; otherwise the Microsoft-account tenant
      names go to the MSA plugin with "consumers", and every other tenant goes to
      the AAD plugin with its own tenant. */
  lemma RoutedPluginAndTenant(broker: Broker, platform: WamPlatform, authority: Authority)
    requires authority.authorityType == Aad
    ensures var isMsa := IsMsaSilentRequest(platform, authority).value;
            var routed := (SilentPlugin(broker, isMsa), SilentTenantId(isMsa, authority));
            && (platform.isCommonOrganizationsOrConsumersTenant(authority) ==>
                  routed == (broker.aadPlugin, authority.tenantId))
            && (!platform.isCommonOrganizationsOrConsumersTenant(authority) && IsConsumersTenant(authority.tenantId) ==>
                  routed == (broker.msaPlugin, "consumers"))
            && (!platform.isCommonOrganizationsOrConsumersTenant(authority) && !IsConsumersTenant(authority.tenantId) ==>
                  routed == (broker.aadPlugin, authority.tenantId))
  {
  }

  // ===========================================================================
  // Account matcher
  // ===========================================================================

  /** The plugin-derived home-account id of `w` equals the wanted identifier,
      ignoring case (two nulls are equal). */
  predicate HomeIdMatches(plugin: WamPlugin, accountId: Option<string>, w: WebAccount) {
    NullableEqualsIgnoreCase(plugin.getHomeAccountIdOrNull(w), accountId)
  }

  /** The login hint equals `w`'s user name, ignoring case (a null hint matches nothing). */
  predicate LoginHintMatches(loginHint: Option<string>, w: WebAccount) {
    NullableEqualsIgnoreCase(loginHint, Some(w.userName))
  }

  /** The index of the first account whose home-account id matches. */
  function FirstHomeIdMatch(plugin: WamPlugin, accountId: Option<string>, accounts: seq<WebAccount>): (r: Option<nat>)
    ensures r.Some? ==> r.value < |accounts| && HomeIdMatches(plugin, accountId, accounts[r.value])
    ensures r.Some? ==> forall j :: 0 <= j < r.value ==> !HomeIdMatches(plugin, accountId, accounts[j])
    ensures r.None? <==> forall j :: 0 <= j < |accounts| ==> !HomeIdMatches(plugin, accountId, accounts[j])
    decreases |accounts|
  {
    if accounts == [] then None
    else if HomeIdMatches(plugin, accountId, accounts[0]) then Some(0)
    else
      match FirstHomeIdMatch(plugin, accountId, accounts[1..])
      case None => None
      case Some(k) => Some(k + 1)
  }

  /** The index of the last account whose user name matches the login hint. */
  function LastLoginHintMatch(loginHint: Option<string>, accounts: seq<WebAccount>): (r: Option<nat>)
    ensures r.Some? ==> r.value < |accounts| && LoginHintMatches(loginHint, accounts[r.value])
    ensures r.Some? ==> forall j :: r.value < j < |accounts| ==> !LoginHintMatches(loginHint, accounts[j])
    ensures r.None? <==> forall j :: 0 <= j < |accounts| ==> !LoginHintMatches(loginHint, accounts[j])
    decreases |accounts|
  {
    if accounts == [] then None
    else if LoginHintMatches(loginHint, accounts[|accounts| - 1]) then Some(|accounts| - 1)
    else LastLoginHintMatch(loginHint, accounts[..|accounts| - 1])
  }

  function AccountAt(accounts: seq<WebAccount>, k: Option<nat>): Option<WebAccount> {
    match k
    case Some(i) => if i < |accounts| then Some(accounts[i]) else None
    case None => None
  }

  /** The account the matcher settles on: the first home-account-id match, else
      the last login-hint match, else none. */
  function MatchedAccount(plugin: WamPlugin, accountId: Option<string>, loginHint: Option<string>,
                          accounts: seq<WebAccount>): Option<WebAccount>
  {
    if FirstHomeIdMatch(plugin, accountId, accounts).Some? then
      AccountAt(accounts, FirstHomeIdMatch(plugin, accountId, accounts))
    else
      AccountAt(accounts, LastLoginHintMatch(loginHint, accounts))
  }

  /** `FindWamAccountForMsalAccountAsync` over the accounts WAM enumerated.
      `examined` is the number of accounts the loop looked at: it stops right
      after the first home-account-id match. */
  method FindWamAccountForMsalAccount(plugin: WamPlugin, accountId: Option<string>, loginHint: Option<string>,
                                      webAccounts: seq<WebAccount>)
    returns (r: Option<WebAccount>, examined: nat)
    ensures r == MatchedAccount(plugin, accountId, loginHint, webAccounts)
    ensures examined == match FirstHomeIdMatch(plugin, accountId, webAccounts)
                        case Some(k) => k + 1
                        case None => |webAccounts|
  {
    var matchedAccountByLoginHint: Option<WebAccount> := None;
    var i := 0;
    while i < |webAccounts|
      invariant i <= |webAccounts|
      invariant forall j :: 0 <= j < i ==> !HomeIdMatches(plugin, accountId, webAccounts[j])
      invariant matchedAccountByLoginHint == AccountAt(webAccounts[..i], LastLoginHintMatch(loginHint, webAccounts[..i]))
    {
      var webAccount := webAccounts[i];
      var homeAccountId := plugin.getHomeAccountIdOrNull(webAccount);
      if NullableEqualsIgnoreCase(homeAccountId, accountId) {
        FirstMatchAt(plugin, accountId, webAccounts, i);
        return Some(webAccount), i + 1;
      }
      assert webAccounts[..i + 1][..i] == webAccounts[..i];
      assert webAccounts[..i + 1][i] == webAccount;
      if NullableEqualsIgnoreCase(loginHint, Some(webAccount.userName)) {
        matchedAccountByLoginHint := Some(webAccount);
      } else {
        LastMatchWithin(loginHint, webAccounts[..i + 1], webAccounts[..i]);
      }
      i := i + 1;
    }
    assert webAccounts[..i] == webAccounts;
    LastMatchWithin(loginHint, webAccounts, webAccounts);
    return matchedAccountByLoginHint, i;
  }

  lemma FirstMatchAt(plugin: WamPlugin, accountId: Option<string>, accounts: seq<WebAccount>, i: nat)
    requires i < |accounts| && HomeIdMatches(plugin, accountId, accounts[i])
    requires forall j :: 0 <= j < i ==> !HomeIdMatches(plugin, accountId, accounts[j])
    ensures FirstHomeIdMatch(plugin, accountId, accounts) == Some(i)
  {
    var r := FirstHomeIdMatch(plugin, accountId, accounts);
    assert r.Some?;
    assert !(r.value > i);
  }

  /** Dropping a non-matching last account does not change the last match, and the
      match, when there is one, is an element at its index. */
  lemma LastMatchWithin(loginHint: Option<string>, longer: seq<WebAccount>, shorter: seq<WebAccount>)
    requires shorter == longer || (|longer| == |shorter| + 1 && longer[..|shorter|] == shorter
                                   && !LoginHintMatches(loginHint, longer[|shorter|]))
    ensures AccountAt(longer, LastLoginHintMatch(loginHint, longer))
         == AccountAt(shorter, LastLoginHintMatch(loginHint, shorter))
  {
    if shorter != longer {
      assert longer[..|longer| - 1] == shorter;
    }
  }

  /** A home-account-id match beats any login-hint match, even one earlier in the
      list; the hint is consulted only when no account matches by id. */
  lemma HomeIdMatchWins(plugin: WamPlugin, accountId: Option<string>, loginHint: Option<string>,
                        accounts: seq<WebAccount>, i: nat, k: nat)
    requires i < |accounts| && LoginHintMatches(loginHint, accounts[i])
    requires k < |accounts| && HomeIdMatches(plugin, accountId, accounts[k])
    requires forall j :: 0 <= j < k ==> !HomeIdMatches(plugin, accountId, accounts[j])
    ensures MatchedAccount(plugin, accountId, loginHint, accounts) == Some(accounts[k])
  {
    FirstMatchAt(plugin, accountId, accounts, k);
  }

  /** With no id match, the result is the last login-hint match; with neither,
      there is no account. */
  lemma LoginHintFallback(plugin: WamPlugin, accountId: Option<string>, loginHint: Option<string>,
                          accounts: seq<WebAccount>)
    requires forall j :: 0 <= j < |accounts| ==> !HomeIdMatches(plugin, accountId, accounts[j])
    ensures var m := MatchedAccount(plugin, accountId, loginHint, accounts);
            m.None? <==> forall j :: 0 <= j < |accounts| ==> !LoginHintMatches(loginHint, accounts[j])
    ensures forall k :: 0 <= k < |accounts| && LoginHintMatches(loginHint, accounts[k]) &&
                        (forall j :: k < j < |accounts| ==> !LoginHintMatches(loginHint, accounts[j])) ==>
                        MatchedAccount(plugin, accountId, loginHint, accounts) == Some(accounts[k])
  {
    forall k | 0 <= k < |accounts| && LoginHintMatches(loginHint, accounts[k]) &&
               (forall j :: k < j < |accounts| ==> !LoginHintMatches(loginHint, accounts[j]))
      ensures MatchedAccount(plugin, accountId, loginHint, accounts) == Some(accounts[k])
    {
      var r := LastLoginHintMatch(loginHint, accounts);
      assert r.Some?;
      assert !(r.value < k);
      assert !(r.value > k);
    }
  }

  // ===========================================================================
  // Result mapper
  // ===========================================================================

  /** The raw WAM error code as diagnostic text. */
  function InternalErrorCode(e: WebProviderError): string {
    NatToDecimal(e.errorCode)
  }

  /** The description of a plugin-mapped error. */
  function WamErrorMessage(plugin: WamPlugin, e: WebProviderError): string {
    WamErrorPrefix + plugin.typeName + e.errorMessage
  }

  function UnknownStatusMessage(status: WebTokenRequestStatus, internalErrorCode: string): string {
    "Unknown WebTokenRequestStatus " + StatusName(status) + " (internal error code " + internalErrorCode + ")"
  }

  /** Whether the mapper asks the plugin to translate the raw code. */
  predicate IsPluginMappedStatus(s: WebTokenRequestStatus) {
    s == UserInteractionRequired || s == ProviderError
  }

  /** `CreateMsalTokenResponse`: the translation of WAM's answer into MSAL's
      response. Success forwards the plugin's parse of the first response (an
      empty response list fails on the index); every other status yields a
      response with error fields only, and keeps the raw code (as decimal text
      without leading zeros) unless the status is UserCancel or AccountSwitch. */
  function CreateMsalTokenResponse(wamResponse: WebTokenRequestResult, plugin: WamPlugin, isInteractive: bool)
    : (r: Outcome<MsalTokenResponse>)
    ensures wamResponse.responseStatus == Success ==>
              && (r.Returned? <==> |wamResponse.responseData| > 0)
              && (r.Returned? ==> r.value == plugin.parseSuccessfulWamResponse(wamResponse.responseData[0]))
              && (r.Threw? ==> r.exception == ArgumentOutOfRangeException)
    ensures wamResponse.responseStatus != Success ==>
              && r.Returned? && r.value.error.Some? && r.value.errorDescription.Some? && r.value.tokens.None?
              && (r.value.errorCodes.Some? <==> wamResponse.responseStatus !in {UserCancel, AccountSwitch})
    ensures r.Returned? && r.value.errorCodes.Some? && wamResponse.responseStatus != Success ==>
              && |r.value.errorCodes.value| == 1
              && AllDigits(r.value.errorCodes.value[0])
              && ParseDecimal(r.value.errorCodes.value[0]) == wamResponse.responseError.errorCode
              && 1 <= |r.value.errorCodes.value[0]|
              && (|r.value.errorCodes.value[0]| == 1 || r.value.errorCodes.value[0][0] != '0')
  {
    var status := wamResponse.responseStatus;
    var err := wamResponse.responseError;
    DecimalRoundTrip(err.errorCode);
    match status
    case Success =>
      if |wamResponse.responseData| == 0 then Threw(ArgumentOutOfRangeException)
      else Returned(plugin.parseSuccessfulWamResponse(wamResponse.responseData[0]))
    case UserInteractionRequired =>
      Returned(ErrorResponse(plugin.mapTokenRequestError(status, err.errorCode, isInteractive),
                             Some([InternalErrorCode(err)]), WamErrorMessage(plugin, err)))
    case UserCancel =>
      Returned(ErrorResponse(AuthenticationCanceledError, None, AuthenticationCanceledMessage))
    case ProviderError =>
      Returned(ErrorResponse(plugin.mapTokenRequestError(status, err.errorCode, isInteractive),
                             Some([InternalErrorCode(err)]), WamErrorMessage(plugin, err)))
    case AccountSwitch =>
      Returned(ErrorResponse(AccountSwitchError, None, AccountSwitchMessage))
    case _ =>
      Returned(ErrorResponse(UnknownBrokerError, Some([InternalErrorCode(err)]),
                             UnknownStatusMessage(status, InternalErrorCode(err))))
  }

  /** The failure branch table: which code and which description each status gets. */
  lemma FailureBranchTable(wamResponse: WebTokenRequestResult, plugin: WamPlugin, isInteractive: bool)
    requires wamResponse.responseStatus != Success
    ensures var status := wamResponse.responseStatus;
            var err := wamResponse.responseError;
            var r := CreateMsalTokenResponse(wamResponse, plugin, isInteractive).value;
            && (IsPluginMappedStatus(status) ==>
                  && r.error == Some(plugin.mapTokenRequestError(status, err.errorCode, isInteractive))
                  && r.errorDescription == Some(WamErrorPrefix + plugin.typeName + err.errorMessage))
            && (status == UserCancel ==>
                  r.error == Some(AuthenticationCanceledError) && r.errorDescription == Some(AuthenticationCanceledMessage))
            && (status == AccountSwitch ==> r.error == Some("account_switch"))
            && (status == AccountProviderNotAvailable ==>
                  && r.error == Some(UnknownBrokerError)
                  && Contains(r.errorDescription.value, StatusName(status))
                  && Contains(r.errorDescription.value, NatToDecimal(err.errorCode)))
  {
    var status := wamResponse.responseStatus;
    var code := NatToDecimal(wamResponse.responseError.errorCode);
    if status == AccountProviderNotAvailable {
      var msg := UnknownStatusMessage(status, code);
      ContainsMiddle("Unknown WebTokenRequestStatus ", StatusName(status), " (internal error code " + code + ")");
      assert msg == "Unknown WebTokenRequestStatus " + StatusName(status) + (" (internal error code " + code + ")");
      ContainsMiddle("Unknown WebTokenRequestStatus " + StatusName(status) + " (internal error code ", code, ")");
    }
  }

  /** User cancellation and account switch do not consult the plugin or the raw
      WAM error: any two such answers with the same status map alike. */
  lemma FixedResponsesIgnorePlugin(a: WebTokenRequestResult, b: WebTokenRequestResult,
                                   p: WamPlugin, q: WamPlugin, x: bool, y: bool)
    requires a.responseStatus == b.responseStatus
    requires a.responseStatus == UserCancel || a.responseStatus == AccountSwitch
    ensures CreateMsalTokenResponse(a, p, x) == CreateMsalTokenResponse(b, q, y)
  {
  }

  // ===========================================================================
  // Extra query parameters
  // ===========================================================================

  /** MSAL's `instance_aware=true` is WAM's `discover=home`; only that exact,
      case-sensitive pair is renamed. */
  function RenameInstanceAware(kv: (string, string)): (r: (string, string))
    ensures r != kv <==> kv == ("instance_aware", "true")
    ensures r != kv ==> r == ("discover", "home")
  {
    if kv.0 == "instance_aware" && kv.1 == "true" then ("discover", "home") else kv
  }

  function Renamed(pairs: seq<(string, string)>): (r: seq<(string, string)>)
    ensures |r| == |pairs|
    ensures forall i :: 0 <= i < |pairs| ==> r[i] == RenameInstanceAware(pairs[i])
  {
    seq(|pairs|, i requires 0 <= i < |pairs| => RenameInstanceAware(pairs[i]))
  }

  /** Adding `pairs` one by one, renamed, to the dictionary `props`: the final
      entries and, if an `Add` hit a key already present, that key. */
  function AddAll(props: Dictionary, pairs: seq<(string, string)>): (Dictionary, Option<string>)
    decreases |pairs|
  {
    if pairs == [] then (props, None)
    else
      var kv := RenameInstanceAware(pairs[0]);
      if HasKey(props, kv.0) then (props, Some(kv.0))
      else AppendFresh(props, kv); AddAll(props + [kv], pairs[1..])
  }

  lemma AppendFresh(props: Dictionary, kv: (string, string))
    requires !HasKey(props, kv.0)
    ensures DistinctKeys(props + [kv])
  {
    forall i, j | 0 <= i < j < |props + [kv]| ensures (props + [kv])[i].0 != (props + [kv])[j].0 {
      if j == |props| {
        assert (props + [kv])[i] == props[i];
      }
    }
  }

  /** What `AddExtraParamsToRequest` leaves in the dictionary: nothing is added for
      a null dictionary; otherwise the renamed pairs, in enumeration order, up to
      the first duplicate key. */
  function AddExtraParams(props: Dictionary, extras: Option<seq<(string, string)>>): (Dictionary, Option<string>) {
    match extras
    case None => (props, None)
    case Some(pairs) => AddAll(props, pairs)
  }

  lemma RenamedTail(pairs: seq<(string, string)>, m: nat)
    requires pairs != [] && m < |pairs|
    ensures Renamed(pairs)[..m + 1] == [RenameInstanceAware(pairs[0])] + Renamed(pairs[1..])[..m]
    ensures m + 1 < |pairs| ==> Renamed(pairs)[m + 1] == Renamed(pairs[1..])[m]
  {
  }

  /** `r` is what copying `pairs` into `props` leaves: the old entries, then the
      renamed pairs in enumeration order up to the first one whose key is already
      present, where the copy stops and reports that key. */
  predicate CopyShape(props: Dictionary, pairs: seq<(string, string)>, r: (Dictionary, Option<string>)) {
    var n := |r.0| - |props|;
    && |props| <= |r.0| <= |props| + |pairs|
    && r.0 == props + Renamed(pairs)[..n]
    && (r.1.None? <==> n == |pairs|)
    && (r.1.Some? ==> r.1.value == Renamed(pairs)[n].0 && HasKey(r.0, r.1.value))
  }

  lemma {:induction false} AddAllShape(props: Dictionary, pairs: seq<(string, string)>)
    ensures CopyShape(props, pairs, AddAll(props, pairs))
    decreases |pairs|
  {
    if pairs != [] {
      var kv := RenameInstanceAware(pairs[0]);
      if HasKey(props, kv.0) {
        assert props + Renamed(pairs)[..0] == props;
      } else {
        AppendFresh(props, kv);
        var next: Dictionary := props + [kv];
        AddAllShape(next, pairs[1..]);
        assert AddAll(props, pairs) == AddAll(next, pairs[1..]);
        CopyShapeStep(props, pairs, AddAll(next, pairs[1..]));
      }
    }
  }

  lemma CopyShapeStep(props: Dictionary, pairs: seq<(string, string)>, r: (Dictionary, Option<string>))
    requires pairs != [] && DistinctKeys(props + [RenameInstanceAware(pairs[0])])
    requires CopyShape(props + [RenameInstanceAware(pairs[0])], pairs[1..], r)
    ensures CopyShape(props, pairs, r)
  {
    var kv := RenameInstanceAware(pairs[0]);
    var next := props + [kv];
    var m := |r.0| - |next|;
    RenamedTail(pairs, m);
    assert r.0 == next + Renamed(pairs[1..])[..m];
    assert r.0 == props + Renamed(pairs)[..m + 1];
  }

  /** The copy succeeds exactly when the renamed keys are new and distinct. */
  lemma AddAllSucceedsIff(props: Dictionary, pairs: seq<(string, string)>)
    ensures AddAll(props, pairs).1.None? <==> DistinctKeys(props + Renamed(pairs))
    ensures AddAll(props, pairs).1.None? ==> AddAll(props, pairs).0 == props + Renamed(pairs)
  {
    AddAllShape(props, pairs);
    var r := AddAll(props, pairs);
    var rn := Renamed(pairs);
    var n := |r.0| - |props|;
    if r.1.None? {
      assert rn[..n] == rn;
    } else {
      var i :| 0 <= i < |r.0| && r.0[i].0 == r.1.value;
      assert r.0 == (props + rn)[..|r.0|];
      assert (props + rn)[i].0 == (props + rn)[|r.0|].0;
    }
  }

  /** A request that already names `discover` cannot also take `instance_aware=true`. */
  lemma DiscoverClash(props: Dictionary, other: string)
    requires !HasKey(props, "discover")
    ensures AddAll(props, [("discover", other), ("instance_aware", "true")]).1 == Some("discover")
  {
    var pairs := [("discover", other), ("instance_aware", "true")];
    AppendFresh(props, ("discover", other));
    var next: Dictionary := props + [("discover", other)];
    assert next[|props|].0 == "discover";
    assert pairs[1..] == [("instance_aware", "true")];
  }

  /** The `WebTokenRequest` a plugin builds; only its property bag changes afterwards. */
  class WebTokenRequest {
    const provider: WebAccountProvider
    const scope: string
    const clientId: string
    var appProperties: Dictionary

    constructor (data: WebTokenRequestData)
      ensures Data() == data
    {
      provider := data.provider;
      scope := data.scope;
      clientId := data.clientId;
      appProperties := data.appProperties;
    }

    function Data(): WebTokenRequestData
      reads this
    {
      WebTokenRequestData(provider, scope, clientId, appProperties)
    }

    /** `AppProperties.Add(key, value)`: fails on a key that is already present. */
    method Add(key: string, value: string) returns (failure: Option<Exception>)
      modifies this
      ensures HasKey(old(appProperties), key) ==>
                failure == Some(DuplicateKeyException(key)) && appProperties == old(appProperties)
      ensures !HasKey(old(appProperties), key) ==>
                failure == None && appProperties == old(appProperties) + [(key, value)]
    {
      if HasKey(appProperties, key) {
        failure := Some(DuplicateKeyException(key));
      } else {
        AppendFresh(appProperties, (key, value));
        appProperties := appProperties + [(key, value)];
        failure := None;
      }
    }
  }

  /** `AddExtraParamsToRequest`: adds the extra query parameters to the request's
      property bag in place, renaming `instance_aware=true`. A duplicate key
      stops the copy with an exception and leaves the pairs added before it. */
  method AddExtraParamsToRequest(request: WebTokenRequest, extraQueryParameters: Option<seq<(string, string)>>)
    returns (failure: Option<Exception>)
    modifies request
    ensures request.appProperties == AddExtraParams(old(request.appProperties), extraQueryParameters).0
    ensures failure == match AddExtraParams(old(request.appProperties), extraQueryParameters).1
                       case Some(k) => Some(DuplicateKeyException(k))
                       case None => None
  {
    failure := None;
    if extraQueryParameters.Some? {
      var pairs := extraQueryParameters.value;
      var i := 0;
      while i < |pairs|
        invariant i <= |pairs|
        invariant AddAll(old(request.appProperties), pairs) == AddAll(request.appProperties, pairs[i..])
        invariant failure == None
      {
        var key := pairs[i].0;
        var value := pairs[i].1;
        if key == "instance_aware" && value == "true" {
          key := "discover";
          value := "home";
        }
        assert pairs[i..][1..] == pairs[i + 1..];
        var err := request.Add(key, value);
        if err.Some? {
          failure := err;
          return;
        }
        i := i + 1;
      }
    }
  }

  // ===========================================================================
  // Silent acquisition
  // ===========================================================================

  /** An external call the silent flow makes, in the order it makes them. */
  datatype ExternalCall =
    | FindAccountProviderCall(authority: string, tenant: string)
    | FindAllWebAccountsCall(provider: WebAccountProvider, clientId: string)
    | CreateWebTokenRequestCall(provider: WebAccountProvider, isInteractive: bool, isAccountInWam: bool)
    | GetTokenSilentlyCall(request: WebTokenRequestData, account: WebAccount)

  /** WAM's `GetTokenSilentlyAsync` occurs in a trace at most once, and only as its
      last call. */
  predicate AtMostOneFinalBrokerCall(calls: seq<ExternalCall>) {
    forall i :: 0 <= i < |calls| - 1 ==> !calls[i].GetTokenSilentlyCall?
  }

  function NoWamAccountResponse(): (r: MsalTokenResponse)
    ensures r.error == Some(InteractionRequired) && r.errorDescription == Some(NoWamAccountDescription)
    ensures r.errorCodes.None? && r.tokens.None?
  {
    ErrorResponse(InteractionRequired, None, NoWamAccountDescription)
  }

  /** The request WAM receives: the plugin's request with the extra parameters copied in. */
  function SentRequest(data: WebTokenRequestData, extras: Option<seq<(string, string)>>): WebTokenRequestData {
    data.(appProperties := AddExtraParams(data.appProperties, extras).0)
  }

  /** The steps of `AcquireTokenSilentAsync` once an account matched: build the
      request through the plugin, copy the extra parameters, call WAM once and
      map its answer non-interactively. A duplicate extra key throws before WAM
      is called. */
  method SendSilentTokenRequest(plugin: WamPlugin, platform: WamPlatform, provider: WebAccountProvider,
                                webAccount: WebAccount, parameters: RequestParameters)
    returns (result: Outcome<MsalTokenResponse>, calls: seq<ExternalCall>)
    ensures var data := plugin.createWebTokenRequest(provider, false, true, parameters);
            var failed := AddExtraParams(data.appProperties, parameters.extraQueryParameters).1;
            var sent := SentRequest(data, parameters.extraQueryParameters);
            && (failed.Some? ==>
                  result == Threw(DuplicateKeyException(failed.value))
                  && calls == [CreateWebTokenRequestCall(provider, false, true)])
            && (failed.None? ==>
                  && calls == [CreateWebTokenRequestCall(provider, false, true), GetTokenSilentlyCall(sent, webAccount)]
                  && result == match platform.getTokenSilently(sent, webAccount)
                               case Threw(e) => Threw(e)
                               case Returned(answer) => CreateMsalTokenResponse(answer, plugin, false))
  {
    calls := [CreateWebTokenRequestCall(provider, false, true)];
    var webTokenRequest := new WebTokenRequest(plugin.createWebTokenRequest(provider, false, true, parameters));
    var failure := AddExtraParamsToRequest(webTokenRequest, parameters.extraQueryParameters);
    if failure.Some? {
      return Threw(failure.value), calls;
    }
    var sent := webTokenRequest.Data();
    calls := calls + [GetTokenSilentlyCall(sent, webAccount)];
    var wamResult := platform.getTokenSilently(sent, webAccount);
    if wamResult.Threw? {
      return Threw(wamResult.exception), calls;
    }
    result := CreateMsalTokenResponse(wamResult.value, plugin, false);
  }

  /** `AcquireTokenSilentAsync`. Besides the response it returns the trace of
      external calls made. A non-AAD authority throws before any call; no matched
      account returns interaction_required before a token request is built; a
      matched account leads to the request steps of `SendSilentTokenRequest`, so
      to at most one WAM call, the last one. */
  method AcquireTokenSilent(broker: Broker, platform: WamPlatform, parameters: RequestParameters)
    returns (result: Outcome<MsalTokenResponse>, calls: seq<ExternalCall>)
    ensures parameters.authority.authorityType != Aad ==>
              result == Threw(MsalClientException(NonAadAuthorityMessage)) && calls == []
    ensures AtMostOneFinalBrokerCall(calls)
    ensures parameters.authority.authorityType == Aad ==>
              var isMsa := IsMsaSilentRequest(platform, parameters.authority).value;
              var tid := SilentTenantId(isMsa, parameters.authority);
              var found := platform.findAccountProvider(LoginMicrosoftUrl, tid);
              && 1 <= |calls|
              && calls[0] == FindAccountProviderCall(LoginMicrosoftUrl, tid)
              && (found.Threw? ==> result == Threw(found.exception) && |calls| == 1)
              && (found.Returned? ==>
                    var enumerated := platform.findAllWebAccounts(found.value, parameters.clientId);
                    && 2 <= |calls|
                    && calls[1] == FindAllWebAccountsCall(found.value, parameters.clientId)
                    && (enumerated.Threw? ==> result == Threw(enumerated.exception) && |calls| == 2)
                    && (enumerated.Returned? ==>
                          var matched := MatchedAccount(SilentPlugin(broker, isMsa), parameters.accountId,
                                                        parameters.loginHint, enumerated.value);
                          && (matched.None? ==> result == Returned(NoWamAccountResponse()) && |calls| == 2)
                          && (matched.Some? ==> 3 <= |calls| && calls[2].CreateWebTokenRequestCall?)))
    ensures parameters.authority.authorityType == Aad && |calls| >= 3 ==>
              var isMsa := IsMsaSilentRequest(platform, parameters.authority).value;
              var plugin := SilentPlugin(broker, isMsa);
              var provider := platform.findAccountProvider(LoginMicrosoftUrl, SilentTenantId(isMsa, parameters.authority)).value;
              var matched := MatchedAccount(plugin, parameters.accountId, parameters.loginHint,
                                            platform.findAllWebAccounts(provider, parameters.clientId).value);
              var data := plugin.createWebTokenRequest(provider, false, true, parameters);
              var failed := AddExtraParams(data.appProperties, parameters.extraQueryParameters).1;
              var sent := SentRequest(data, parameters.extraQueryParameters);
              && matched.Some?
              && (failed.Some? ==>
                    result == Threw(DuplicateKeyException(failed.value))
                    && calls[2..] == [CreateWebTokenRequestCall(provider, false, true)])
              && (failed.None? ==>
                    && calls[2..] == [CreateWebTokenRequestCall(provider, false, true), GetTokenSilentlyCall(sent, matched.value)]
                    && result == match platform.getTokenSilently(sent, matched.value)
                                 case Threw(e) => Threw(e)
                                 case Returned(answer) => CreateMsalTokenResponse(answer, plugin, false))
  {
    calls := [];
    var isMsaOutcome := IsMsaSilentRequest(platform, parameters.authority);
    if isMsaOutcome.Threw? {
      return Threw(isMsaOutcome.exception), calls;
    }
    var isMsa := isMsaOutcome.value;
    var wamPlugin := SilentPlugin(broker, isMsa);
    var tid := SilentTenantId(isMsa, parameters.authority);

    calls := calls + [FindAccountProviderCall(LoginMicrosoftUrl, tid)];
    var providerOutcome := platform.findAccountProvider(LoginMicrosoftUrl, tid);
    if providerOutcome.Threw? {
      return Threw(providerOutcome.exception), calls;
    }
    var provider := providerOutcome.value;

    calls := calls + [FindAllWebAccountsCall(provider, parameters.clientId)];
    var accountsOutcome := platform.findAllWebAccounts(provider, parameters.clientId);
    if accountsOutcome.Threw? {
      return Threw(accountsOutcome.exception), calls;
    }
    var webAccount, _ := FindWamAccountForMsalAccount(wamPlugin, parameters.accountId, parameters.loginHint,
                                                       accountsOutcome.value);
    if webAccount.None? {
      return Returned(NoWamAccountResponse()), calls;
    }

    var tail;
    result, tail := SendSilentTokenRequest(wamPlugin, platform, provider, webAccount.value, parameters);
    calls := calls + tail;
    assert calls[2..] == tail;
  }
}
