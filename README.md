# WAM broker adapter of MSAL.NET, modelled in Dafny

This project models the Windows Web Account Manager (WAM) broker adapter of the
Microsoft Authentication Library for .NET. It covers two classes.

- `WamBroker` is the silent path. It routes an authority to the AAD or the MSA
  plugin and finds the WAM account that stands for the MSAL account (first
  home-account-id match, else last login-hint match). It copies the extra query
  parameters onto the WAM request, renaming `instance_aware=true` to
  `discover=home`. It calls `GetTokenSilentlyAsync` once and translates WAM's
  `WebTokenRequestStatus` into an `MsalTokenResponse`.
- `AccountPicker` is the interactive provider choice. It decides which provider
  commands the accounts pane offers for a tenant, manages the handler
  subscription and the deferral, keeps a provider slot that the last invoked
  command writes, and decides how to dispatch depending on the thread's
  apartment and the synchronization context.

Modules:

- `Wrappers`: `Option`, `Outcome` (a value or a thrown exception) and `Exception`.
- `Strings`: ordinal ignore-case equality, the decimal text of a `uint` error
  code (with a parse round trip) and containment.
- `BrokerTypes`: authorities, WAM values and `MsalTokenResponse`. The plugin
  (`IWamPlugin`) and the platform entry points (`FindAccountProviderAsync`,
  `FindAllWebAccountsAsync`, `GetTokenSilentlyAsync`,
  `IsCommonOrganizationsOrConsumersTenant`) are records of functions. The
  properties are proved for all of them. The one exception is
  `RoutingIgnoresTenantCase`, which compares two authorities on which the
  multi-tenant test agrees.
- `WamBroker`: the silent path. Routing and the status mapping are functions.
  The matcher and the parameter copy are loops. `WebTokenRequest` is a class
  whose property bag is updated in place. `AcquireTokenSilent` returns the
  response together with the trace of external calls it made.
- `AccountPicker`: the classes `AccountPicker` (the `_provider` slot),
  `AccountsSettingsPane` (the subscribed-handler count and an event log) and
  `CommandsRequestedEventArgs` (the command list and the deferral). What the
  pane does while it is shown is given as a `PaneScript`.

Where the design description and the code differ, the model follows the code:

- When no account matches, the description is the code's text ("Could not find a
  WAM account for the silent requst").
- UserCancel and AccountSwitch keep no raw error code (`ErrorCodes` is null).
- On a thread that is not MTA, `DetermineAccountInteractivelyAsync` returns null
  and never shows the picker.
- Multi-tenant detection is whatever `IsCommonOrganizationsOrConsumersTenant`
  says. It comes before the consumers check.

## Model

| member | source | states |
|---|---|---|
| WamBroker.IsMsaSilentRequest | src/client/Microsoft.Identity.Client/Platforms/netdesktop/Broker/WamBroker.cs:209-234 | Throws MsalClientException exactly for non-AAD authorities. Returns true exactly for an AAD authority that is not common/organizations/consumers and whose tenant is "consumers" or the MSA tenant GUID, ignoring case. |
| WamBroker.RoutingIgnoresTenantCase | src/client/Microsoft.Identity.Client/Platforms/netdesktop/Broker/WamBroker.cs:223-230 | Two authorities of the same type whose tenants differ only in letter case route alike, provided the multi-tenant test gives the same answer for both. |
| WamBroker.RoutedPluginAndTenant | src/client/Microsoft.Identity.Client/Platforms/netdesktop/Broker/WamBroker.cs:56-59 | For an AAD authority, the (plugin, tenant) pair the silent flow uses. A multi-tenant authority goes to the AAD plugin with its own tenant. Otherwise "consumers" or the MSA tenant GUID (ignoring case) goes to the MSA plugin with "consumers", and any other tenant goes to the AAD plugin with its own tenant. |
| WamBroker.FirstHomeIdMatch | src/client/Microsoft.Identity.Client/Platforms/netdesktop/Broker/WamBroker.cs:116-122 | The index is of an account whose plugin home-account id equals the wanted id (ignoring case) and no earlier account matches. None exactly when no account matches. |
| WamBroker.LastLoginHintMatch | src/client/Microsoft.Identity.Client/Platforms/netdesktop/Broker/WamBroker.cs:124-127 | The index is of an account whose UserName equals the login hint and no later account matches. None exactly when none matches. |
| WamBroker.FindWamAccountForMsalAccount | src/client/Microsoft.Identity.Client/Platforms/netdesktop/Broker/WamBroker.cs:104-131 | The loop returns the first id match, else the last hint match, else null. It examines accounts only up to and including the first id match. |
| WamBroker.HomeIdMatchWins | src/client/Microsoft.Identity.Client/Platforms/netdesktop/Broker/WamBroker.cs:115-122 | An id match beats any hint match, including an earlier one. |
| WamBroker.LoginHintFallback | src/client/Microsoft.Identity.Client/Platforms/netdesktop/Broker/WamBroker.cs:124-130 | With no id match, the result is the last hint match, and null exactly when no hint matches. |
| WamBroker.CreateMsalTokenResponse | src/client/Microsoft.Identity.Client/Platforms/netdesktop/Broker/WamBroker.cs:135-182 | Success yields exactly the plugin's parse of ResponseData[0], or throws on empty data. Every other status yields an error-only response. ErrorCodes is present exactly when the status is not UserCancel or AccountSwitch, and then it is one decimal string without leading zeros that parses back to the raw code. |
| WamBroker.FailureBranchTable | src/client/Microsoft.Identity.Client/Platforms/netdesktop/Broker/WamBroker.cs:148-173 | UserInteractionRequired and ProviderError give the plugin-mapped code with "WAM Error" + plugin type + message. UserCancel gives authentication_canceled with its fixed message. AccountSwitch gives account_switch. Any other status gives unknown_broker_error with a message containing the status name and the raw code. |
| WamBroker.FixedResponsesIgnorePlugin | src/client/Microsoft.Identity.Client/Platforms/netdesktop/Broker/WamBroker.cs:154-167 | For UserCancel and AccountSwitch, the response depends on nothing but the status: not the plugin, the raw error or the interactive flag. |
| WamBroker.RenameInstanceAware | src/client/Microsoft.Identity.Client/Platforms/netdesktop/Broker/WamBroker.cs:194-201 | A pair changes exactly when it is the case-sensitive ("instance_aware", "true"), and then it becomes ("discover", "home"). |
| WamBroker.AddAllShape | src/client/Microsoft.Identity.Client/Platforms/netdesktop/Broker/WamBroker.cs:192-204 | The copy keeps the existing entries and appends the renamed pairs in enumeration order. It stops at the first key already present and reports that key. |
| WamBroker.AddAllSucceedsIff | src/client/Microsoft.Identity.Client/Platforms/netdesktop/Broker/WamBroker.cs:192-204 | The copy succeeds exactly when the existing and renamed keys are all distinct. The result is then the existing entries followed by every renamed pair. |
| WamBroker.DiscoverClash | src/client/Microsoft.Identity.Client/Platforms/netdesktop/Broker/WamBroker.cs:197-203 | `discover` followed by `instance_aware=true` fails on the key `discover`. |
| WamBroker.WebTokenRequest.Add | src/client/Microsoft.Identity.Client/Platforms/netdesktop/Broker/WamBroker.cs:203 | Appends a new key. A present key throws and leaves the properties unchanged. |
| WamBroker.AddExtraParamsToRequest | src/client/Microsoft.Identity.Client/Platforms/netdesktop/Broker/WamBroker.cs:186-206 | A null dictionary adds nothing. Otherwise the request's properties become what the copy yields, and a duplicate key throws. |
| WamBroker.NoWamAccountResponse | src/client/Microsoft.Identity.Client/Platforms/netdesktop/Broker/WamBroker.cs:71-78 | interaction_required with the fixed description, and no codes or tokens. |
| WamBroker.SendSilentTokenRequest | src/client/Microsoft.Identity.Client/Platforms/netdesktop/Broker/WamBroker.cs:80-100 | Builds the request non-interactively with the account known and copies the extras. A duplicate key throws before WAM is called. Otherwise WAM is called exactly once with the copied request and the matched account, and its answer is mapped with isInteractive false. |
| WamBroker.AcquireTokenSilent | src/client/Microsoft.Identity.Client/Platforms/netdesktop/Broker/WamBroker.cs:48-102 | A non-AAD authority throws with no external call. The provider lookup uses the routed tenant and comes before account enumeration. No match returns interaction_required before any token request is built. At most one WAM token call happens, as the final call. |
| Strings.DecimalRoundTrip | src/client/Microsoft.Identity.Client/Platforms/netdesktop/Broker/WamBroker.cs:151 | The invariant-culture text of a raw code parses back to the code. |
| AccountPicker.OfferedProviders | src/client/Microsoft.Identity.Client/Platforms/netdesktop/Broker/AccountPicker.cs:103-142 | "common" offers consumers then organizations. "organizations" and "consumers" offer one command each. Any other tenant, including "Common", offers one command for the canonical authority. |
| AccountPicker.PopulatedCommandsSpec | src/client/Microsoft.Identity.Client/Platforms/netdesktop/Broker/AccountPicker.cs:106-141 | Command i is built from the provider looked up for choice i. Every choice gets a command exactly when no lookup throws. Otherwise the list stops at the failing lookup, whose exception escapes. |
| AccountPicker.CommandsRequestedEventArgs.GetDeferral | src/client/Microsoft.Identity.Client/Platforms/netdesktop/Broker/AccountPicker.cs:101 | The deferral becomes pending. The commands are unchanged. |
| AccountPicker.CommandsRequestedEventArgs.AddCommand | src/client/Microsoft.Identity.Client/Platforms/netdesktop/Broker/AccountPicker.cs:106-109 | Appends one command. The deferral is unchanged. |
| AccountPicker.CommandsRequestedEventArgs.CompleteDeferral | src/client/Microsoft.Identity.Client/Platforms/netdesktop/Broker/AccountPicker.cs:148 | The deferral completes with the command list as it then stands. |
| AccountPicker.AccountsSettingsPane.Subscribe | src/client/Microsoft.Identity.Client/Platforms/netdesktop/Broker/AccountPicker.cs:74 | One more handler is subscribed, and this is logged. |
| AccountPicker.AccountsSettingsPane.Unsubscribe | src/client/Microsoft.Identity.Client/Platforms/netdesktop/Broker/AccountPicker.cs:89 | One handler fewer is subscribed, and this is logged. |
| AccountPicker.LastInvokedSpec | src/client/Microsoft.Identity.Client/Platforms/netdesktop/Broker/AccountPicker.cs:152-155 | The slot holds the provider of the last dispatchable invocation. With none, it keeps its value. |
| AccountPicker.FreshPickerOutcome | src/client/Microsoft.Identity.Client/Platforms/netdesktop/Broker/AccountPicker.cs:21 | A fresh picker returns null when no listed command is invoked, and the invoked command's provider when one is. |
| AccountPicker.AccountPicker.constructor | src/client/Microsoft.Identity.Client/Platforms/netdesktop/Broker/AccountPicker.cs:25-31 | Keeps the authority's tenant, canonical authority and context. The slot starts unset. |
| AccountPicker.AccountPicker.WebAccountProviderCommandInvoked | src/client/Microsoft.Identity.Client/Platforms/netdesktop/Broker/AccountPicker.cs:152-155 | The command's provider overwrites the slot. |
| AccountPicker.AccountPicker.AddProviderCommand | src/client/Microsoft.Identity.Client/Platforms/netdesktop/Broker/AccountPicker.cs:138-141 | One lookup. A thrown exception adds nothing, and a found provider adds its command. |
| AccountPicker.AccountPicker.AccountCommandsRequested | src/client/Microsoft.Identity.Client/Platforms/netdesktop/Broker/AccountPicker.cs:94-150 | Appends the tenant's commands, or those before a failing lookup. The deferral completes on every path, after the last command is added. |
| AccountPicker.AccountPicker.DispatchInvocations | src/client/Microsoft.Identity.Client/Platforms/netdesktop/Broker/AccountPicker.cs:152-155 | After the user's invocations, the slot is the last-invoked provider. |
| AccountPicker.AccountPicker.ShowPicker | src/client/Microsoft.Identity.Client/Platforms/netdesktop/Broker/AccountPicker.cs:68-92 | Subscribes, shows, then unsubscribes, and the handler count is unchanged on success and on failure. When GetForWindow fails, nothing is subscribed. Returns the slot, or rethrows the show's exception. |
| AccountPicker.AccountPicker.DetermineAccountInteractively | src/client/Microsoft.Identity.Client/Platforms/netdesktop/Broker/AccountPicker.cs:33-66 | MTA without a context throws InvalidOperationException and touches nothing. MTA with a context posts once and returns or rethrows the picker's outcome. Any other apartment returns null without showing the pane. |

## Left out

- `AcquireTokenInteractiveAsync` and `HandleInstallUrl` only throw NotImplementedException. `IsBrokerInstalledAndInvokable` returns true. `RemoveAccountAsync` does nothing. None of them is modelled.
- `GetAccountsAsync` is not modelled. It returns no accounts when `ApiInformation` reports that `FindAllAccountsAsync` is missing, and otherwise concatenates the two plugins' account lists. The plugins' `GetAccountsAsync` is not part of this model.
- `GetDefaultAccountProviderAsync` and `IsDefaultAccountMsaAsync` are not modelled. They look up the default provider and test whether it is non-null and its `Authority` is exactly "consumers". They are not used by the silent or the interactive flow.
- `GetEffectiveScopes` is not modelled: its result depends on the ordering of `SortedSet` and on the enumeration order of the reserved-scope set, and neither is part of this model.
- The plugins (`AadPlugin`, `MsaPlugin`) and `IsCommonOrganizationsOrConsumersTenant` are not part of this model. They are arbitrary functions. The proofs hold for every choice of them, except that `RoutingIgnoresTenantCase` assumes the multi-tenant test agrees on the two authorities it compares.
- The MsalError codes and the AuthenticationCanceled message text come from MSAL's public constants, which are not part of this model. The properties only rely on them being fixed.
- Logging, duration scopes and the pane's English header text are left out.
- Threading is reduced to its decisions. The model does not cover `SynchronizationContext.Post`, the apartment state, `TaskCompletionSource`, `await`, the timing of the `async void` handler, or `volatile`. A lookup exception that escapes the handler is returned by `AccountCommandsRequested` and is not propagated further.
- The pane's behaviour is a fixed script. It raises AccountCommandsRequested once, after the subscription and the start of the show. The user's invocations follow. A show failure is observed last.
- `GetDeferral` is taken to succeed. A null `ResponseError` on a failure status is not modelled.
- A null provider from `FindAccountProviderAsync` is not modelled, and neither is a null MSAL account reference. A null `HomeAccountId.Identifier` and a null login hint are modelled.
- OrdinalIgnoreCase folds ASCII letters only. Other characters compare exactly.
- Only the named `WebTokenRequestStatus` values are modelled. An undefined numeric status value is not.
- The unused `temporaryRequestParams` property is not modelled.
