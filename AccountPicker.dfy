/** The interactive provider selection of MSAL's WAM broker adapter
    (`AccountPicker`). The Windows accounts pane asks the picker for provider
    commands (which commands depend on the tenant), the user invokes one, and the
    picker returns the provider of the last command invoked. Threads are
    reduced to the decision the picker makes about them, and the pane's own
    behaviour (whether it can be obtained, which commands the user invokes,
    whether showing it fails) is an input. */
module AccountPicker {
  import opened Wrappers
  import opened BrokerTypes

  // ===========================================================================
  // Which provider commands are offered
  // ===========================================================================

  /** The provider a command is built for. */
  datatype ProviderChoice = ConsumersProvider | OrganizationsProvider | TenantedProvider(canonicalAuthority: string)

  /** The tenant argument of the `FindAccountProviderAsync` lookup for a choice. */
  function LookupTenant(c: ProviderChoice): string {
    match c
    case ConsumersProvider => "consumers"
    case OrganizationsProvider => "organizations"
    case TenantedProvider(canonicalAuthority) => canonicalAuthority
  }

  /** The commands offered for an authority, in order. The tenant is compared
      ordinally and case-sensitively: "common" offers consumers then
      organizations, "organizations" and "consumers" offer themselves, and any
      other tenant (including "Common") offers one command for the canonical
      authority. */
  function OfferedProviders(tenantId: string, canonicalAuthority: string): (r: seq<ProviderChoice>)
    ensures 1 <= |r| <= 2
    ensures |r| == 2 <==> tenantId == "common"
    ensures |r| == 2 ==> r[0] == ConsumersProvider && r[1] == OrganizationsProvider
    ensures ConsumersProvider in r <==> tenantId == "common" || tenantId == "consumers"
    ensures OrganizationsProvider in r <==> tenantId == "common" || tenantId == "organizations"
    ensures r[0].TenantedProvider? <==> tenantId !in {"common", "organizations", "consumers"}
    ensures r[0].TenantedProvider? ==> r == [TenantedProvider(canonicalAuthority)]
  {
    if tenantId == "common" then [ConsumersProvider, OrganizationsProvider]
    else if tenantId == "organizations" then [OrganizationsProvider]
    else if tenantId == "consumers" then [ConsumersProvider]
    else [TenantedProvider(canonicalAuthority)]
  }

  /** A `WebAccountProviderCommand`; its invocation handler is always the
      picker's `WebAccountProviderCommandInvoked`. */
  datatype ProviderCommand = ProviderCommand(provider: WebAccountProvider)

  /** Looking the choices up in order and building a command for each, up to the
      first lookup that throws: the commands built and the escaping exception. */
  function PopulatedCommands(choices: seq<ProviderChoice>,
                             findAccountProvider: (string, string) -> Outcome<WebAccountProvider>)
    : (seq<ProviderCommand>, Option<Exception>)
    decreases |choices|
  {
    if choices == [] then ([], None)
    else
      match findAccountProvider(LoginMicrosoftUrl, LookupTenant(choices[0]))
      case Threw(e) => ([], Some(e))
      case Returned(p) =>
        var rest := PopulatedCommands(choices[1..], findAccountProvider);
        ([ProviderCommand(p)] + rest.0, rest.1)
  }

  /** Command i is built from the provider looked up for choice i; all choices get
      a command exactly when no lookup throws; otherwise the commands stop at the
      first lookup that throws, and that lookup's exception escapes. */
  lemma {:induction false} PopulatedCommandsSpec(choices: seq<ProviderChoice>,
                                                 findAccountProvider: (string, string) -> Outcome<WebAccountProvider>)
    ensures var (cmds, escaped) := PopulatedCommands(choices, findAccountProvider);
            && |cmds| <= |choices|
            && (forall i :: 0 <= i < |cmds| ==>
                  findAccountProvider(LoginMicrosoftUrl, LookupTenant(choices[i])) == Returned(cmds[i].provider))
            && (escaped.None? <==> |cmds| == |choices|)
            && (escaped.Some? ==>
                  findAccountProvider(LoginMicrosoftUrl, LookupTenant(choices[|cmds|])) == Threw(escaped.value))
    decreases |choices|
  {
    if choices != [] {
      var first := findAccountProvider(LoginMicrosoftUrl, LookupTenant(choices[0]));
      if first.Returned? {
        PopulatedCommandsSpec(choices[1..], findAccountProvider);
        var rest := PopulatedCommands(choices[1..], findAccountProvider);
        var cmds := [ProviderCommand(first.value)] + rest.0;
        forall i | 0 <= i < |cmds|
          ensures findAccountProvider(LoginMicrosoftUrl, LookupTenant(choices[i])) == Returned(cmds[i].provider)
        {
          if i > 0 {
            assert cmds[i] == rest.0[i - 1];
            assert choices[i] == choices[1..][i - 1];
          }
        }
        if rest.1.Some? {
          assert choices[|cmds|] == choices[1..][|rest.0|];
        }
      }
    }
  }

  // ===========================================================================
  // The pane and its event arguments
  // ===========================================================================

  /** The state of the `AccountsSettingsPaneEventDeferral` of one request. A
      completed deferral records the command list the pane then shows. */
  datatype DeferralState = NoDeferral | Pending | Completed(shown: seq<ProviderCommand>)

  /** `AccountsSettingsPaneCommandsRequestedEventArgs`: the command list the
      handler appends to and the deferral that holds the pane back meanwhile. */
  class CommandsRequestedEventArgs {
    var commands: seq<ProviderCommand>
    var deferral: DeferralState

    constructor ()
      ensures commands == [] && deferral == NoDeferral
    {
      commands := [];
      deferral := NoDeferral;
    }

    method GetDeferral()
      modifies this
      ensures deferral == Pending && commands == old(commands)
    {
      deferral := Pending;
    }

    method AddCommand(c: ProviderCommand)
      modifies this
      ensures commands == old(commands) + [c] && deferral == old(deferral)
    {
      commands := commands + [c];
    }

    /** `deferral.Complete()`: the pane may now show the list as it stands. */
    method CompleteDeferral()
      modifies this
      ensures deferral == Completed(commands) && commands == old(commands)
    {
      deferral := Completed(commands);
    }
  }

  /** What happens to the window's `AccountsSettingsPane`, in order. */
  datatype PaneEvent = HandlerAdded | AddAccountShown | HandlerRemoved

  /** The pane of the parent window: how many picker handlers are subscribed to
      its `AccountCommandsRequested` event, and what was done to it. */
  class AccountsSettingsPane {
    var handlers: nat
    var log: seq<PaneEvent>

    constructor ()
      ensures handlers == 0 && log == []
    {
      handlers := 0;
      log := [];
    }

    /** `AccountCommandsRequested += handler`. */
    method Subscribe()
      modifies this
      ensures handlers == old(handlers) + 1 && log == old(log) + [HandlerAdded]
    {
      handlers := handlers + 1;
      log := log + [HandlerAdded];
    }

    /** `AccountCommandsRequested -= handler`. */
    method Unsubscribe()
      requires handlers > 0
      modifies this
      ensures handlers == old(handlers) - 1 && log == old(log) + [HandlerRemoved]
    {
      handlers := handlers - 1;
      log := log + [HandlerRemoved];
    }

    /** `ShowAddAccountForWindowAsync` starts showing the pane. */
    method Show()
      modifies this
      ensures handlers == old(handlers) && log == old(log) + [AddAccountShown]
    {
      log := log + [AddAccountShown];
    }
  }

  /** How the pane behaves during one `ShowPickerAsync`: whether
      `GetForWindow` throws, the commands the user invokes (by position; a
      position the pane does not list cannot be invoked), and whether
      `ShowAddAccountForWindowAsync` ends in an exception. */
  datatype PaneScript = PaneScript(
    getForWindowFailure: Option<Exception>,
    invocations: seq<nat>,
    showFailure: Option<Exception>)

  /** The provider slot after the user invokes `invocations` on `commands`,
      starting from `current`: the provider of the last command invoked. */
  function LastInvoked(current: Option<WebAccountProvider>, commands: seq<ProviderCommand>, invocations: seq<nat>)
    : Option<WebAccountProvider>
    decreases |invocations|
  {
    if invocations == [] then current
    else if invocations[|invocations| - 1] < |commands| then
      Some(commands[invocations[|invocations| - 1]].provider)
    else LastInvoked(current, commands, invocations[..|invocations| - 1])
  }

  /** Last write wins: the slot holds the provider of the last invocation the pane
      could dispatch, and keeps its value when there is none. */
  lemma {:induction false} LastInvokedSpec(current: Option<WebAccountProvider>, commands: seq<ProviderCommand>,
                                           invocations: seq<nat>)
    ensures (forall j :: 0 <= j < |invocations| ==> invocations[j] >= |commands|) ==>
              LastInvoked(current, commands, invocations) == current
    ensures forall j :: 0 <= j < |invocations| && invocations[j] < |commands| &&
                        (forall k :: j < k < |invocations| ==> invocations[k] >= |commands|) ==>
                        LastInvoked(current, commands, invocations) == Some(commands[invocations[j]].provider)
    decreases |invocations|
  {
    if invocations != [] {
      var n := |invocations| - 1;
      var init := invocations[..n];
      LastInvokedSpec(current, commands, init);
      assert forall j :: 0 <= j < n ==> init[j] == invocations[j];
    }
  }

  /** The provider slot after a show in which the pane could be obtained. */
  function PickedProvider(current: Option<WebAccountProvider>, tenantId: string, canonicalAuthority: string,
                          script: PaneScript,
                          findAccountProvider: (string, string) -> Outcome<WebAccountProvider>)
    : Option<WebAccountProvider>
  {
    LastInvoked(current, PopulatedCommands(OfferedProviders(tenantId, canonicalAuthority), findAccountProvider).0,
                script.invocations)
  }

  /** What `ShowPickerAsync` returns or throws. */
  function ShowPickerOutcome(current: Option<WebAccountProvider>, tenantId: string, canonicalAuthority: string,
                             script: PaneScript,
                             findAccountProvider: (string, string) -> Outcome<WebAccountProvider>)
    : Outcome<Option<WebAccountProvider>>
  {
    if script.getForWindowFailure.Some? then Threw(script.getForWindowFailure.value)
    else if script.showFailure.Some? then Threw(script.showFailure.value)
    else Returned(PickedProvider(current, tenantId, canonicalAuthority, script, findAccountProvider))
  }

  /** A picker that nobody has used yet returns no provider unless a listed command
      is invoked, and exactly the invoked command's provider when one is. */
  lemma FreshPickerOutcome(tenantId: string, canonicalAuthority: string, script: PaneScript,
                           findAccountProvider: (string, string) -> Outcome<WebAccountProvider>)
    requires script.getForWindowFailure.None? && script.showFailure.None?
    ensures var cmds := PopulatedCommands(OfferedProviders(tenantId, canonicalAuthority), findAccountProvider).0;
            && ((forall j :: 0 <= j < |script.invocations| ==> script.invocations[j] >= |cmds|) ==>
                  ShowPickerOutcome(None, tenantId, canonicalAuthority, script, findAccountProvider) == Returned(None))
            && (|script.invocations| == 1 && script.invocations[0] < |cmds| ==>
                  ShowPickerOutcome(None, tenantId, canonicalAuthority, script, findAccountProvider)
                    == Returned(Some(cmds[script.invocations[0]].provider)))
  {
    var cmds := PopulatedCommands(OfferedProviders(tenantId, canonicalAuthority), findAccountProvider).0;
    LastInvokedSpec(None, cmds, script.invocations);
  }

  /** `Thread.CurrentThread.GetApartmentState()`. */
  datatype ApartmentState = STA | MTA | Unknown

  // ===========================================================================
  // The picker
  // ===========================================================================

  class AccountPicker {
    /** `_authority.TenantId` and `_authority.AuthorityInfo.CanonicalAuthority`. */
    const tenantId: string
    const canonicalAuthority: string
    /** Whether a `SynchronizationContext` was supplied. */
    const hasSynchronizationContext: bool
    /** `_provider`: the provider of the last command invoked. */
    var provider: Option<WebAccountProvider>

    constructor (authority: Authority, hasSynchronizationContext: bool)
      ensures tenantId == authority.tenantId && canonicalAuthority == authority.canonicalAuthority
      ensures this.hasSynchronizationContext == hasSynchronizationContext
      ensures provider == None
    {
      tenantId := authority.tenantId;
      canonicalAuthority := authority.canonicalAuthority;
      this.hasSynchronizationContext := hasSynchronizationContext;
      provider := None;
    }

    /** `WebAccountProviderCommandInvoked`: the command's provider overwrites the slot. */
    method WebAccountProviderCommandInvoked(command: ProviderCommand)
      modifies this
      ensures provider == Some(command.provider)
    {
      provider := Some(command.provider);
    }

    /** One provider lookup and, if it does not throw, one more command. */
    method AddProviderCommand(e: CommandsRequestedEventArgs, choice: ProviderChoice,
                              findAccountProvider: (string, string) -> Outcome<WebAccountProvider>)
      returns (escaped: Option<Exception>)
      modifies e
      ensures e.deferral == old(e.deferral)
      ensures e.commands == old(e.commands) + PopulatedCommands([choice], findAccountProvider).0
      ensures escaped == PopulatedCommands([choice], findAccountProvider).1
    {
      var found := findAccountProvider(LoginMicrosoftUrl, LookupTenant(choice));
      if found.Threw? {
        return Some(found.exception);
      }
      e.AddCommand(ProviderCommand(found.value));
      escaped := None;
    }

    /** `Authenticator_AccountCommandsRequested`: takes the deferral, appends the
        commands for the authority's tenant, and completes the deferral on every
        exit, after the last command is in. An exception from a lookup escapes
        the handler (it is `async void`) and is returned here. */
    method AccountCommandsRequested(e: CommandsRequestedEventArgs,
                                    findAccountProvider: (string, string) -> Outcome<WebAccountProvider>)
      returns (escaped: Option<Exception>)
      modifies e
      ensures var populated := PopulatedCommands(OfferedProviders(tenantId, canonicalAuthority), findAccountProvider);
              && e.commands == old(e.commands) + populated.0
              && escaped == populated.1
      ensures e.deferral == Completed(e.commands)
    {
      e.GetDeferral();
      if tenantId == "common" {
        escaped := AddProviderCommand(e, ConsumersProvider, findAccountProvider);
        if escaped.None? {
          escaped := AddProviderCommand(e, OrganizationsProvider, findAccountProvider);
        }
        assert [ConsumersProvider, OrganizationsProvider][1..] == [OrganizationsProvider];
      } else if tenantId == "organizations" {
        escaped := AddProviderCommand(e, OrganizationsProvider, findAccountProvider);
      } else if tenantId == "consumers" {
        escaped := AddProviderCommand(e, ConsumersProvider, findAccountProvider);
      } else {
        escaped := AddProviderCommand(e, TenantedProvider(canonicalAuthority), findAccountProvider);
      }
      e.CompleteDeferral();
    }

    /** The pane dispatching the user's invocations to the commands it lists. */
    method DispatchInvocations(commands: seq<ProviderCommand>, invocations: seq<nat>)
      modifies this
      ensures provider == LastInvoked(old(provider), commands, invocations)
    {
      var k := 0;
      while k < |invocations|
        invariant k <= |invocations|
        invariant provider == LastInvoked(old(provider), commands, invocations[..k])
      {
        assert invocations[..k + 1][..k] == invocations[..k];
        if invocations[k] < |commands| {
          WebAccountProviderCommandInvoked(commands[invocations[k]]);
        }
        k := k + 1;
      }
      assert invocations[..k] == invocations;
    }

    /** `ShowPickerAsync`. The handler is subscribed before the pane is shown and,
        once the pane was obtained, unsubscribed on success and on failure alike;
        the result is the provider slot as the show leaves it. */
    method ShowPicker(pane: AccountsSettingsPane, script: PaneScript,
                      findAccountProvider: (string, string) -> Outcome<WebAccountProvider>)
      returns (r: Outcome<Option<WebAccountProvider>>)
      modifies this, pane
      ensures r == ShowPickerOutcome(old(provider), tenantId, canonicalAuthority, script, findAccountProvider)
      ensures pane.handlers == old(pane.handlers)
      ensures script.getForWindowFailure.Some? ==> pane.log == old(pane.log) && provider == old(provider)
      ensures script.getForWindowFailure.None? ==>
                && pane.log == old(pane.log) + [HandlerAdded, AddAccountShown, HandlerRemoved]
                && provider == PickedProvider(old(provider), tenantId, canonicalAuthority, script, findAccountProvider)
    {
      if script.getForWindowFailure.Some? {
        // GetForWindow threw: no pane, so nothing to unsubscribe.
        return Threw(script.getForWindowFailure.value);
      }
      pane.Subscribe();
      pane.Show();
      // While shown, the pane raises AccountCommandsRequested to its subscriber
      // and then dispatches the user's invocations.
      var e := new CommandsRequestedEventArgs();
      var _ := AccountCommandsRequested(e, findAccountProvider);
      assert e.commands == PopulatedCommands(OfferedProviders(tenantId, canonicalAuthority), findAccountProvider).0;
      DispatchInvocations(e.commands, script.invocations);
      if script.showFailure.Some? {
        // Logged and rethrown.
        r := Threw(script.showFailure.value);
      } else {
        r := Returned(provider);
      }
      pane.Unsubscribe();
    }

    /** `DetermineAccountInteractivelyAsync`. On an MTA thread the picker work is
        posted once to the synchronization context and awaited, and an exception
        it raises reaches the caller; without a context it throws. On any other
        thread it returns no provider and never shows the pane. `posted` counts
        the posts to the context. */
    method DetermineAccountInteractively(apartment: ApartmentState, pane: AccountsSettingsPane, script: PaneScript,
                                         findAccountProvider: (string, string) -> Outcome<WebAccountProvider>)
      returns (r: Outcome<Option<WebAccountProvider>>, posted: nat)
      modifies this, pane
      ensures apartment == MTA && !hasSynchronizationContext ==>
                r == Threw(InvalidOperationException) && posted == 0
                && unchanged(this) && unchanged(pane)
      ensures apartment != MTA ==>
                r == Returned(None) && posted == 0 && unchanged(this) && unchanged(pane)
      ensures apartment == MTA && hasSynchronizationContext ==>
                && posted == 1
                && r == ShowPickerOutcome(old(provider), tenantId, canonicalAuthority, script, findAccountProvider)
                && pane.handlers == old(pane.handlers)
                && (script.getForWindowFailure.Some? ==> pane.log == old(pane.log) && provider == old(provider))
                && (script.getForWindowFailure.None? ==>
                      && pane.log == old(pane.log) + [HandlerAdded, AddAccountShown, HandlerRemoved]
                      && provider == PickedProvider(old(provider), tenantId, canonicalAuthority, script, findAccountProvider))
    {
      var result: Option<WebAccountProvider> := None;
      posted := 0;
      if apartment == MTA {
        if hasSynchronizationContext {
          posted := posted + 1;
          // The posted action runs the picker and settles the completion source
          // with its result or its exception; awaiting the source rethrows.
          var shown := ShowPicker(pane, script, findAccountProvider);
          var completion: Option<Exception> := if shown.Threw? then Some(shown.exception) else None;
          if completion.Some? {
            return Threw(completion.value), posted;
          }
          result := shown.value;
        } else {
          return Threw(InvalidOperationException), posted;
        }
      }
      r := Returned(result);
    }
  }
}
