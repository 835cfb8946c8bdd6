/**
  The wizard that lets the user pick a git provider and then hands over to
  that provider's own configuration steps (`ConfigureGitAccount`).
 */
module GitAccount {
  import opened JavaLang
  import opened Forge

  /** A wizard step class a provider contributes; the wizard only sequences it. */
  datatype WizardStep = WizardStep(name: string)

  /** A git provider: its display name and the configuration steps it
      contributes to the navigation, in the order it adds them. */
  datatype GitProvider = GitProvider(name: string, configureSteps: seq<WizardStep>)

  /** Forge's `NavigationResultBuilder`: the steps added so far. */
  class NavigationResultBuilder {
    var steps: seq<WizardStep>

    constructor Create()
      ensures steps == []
    {
      steps := [];
    }

    method Add(step: WizardStep)
      modifies this
      ensures steps == old(steps) + [step]
    {
      steps := steps + [step];
    }
  }

  /** `provider.addConfigureStep(builder)`: appends the provider's steps in
      order and nothing else. */
  method AddConfigureStep(provider: GitProvider, builder: NavigationResultBuilder)
    modifies builder
    ensures builder.steps == old(builder.steps) + provider.configureSteps
  {
    var i := 0;
    while i < |provider.configureSteps|
      invariant 0 <= i <= |provider.configureSteps|
      invariant builder.steps == old(builder.steps) + provider.configureSteps[..i]
    {
      builder.Add(provider.configureSteps[i]);
      assert provider.configureSteps[..i + 1] == provider.configureSteps[..i] + [provider.configureSteps[i]];
      i := i + 1;
    }
    assert provider.configureSteps[..|provider.configureSteps|] == provider.configureSteps;
  }

  /** The default value `initializeUI` gives the provider field: the first
      provider, or none at all when the list is empty. */
  function DefaultProvider(providers: seq<GitProvider>): (r: Option<GitProvider>)
    ensures r.Some? <==> providers != []
    ensures r.Some? ==> r.value == providers[0]
  {
    if providers != [] then Some(providers[0]) else None
  }

  class ConfigureGitAccount {
    var gitProviders: seq<GitProvider>
    var providerDefault: Option<GitProvider>   // the provider field's default value

    constructor ()
      ensures gitProviders == [] && providerDefault == None
    {
      gitProviders := [];
      providerDefault := None;
    }

    /** `initializeUI`: records the loaded providers and, when there is at
        least one, makes the first the field's default; otherwise the
        default is not touched. */
    method InitializeUI(providers: seq<GitProvider>)
      modifies this
      ensures gitProviders == providers
      ensures providers != [] ==> providerDefault == Some(providers[0])
      ensures providers == [] ==> providerDefault == old(providerDefault)
    {
      gitProviders := providers;
      var default := DefaultProvider(providers);
      if default.Some? {
        providerDefault := default;
      }
    }

    /** `validate` reports nothing. */
    function Validate(): (warnings: seq<string>)
      ensures warnings == []
    {
      []
    }

    /** `next`: the chosen provider's configuration steps, in order, or no
        step at all when no provider is chosen. */
    method Next(provider: Option<GitProvider>) returns (steps: seq<WizardStep>)
      ensures provider.None? ==> steps == []
      ensures provider.Some? ==> steps == provider.value.configureSteps
    {
      var builder := new NavigationResultBuilder.Create();
      if provider.Some? {
        AddConfigureStep(provider.value, builder);
      }
      steps := builder.steps;
    }

    /** `execute` always succeeds. */
    function Execute(): (r: UIResult)
      ensures r == Success
    {
      Success
    }
  }
}
