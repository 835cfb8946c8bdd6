/**
  The wizard step in which the user picks the GitHub repositories to
  import (`GithubImportPickRepositoriesStep`): it lists the organisation's
  repositories through the shared cache, offers a pattern, validates it and,
  on execution, records the pattern and the matching names in the session.
 */
module GithubImportPickRepositories {
  import opened JavaLang
  import opened Forge
  import opened PatternFilter
  import Cache = RepositoryCache

  /** The GitHub facade created for the session: whether its account details
      are valid, and the user's cache key. */
  datatype GitHubFacade = GitHubFacade(detailsValid: bool, userCacheKey: string)

  /** The pattern offered first and set as the default value. */
  const DefaultPattern: string := ".*"

  /** The choice list of the pattern field: the default pattern, then every repository name. */
  function PatternChoices(names: seq<string>): (choices: seq<string>)
    ensures |choices| == 1 + |names|
    ensures choices[0] == DefaultPattern && choices[1..] == names
  {
    [DefaultPattern] + names
  }

  /** `(String) attributeMap.get(GIT_ORGANISATION)` on the context's
      attribute map (None when the map is null): a `NullPointerException`
      for a null map, null when the key is absent, and a
      `ClassCastException` when the stored value is not a string. */
  function OrganisationOf(attributes: Option<map<Key, Value>>): (r: Outcome<Option<string>>)
    ensures r == Threw(NullPointerException) <==> attributes.None?
    ensures r == Threw(ClassCastException) <==>
              attributes.Some? && GitOrganisation in attributes.value && !attributes.value[GitOrganisation].Text?
    ensures r == Returned(None) <==> attributes.Some? && GitOrganisation !in attributes.value
    ensures r.Returned? && r.value.Some? ==> attributes.Some? && attributes.value[GitOrganisation] == Text(r.value.value)
  {
    if attributes.None? then Threw(NullPointerException)
    else if GitOrganisation !in attributes.value then Returned(None)
    else match attributes.value[GitOrganisation]
      case Text(s) => Returned(Some(s))
      case _ => Threw(ClassCastException)
  }

  // ---------------------------------------------------------------- validate

  const InvalidRegexWarning: string := "Not a valid regular expression: "

  /** The warnings `validate` adds, AS WRITTEN: the pattern is only compiled
      when it IS null or blank. `Pattern.compile(null)` throws a
      `NullPointerException`, whose message is null. */
  function ValidationWarnings(github: Option<GitHubFacade>, pattern: Option<string>, regex: RegexEngine): (warnings: seq<string>)
    ensures |warnings| <= 1
    ensures warnings != [] <==>
              && github.Some? && github.value.detailsValid
              && IsNullOrBlank(pattern)
              && !(pattern.Some? && regex.compiles(pattern.value))
  {
    if github.None? || !github.value.detailsValid then []
    else if !IsNullOrBlank(pattern) then []
    else if pattern.None? then [InvalidRegexWarning + "null"]
    else if regex.compiles(pattern.value) then []
    else [InvalidRegexWarning + regex.errorMessage(pattern.value)]
  }

  /** As written, a non-blank pattern is never checked, however invalid. */
  lemma NonBlankPatternNeverWarned(github: Option<GitHubFacade>, pattern: Option<string>, regex: RegexEngine)
    requires !IsNullOrBlank(pattern)
    ensures ValidationWarnings(github, pattern, regex) == []
  {
  }

  /** The warnings `validate` evidently means to add: a non-blank
      pattern that does not compile is reported. */
  function IntendedValidationWarnings(github: Option<GitHubFacade>, pattern: Option<string>, regex: RegexEngine): (warnings: seq<string>)
    ensures |warnings| <= 1
    ensures warnings != [] <==>
              && github.Some? && github.value.detailsValid
              && !IsNullOrBlank(pattern)
              && !regex.compiles(pattern.value)
    ensures warnings != [] ==> warnings[0] == InvalidRegexWarning + regex.errorMessage(pattern.value)
  {
    if github.None? || !github.value.detailsValid then []
    else if IsNullOrBlank(pattern) then []
    else if regex.compiles(pattern.value) then []
    else [InvalidRegexWarning + regex.errorMessage(pattern.value)]
  }

  // ----------------------------------------------------------------- execute

  const NoGithubAccount: string := "No github account setup"
  const InvalidPatternPrefix: string := "Invalid regular expression `"

  /** `"Invalid regular expression `" + pattern + "` due to: " + e`; for a
      null pattern the exception is a `NullPointerException`. */
  function InvalidPatternMessage(pattern: Option<string>, regex: RegexEngine): string
  {
    InvalidPatternPrefix + ValueOf(pattern) + "` due to: "
      + (if pattern.None? then "java.lang.NullPointerException" else regex.errorText(pattern.value))
  }

  /** The result of `execute` and the attribute map it leaves behind (None
      for a null map). */
  datatype Execution = Execution(result: Outcome<UIResult>, attributes: Option<map<Key, Value>>)

  /** What `execute` does, given the step's facade and repository names
      (null until `initializeUI` has listed them), the pattern field's value
      and the session attributes (None when the context's map is null). The
      loop over a null list, and then the first `put` into a null map,
      throw a `NullPointerException`. */
  function ExecuteStep(github: Option<GitHubFacade>, repositoryNames: Option<seq<string>>,
                       pattern: Option<string>, regex: RegexEngine, attributes: Option<map<Key, Value>>): Execution
  {
    if github.None? then
      Execution(Returned(Failure(NoGithubAccount)), attributes)
    else if pattern.None? || !regex.compiles(pattern.value) then
      Execution(Returned(Failure(InvalidPatternMessage(pattern, regex))), attributes)
    else if repositoryNames.None? || attributes.None? then
      Execution(Threw(NullPointerException), attributes)
    else
      var repositories := Filter(regex, pattern.value, repositoryNames.value);
      Execution(Returned(Success),
                Some(attributes.value[GitRepositoryPattern := Text(pattern.value)][GitRepoNames := Names(repositories)]))
  }

  /** Without a GitHub account the step fails with its fixed message and the session is left alone. */
  lemma ExecuteWithoutAccount(repositoryNames: Option<seq<string>>, pattern: Option<string>,
                              regex: RegexEngine, attributes: Option<map<Key, Value>>)
    ensures ExecuteStep(None, repositoryNames, pattern, regex, attributes)
         == Execution(Returned(Failure("No github account setup")), attributes)
  {
  }

  /** A pattern that does not compile fails the step with a message quoting
      the pattern text, and the session is left alone. */
  lemma InvalidPatternRejected(github: Option<GitHubFacade>, repositoryNames: Option<seq<string>>,
                               pattern: Option<string>, regex: RegexEngine, attributes: Option<map<Key, Value>>)
    requires github.Some?
    requires pattern.None? || !regex.compiles(pattern.value)
    ensures var e := ExecuteStep(github, repositoryNames, pattern, regex, attributes);
            && e.attributes == attributes
            && e.result.Returned? && e.result.value.Failure?
            && var message, text := e.result.value.message, ValueOf(pattern);
               |InvalidPatternPrefix| + |text| <= |message|
               && message[..|InvalidPatternPrefix|] == "Invalid regular expression `"
               && message[|InvalidPatternPrefix|..|InvalidPatternPrefix| + |text|] == text
  {
    var text := ValueOf(pattern);
    var message := InvalidPatternMessage(pattern, regex);
    assert message == InvalidPatternPrefix + text + (message[|InvalidPatternPrefix| + |text|..]);
  }

  /** With an account and a pattern that compiles, the step throws a
      `NullPointerException` exactly when the repositories were never listed
      or the session's attribute map is null, and succeeds otherwise. */
  lemma ExecuteNeedsListingAndMap(github: GitHubFacade, repositoryNames: Option<seq<string>>,
                                  pattern: string, regex: RegexEngine, attributes: Option<map<Key, Value>>)
    requires regex.compiles(pattern)
    ensures var r := ExecuteStep(Some(github), repositoryNames, Some(pattern), regex, attributes).result;
            && (r == Threw(NullPointerException) <==> repositoryNames.None? || attributes.None?)
            && (r == Returned(Success) <==> repositoryNames.Some? && attributes.Some?)
  {
  }

  /** Only a successful execution changes the session. */
  lemma ExecuteFailureLeavesAttributes(github: Option<GitHubFacade>, repositoryNames: Option<seq<string>>,
                                       pattern: Option<string>, regex: RegexEngine, attributes: Option<map<Key, Value>>)
    requires ExecuteStep(github, repositoryNames, pattern, regex, attributes).result != Returned(Success)
    ensures ExecuteStep(github, repositoryNames, pattern, regex, attributes).attributes == attributes
  {
  }

  /** A successful execution writes exactly two keys: the pattern and the
      list of names the pattern fully matches. */
  lemma ExecuteSuccessWritesTwoKeys(github: Option<GitHubFacade>, repositoryNames: Option<seq<string>>,
                                    pattern: Option<string>, regex: RegexEngine, attributes: Option<map<Key, Value>>)
    requires ExecuteStep(github, repositoryNames, pattern, regex, attributes).result == Returned(Success)
    ensures pattern.Some? && repositoryNames.Some? && regex.compiles(pattern.value) && attributes.Some?
    ensures ExecuteStep(github, repositoryNames, pattern, regex, attributes).attributes.Some?
    ensures var before, after := attributes.value, ExecuteStep(github, repositoryNames, pattern, regex, attributes).attributes.value;
            && after.Keys == before.Keys + {GitRepositoryPattern, GitRepoNames}
            && (forall k :: k in before && k != GitRepositoryPattern && k != GitRepoNames ==> after[k] == before[k])
            && after[GitRepositoryPattern] == Text(pattern.value)
            && after[GitRepoNames] == Names(Filter(regex, pattern.value, repositoryNames.value))
  {
  }

  /** The list a successful execution stores is a subsequence of the listed
      names, holds exactly the names the pattern fully matches, and filtering
      it again changes nothing. */
  lemma ExecuteStoresMatchingNames(github: Option<GitHubFacade>, repositoryNames: Option<seq<string>>,
                                   pattern: Option<string>, regex: RegexEngine, attributes: Option<map<Key, Value>>)
    requires ExecuteStep(github, repositoryNames, pattern, regex, attributes).result == Returned(Success)
    ensures pattern.Some? && repositoryNames.Some?
    ensures ExecuteStep(github, repositoryNames, pattern, regex, attributes).attributes.Some?
    ensures var after := ExecuteStep(github, repositoryNames, pattern, regex, attributes).attributes.value;
            && GitRepoNames in after && after[GitRepoNames].Names?
            && var stored := after[GitRepoNames].names;
               && IsSubsequence(stored, repositoryNames.value)
               && (forall name :: name in stored <==> name in repositoryNames.value && regex.fullMatch(pattern.value, name))
               && Filter(regex, pattern.value, stored) == stored
  {
    ExecuteSuccessWritesTwoKeys(github, repositoryNames, pattern, regex, attributes);
    var names, p := repositoryNames.value, pattern.value;
    var stored := Filter(regex, p, names);
    FilterIsSubsequence(regex, p, names);
    FilterIdempotent(regex, p, names);
    forall name
      ensures name in stored <==> name in names && regex.fullMatch(p, name)
    {
      FilterMembership(regex, p, names, name);
    }
  }

  /** With the intended validation, a non-blank pattern that raises no
      warning is exactly one that `execute` accepts, once the repositories
      are listed and the session has an attribute map. */
  lemma IntendedValidationPredictsExecute(github: GitHubFacade, repositoryNames: seq<string>,
                                          pattern: Option<string>, regex: RegexEngine, attributes: map<Key, Value>)
    requires github.detailsValid && !IsNullOrBlank(pattern)
    ensures IntendedValidationWarnings(Some(github), pattern, regex) == []
        <==> ExecuteStep(Some(github), Some(repositoryNames), pattern, regex, Some(attributes)).result == Returned(Success)
  {
  }

  /** The inverted test on one input: a GitHub account with valid details,
      the non-blank pattern "(bad" that does not compile, no warning, and
      then a failing execution. */
  lemma InvertedBlankTestMissesInvalidPattern()
    ensures var regex := RegexEngine(p => p != "(bad", (p, s) => p == s, p => "Unclosed group", p => "PatternSyntaxException");
            var github := Some(GitHubFacade(true, "user"));
            && !regex.compiles("(bad")
            && ValidationWarnings(github, Some("(bad"), regex) == []
            && IntendedValidationWarnings(github, Some("(bad"), regex) != []
            && ExecuteStep(github, Some(["web", "api"]), Some("(bad"), regex, Some(map[])).result.value.Failure?
  {
    var regex := RegexEngine(p => p != "(bad", (p, s) => p == s, p => "Unclosed group", p => "PatternSyntaxException");
    assert "(bad"[0] == '(';
    assert !IsNullOrBlank(Some("(bad"));
  }

  // -------------------------------------------- createPatternFromRepositories

  /** The names after their leading empty names. */
  function DropLeadingEmpty(names: seq<string>): (rest: seq<string>)
    ensures rest != [] ==> rest[0] != ""
  {
    if names == [] then []
    else if names[0] == "" then DropLeadingEmpty(names[1..])
    else names
  }

  lemma {:induction false} DropLeadingEmptySnoc(names: seq<string>, name: string)
    ensures DropLeadingEmpty(names + [name])
         == if DropLeadingEmpty(names) == [] then (if name == "" then [] else [name])
            else DropLeadingEmpty(names) + [name]
  {
    if names != [] {
      assert (names + [name])[1..] == names[1..] + [name];
      if names[0] == "" {
        DropLeadingEmptySnoc(names[1..], name);
      }
    }
  }

  lemma {:induction false} JoinStartsNonEmpty(parts: seq<string>, sep: string)
    requires parts != [] && parts[0] != ""
    ensures |Join(parts, sep)| > 0
  {
    if |parts| > 1 {
      JoinStartsNonEmpty(parts[..|parts| - 1], sep);
    }
  }

  /** One iteration of the builder loop keeps the builder equal to the
      names seen so far, after their leading empty names, joined with '|'. */
  lemma AppendNameStep(seen: seq<string>, name: string)
    ensures var builder := Join(DropLeadingEmpty(seen), "|");
            (if |builder| > 0 then builder + "|" else builder) + name == Join(DropLeadingEmpty(seen + [name]), "|")
  {
    var done := DropLeadingEmpty(seen);
    DropLeadingEmptySnoc(seen, name);
    if done != [] {
      JoinStartsNonEmpty(done, "|");
      JoinSnoc(done, "|", name);
    }
  }

  /** The loop of `createPatternFromRepositories`. It puts '|' before a name
      only once the builder is non-empty, so leading empty names add nothing:
      the result is the remaining names joined with '|'. */
  method CreatePatternFromRepositories(names: seq<string>) returns (pattern: string)
    ensures pattern == Join(DropLeadingEmpty(names), "|")
    ensures names == [] ==> pattern == ""
    ensures |names| == 1 ==> pattern == names[0]
  {
    var builder := "";
    var i := 0;
    while i < |names|
      invariant 0 <= i <= |names|
      invariant builder == Join(DropLeadingEmpty(names[..i]), "|")
    {
      AppendNameStep(names[..i], names[i]);
      assert names[..i + 1] == names[..i] + [names[i]];
      if |builder| > 0 {
        builder := builder + "|";
      }
      builder := builder + names[i];
      i := i + 1;
    }
    assert names[..|names|] == names;
    pattern := builder;
  }

  /** When the first name is non-empty, the pattern is every name joined with
      '|', of length Σ|nᵢ| + (n - 1). */
  lemma PatternFromRepositoriesLength(names: seq<string>)
    requires |names| > 0 && names[0] != ""
    ensures Join(DropLeadingEmpty(names), "|") == Join(names, "|")
    ensures |Join(DropLeadingEmpty(names), "|")| == TotalLength(names) + |names| - 1
  {
    JoinLength(names, "|");
  }

  /** A leading empty name gets no separator: ["", "a"] gives "a", not "|a". */
  lemma LeadingEmptyNameGetsNoSeparator()
    ensures Join(DropLeadingEmpty(["", "a"]), "|") == "a"
    ensures Join(["", "a"], "|") == "|a"
  {
    assert ["", "a"][1..] == ["a"];
    assert ["", "a"][..1] == [""];
  }

  // -------------------------------------------------------------------- step

  class GithubImportPickRepositoriesStep {
    const regex: RegexEngine
    var repositoriesCache: Cache.RepositoryCache?
    var github: Option<GitHubFacade>
    var repositoryNames: Option<seq<string>>
    var patternDefault: Option<string>
    var patternChoices: seq<string>

    constructor (regex: RegexEngine)
      ensures this.regex == regex && repositoriesCache == null && github == None
      ensures repositoryNames == None && patternDefault == None && patternChoices == []
    {
      this.regex := regex;
      repositoriesCache := null;
      github := None;
      repositoryNames := None;
      patternDefault := None;
      patternChoices := [];
    }

    /** `initializeUI`: remembers the cache and the facade, reads the
        organisation from the context's attribute map (None when it is null),
        lists its repositories through the cache under the key
        user + "/" + organisation, and offers ".*" followed by the names. A
        step that throws keeps its earlier names and pattern choices. */
    method InitializeUI(cache: Cache.RepositoryCache, facade: Option<GitHubFacade>,
                        attributes: Option<map<Key, Value>>, listing: Cache.Listing) returns (r: Outcome<()>)
      modifies this, cache
      ensures repositoriesCache == cache && github == facade
      ensures r.Threw? ==> && repositoryNames == old(repositoryNames)
                           && patternDefault == old(patternDefault)
                           && patternChoices == old(patternChoices)
                           && cache.entries == old(cache.entries)
      ensures OrganisationOf(attributes).Threw? ==>
                r == Threw(OrganisationOf(attributes).exception) && cache.fetches == old(cache.fetches)
      ensures OrganisationOf(attributes).Returned? && facade.None? ==>
                r == Threw(NullPointerException) && cache.fetches == old(cache.fetches)
      ensures OrganisationOf(attributes).Returned? && facade.Some? ==>
                var key := Cache.CacheKey(facade.value.userCacheKey, OrganisationOf(attributes).value);
                && (key in old(cache.entries) ==>
                      && r == Returned(())
                      && cache.entries == old(cache.entries) && cache.fetches == old(cache.fetches)
                      && repositoryNames == Some(old(cache.entries)[key]))
                && (key !in old(cache.entries) ==> cache.fetches == old(cache.fetches) + 1)
                && (key !in old(cache.entries) && listing.Listed? ==>
                      && r == Returned(())
                      && cache.entries == old(cache.entries)[key := listing.names]
                      && repositoryNames == Some(listing.names))
                && (key !in old(cache.entries) && listing.ListingFailed? ==>
                      r == Threw(Raised(listing.message)))
      ensures r.Returned? ==>
                && repositoryNames.Some?
                && patternDefault == Some(DefaultPattern)
                && patternChoices == PatternChoices(repositoryNames.value)
    {
      repositoriesCache := cache;
      github := facade;
      var organisation := OrganisationOf(attributes);
      if organisation.Threw? {
        return Threw(organisation.exception);
      }
      if facade.None? {
        return Threw(NullPointerException);
      }
      var key := Cache.CacheKey(facade.value.userCacheKey, organisation.value);
      var names := cache.ComputeIfAbsent(key, listing);
      if names.Threw? {
        return Threw(names.exception);
      }
      repositoryNames := Some(names.value);
      patternDefault := Some(DefaultPattern);
      patternChoices := PatternChoices(names.value);
      r := Returned(());
    }

    /** `validate`: the warnings added for the pattern field's current value. */
    method Validate(pattern: Option<string>) returns (warnings: seq<string>)
      ensures warnings == ValidationWarnings(github, pattern, regex)
    {
      warnings := ValidationWarnings(github, pattern, regex);
    }

    /** `execute`: filters the listed names with the pattern field's value
        and records the pattern and the result in the context's attribute map. */
    method Execute(pattern: Option<string>, context: UIContext) returns (r: Outcome<UIResult>)
      modifies context.attributeMap
      ensures var e := ExecuteStep(github, repositoryNames, pattern, regex, old(AttributesOf(context)));
              r == e.result && AttributesOf(context) == e.attributes
    {
      if github.None? {
        return Returned(Failure(NoGithubAccount));
      }
      if pattern.None? || !regex.compiles(pattern.value) {
        return Returned(Failure(InvalidPatternMessage(pattern, regex)));
      }
      if repositoryNames.None? {
        return Threw(NullPointerException);
      }
      var repositories := CollectMatching(regex, pattern.value, repositoryNames.value);
      if context.attributeMap == null {
        return Threw(NullPointerException);
      }
      context.attributeMap.Put(GitRepositoryPattern, Text(pattern.value));
      context.attributeMap.Put(GitRepoNames, Names(repositories));
      r := Returned(Success);
    }
  }

  /** Entering the step twice for the same account and organisation lists
      the repositories once and offers the same names both times: whatever
      a second fetch would have returned, even a failure, is never asked for. */
  method ReenteringStepFetchesOnce(regex: RegexEngine, facade: GitHubFacade, attributes: map<Key, Value>,
                                   names: seq<string>, laterListing: Cache.Listing)
    returns (fetches: nat, first: Outcome<()>, second: Outcome<()>, firstNames: Option<seq<string>>, secondNames: Option<seq<string>>)
    requires OrganisationOf(Some(attributes)).Returned?
    ensures fetches == 1
    ensures first == second == Returned(())
    ensures firstNames == secondNames == Some(names)
  {
    var cache := new Cache.RepositoryCache();
    var step := new GithubImportPickRepositoriesStep(regex);
    first := step.InitializeUI(cache, Some(facade), Some(attributes), Cache.Listed(names));
    firstNames := step.repositoryNames;
    second := step.InitializeUI(cache, Some(facade), Some(attributes), laterListing);
    secondNames := step.repositoryNames;
    fetches := cache.fetches;
  }
}
