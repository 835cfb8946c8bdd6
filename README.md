# Import wizard decision logic, modelled in Dafny

This project models three pieces of the fabric8 generator's import wizard
and proves properties of them:

- **Repository selection** (`GithubImportPickRepositoriesStep`). The step
  builds the cache key `userKey + "/" + organisation`. It lists the
  organisation's repositories through a shared cache with `computeIfAbsent`
  and offers the patterns `".*"` followed by every name. It validates the
  pattern. On execution it keeps, in order, the names the pattern fully
  matches. It records the pattern and that list in the session attribute map.
  It also has a helper that joins names with `|`.
- **Provider selection** (`ConfigureGitAccount`). The first provider becomes
  the default choice. Navigation goes to the configure steps that the
  chosen provider contributes.
- **Selection resolution** (`AbstractDevToolsCommand`). This covers the
  precedence chains for the project name and for the working folder, and
  the lookup of the current project, which is memoised in the attribute map.

Files, one module each:

- `java_lang.dfy`: null as `Option` and thrown exceptions as `Outcome`. It
  also holds `String.valueOf(null)`, `Strings.isNullOrBlank` (blank means
  every character is at most U+0020, which is what `trim` strips) and
  joining strings.
- `forge.dfy`: the Forge framework values. These are the attribute keys
  and values, the `AttributeMap` class, `UIResult`, the selection, files,
  resources, projects and the `UIContext` class.
- `pattern_filter.dfy`: `java.util.regex` as an abstract `RegexEngine`,
  the filter and its properties, and the filter loop.
- `repository_cache.dfy`: the cache key and the `RepositoryCache` class.
- `pick_repositories.dfy`: the repository-selection step.
- `git_account.dfy`: the provider-selection wizard.
- `dev_tools.dfy`: the selection-resolution helpers.

Regex compilation and matching are uninterpreted. The remote GitHub calls,
the provider loading and the project lookup are parameters. The file
system (`Files.isDirectory`, `ResourceUtil.getContextFile`, the project
root) is a record of abstract functions.

Every exception the code lets escape on the inputs the model represents is
modelled as `Threw(...)`:

- a `NullPointerException` where the code dereferences something that may
  be null: the facade, the selection, the repository names before they are
  listed, and the context's attribute map (in both
  commands and in both the initialisation and the execution of the
  GitHub step);
- a `ClassCastException` for the casts `(String)`, `(File)` and `(Project)`;
- a collaborator's failure, passed through unchanged.

Compiling a null or invalid pattern also throws, but the GitHub step
catches that exception with `catch (Exception e)`. So the model gives no
`Threw` there. `validate` gives the warning text instead, which is
`"Not a valid regular expression: null"` for a null pattern. `execute`
gives the `Results.fail` message instead.

Some behaviour worth noting, which the model follows:

- `execute` compiles a blank pattern as it is. The fallback to a pattern
  built from the selected repositories at
  `GithubImportPickRepositoriesStep.java` lines 109-113 is disabled, along
  with the repositories field.
- `ConfigureGitAccount.execute` succeeds even with no providers. The
  provider field is marked required.
- `validate` checks the pattern only when it is null or blank (see Findings).

## Model

| member | source | states |
|---|---|---|
| `PatternFilter.CollectMatching` | src/main/java/io/fabric8/forge/generator/github/GithubImportPickRepositoriesStep.java:124-128 | the filter loop returns exactly the names the pattern fully matches, in input order (`Filter`) |
| `PatternFilter.FilterIsSubsequence` | src/main/java/io/fabric8/forge/generator/github/GithubImportPickRepositoriesStep.java:124-128 | the kept names are a subsequence of the input: an index embedding exists that is strictly increasing |
| `PatternFilter.FilterMembership` | src/main/java/io/fabric8/forge/generator/github/GithubImportPickRepositoriesStep.java:125-126 | a name is kept if and only if it occurs in the input and the pattern fully matches it |
| `PatternFilter.FilterOccurrences` | src/main/java/io/fabric8/forge/generator/github/GithubImportPickRepositoriesStep.java:124-128 | every occurrence of a matching name is kept and no occurrence of a non-matching one |
| `PatternFilter.FilterIdempotent` | src/main/java/io/fabric8/forge/generator/github/GithubImportPickRepositoriesStep.java:124-128 | filtering the filtered list again with the same pattern changes nothing |
| `RepositoryCache.CacheKeyInjective` | src/main/java/io/fabric8/forge/generator/github/GithubImportPickRepositoriesStep.java:65-66 | for user keys without `/`, equal cache keys imply the same user and the same organisation text, so two accounts never share an entry |
| `RepositoryCache.RepositoryCache.ComputeIfAbsent` | src/main/java/io/fabric8/forge/generator/github/GithubImportPickRepositoriesStep.java:68 | a present key returns its entry with no fetch and no change; an absent key fetches once; on success only that key is added, and on failure nothing is stored and the failure propagates |
| `RepositoryCache.SameUserKeysCollide` | src/main/java/io/fabric8/forge/generator/github/GithubImportPickRepositoriesStep.java:65-66 | for one user, two organisations share a cache entry exactly when they are equal or one is null and the other is the text "null", since a null organisation is concatenated as "null" |
| `GithubImportPickRepositories.PatternChoices` | src/main/java/io/fabric8/forge/generator/github/GithubImportPickRepositoriesStep.java:70-73 | the choice list has length 1 + \|names\|, starts with `".*"` and continues with the names in order |
| `GithubImportPickRepositories.OrganisationOf` | src/main/java/io/fabric8/forge/generator/github/GithubImportPickRepositoriesStep.java:62-63 | a null attribute map throws a `NullPointerException`; the organisation is null when absent and the stored string when it is one; any other stored value throws a `ClassCastException` |
| `GithubImportPickRepositories.GithubImportPickRepositoriesStep.InitializeUI` | src/main/java/io/fabric8/forge/generator/github/GithubImportPickRepositoriesStep.java:55-79 | records the cache and the facade; a null attribute map, a bad organisation value or a null facade throws, in that order, before any fetch; names come from the cache under key user/organisation, fetched only if absent; on success the default is `".*"` and the choices are `".*"` then the names; after a throw the earlier names and choices and the cache's entries are kept |
| `GithubImportPickRepositories.ReenteringStepFetchesOnce` | src/main/java/io/fabric8/forge/generator/github/GithubImportPickRepositoriesStep.java:55-68 | initialising the step twice for the same account and organisation succeeds both times, fetches once and offers the same names both times, whatever the second fetch would have answered, a failure included |
| `GithubImportPickRepositories.ValidationWarnings` | src/main/java/io/fabric8/forge/generator/github/GithubImportPickRepositoriesStep.java:86-100 | as written: at most one warning, and one is added exactly when the facade exists, its details are valid, the pattern is null or blank, and it does not compile |
| `GithubImportPickRepositories.NonBlankPatternNeverWarned` | src/main/java/io/fabric8/forge/generator/github/GithubImportPickRepositoriesStep.java:93-99 | as written, a non-blank pattern never gets a warning |
| `GithubImportPickRepositories.IntendedValidationWarnings` | src/main/java/io/fabric8/forge/generator/github/GithubImportPickRepositoriesStep.java:92-99 | with the test un-inverted, a warning is added exactly for a non-blank pattern that does not compile, carrying the compiler's message |
| `GithubImportPickRepositories.InvertedBlankTestMissesInvalidPattern` | src/main/java/io/fabric8/forge/generator/github/GithubImportPickRepositoriesStep.java:93-99 | on the pattern `(bad`, which does not compile, the code as written gives no warning, the intended check gives one, and execute fails |
| `GithubImportPickRepositories.IntendedValidationPredictsExecute` | src/main/java/io/fabric8/forge/generator/github/GithubImportPickRepositoriesStep.java:88-122 | for a non-blank pattern, a valid account, listed names and a non-null map, the intended validation is silent if and only if execute succeeds |
| `GithubImportPickRepositories.GithubImportPickRepositoriesStep.Validate` | src/main/java/io/fabric8/forge/generator/github/GithubImportPickRepositoriesStep.java:86-100 | the step's validate adds exactly `ValidationWarnings` for its facade and the field's value |
| `GithubImportPickRepositories.ExecuteWithoutAccount` | src/main/java/io/fabric8/forge/generator/github/GithubImportPickRepositoriesStep.java:104-106 | with no facade, execute fails with "No github account setup" and the attributes are unchanged |
| `GithubImportPickRepositories.InvalidPatternRejected` | src/main/java/io/fabric8/forge/generator/github/GithubImportPickRepositoriesStep.java:117-122 | a null or non-compiling pattern fails; the message quotes the pattern text right after "Invalid regular expression \`"; the attributes are unchanged |
| `GithubImportPickRepositories.ExecuteNeedsListingAndMap` | src/main/java/io/fabric8/forge/generator/github/GithubImportPickRepositoriesStep.java:124-131 | with an account and a compiling pattern, execute throws a `NullPointerException` exactly when the names were never listed or the attribute map is null, and succeeds otherwise |
| `GithubImportPickRepositories.ExecuteFailureLeavesAttributes` | src/main/java/io/fabric8/forge/generator/github/GithubImportPickRepositoriesStep.java:103-133 | any outcome other than success, including a throw, leaves the attribute map unchanged |
| `GithubImportPickRepositories.ExecuteSuccessWritesTwoKeys` | src/main/java/io/fabric8/forge/generator/github/GithubImportPickRepositoriesStep.java:130-132 | success requires a present, compiling pattern, listed names and a non-null map; it adds exactly the pattern key and the names key, storing the pattern text and the filtered names, and leaves every other key as it was |
| `GithubImportPickRepositories.ExecuteStoresMatchingNames` | src/main/java/io/fabric8/forge/generator/github/GithubImportPickRepositoriesStep.java:124-132 | the stored names are a subsequence of the listed names, hold exactly the listed names the pattern fully matches, and do not change when filtered again |
| `GithubImportPickRepositories.GithubImportPickRepositoriesStep.Execute` | src/main/java/io/fabric8/forge/generator/github/GithubImportPickRepositoriesStep.java:102-133 | the result and the context's new attribute map (or its absence) are those of `ExecuteStep` for the step's facade, its names, the field's value and the old map, so the lemmas below hold of every call |
| `GithubImportPickRepositories.AppendNameStep` | src/main/java/io/fabric8/forge/generator/github/GithubImportPickRepositoriesStep.java:138-141 | one loop iteration (a separator only when the builder is non-empty, then the name) turns the joined pattern of the names seen so far into the joined pattern of those names plus the next one |
| `GithubImportPickRepositories.CreatePatternFromRepositories` | src/main/java/io/fabric8/forge/generator/github/GithubImportPickRepositoriesStep.java:135-144 | the builder loop yields the names after their leading empty names, joined with `\|`; `""` for no names; the name itself for one name |
| `GithubImportPickRepositories.PatternFromRepositoriesLength` | src/main/java/io/fabric8/forge/generator/github/GithubImportPickRepositoriesStep.java:135-144 | when the first name is non-empty, the result is all names joined with `\|`, of length Σ\|nᵢ\| + (n − 1) |
| `GithubImportPickRepositories.LeadingEmptyNameGetsNoSeparator` | src/main/java/io/fabric8/forge/generator/github/GithubImportPickRepositoriesStep.java:138-141 | because the separator depends on the builder's length, `["", "a"]` gives `"a"` and not `"\|a"` |
| `GitAccount.AddConfigureStep` | src/main/java/io/fabric8/forge/generator/git/ConfigureGitAccount.java:92 | the provider appends its configure steps to the builder, in order, and nothing else |
| `GitAccount.DefaultProvider` | src/main/java/io/fabric8/forge/generator/git/ConfigureGitAccount.java:78-80 | a default exists if and only if the provider list is non-empty, and it is the first provider |
| `GitAccount.ConfigureGitAccount.InitializeUI` | src/main/java/io/fabric8/forge/generator/git/ConfigureGitAccount.java:66-81 | stores the providers; the first one becomes the default; with no providers the default is left as it was |
| `GitAccount.ConfigureGitAccount.Validate` | src/main/java/io/fabric8/forge/generator/git/ConfigureGitAccount.java:83-85 | validate reports nothing |
| `GitAccount.ConfigureGitAccount.Next` | src/main/java/io/fabric8/forge/generator/git/ConfigureGitAccount.java:87-95 | no chosen provider gives no steps; a chosen provider gives exactly its configure steps, in order |
| `GitAccount.ConfigureGitAccount.Execute` | src/main/java/io/fabric8/forge/generator/git/ConfigureGitAccount.java:97-100 | execute always succeeds |
| `DevTools.DevToolsCommand.IsProjectRequired` | src/main/java/io/fabric8/forge/generator/pipeline/AbstractDevToolsCommand.java:51-54 | a project is never required |
| `DevTools.ProjectFactory.GetSelectedProject` | src/main/java/io/fabric8/forge/generator/pipeline/AbstractDevToolsCommand.java:96 | the lookup answers by the selection and counts one lookup |
| `DevTools.StoredProject` | src/main/java/io/fabric8/forge/generator/pipeline/AbstractDevToolsCommand.java:83-88 | a memoised project exists exactly when the map is non-null and holds a `Project` under `Project.class` |
| `DevTools.DevToolsCommand.GetCurrentSelectedProject` | src/main/java/io/fabric8/forge/generator/pipeline/AbstractDevToolsCommand.java:80-105 | a memoised project is returned with no lookup and no change; otherwise a null selection throws before the lookup; else one lookup is done and its result returned; the map gains `Project.class` only for a non-null result and a non-null map, and is otherwise unchanged |
| `DevTools.NameFromProject` | src/main/java/io/fabric8/forge/generator/pipeline/AbstractDevToolsCommand.java:70-77 | the metadata's project name when the project and its facet exist, else `""`; null only when the metadata name is null |
| `DevTools.DevToolsCommand.GetProjectName` | src/main/java/io/fabric8/forge/generator/pipeline/AbstractDevToolsCommand.java:65-78 | a null map throws; a `NAME` attribute gives its string with no lookup and no change; otherwise the result is the name derived from the current selected project, obtained and memoised as in `GetCurrentSelectedProject` |
| `DevTools.SelectedFolder` | src/main/java/io/fabric8/forge/generator/pipeline/AbstractDevToolsCommand.java:113-127 | a folder taken from the selection is always a directory |
| `DevTools.SelectionFolder` | src/main/java/io/fabric8/forge/generator/pipeline/AbstractDevToolsCommand.java:107-137 | throws an NPE exactly when the map is null; throws a cast error exactly when a reached attribute has the wrong type; any folder not taken from `PROJECT_DIRECTORY_FILE` is a directory |
| `DevTools.SelectionFolderIsFirstAccepted` | src/main/java/io/fabric8/forge/generator/pipeline/AbstractDevToolsCommand.java:107-137 | with well-typed attributes the result is the first accepted candidate in the order: the directory attribute, taken unconditionally; then the selected file, or the selected resource's context file; then the project root. A candidate in the last two places is accepted only if it is a directory |
| `DevTools.DirectoryAttributeWins` | src/main/java/io/fabric8/forge/generator/pipeline/AbstractDevToolsCommand.java:109-112 | a `PROJECT_DIRECTORY_FILE` file is returned whatever the selection and the file system |
| `DevTools.DevToolsCommand.GetSelectionFolder` | src/main/java/io/fabric8/forge/generator/pipeline/AbstractDevToolsCommand.java:107-137 | on a context, a folder not taken from the directory attribute is a directory; as a function it modifies nothing |

## Left out

- Concurrency and sharing of the Infinispan cache across sessions are not modelled. The cache is a single-threaded map, so the single-flight guarantee under concurrent callers is out of reach.
- `java.util.regex` semantics are not modelled. Compilation, full matching and the exception texts are uninterpreted functions of the pattern, so facts such as `.*` matching everything are not claimed.
- The GitHub facade's network calls are parameters: `createGithubFacade`, `getUserCacheKey`, `isDetailsValid` and `getRespositoriesForOrganisation`. A listing that returns null is not modelled, and a collection's iteration order is taken as a sequence.
- `GitProvider.loadGitProviders` and `Projects.getSelectedProject` are parameters, the latter as `ProjectFactory.resolve`. So are the providers' own `addConfigureStep` bodies: each provider contributes a fixed step sequence.
- `getSelectedProjectOrNull` and `getProjectFactory` are one-line delegations to the project lookup and the injected factory, and are not modelled separately.
- `super.initializeUI` of the GitHub step's base class is not part of this model.
- The UI framework plumbing is left out: `builder.add`, the item label converter, `getMetadata`, `isEnabled` and `@Inject` wiring. So is the value-or-default rule of a field's `getValue()`: `Validate`, `Execute` and `Next` take the value the field reports.
- The file system is abstract: `Files.isDirectory`, `ResourceUtil.getContextFile`, and `getRoot().reify(...)` with its context file, folded into one `rootFolder` function.
- Logging and `StopWatch` timing are left out, as is the cause passed to `Results.fail`.
- A key bound to null in the attribute map is modelled as an absent key, which is what `get` reports for both.
- `CreatePatternFromRepositories` takes names that are non-null strings. `StringBuilder.append` would write a null element as `"null"`, but a `seq<string>` cannot hold one, and the method's only caller is disabled.
- `InvalidPatternMessage` and `ValidationWarnings` use the Java 8 texts of the `NullPointerException` from `Pattern.compile(null)`: a null message and the `toString()` `java.lang.NullPointerException`. The more detailed `NullPointerException` messages of later JDKs would change both texts.
- `NameFromProject` takes Forge's `getFacet(MetadataFacet.class)` to return null for a project without that facet, as the null check at `AbstractDevToolsCommand.java` lines 73-74 expects. A `getFacet` that throws for a missing facet is not part of this model.
- The listed repository names are non-null strings. A null name in the listing would make `regex.matcher(repositoryName)` throw a `NullPointerException` in `execute`; the model cannot represent one.
- `CreatePatternFromRepositories`: the length Σ|nᵢ| + (n − 1) is proved only when the first name is non-empty. The code tests the builder's length, not whether a name is the first, so leading empty names get no separator.
- `GithubImportPickRepositories.GithubImportPickRepositoriesStep.Validate` models the inverted test as written. The corrected check exists as `IntendedValidationWarnings` and is not used by the step.
- The RESTEasy client set-up in `WebClientHelpers.java` is configuration with no decision logic.

## Findings

| source | as written | input that shows it | evidently intended | confidence | as-written member | corrected member |
|---|---|---|---|---|---|---|
| src/main/java/io/fabric8/forge/generator/github/GithubImportPickRepositoriesStep.java:93 | `validate` compiles the pattern only when `Strings.isNullOrBlank(pattern)` holds | with valid account details, the non-blank pattern `(bad` does not compile, gets no warning, and execute then fails | compile and warn when the pattern is NOT null or blank | high, not executed | `GithubImportPickRepositories.ValidationWarnings` (shown by `InvertedBlankTestMissesInvalidPattern`) | `GithubImportPickRepositories.IntendedValidationWarnings` (with `IntendedValidationPredictsExecute`) |
