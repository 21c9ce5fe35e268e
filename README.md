# gcp-launch, modelled in Dafny

`gcp-launch` opens the Google Cloud console page for a service type
(`logging`, `cloudrun`, `gke`, `spanner`) and an environment. Both are
looked up in a YAML configuration: service types map to environments, and
environments map to a project ID, an optional region and an optional cluster.
The program has three parts:

- **the URL resolver** (`url/url.go`). `GenerateServiceURL` and its two
  formatters, `GenerateCloudRunURL` and `GenerateGKEURL`, turn an
  environment entry into a console URL or an error;
- **the interactive selector** (`tui/tui.go`). This is a two-screen menu, first
  service types and then environments. Its transition function resolves the
  chosen pair, asks the browser to open the URL, and records the URL and any
  error;
- **the command line** (`cmd/root.go`). `executeLaunch` resolves
  `<service> <environment>` through a fixed chain of checks and opens the
  URL. `contextualArgCompletion` offers the sorted service types, or the
  sorted environments of the typed service, as shell completions.

The two front-ends special-case `cloudrun` and `gke` themselves, and the model
keeps that duplication. `GenerateServiceURL` falls back to the bare Cloud Run
page when no region is given and to the GKE cluster list when no cluster is
given. Both front-ends reject those entries instead, so the fallbacks are
reached only when the resolver is called directly. The model proves this.

Files, one module each:

- `wrappers.dfy` holds `Option` and `Result`.
- `config.dfy` holds the configuration. It is nested maps. A nil map is the
  empty map, because every use in the core treats the two alike.
- `keys.dfy` holds Go's string order, the sorted key list of a map
  (`SortedKeys`), and the append loop plus in-place sort that computes it.
- `url.dfy` holds the resolver and its formatters, the literal URLs of the
  unit tests, and parsers that read generated URLs back.
- `tui.dfy` holds the selector: its model, `NewModel`, `Update` as a function
  from a model and a message to the next model and a quit flag, and `View`.
- `cmd.dfy` holds the launch chain, the completion function, and the lemmas
  that compare the two front-ends with each other and with the resolver.

The browser opener is a parameter, `openUrl: string -> OpenOutcome`, that
either succeeds or fails with a reason. The package-level configuration
pointer of `cmd/root.go` is a parameter as well.

## Model

| member | source | states |
|---|---|---|
| Keys.Less | tui/tui.go:39 | Go's `<` on strings, the order `sort.Strings` uses: a proper prefix comes first, and otherwise the first differing character decides. |
| Keys.LessIsStrictTotalOrder | tui/tui.go:39 | The order `sort.Strings` uses is irreflexive, transitive and total on strings. |
| Keys.SortedKeys | tui/tui.go:35-39 | The sorted key list has as many entries as the set has keys. |
| Keys.SortedKeysSpec | tui/tui.go:35-39 | The sorted key list is strictly increasing and holds exactly the keys of the set. |
| Keys.StrictlySortedUnique | tui/tui.go:39 | Two strictly sorted lists with the same members are equal, so the sorted key list is unique. |
| Keys.SortedKeysCharacterized | tui/tui.go:35-39 | Any strictly sorted list holding exactly the keys is `SortedKeys` of them. |
| Keys.InsertSorted | tui/tui.go:39 | Inserting a new key into a strictly sorted list keeps it strictly sorted and adds exactly that key. |
| Keys.SortKeys | tui/tui.go:39 | Sorting a duplicate-free slice yields a strictly sorted list with the same members. |
| Keys.CollectSortedKeys | tui/tui.go:35-39 | The append loop over a map followed by `sort.Strings` yields exactly `SortedKeys` of the map's keys. |
| Url.GenerateCloudRunUrl | url/url.go:46-52 | A Cloud Run URL starts with the `/run?project=` page and contains the project ID. |
| Url.GenerateGkeUrl | url/url.go:56-62 | A GKE URL starts with the workload overview page and contains the project ID. |
| Url.GenerateServiceUrl | url/url.go:13-42 | An empty project ID is an error for every service type. Otherwise the result succeeds exactly for the four supported types, and any other type is an error. A success starts with `https://console.cloud.google.com` and contains the project ID. |
| Url.PagesUnderConsole | url/url.go:17-37 | Every page prefix lies under the console base URL. |
| Url.ServiceUrls | url/url.go:19-40 | With a project ID `p`, each service type gives its byte-exact URL: logging viewer + p; run page + p + `&region=` + region, or run page + p without a region; workloads page + p with a cluster, or cluster list + p without one; spanner page + p. |
| Url.GkeUrlIgnoresCluster | url/url.go:56-62 | The GKE URL does not depend on the cluster and is the workload overview page followed by the project ID. |
| Url.CloudRunUrlSpelledOut | url/url.go:46-52 | The Cloud Run URL is `https://console.cloud.google.com/run?project=` + project + `&region=` + region. |
| Url.GenerateServiceUrlTestTable | url/url_test.go:9-73 | The six table cases give their expected URLs and errors. |
| Url.GenerateCloudRunUrlTestCase | url/url_test.go:75-83 | The Cloud Run formatter test gives its expected URL. |
| Url.GenerateGkeUrlTestCase | url/url_test.go:85-93 | The GKE formatter test gives its expected URL. |
| Url.ServiceOfGeneratedUrl | url/url.go:19-40 | Every generated URL is recognised as the page of the service type it was generated for. |
| Url.GeneratedUrlsDistinguishServices | url/url.go:19-40 | Two service types never produce the same URL. |
| Url.CloudRunUrlRoundTrip | url/url.go:46-52 | Parsing a Cloud Run URL gives back its project ID and region when the project ID has no `&`. |
| Url.GkeUrlRoundTrip | url/url.go:56-62 | Parsing a GKE URL gives back its project ID. |
| Tui.NewModel | tui/tui.go:32-52 | The initial model lists exactly the configured service types, sorted, or none for a nil configuration. It is on the service screen with both cursors at 0, nothing selected, and no URL or error. |
| Tui.ResolveSelection | tui/tui.go:127-154 | Resolution succeeds exactly when the project ID is set, Cloud Run has a region, GKE has a cluster and the type is supported. Incomplete Cloud Run and GKE entries get their own errors, and other failures carry the resolver's error. A success lies under the console and contains the project ID. |
| Tui.EnterEnvironment | tui/tui.go:107-165 | Enter on an environment always quits and changes only `finalURL` and `finalError`. |
| Tui.ActionOf | tui/tui.go:63-171 | Each key name the selector reacts to maps to its action (`ctrl+c`/`q` quit, `up`/`k`, `down`/`j`, `enter`, `esc`/`backspace`), and every other key name to no action. |
| Tui.Update | tui/tui.go:56-175 | A transition never changes the configuration or the service list, only ever records a console URL, and quits only on `q`/`ctrl+c` or on enter on the environment screen. A transition that does not quit leaves the recorded URL and error as they were. |
| Tui.ServiceScreenKey | tui/tui.go:68-94 | Keys on the service screen never quit and never record a URL or error. |
| Tui.EnvironmentScreenKey | tui/tui.go:96-171 | Keys on the environment screen keep the configuration and service list, and quit only on enter. A key that does not quit leaves the recorded URL and error as they were. |
| Tui.UpdatePreservesValid | tui/tui.go:56-175 | Every transition keeps the invariant. The service list is the sorted configured types. Both cursors are within their lists. On the environment screen, the selected service is configured and its sorted environments are listed. On the service screen, nothing is selected. A recorded URL is a console page, and an open failure is recorded only together with its URL. |
| Tui.Run | tui/tui.go:56-175 | Any sequence of messages, stopping at the first quit, ends in a model satisfying the invariant. If no message quit, the recorded URL and error are those of the starting model. |
| Tui.ReachedModelsAreFresh | tui/tui.go:56-175 | Starting with nothing recorded, every model reached without quitting still has no URL and no error, so quitting with `q` from it reports neither. |
| Tui.UnhandledMessagesChangeNothing | tui/tui.go:56-175 | Non-key messages (nil included), unknown keys, back on the service screen, and enter with the cursor on no entry leave the model unchanged and do not quit. |
| Tui.GetFinalUrl | tui/tui.go:216 | On a valid model the reported URL is empty or a console page. |
| Tui.GetFinalError | tui/tui.go:217 | On a valid model an open failure is reported only together with a URL. |
| Tui.CursorKeysClamp | tui/tui.go:71-78 | Up and down move the cursor of the current screen by one, clamped at both ends. They change nothing else, including the other screen's cursor. |
| Tui.EnterService | tui/tui.go:79-93 | Enter on a non-empty service list selects the service under the cursor and lists its environments sorted, with the cursor at 0. On an empty list it changes nothing. |
| Tui.BackToServices | tui/tui.go:166-171 | Esc and Backspace return to the service screen, clear the selection and the environment list, and keep the service cursor. |
| Tui.Moves | tui/tui.go:71-106 | Cursor keys only move the cursor of the screen they are pressed on. |
| Tui.MovesPreserveValid | tui/tui.go:71-106 | Any sequence of cursor keys keeps the invariant. |
| Tui.ReselectGivesFreshList | tui/tui.go:79-93 | Selecting a service, moving about, going back and selecting again restores the same freshly listed environments with the cursor at 0. |
| Tui.QuitChangesNothing | tui/tui.go:63-65 | `q` and `ctrl+c` quit with the model unchanged, so a fresh model reports no URL and no error. |
| Tui.EnterEnvironmentOutcome | tui/tui.go:107-165 | On a valid model the configuration entry is always found. A failed resolution records its error with the URL untouched. A successful one records the URL, plus the open failure if there is one, and quits. |
| Tui.MissingEntryIsReported | tui/tui.go:115-121 | A selection missing from the configuration records the internal error and quits. |
| Tui.CursorLineMarked | tui/tui.go:185-208 | A list line starts with `> ` exactly when it is the cursor's line, and the key and a newline follow the marker. |
| Tui.ListLines | tui/tui.go:185-208 | The list has one line per key, in order, with `> ` at the cursor and two spaces elsewhere. |
| Tui.View | tui/tui.go:177-215 | The screen starts with its header and ends with `\n(Press 'q' to quit)\n`. |
| Tui.ViewShowsEveryKey | tui/tui.go:182-209 | Every key of the current list appears on the screen as its line, and that line starts with `> ` exactly when it is at the cursor. |
| Tui.ViewOfEmptyList | tui/tui.go:182-198 | An empty list shows its "No ..." line between the header and the quit hint. |
| Tui.ViewIgnoresOutcome | tui/tui.go:177-215 | The screen depends neither on the recorded URL and error nor on the configuration. |
| Cmd.ResolveEntry | cmd/root.go:108-135 | For an entry, a launch succeeds exactly when the project ID is set, Cloud Run has a region, GKE has a cluster and the type is supported. The project check comes first, then the per-service checks, and other failures carry the resolver's error. |
| Cmd.ResolveLaunchUrl | cmd/root.go:100-107 | An unknown service is reported before the environment is looked up, and an unknown environment before the entry is checked. |
| Cmd.ExecuteLaunch | cmd/root.go:96-144 | A launch fails exactly when resolution fails, with that error. A browser failure is never an error and only adds a warning. |
| Cmd.LaunchChecksInOrder | cmd/root.go:100-135 | Each failing check gives its own error, in the fixed order: service, environment, project ID, region or cluster. |
| Cmd.LaunchSucceedsExactly | cmd/root.go:100-143 | A launch succeeds exactly for configured, complete, supported entries, whatever the browser does. |
| Cmd.ContextArgumentIgnored | cmd/root.go:96-98 | The optional third argument does not affect the launch. |
| Cmd.DispatcherRefinesResolver | cmd/root.go:113-135 | Where the dispatcher succeeds, `GenerateServiceURL` gives the same URL. Where the resolver succeeds, the dispatcher agrees except for Cloud Run without a region and GKE without a cluster. |
| Cmd.DispatcherAvoidsFallbacks | url/url.go:25-35 | The dispatcher never opens the bare Cloud Run page or the GKE cluster list. |
| Cmd.SelectorAvoidsFallbacks | url/url.go:25-35 | Neither does the selector. |
| Cmd.FrontEndsAgree | tui/tui.go:127-154 | The selector and the dispatcher accept the same entries with the same URL, and reject incomplete Cloud Run and GKE entries alike. |
| Cmd.SelectorAndCommandLineAgree | cmd/root.go:108-143 | For the same pair, the selector records a URL exactly when the command line launch succeeds, with the same URL. An open failure is recorded by one and warned about by the other. The lemma applies to every non-empty environment screen reached from `NewModel` without quitting, because `Tui.ReachedModelsAreFresh` shows such models have nothing recorded. |
| Cmd.ContextualArgCompletion | cmd/root.go:40-93 | A nil configuration gives the error directive. No arguments give the sorted service types. One argument gives the sorted environments of that service, or none if it is unknown. Two or more give nothing with the default directive. |

## Left out

- `url.OpenURL` launches a browser process for each operating system. It is the `openUrl` parameter, and only its success or failure matters.
- `config.LoadConfig` reads and parses files, and its test exercises only file input. `main.go` rewrites arguments, runs the terminal program and prints the outcome. Both are outside this model. The command line model takes the loaded configuration directly, because `Execute` is only reached after loading succeeds.
- The bubbletea and cobra frameworks are not modelled. Quit is a flag in the transition result, `tea.Msg` is reduced to key presses and everything else, and cobra's 2-to-3 argument check becomes a precondition.
- Status lines, warnings and the wording of error messages are not modelled. Errors are datatype variants.
- Go's random map iteration order is left out. The append loop visits keys in an arbitrary order chosen by `:|`, and the result is the same after sorting.
- Keys.SortKeys: models `sort.Strings` as an insertion into a sequence value rather than an in-place sort of a slice. It is stated only for duplicate-free input, which is all that map keys give.
- Tui.Update: the environment list is built by `SortedKeys` rather than by the append loop that `CollectSortedKeys` runs, because `Update` is a function. `CollectSortedKeys` is proved to compute the same list.
- Nil and empty slices are not distinguished, and neither are nil and empty maps.
- `View`'s "Unknown application state" branch is not modelled, because the state here has only two values.
- `contextualArgCompletion` ignores its `toComplete` argument, and so does the model. Cobra's filtering of completions by prefix is not modelled.
- Tui.Update: requires that a model built from a nil configuration never has a non-empty list. The Go code would dereference the nil pointer in that case, and every model built by `NewModel` satisfies it.
