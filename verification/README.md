# tsbridge reconciler: a Dafny model

tsbridge exposes backends on a tailnet, one tsnet server per service. A provider turns Docker's containers
into a configuration, the app diffs each new configuration against the one it holds, and a registry
executes the difference. Any step may fail without stopping the rest. This project models that loop and
proves what every run of it keeps, and exactly when it converges.

| file | models |
|---|---|
| `ConfigModel.dfy`, `Compare.dfy` | the configuration records, and when two service configurations count as the same |
| `Diff.dfy`, `Filters.dfy` | the remove, add and update lists, and the provider's fast comparison |
| `Lifecycle.dfy` | one registry operation by its outcome, sequences of operations, the reload ledger |
| `Reload.dfy` | plans, runs of reloads, the automaton of one service name, convergence, start-up |
| `TailscaleServer.dfy`, `Registry.dfy` | the two owners of running services, as classes |
| `ReloadErrors.dfy`, `App.dfy` | the reload's error record and the application, as classes |
| `Secrets.dfy`, `Pipeline.dfy` | secret resolution in an environment it destroys, defaults, normalization, validation |
| `Containers.dfy`, `Provider.dfy` | backend addresses, pruning on stop events, the Docker provider |
| `Agreement.dfy` | provider, app and registry together, over runs |
| `Reconciler.dfy` | the same as objects: any run of polls and stop events follows the runs of `Agreement.dfy` |
| `Timing.dfy` | event debouncing and reconnect backoff |
| `Forwarding.dfy`, `Text.dfy` | the forwarded-header chain |

How it is organised: each class method follows the code's steps and is proved against a function on values
(`OpResult`, `Exec`, `ReloadStep`, `StartAll`, `Processed`, `Loaded`, `Sent`); the lemmas then say what those
functions mean in terms of the inputs: every error, every source of a setting, every reason for a refusal.
`Reconciler.RunSystem` ties the objects to the theorems about whole runs. What the world decides (tsnet,
draining, the listener, the proxy's construction, URL parsing) is an `Outcome` given per service name. A reload
has at most one operation per name (`PlanDistinct`), so an outcome per name covers every pattern of failures.

Assumptions the code does not enforce itself:

- Start-up finishes before the first reload, and no reload runs after shutdown has begun.
- Each provider handler and each registry operation is one atomic step.
- Configurations handed to the app are validated, so their service names are unique and not empty.
- An HTTP server that is told to shut down stops accepting connections before it drains, and for good, as
  net/http documents for `Server.Shutdown`.
- Environment variables change only through the code modelled here; files and container labels change freely.

What the proofs found about the code:

- A wanted service that failed to start or restart is never tried again until some configuration omits it
  (`MissingUntilOmitted`); one that runs with an outdated configuration is left alone until its entry changes
  (`StaleUntilChanged`); one whose removal failed stays registered, is never removed again while it stays out of
  the configuration, and is back in step exactly when a configuration asks again for what is registered
  (`UnwantedUntilWantedAsIs`).
- A service whose stop failed stays registered but accepts no connections, until some later operation on it
  succeeds (`ListensIffStopsMadeUp`). When it is asked for again as it is, the registry is in step and no reload
  that keeps the entry reports or repairs anything, and still nothing accepts (`SilentThoughInStep`).
- The comment on the poll loop (internal/docker/docker.go:261) calls polling a safety net for missed events.
  The code differs: `Load` overwrites the remembered configuration before it is sent, so a configuration that
  was dropped because the app was busy is never sent again while Docker stays as it is
  (`DroppedConfigIsNotResent`), and a container that restarts while Docker still lists it can lose its service
  (`RestartedServiceIsForgotten`).
- The fast comparison agrees with the differ on every validated right side exactly when the names on its left
  side are unique (`FastCheckRightIffUnique`). Validated configurations never repeat a name.
- A successful update of a service under another name always breaks the agreement between registry and tsnet
  servers; a refused one never does, and a failed start does unless the new name is free or credentials are
  refused (`UpdateService`). The reload never updates under another name.
- `Load`, called again after a first call that failed once the secrets were resolved, finds TS_AUTHKEY deleted
  (`FailedFirstLoadLosesTheKey`, with an instance in `TheKeyCanBeLost`). This is a fact about two calls of
  `Load`: the program itself exits when its first load fails (internal/app/app.go:50-53,
  cmd/tsbridge/main.go:219-224).
- Unix socket backends whose path has no colon, and validation admits no others, share the host part "unix", so
  a container of that name takes their services along when it stops (`UnixBackendsShareAHost`).
- A hop that trusts its peer extends the forwarded chain exactly when it is not configured to remove or override
  X-Forwarded-For (`HopAppendsIffLeftAlone`). One hop that is makes the chain forget where it started, however
  many follow (`ChainOverHops`).
- A connection without a client address passes an inbound X-Real-IP on, unless the configuration removes or
  overrides it (`UntrustedHeadersDoNotCount`).

## Model

| member | source | states |
|---|---|---|
| Compare.TagsEqualIsMultisetEquality | internal/config/compare.go:35-50 | Sorting copies and comparing them decides equality of the tags as multisets, nil being empty |
| Compare.SortedIsUnique | internal/config/compare.go:45-49 | Two sorted arrangements of the same strings are identical, so the sorting algorithm does not matter |
| Compare.EqualIffSameCanon | internal/config/compare.go:15-82 | Two configurations are equal iff all fields agree with tags unordered, nil identified with empty, and the other lists in order |
| Compare.EqualIffSameSettings | internal/config/compare.go:15-82 | Two configurations are equal iff they differ at most in the order of the tags and in nil for empty collections |
| Compare.EqualIsAnEquivalence | internal/config/compare.go:15-82 | The comparison is reflexive, symmetric and transitive |
| Diff.FindServicesToRemove | internal/app/app.go:302-315 | Computes the names of the old services whose name the new configuration lacks, in order |
| Diff.FindServicesToAdd | internal/app/app.go:318-331 | Computes the new services whose name the old configuration lacks, in order |
| Diff.FindServicesToUpdate | internal/app/app.go:334-350 | Computes the new services whose old entry has an unequal configuration, in order |
| Diff.ConfigsEqual | internal/docker/docker.go:737-767 | Decides the fast comparison: equal lengths, and every left service found in the right list with an equal configuration |
| ConfigModel.LastEntryWins | internal/docker/docker.go:746-750 | The lookup tables hold the last entry of a name |
| Diff.PlanEmptyIffSameDesired | internal/app/app.go:302-350 | The three lists are all empty iff both configurations ask for the same services |
| Diff.CoveredByCountsNames | internal/docker/docker.go:742-763 | Pigeonhole: unique left names all found in a right list of the same length exhaust it and make it unique too |
| Diff.FastCheckIsEmptyPlan | internal/docker/docker.go:737-767 | With unique names on the left, the fast comparison holds iff the right names are unique and the differ finds nothing to do |
| Diff.FastCheckRightIffUnique | internal/docker/docker.go:742-763 | The fast comparison agrees with the differ on every right side with unique names iff the left names are unique |
| Diff.ConfigEqualIsAnEquivalence | internal/docker/docker.go:737-767 | The one-sided comparison is nevertheless reflexive, symmetric and transitive on validated configurations |
| Diff.ConfigEqualIgnoresOrder | internal/docker/docker.go:607-623 | Rearranging the services of either side leaves the comparison unchanged |
| Lifecycle.ExecAt | internal/app/reload.go:45-95 | After any sequence with one operation per name, a name's slot depends on its own slot, operation and outcome only |
| Lifecycle.LedgerAt | internal/errors/reload.go:76-91 | An error is on record for a name, in the map of its operation's kind and in no other, iff that operation failed |
| Lifecycle.LedgerBalances | internal/errors/reload.go:67-104 | Successes plus failures equals the number of operations, and failures equals the total size of the three error maps |
| Lifecycle.NoFailureIffAllSucceed | internal/errors/reload.go:99-104 | Nothing is counted as failed iff the operation on every name succeeded |
| Lifecycle.StartsIff | internal/service/service.go:158-255 | A service starts iff tsnet comes up, the listener opens in a known mode, the handler is built, and it may keep an identity it has or gets a key from an auth key or complete OAuth credentials |
| Lifecycle.AcceptableRefusals | internal/service/service.go:565-618 | The registry refuses exactly a missing name or backend, a relative socket path, an unparsable address, an unknown TLS mode and a negative timeout |
| Lifecycle.OrderIsImmaterial | internal/app/reload.go:45-95 | Any rearrangement of the operations with the same outcomes per name ends in the same registry and the same ledger |
| Reload.PlanDistinct | internal/app/reload.go:22-29 | The three lists together name no service twice |
| Reload.PlanAt | internal/app/reload.go:22-29 | The plan's operation on a name is decided by that name's two configuration entries |
| Reload.PlanOrder | internal/app/reload.go:45-95 | All removals come before all additions, and these before all updates |
| Reload.StepRefines | internal/app/app.go:275-299 | One reload, seen at one name, is one step of that name's own machine |
| Reload.RunRefines | internal/app/app.go:255-299 | Any run of reloads under any failures, seen at one name, is a run of that name's own machine |
| Reload.FailuresAreIsolated | internal/app/reload.go:45-95 | Two runs that agree about a name leave it in the same state, however they differ about all others |
| Reload.SlotFollowsAutomaton | internal/service/service.go:472-700 | The machine is the automaton over absent, aligned, missing, stale and unwanted given by `NextPhase` |
| Reload.ErrorFollowsAutomaton | internal/service/service.go:472-700 | The error of a reload for a name is given by the table `NextError` over the same phases: which operation is refused because the name is taken or missing, which for its settings, which because the stop or the start failed |
| Reload.RegisteredFollowsError | internal/service/service.go:472-700 | After success the name has exactly the new entry or nothing; a failed start leaves nothing, a failed stop only silences, every other error changes nothing |
| Reload.InStepIffNoError | internal/service/service.go:472-700 | A name in step with its configuration stays in step iff its operation returns no error |
| Reload.CleanNameStaysInStep | internal/app/app.go:255-299 | Over a run in which no operation on a name failed, the name runs iff the current configuration has it, with an equal configuration |
| Reload.MissingUntilOmitted | internal/service/service.go:630-636 | A missing wanted service stays missing through every reload that keeps it, and is back in step exactly at the first one that omits it |
| Reload.UnwantedUntilWantedAsIs | internal/app/app.go:302-350 | Over any run, the registration of a service whose removal failed is untouched by every reload that does not mention it, and is back in step with the configuration after the first that may mention it iff that one asks for what is registered |
| Reload.StaleUntilChanged | internal/service/service.go:623-700 | Over any run, a name registered with an outdated configuration is untouched by every reload that keeps its entry; the next one brings it in step iff it drops the name and the stop succeeds, or changes the entry and either the restart succeeds or, without a restart, the new entry is what is registered |
| Reload.ListensIffStopsMadeUp | internal/service/service.go:406-433 | Over any run, a registered service accepts connections iff every failed stop of it was followed by a successful operation on it |
| Reload.UnwantedDoesNotListen | internal/service/service.go:510-554 | Over any run, a service registered without being wanted does not accept connections |
| Reload.SilentThoughInStep | internal/service/service.go:406-433 | A service whose removal failed and which is asked for again as it is stays in step with the configuration, and without accepting connections, through every reload that keeps its entry |
| Reload.CleanReloadSilencesNothing | internal/app/app.go:275-299 | A reload that reports no failure leaves everything registered accepting connections if it was before |
| Reload.ReloadConverges | internal/app/app.go:275-299 | From a registry in step with the old configuration, a reload reports no failure iff it leaves the registry in step with the new one |
| Reload.RepeatedReloadIsIdle | internal/app/reload.go:31-40 | A reload has no operations iff both configurations ask for the same services |
| Reload.ReloadIgnoresOrder | internal/docker/docker.go:616-620 | Permuting both configurations changes neither the resulting registry nor the ledger |
| Reload.StartupAt | internal/service/service.go:109-134 | After start-up a configured name runs or is reported as failed, by its own outcome alone |
| Reload.StartupBalances | internal/service/service.go:96-155 | Successes plus reported failures equals the number configured, and the registry size equals the successes |
| Reload.StartupPhases | internal/service/service.go:96-155 | After start-up each configured name is aligned or missing, no other name runs, and whatever runs accepts connections |
| Reload.AllFailedIffNoneRuns | internal/errors/errors.go:306-309 | As many failures as services means exactly that services are configured and none of them runs |
| TailscaleServer.Server.Listen | internal/tailscale/tailscale.go:65-131 | A new open server is filed under the name, or nothing stays open and the name is free; no server leaks iff the name had none or credentials were refused first |
| TailscaleServer.Server.PrepareServiceAuth | internal/tailscale/tailscale.go:161-200 | An identity that may be kept suffices; otherwise a key must be issued from an auth key or from complete OAuth credentials |
| TailscaleServer.Server.CloseService | internal/tailscale/tailscale.go:398-417 | Closes exactly the name's server, once, and forgets it; a free name changes nothing |
| TailscaleServer.Server.Close | internal/tailscale/tailscale.go:349-371 | Closes every open server exactly once; without a leak before, everything ever started is closed afterwards |
| TailscaleServer.Server.CloseTsnet | internal/tailscale/tailscale.go:374-395 | A server is closed only if it was started and never a second time |
| Registry.ServiceRegistry.CloseHandler | internal/proxy/proxy.go:392-403 | A handler is closed only while open, so the metrics-stop channel is never closed twice |
| Registry.ServiceRegistry.StopService | internal/service/service.go:406-433 | Stop closes the handler iff the server drained; a failed stop closes nothing and can be retried, but the service accepts no more connections either way |
| Registry.ServiceRegistry.StartService | internal/service/service.go:158-255 | Yields a service with an open server and an open handler of its own, or leaves no handler and frees the name |
| Registry.AsksIffEnabled | internal/service/service.go:334-347 | Identity lookups go to the given server exactly when the setting is present and true |
| Registry.ServiceRegistry.AddService | internal/service/service.go:472-506 | Follows the operation result, including whether connections are accepted, touches no other name, keeps both owners in agreement and the gauge exact, records one outcome; agreement includes that identity lookups ask the service's own open server |
| Registry.ServiceRegistry.RemoveService | internal/service/service.go:510-554 | The same for removal; an unregistered name is reported as not found, only a stopped service is dropped, one that did not stop stays and is silent |
| Registry.ServiceRegistry.UpdateService | internal/service/service.go:623-700 | The same for updates; a successful update keeps the owners in agreement iff the names match, a failed start iff they match, the new name is free or credentials are refused, and every other failure changes nothing |
| Registry.ServiceRegistry.ValidateServiceConfig | internal/service/service.go:565-618 | Accepts exactly the configurations with name, backend, absolute socket path or parseable address, known TLS mode and non-negative timeouts |
| Registry.ServiceRegistry.StartServices | internal/service/service.go:96-155 | From an empty registry leaves exactly the services that start and reports exactly the others, with both owners in agreement and the gauge exact |
| Registry.ServiceRegistry.Shutdown | internal/service/service.go:436-467 | Tells every service to stop accepting, closes the handler of exactly those that drain and reports exactly the others |
| App.ReloadConfigWithRegistry | internal/app/reload.go:21-111 | Leaves the registry and the error record where running the plan in order leads, keeps both owners in agreement, and returns nil iff nothing failed |
| App.Application.Start | internal/app/app.go:144-197 | The first call starts the configured services and fails iff services are configured and none runs; later calls change nothing |
| App.Application.ReloadConfig | internal/app/app.go:275-299 | Runs the plan, adopts the new configuration whatever failed, returns nil iff nothing failed, records one reload; both owners stay in agreement and the gauge exact |
| App.Application.WatchConfigChanges | internal/app/app.go:255-271 | Any run of received configurations follows the run of reloads, with all registry invariants kept throughout |
| App.Application.Shutdown | internal/app/app.go:200-252 | Afterwards every tsnet server ever started is closed and the only open handlers belong to services that did not drain; a second call closes nothing |
| Secrets.SecretPrecedence | internal/config/credentials.go:46-116 | Direct value, then file, then variable, then fallback if one is named; it fails iff the chosen source is unusable and the fallback is empty |
| Secrets.FilePathShape | internal/config/credentials.go:14-46 | A secret file path is accepted iff it is absolute and has no NUL, no two dots in a row and no component of one dot |
| Secrets.ResolvedFromSources | internal/config/config.go:348-426 | Client ID, client secret, auth key and state directory each come from their own value, else their own file or variable, else their own default variable; all other settings are kept |
| Secrets.SecretsResolveIff | internal/config/config.go:348-408 | The three secrets resolve iff none has an unusable source of its own together with an empty default variable |
| Secrets.ResolvingFails | internal/config/config.go:348-426 | Resolving fails iff a secret does, or the state directory is left to a variable that is empty or one of the deleted auth keys |
| Secrets.FirstFailureIsReported | internal/config/config.go:348-426 | The error is that of the first setting that cannot be resolved, and says why |
| Secrets.OnlyAuthKeysAreDeleted | internal/config/config.go:411-413 | Once the three secrets have resolved both auth-key variables are gone and no other variable is touched |
| Secrets.ResolvedIsSettled | internal/config/config.go:348-426 | Resolving again in the environment it left behind, with any files, changes neither settings nor environment |
| Pipeline.Draft.ResolveSecrets | internal/config/config.go:348-426 | Resolves the three secrets and the state directory in order and deletes the auth-key variables before the state directory is read |
| Pipeline.Draft.SetDefaults | internal/config/config.go:458-546 | Sets every default of global, Tailscale and service settings in place |
| Pipeline.Draft.Normalize | internal/config/config.go:551-603 | Copies global values and default tags to exactly the services that lack them |
| Pipeline.Draft.Validate | internal/config/config.go:606-1004 | Accepts iff the credentials are consistent, every global and service setting is valid, the list is non-empty or the provider is Docker, and names are unique and not empty |
| Pipeline.Draft.Process | internal/config/config.go:437-455 | Runs the four stages, with the environment left behind on every error path |
| Pipeline.PipelineIdempotent | internal/config/config.go:437-455 | The pipeline on its own output, in the environment it left behind and with any files, succeeds and changes nothing |
| Pipeline.PipelinePrecedence | internal/config/config.go:348-603 | Every global setting is the given one or the default, every Tailscale setting comes from its own sources, every service setting is its own, else the global one, else the default, and every other field comes out as it went in |
| Pipeline.BackendRefusals | internal/config/config.go:760-822 | A backend address is refused iff it is empty, a relative socket, a socket path with a colon or two dots in a row, or refused by its parser |
| Pipeline.GlobalRefusals | internal/config/config.go:860-935 | Global settings are refused iff a timeout is negative, a start-up or shutdown timeout not positive, the flush interval negative and not -1ms, or an address does not parse |
| Pipeline.ServiceRefusals | internal/config/config.go:937-1004 | A service is refused iff its backend is, it skips verification without https, a timeout, TLS mode or listen address is wrong, or it has no tags under OAuth |
| Pipeline.CredentialRefusals | internal/config/config.go:653-690 | Credentials are accepted iff they are an auth key alone, complete OAuth credentials alone, or none |
| Pipeline.ConfigRefusals | internal/config/config.go:606-639 | A configuration is refused iff its credentials, its global settings or a service are, the list is empty outside Docker, or a name is empty or used twice |
| Pipeline.ProcessedIsSafe | internal/config/config.go:437-455 | A processed configuration never mixes an auth key with OAuth credentials, tags every service under OAuth, and skips verification for https only |
| Pipeline.PipelineIgnoresOrder | internal/config/config.go:437-639 | Services in another order fail the same way, leave the same environment, or come out the same up to order |
| Containers.HostPartOfPrinted | internal/docker/docker.go:702-710 | The host part of a printed name:port is the name iff the port has no colon |
| Containers.HostPartWhole | internal/docker/docker.go:702-710 | An address is its own host part iff it has no colon after its first character |
| Containers.RemoveServiceByContainerName | internal/docker/docker.go:685-734 | Keeps, in order, exactly the services whose host part is another, with the global settings |
| Containers.PrunedContents | internal/docker/docker.go:685-734 | Survivors are exactly the services with another host part; settings, uniqueness and non-emptiness of names are kept |
| Containers.PrunedTwice | internal/docker/docker.go:685-734 | Pruning is idempotent |
| Containers.PrunedCommutes | internal/docker/docker.go:685-734 | Pruning for two containers commutes |
| Containers.PrunedAlike | internal/docker/docker.go:685-767 | Configurations that the fast comparison calls equal are still equal after pruning, in whatever order their services are |
| Containers.AddressOfContainer | internal/docker/labels.go:286-299 | A container is reached by its first name without the slash, or by the first twelve characters of its identifier |
| Containers.BackendOfContainer | internal/docker/labels.go:206-241 | The label wins; else the address with the port label or the only exposed port, and an error iff there is no exposed port or several |
| Containers.DigitsPrint | internal/docker/labels.go:222-223 | A port is printed in decimal without leading zeros |
| Containers.StopRemovesOwnService | internal/docker/labels.go:207-248 | A stop event prunes the service printed from that container's name iff its port has no colon, which holds for every exposed port |
| Containers.UnixBackendsShareAHost | internal/docker/docker.go:702-724 | A unix socket backend is pruned when a container named unix stops iff its path has no colon |
| Provider.DockerProvider.Load | internal/docker/docker.go:168-235 | Yields the processed configuration, remembers it, and fills the cache on the first success only; a failed load changes only the environment |
| Provider.DockerProvider.ImmediateReload | internal/docker/docker.go:459-495 | Sends a changed configuration iff the app is receiving; the loaded one is remembered even when it is dropped; cache and environment follow the load |
| Provider.DockerProvider.HandleContainerEvent | internal/docker/docker.go:363-443 | Stop and die load, prune, compare and send, with cache and environment following the load; other enabled events only arm the debounce; all else is ignored |
| Provider.LoadedFrom | internal/docker/docker.go:168-235 | A loaded configuration has the global settings of tsbridge's own labels, the services of the containers' labels completed by them, and on the first load the Tailscale settings of the own labels |
| Provider.LoadFails | internal/docker/docker.go:168-235 | A load fails for a missing own container, else a missing container list, else a secret, else iff validation refuses the completed configuration |
| Provider.ParsedCounts | internal/docker/docker.go:201-215 | Every listed container whose labels parse contributes its service once, and no other does |
| Provider.SentNamesAreSound | internal/docker/docker.go:409-427 | Every configuration loaded or sent has unique, non-empty names |
| Provider.LoadIgnoresOrder | internal/docker/docker.go:190-235 | Containers listed in another order give the same failure, or the same environment and the same configuration up to order |
| Provider.SentIgnoresOrder | internal/docker/docker.go:363-495 | What a step sends and remembers differs in order only when what was remembered and loaded differs in order only |
| Provider.LoadRunIgnoresOrder | internal/docker/docker.go:168-235 | Over any number of loads, the listing order of the containers changes neither cached settings nor environment |
| Provider.LoadsAreStable | internal/docker/docker.go:184-227 | After the first successful load, every later success yields the same Tailscale settings for any labels and files |
| Provider.LoadedEnvironment | internal/config/config.go:348-426 | A first load deletes the auth-key variables iff the labels and containers were read and all three secrets resolved, whether or not it succeeds |
| Provider.FailedFirstLoadLosesTheKey | internal/docker/docker.go:217-227 | Called again after a failed first call, a successful load has the implicit auth key iff there was none or the first call failed before all three secrets resolved |
| Provider.TheKeyCanBeLost | internal/config/config.go:405-413 | A first call refused because two containers claim one service name leaves the second without the key it would have had alone |
| Agreement.AgreementKeptIffSafe | internal/docker/docker.go:409-494 | A step keeps the remembered configuration equal to the app's iff no changed one was dropped and no unsent one was pruned |
| Agreement.AgreementOverRuns | internal/docker/docker.go:363-495 | Over any run, the two agree throughout iff every step was safe |
| Agreement.DroppedConfigIsNotResent | internal/docker/docker.go:483-494 | A dropped configuration never reaches the app while Docker stays as it is |
| Agreement.RestartedServiceIsForgotten | internal/docker/docker.go:393-432 | After die and stop handled while the container is still listed, in whatever order each load lists it, no poll of the unchanged listing brings its service back |
| Agreement.CoherentIffSmooth | internal/app/app.go:255-299 | One provider step and its reload keep provider, app and registry saying the same, with every service accepting connections, iff nothing was lost and no operation failed |
| Agreement.CoherenceOverRuns | internal/app/app.go:255-299 | The same over any run of provider steps and reloads |
| Agreement.CoherenceOverListings | internal/docker/docker.go:168-235 | The same over any run of container listings, whatever they contain and however many loads fail |
| Agreement.StepConverges | internal/docker/docker.go:363-495 | From a coherent system one step makes the registry run exactly what Docker asks for iff no operation failed; a step that sends nothing had nothing to do |
| Agreement.SystemRunsReloads | internal/app/app.go:255-271 | Seen from the app, a run of the system is a run of reloads, one for each configuration sent |
| Reconciler.React | internal/docker/docker.go:363-495 | One poll or stop event, handled by the provider object and reloaded by the application object, is one step of the system |
| Reconciler.RunSystem | internal/docker/docker.go:238-274 | Any run of polls and stop events through these objects follows the run of the system, whatever Docker answers and however the outside responds |
| Agreement.StartsCoherent | internal/app/app.go:144-197 | After start-up provider, app and registry say the same and every service accepts connections iff every service started |
| Agreement.ListingOrderIsImmaterial | internal/docker/docker.go:607-623 | Over any run of polls and stop events, the order in which containers are listed at each load changes neither what runs nor, up to order, what is remembered and adopted |
| Agreement.LoadedServicesAreAcceptable | internal/service/service.go:565-618 | The registry accepts a service of a loaded configuration iff its backend is a unix socket or an address that parses as a URL |
| Agreement.LoadedServicesStartIff | internal/tailscale/tailscale.go:161-200 | A service of a loaded configuration starts iff tsnet and proxy cooperate and it may keep an identity it has, or an auth key or OAuth client yields a key |
| Timing.Debouncer.DebouncedReload | internal/docker/docker.go:498-511 | Cancels the pending timer and arms one for 500 ms later; never are two armed |
| Timing.RunDebouncer | internal/docker/docker.go:433-440 | For every timed sequence, reloads happen 500 ms after exactly the events whose next event came too late to cancel |
| Timing.TwoEvents | internal/docker/docker.go:498-511 | In figures: events less than 500 ms apart cause one reload 500 ms after the second, others one each |
| Timing.FiresContents | internal/docker/docker.go:498-511 | A moment is a reload iff it is the deadline of an event that neither the next event nor the end cancels |
| Timing.EveryEventIsCovered | internal/docker/docker.go:498-511 | The first reload at or after an event's own deadline is the deadline of the last event of its burst |
| Timing.AllFiresAreSpaced | internal/docker/docker.go:498-511 | Two reloads are never closer than 500 ms |
| Timing.WatchLoop | internal/docker/docker.go:294-329 | The k-th wait since the last established stream is min(2^k, 300) seconds, without leaving 64 bits |
| Timing.WaitsInFigures | internal/docker/docker.go:294-329 | The wait after an established stream is one second and doubles with each further failure, up to 300 seconds |
| Timing.WaitsGrow | internal/docker/docker.go:294-329 | Waits lie between one second and five minutes and do not shrink before the next established stream |
| Forwarding.IsTrustedProxy | internal/proxy/proxy.go:145-164 | Trusts an address iff it parses and some trusted network contains it |
| Forwarding.TrustIff | internal/proxy/proxy.go:145-164 | An address is trusted iff it parses and lies in one of the trusted networks |
| Forwarding.Outgoing.Rewrite | internal/proxy/proxy.go:222-272 | Sets the two headers as specified and then applies the configured removals and additions, nothing else |
| Forwarding.JoinedChain | internal/proxy/proxy.go:236-252 | Joining header lines and splitting the result lists the same addresses as the lines did |
| Forwarding.RealIPIsChainStart | internal/proxy/proxy.go:245-260 | For a trusted peer X-Real-IP is the first address of the outgoing chain iff the first inbound line is not blank |
| Forwarding.UntrustedHeadersDoNotCount | internal/proxy/proxy.go:227-272 | For an untrusted peer or a Funnel connection the sent X-Forwarded-For is independent of the inbound headers; X-Real-IP is so iff there is an address to set it to or the configuration removes or overrides it |
| Forwarding.UntrustedHeaders | internal/proxy/proxy.go:227-260 | An untrusted peer is forwarded as itself alone, in both headers; a Funnel connection as its source followed by the ingress node, with its source as X-Real-IP |
| Forwarding.TrustedHeaders | internal/proxy/proxy.go:236-260 | A trusted peer is appended to the inbound chain; X-Real-IP is the first address of the first inbound line, or the peer when that line is missing or blank |
| Forwarding.NoPeerHeaders | internal/proxy/proxy.go:222-260 | Without a peer address no chain is sent and X-Real-IP is the Funnel source or passes through |
| Forwarding.OtherHeaders | internal/proxy/proxy.go:262-272 | Overridden headers are sent as configured, removed ones not at all, all others as they came |
| Forwarding.HopAppendsIffLeftAlone | internal/proxy/proxy.go:236-272 | A trusting hop appends the peer to every inbound chain iff it neither removes nor overrides X-Forwarded-For |
| Forwarding.HopSetsRealIPIffLeftAlone | internal/proxy/proxy.go:245-272 | A trusting hop sends the first chain address as X-Real-IP for every header without a blank first line iff it neither removes nor overrides X-Real-IP |
| Forwarding.ChainOverHops | internal/proxy/proxy.go:222-272 | Over n trusting hops the chain in the header that is sent is the original one followed by one peer address per hop, for every original, iff no hop removes or overrides X-Forwarded-For |
| Forwarding.RealIPOverHops | internal/proxy/proxy.go:245-272 | On such a way, a hop that leaves X-Real-IP alone sends the first address of the finally arriving chain iff it is not the first hop or the original header has no blank first line |

## Left out

- Real I/O: the Docker client, tsnet, HTTP serving, OAuth calls, Prometheus and configuration decoding appear only through outcomes and inputs.
- Concurrency inside one step: handlers, registry operations and sends are atomic; races between start and watcher, or reload and shutdown, are assumed away.
- Registry.ServiceRegistry.Shutdown: stops the services one after another in any order, where the code stops them concurrently.
- Registry.ServiceRegistry.StopService: what is tracked is whether the HTTP server still accepts connections; the listener's own Close, and connections that outlive a failed drain, are not.
- Registry.ServiceRegistry.CloseHandler: a handler counts as having a metrics channel even without a collector, and its closing is kept in a ghost set of the registry.
- Registry.ServiceRegistry.StartService: an instance is created together with its handler, where the code creates it first and discards it when the handler cannot be built.
- Pipeline.Draft.Validate: the parsers of Go's net and url packages (URL, host and port, TCP address, CIDR, IP) are parameters, and the lower-casing of a backend address is ASCII only.
- Compare.SortedCopy: is written as an insertion sort on values, because the sort itself belongs to Go's library.
- Pipeline.Draft.Normalize: records are values, so that two services share a pointer to the same access-log setting is not visible.
- Provider.DockerProvider.Load: takes the services parsed from labels as input; finding tsbridge's own container and parsing labels other than the backend address are left out, as are label prefixes.
- Provider.DockerProvider.HandleContainerEvent: cancellation of the context is left out, here and in ImmediateReload.
- App.Application.Start: the metrics server is left out, here and in Shutdown, with the error of its set-up; start-up errors are reported as the failures by name, and `failed` says whether the code returns them as an error.
- Forwarding.Outgoing.Rewrite: header names are taken in Go's canonical form, and of the headers that httputil strips or sets only X-Forwarded-For is modelled.
- Redaction, error texts, access logs, request IDs, the command line, byte-size parsing, retries and the whois cache: single-branch facts or library behaviour.
