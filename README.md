# Coraza Kubernetes operator, modelled in Dafny

The Coraza Kubernetes operator runs the Coraza web application firewall on
Kubernetes. `RuleSet` resources name ConfigMaps that hold SecLang rules. The
RuleSet reconciler joins those rules, checks them, and stores them as a new
version in an in-memory, versioned ruleset cache. An HTTP cache server hands
the latest version to the WAF instances and prunes old versions on a
garbage-collection tick. `Engine` resources pick a driver; for the Istio
driver, the Engine reconciler builds a `WasmPlugin` that points the gateway's
WAF filter at the cache server. Around the operator sit some tools:

- a GitHub issue-triage command that keeps triage labels consistent;
- a generator that turns the OWASP Core Rule Set into ConfigMaps and a RuleSet;
- a runner that points go-ftw at a gateway;
- the Go test framework (scenarios with LIFO cleanups, event and condition
  assertions, resource builders, a fake event recorder).

The model has one module per source file or group of files:

| module | models |
|---|---|
| `Cache` | the versioned cache as a class over a map from instance to versions |
| `CacheServer` | HTTP routing of the cache server and its garbage-collection tick |
| `Api` | the RuleSet and Engine types and their CRD marker constraints, as predicates |
| `Kube` | the cluster as a map-backed store with injected read faults |
| `RuleSetController` | the RuleSet reconciler |
| `RuleSetWatch` | the mapping from a ConfigMap to the RuleSets that reference it |
| `EngineController` | driver selection, the Istio provisioning steps and the WasmPlugin they build |
| `ControllerUtils` | log argument lists and `CreateOrUpdate` |
| `SecLangValidator` | the SecLang operator whitelist and the validator's error precedence |
| `Triage`, `IssueManager` | the label rules, and the command driver's client-call order |
| `CrsGenerator` | splitting rule files into rules, filtering them, ConfigMap naming and YAML assembly |
| `FtwRunner` | gateway service discovery, the connectivity probe, the config overlay and cleanup |
| `TestScenario`, `TestEvents`, `TestAssertions`, `TestFramework`, `TestResources` | the e2e test framework |
| `TestRecorder`, `TestBuilders` | the unit-test fake recorder and resource builders |
| `Wrappers`, `Strings`, `Seqs`, `Values` | the shared pieces: Option and Result, the Go and Python string operations the code relies on, sequence facts, and a JSON/YAML-like value tree |

Effects are modelled as data; nothing is executed:

- a cluster answer, a client error or a failed status patch is a parameter;
- patches, events and client calls are appended to a trace of actions;
- the methods of a class are proved against functions that specify them.

Behaviours of the source modelled as written:

- `ftw/run.py` deletes its temporary config only on the normal path, not in
  the `finally` block, and never deletes the log file;
- `ftw/run.py` parses `FTW_LOG_START_TIMEOUT_SECONDS` with `float()` inside
  the `try` block, so a value it rejects ends the run with status 1 before
  the config is read. Its final `sys.exit` passes on go-ftw's return code
  modulo 256;
- several files target different revisions of the Engine API. For example,
  `engine_controller_driver_istio.go` reads `Driver.Istio.Wasm` while
  `api/v1alpha1/engine_driver_types.go` declares `Driver.Wasm`. Each file is
  modelled against its own shape, so `EngineController`, `TestResources` and
  `TestBuilders` carry their own Engine records.

## Model

| member | source | states |
|---|---|---|
| Cache.FirstWithUuid | internal/rulesets/cache/cache.go:71-76 | the entry Get's loop finds carries the searched UUID and is in the list; no result means no entry carries it |
| Cache.FirstWithUuidUnique | internal/rulesets/cache/cache.go:71-76 | with distinct UUIDs the search for entry i's UUID finds exactly entry i |
| Cache.LookupWellFormed | internal/rulesets/cache/cache.go:63-77 | on a well-formed cache Get finds an entry exactly for stored instances, and it is the last (newest) one |
| Cache.EntriesSizeAppend | internal/rulesets/cache/cache.go:118-122 | the byte size of a concatenation of version lists is the sum of their sizes |
| Cache.SumOverRemove | internal/rulesets/cache/cache.go:117-123 | a sum over instances splits into one instance plus the rest, whatever the iteration order |
| Cache.SumOverFrame | internal/rulesets/cache/cache.go:117-123 | a sum over instances depends only on those instances' lists |
| Cache.SumOverNonNegative | internal/rulesets/cache/cache.go:117-123 | sizes and counts summed over instances are never negative |
| Cache.SumUpdate | internal/rulesets/cache/cache.go:117-123 | replacing one instance's versions changes a sum by exactly the difference |
| Cache.PutModelFacts | internal/rulesets/cache/cache.go:81-100 | Put keeps the cache well-formed, adds the instance, makes the new entry the one served, leaves other instances' answers alone and keeps older versions as a prefix |
| Cache.PutModelSizes | internal/rulesets/cache/cache.go:81-100 | Put adds the new rules' byte length to the total size and one to the version count |
| Cache.KeepByAgeStep | internal/rulesets/cache/cache.go:167-178 | the inner Prune loop decides each version on its own: latest or young enough is kept, then the rest follow |
| Cache.KeepByAgeMembers | internal/rulesets/cache/cache.go:153-183 | a version survives Prune iff it is the latest or not older than maxAge, and survivors keep their order |
| Cache.KeepByAgeWellFormed | internal/rulesets/cache/cache.go:153-170 | Prune never removes the latest version: a well-formed list stays well-formed and keeps its last element |
| Cache.KeepByAgeLast | internal/rulesets/cache/cache.go:168-171 | the newest version, which is the latest, is always kept |
| Cache.KeepByAgeDistinct | internal/rulesets/cache/cache.go:166-179 | dropping versions keeps their UUIDs distinct |
| Cache.PruneByAgeModelFacts | internal/rulesets/cache/cache.go:153-183 | Prune keeps the cache well-formed and changes no instance's served entry |
| Cache.KeepBySizeAccounting | internal/rulesets/cache/cache.go:211-226 | the running size drops by exactly the bytes of the dropped versions, one count per drop; nothing is dropped once within the limit |
| Cache.DropsOldestStep | internal/rulesets/cache/cache.go:218-225 | dropping the first version and then the oldest of the rest drops the oldest of all |
| Cache.KeepBySizeDropsOldest | internal/rulesets/cache/cache.go:185-226 | on one instance PruneBySize drops the shortest oldest prefix that brings the size within the limit, or all but the latest |
| Cache.PruneBySizeAccounting | internal/rulesets/cache/cache.go:188-231 | the final running size and pruned count agree with the cache's own total size and version count |
| Cache.ShrinksToSelf | internal/rulesets/cache/cache.go:199-201 | a cache that is not pruned trivially keeps every instance and version |
| Cache.ShrinksToUpdate | internal/rulesets/cache/cache.go:227 | replacing one instance's versions by a well-formed trailing part keeps instances, latest markers and well-formedness |
| Cache.WellFormedStoreUpdate | internal/rulesets/cache/cache.go:227 | storing a well-formed list keeps the cache well-formed |
| Cache.ShrinksToTransitive | internal/rulesets/cache/cache.go:206-228 | pruning instance after instance composes |
| Cache.KeepBySizeWellFormed | internal/rulesets/cache/cache.go:211-227 | the versions kept for one instance are a well-formed trailing part of its list |
| Cache.WellFormedDrop | internal/rulesets/cache/cache.go:204 | dropping some oldest versions, but not all, keeps a list well-formed |
| Cache.PruneBySizeShape | internal/rulesets/cache/cache.go:185-231 | PruneBySize keeps every instance and its latest marker, keeps the cache well-formed and leaves each list a trailing part of the old one |
| Cache.PruneBySizeFrame | internal/rulesets/cache/cache.go:206-209 | instances the iteration does not reach are untouched |
| Cache.PruneBySizeReachesLimit | internal/rulesets/cache/cache.go:185-231 | after PruneBySize the size is within the limit, or every visited instance is down to its latest version |
| Cache.PruneBySizeKeepsLatest | internal/rulesets/cache/cache.go:188-231 | PruneBySize never changes the entry served for any instance |
| Cache.PruneBySizeWithinLimit | internal/rulesets/cache/cache.go:199-201 | a cache already within the limit is returned unchanged with zero pruned |
| Cache.OverlayStep | internal/rulesets/cache/cache.go:165-180 | the per-instance replacement of Prune's loop, one instance at a time, ends at the fully pruned cache |
| Cache.RuleSetCache.constructor | internal/rulesets/cache/cache.go:56-60 | a new cache is empty and well-formed |
| Cache.RuleSetCache.Get | internal/rulesets/cache/cache.go:63-77 | Get returns the entry whose UUID is Latest; on a well-formed cache that is the newest one, and there is one iff the instance is stored |
| Cache.RuleSetCache.Put | internal/rulesets/cache/cache.go:81-100 | Put appends a new entry with a fresh UUID, makes it the latest, and keeps the cache well-formed |
| Cache.RuleSetCache.ListKeys | internal/rulesets/cache/cache.go:103-111 | ListKeys returns every stored instance exactly once |
| Cache.RuleSetCache.TotalSize | internal/rulesets/cache/cache.go:114-124 | TotalSize is the byte length of every cached version summed |
| Cache.RuleSetCache.SetEntryTimestamp | internal/rulesets/cache/cache.go:127-136 | an in-range index gets the new timestamp and nothing else changes; an unknown instance or out-of-range index changes nothing |
| Cache.RuleSetCache.CountEntries | internal/rulesets/cache/cache.go:139-147 | the number of versions of a stored instance (at least one), else 0 |
| Cache.RuleSetCache.Prune | internal/rulesets/cache/cache.go:155-183 | the cache becomes its age-pruned model, stays well-formed, and the result is the number of versions removed |
| Cache.RuleSetCache.PruneBySize | internal/rulesets/cache/cache.go:188-231 | the cache becomes its size-pruned model for the given iteration order, stays well-formed, and reports the model's count |
| Cache.PruneInstancesBySize | internal/rulesets/cache/cache.go:205-230 | the outer PruneBySize loop computes the size-pruned model of the cache |
| Cache.PruneBySizeModelStep | internal/rulesets/cache/cache.go:206-228 | one turn of the outer loop prunes the visited instance, then continues with the running size |
| Cache.PruneVersionsByAge | internal/rulesets/cache/cache.go:166-179 | Prune's inner loop keeps exactly the age-kept versions and counts the others |
| Cache.PruneVersionsBySize | internal/rulesets/cache/cache.go:211-227 | PruneBySize's inner loop keeps, resizes and counts as its model says |
| CacheServer.DefaultGC | internal/rulesets/cache/server.go:206-212 | the default GC runs every 5 minutes, prunes versions older than 24 hours and caps the cache at 100 MiB |
| CacheServer.SelectGC | internal/rulesets/cache/server.go:76-79 | a given GC configuration wins over the default |
| CacheServer.ServeRejectsOtherMethods | internal/rulesets/cache/server.go:133-136 | the handler answers 405 exactly for methods other than GET |
| CacheServer.ServeRequiresInstance | internal/rulesets/cache/server.go:138-142 | a GET answers 400 exactly when nothing follows the "/rules/" prefix |
| CacheServer.TrimLatest | internal/rulesets/cache/server.go:144-146 | "/rules/<instance>/latest" is routed to the latest handler with the instance name recovered |
| CacheServer.ServeLatestPath | internal/rulesets/cache/server.go:144-171 | /rules/<instance>/latest answers 200 with the UUID and timestamp of the newest version, or 404 "Instance not found" |
| CacheServer.ServeRulesPath | internal/rulesets/cache/server.go:150-188 | /rules/<instance> answers 200 with the whole newest entry, or 404 "Instance not found" |
| CacheServer.LatestAgreesWithRules | internal/rulesets/cache/server.go:153-188 | the latest endpoint reports the UUID and timestamp of the entry the rules endpoint serves |
| CacheServer.GcTickKeepsLatest | internal/rulesets/cache/server.go:226-243 | a GC tick keeps every instance, keeps the cache well-formed, and changes no served entry |
| CacheServer.GcTickReachesLimit | internal/rulesets/cache/server.go:232-242 | after a GC tick the cache is within MaxSize, or every instance is down to its latest version (the case logged as CRITICAL) |
| CacheServer.GcTickAgeSuffices | internal/rulesets/cache/server.go:232-234 | when age pruning alone brings the cache within MaxSize, size pruning does not run |
| CacheServer.RuleSetCacheServer.constructor | internal/rulesets/cache/server.go:75-98 | the server keeps the given cache and the selected GC configuration |
| CacheServer.RuleSetCacheServer.HandleRules | internal/rulesets/cache/server.go:132-188 | handleRules answers as the routing model says for every method and path |
| CacheServer.RuleSetCacheServer.GcTick | internal/rulesets/cache/server.go:226-243 | one tick prunes by age, then by size when over budget; the cache stays well-formed and the report gives the age-pruned count, the size-pruned count (0 when the size pass is skipped) and whether the budget is still exceeded |
| Kube.Get | internal/controller/ruleset_controller.go:76-83 | a client Get finds the stored object unless its key fails; a failing key answers its own error; any other key is NotFound |
| Api.InstanceOrDefault | api/v1alpha1/ruleset_types.go:89-93 | a RuleSet that leaves out spec.instance is stored with "default" |
| Api.DefaultInstanceValid | api/v1alpha1/ruleset_types.go:89-91 | the default instance meets the 1..253 length bounds |
| Api.FailurePolicyOrDefault | api/v1alpha1/engine_types.go:115-117 | an Engine that leaves out failurePolicy is stored with "fail" |
| Api.DriverPropertyCount | api/v1alpha1/engine_types.go:100-102 | the number of driver properties present is at most five and zero only for an empty driver (which MinProperties=1 rejects) |
| Api.PollIntervalOrDefault | api/v1alpha1/engine_driver_types.go:123-128 | a cache-server configuration without pollIntervalSeconds is stored with 15 |
| Api.ValidDriverHasIstioAndWasm | api/v1alpha1/engine_driver_types.go:25-44 | every valid driver has its required type istio and mode wasm, and so carries an Istio section and a wasm image that starts with "oci://" |
| Api.DefaultsValid | api/v1alpha1/engine_types.go:160-171 | the defaulted failure policy is one of the enum values and the defaulted poll interval is within 1..3600 |
| RuleSetController.Collect | internal/controller/ruleset_controller.go:89-119 | a completed aggregation has one text per source |
| RuleSetController.CollectPrefixStep | internal/controller/ruleset_controller.go:89-119 | each turn of the loop handles one more source after the earlier ones |
| RuleSetController.FetchSourceReady | internal/controller/ruleset_controller.go:91-113 | a source is read successfully exactly when it is a ConfigMap that exists, can be read and has a "rules" key, and then it contributes that data |
| RuleSetController.CollectAbortPersists | internal/controller/ruleset_controller.go:91-113 | once a source stops the loop, the later sources are never read |
| RuleSetController.CollectFirstFailureDecides | internal/controller/ruleset_controller.go:89-119 | aggregation completes iff every source is ready, with each source's text in list order; otherwise the first source that is not ready decides the outcome |
| RuleSetController.SourceTexts | internal/controller/ruleset_controller.go:109-115 | one rules text per ready source |
| RuleSetController.DecideOutcomes | internal/controller/ruleset_controller.go:71-127 | a missing RuleSet ends quietly, a failed read returns its error, any stop leaves the cache alone, and a full aggregation stores one version under Spec.Instance with the texts joined by newlines |
| RuleSetController.ReconcileAgainStoresNewVersion | internal/controller/ruleset_controller.go:121-123 | a second reconcile serves the new version under a different UUID and keeps the first as history |
| RuleSetController.ReadSource | internal/controller/ruleset_controller.go:91-113 | one turn of the loop: wrong kind, missing ConfigMap (requeue after 5s), read error and missing key each stop with their outcome, else the ConfigMap's rules |
| RuleSetController.AggregateRules | internal/controller/ruleset_controller.go:88-119 | the loop stops with the first failing source's outcome, or returns the texts joined by "\n" with no trailing newline |
| RuleSetController.AggregatedStep | internal/controller/ruleset_controller.go:115-118 | one more text and, unless it is the last source, a newline extend the builder to the join of one more text |
| RuleSetController.RuleSetReconciler.constructor | internal/controller/ruleset_controller.go:52-56 | the reconciler keeps its cache |
| RuleSetController.RuleSetReconciler.Reconcile | internal/controller/ruleset_controller.go:71-127 | the result is the decided outcome; the cache is unchanged unless aggregation completed, when Put stores the joined rules under Spec.Instance; the cache stays well-formed |
| RuleSetWatch.ListInNamespace | internal/controller/ruleset_controller_watch_predicates.go:39-40 | the list holds only RuleSets of the ConfigMap's namespace |
| RuleSetWatch.KeysOf | internal/controller/ruleset_controller_watch_predicates.go:49-54 | one request key per RuleSet, its name and namespace |
| RuleSetWatch.Requests | internal/controller/ruleset_controller_watch_predicates.go:45-61 | there are never more requests than listed RuleSets |
| RuleSetWatch.RequestsMembers | internal/controller/ruleset_controller_watch_predicates.go:46-61 | a key is enqueued iff some listed RuleSet with that key has a rule naming the ConfigMap |
| RuleSetWatch.RequestsInListOrder | internal/controller/ruleset_controller_watch_predicates.go:46-61 | requests come in list order |
| RuleSetWatch.RequestsDistinct | internal/controller/ruleset_controller_watch_predicates.go:58 | the break after the first matching rule enqueues each RuleSet at most once |
| RuleSetWatch.RequestsStayInNamespace | internal/controller/ruleset_controller_watch_predicates.go:40-55 | every request names a RuleSet in the ConfigMap's namespace that references it |
| RuleSetWatch.RequestsStep | internal/controller/ruleset_controller_watch_predicates.go:46-61 | the outer loop handles one RuleSet per turn |
| RuleSetWatch.EnqueueIfReferenced | internal/controller/ruleset_controller_watch_predicates.go:47-60 | the inner loop appends the RuleSet's key exactly when one of its rules names the ConfigMap |
| RuleSetWatch.FindRuleSetsForConfigMap | internal/controller/ruleset_controller_watch_predicates.go:36-64 | a failed List maps to no requests, otherwise to the requests of the referencing RuleSets in the namespace |
| ControllerUtils.LogArgs | internal/controller/utils.go:47 | the request's namespace and name pairs come first, and the caller's k-th argument is the list's element 4+k |
| ControllerUtils.LogFields | internal/controller/utils.go:46-48 | read as key/value fields, the logged list is the request's namespace and name followed by exactly the caller's own fields, so no caller key is shifted onto a value |
| ControllerUtils.LogRecordFields | internal/controller/utils.go:45-61 | LogInfo, LogDebug and LogError all log the request's fields ahead of the caller's under the message "kind: msg"; debug logs at verbosity 1, the others at 0 |
| ControllerUtils.LookupKey | internal/controller/utils.go:77-91 | the Get key is the desired name, in namespace "default" when the object has none |
| ControllerUtils.ObjectStore.Get | internal/controller/utils.go:88-91 | a read answers as the abstract cluster does: a fault, not found, or the stored object |
| ControllerUtils.ObjectStore.Create | internal/controller/utils.go:95 | a create either fails and leaves the store as it was, or stores the object under its key |
| ControllerUtils.ObjectStore.Update | internal/controller/utils.go:105 | an update either fails and leaves the store as it was, or stores the object under its key |
| ControllerUtils.CreateOrUpdate | internal/controller/utils.go:71-110 | an empty GVK or a missing name fails before any call; a failed Get is reported with kind/name and namespace; a missing object is created; an existing one is updated carrying its resource version; every failure leaves the store unchanged |
| EngineController.BuildWasmPluginFields | internal/controller/engine_controller_driver_istio.go:93-134 | the WasmPlugin is named coraza-engine- followed by the Engine name, in the Engine's namespace; its cache key is the RuleSet's namespace (the Engine's when empty) and name; it carries the cache cluster, the image and the workload labels; it has a reload interval exactly when a cache server is configured |
| EngineController.WasmPluginMetadata | internal/controller/engine_controller_driver_istio.go:109-116 | kind, name prefix and namespace of the built plugin |
| EngineController.WasmPluginConfigFields | internal/controller/engine_controller_driver_istio.go:94-107 | the plugin config: the cache instance key, the cluster, and the optional reload interval |
| EngineController.WasmPluginSpecFields | internal/controller/engine_controller_driver_istio.go:117-123 | the plugin url is the Wasm image, and its selector's matchLabels are the workload selector's |
| EngineController.ReconcileReadOutcomes | internal/controller/engine_controller.go:93-102 | a missing Engine ends with no requeue and no calls; any other read error is returned with a requeue |
| EngineController.ReconcileProgressing | internal/controller/engine_controller.go:104-115 | Progressing is patched, as the first call, exactly when the Engine has no Ready condition; a failed patch returns its error and stops |
| EngineController.SelectDriverNeverProgressing | internal/controller/engine_controller.go:122-135 | driver selection never patches Progressing |
| EngineController.SelectDriverProvisionsIff | internal/controller/engine_controller.go:122-135 | the plugin is applied exactly for the Istio driver in Wasm mode; every other shape is handled as an invalid configuration |
| EngineController.InvalidConfigurationReports | internal/controller/engine_controller.go:143-156 | a Warning InvalidConfiguration event, then a Degraded patch; an error always comes back, and it names the patch failure as well when there is one |
| EngineController.ProvisionApplyFailure | internal/controller/engine_controller_driver_istio.go:63-74 | a failed apply emits a Warning ProvisioningFailed event, marks the Engine Degraded, never Ready, and returns the apply error |
| EngineController.ProvisionSuccess | internal/controller/engine_controller_driver_istio.go:75-86 | a successful apply marks the Engine Ready (reason Configured), then emits a Normal WasmPluginCreated event, and returns no error |
| EngineController.EngineReconciler.constructor | internal/controller/engine_controller.go:52-60 | a reconciler with the cache-server cluster and no calls yet |
| EngineController.EngineReconciler.Reconcile | internal/controller/engine_controller.go:89-116 | the result and the calls appended equal ReconcileRun, whose outcomes ReconcileReadOutcomes and ReconcileProgressing state |
| EngineController.EngineReconciler.SelectDriver | internal/controller/engine_controller.go:122-135 | the result and the calls appended are those of driver selection |
| EngineController.EngineReconciler.HandleInvalidDriverConfiguration | internal/controller/engine_controller.go:143-156 | the error returned and the calls appended equal InvalidConfigurationRun: a Warning event, then a Degraded patch, and always an error |
| EngineController.EngineReconciler.ProvisionIstioEngineWithWasm | internal/controller/engine_controller_driver_istio.go:52-87 | the result and the calls appended are those of provisioning: an owner-reference step that can only fail, then the apply; a failed apply adds a Warning event and a Degraded patch, a successful one a Ready patch and then a Normal event |
| SecLangValidator.IsValidOperatorIff | internal/rulesets/validator.go:27-70 | an operator is accepted exactly when it is one of the 25 known operators; pmFromFile is not, rx and contains are |
| SecLangValidator.SyntaxMessage | internal/rulesets/validator.go:130-136 | every message starts with "[line:column] "; a nil symbol gives a recognition error, any other symbol a syntax error that quotes it |
| SecLangValidator.SyntaxMessages | internal/rulesets/validator.go:129-138 | one message per parser report, in report order |
| SecLangValidator.CustomErrorListener.constructor | internal/rulesets/validator.go:125-127 | a listener with no errors yet |
| SecLangValidator.CustomErrorListener.SyntaxError | internal/rulesets/validator.go:130-138 | appends exactly the message of this report |
| SecLangValidator.Unsupported | internal/rulesets/validator.go:141-176 | the unsupported-operator occurrences of a walk, never more than the walk's callbacks |
| SecLangValidator.Messages | internal/rulesets/validator.go:100 | one "[line:column] Unsupported operator: @name" message per occurrence, in order |
| SecLangValidator.UnsupportedMembers | internal/rulesets/validator.go:146-176 | an occurrence is recorded iff the walk entered that operator name at that position and the name is not supported; variables, collections and setvar collections never are |
| SecLangValidator.PmFromFileRejected | internal/rulesets/validator.go:96-107 | a rule using @pmFromFile at 1:22 yields exactly the message "[1:22] Unsupported operator: @pmFromFile" |
| SecLangValidator.GroupedIsPositions | internal/rulesets/validator.go:85-87 | the violations map has a name iff it occurs, and holds that name's positions in walk order |
| SecLangValidator.NameMessages | internal/rulesets/validator.go:99-101 | one message per recorded position of a name, in order |
| SecLangValidator.FlattenIsAllMessages | internal/rulesets/validator.go:96-102 | visiting every recorded name once, in any order, yields the same bag of messages as the occurrences |
| SecLangValidator.GroupedNonEmpty | internal/rulesets/validator.go:85-87 | a name in the map has at least one position |
| SecLangValidator.GroupedKeysOccur | internal/rulesets/validator.go:85-87 | a name is in the map iff some occurrence has it |
| SecLangValidator.ValidationListener.constructor | internal/rulesets/validator.go:114-118 | the operators map starts empty |
| SecLangValidator.ValidationListener.Enter | internal/rulesets/validator.go:147-176 | an unsupported operator name gets its position appended; every other callback leaves the map as it was |
| SecLangValidator.ValidationListener.Errors | internal/rulesets/validator.go:96-107 | nil exactly when no position is recorded; otherwise a non-empty list that is the per-name messages for some iteration order of the map |
| SecLangValidator.ReportSyntaxErrors | internal/rulesets/validator.go:186-192 | the error listener ends up holding every report's message, in report order |
| SecLangValidator.WalkTree | internal/rulesets/validator.go:194-195 | after the walk the operators map groups the unsupported occurrences by name |
| SecLangValidator.EnumerationIsAllMessages | internal/rulesets/validator.go:96-102 | whatever order the map is iterated in, the messages are those of all occurrences |
| SecLangValidator.Validate | internal/rulesets/validator.go:180-202 | syntax errors win, in report order; otherwise nil exactly when no operator is unsupported, else the messages errors() builds for some iteration order of the operators map: each unsupported name once, with one message per position in walk order, and as a bag one message per unsupported occurrence |
| Triage.Filtered | tools/cmd/github_issue_manager/triage.go:114-122 | the kept labels are never more than the input |
| Triage.FilteredMembers | tools/cmd/github_issue_manager/triage.go:114-122 | a label is kept iff it is in the input and the predicate holds for it |
| Triage.FilteredInOrder | tools/cmd/github_issue_manager/triage.go:114-122 | the kept labels keep their input order |
| Triage.FilteredDistinct | tools/cmd/github_issue_manager/triage.go:114-122 | filtering a list without duplicates yields one without duplicates |
| Triage.Contains | tools/cmd/github_issue_manager/triage.go:105-112 | found exactly when the label is in the list |
| Triage.Filter | tools/cmd/github_issue_manager/triage.go:114-122 | the loop keeps exactly the filtered labels, in order |
| Triage.CollectOtherTriage | tools/cmd/github_issue_manager/triage.go:61-65 | the loop collects, in order, the triage/ labels other than the excepted one |
| Triage.ComputeLabelUpdates | tools/cmd/github_issue_manager/triage.go:35-69 | the additions and removals are those of the label-update rules |
| Triage.NoMilestoneDropsAccepted | tools/cmd/github_issue_manager/triage.go:38-42 | without a milestone, triage/accepted is removed iff present, and it is removed first |
| Triage.NoMilestoneAddsNeedsTriage | tools/cmd/github_issue_manager/triage.go:44-50 | without a milestone, triage/needs-triage is added iff no triage label other than triage/accepted is present; nothing else is ever added |
| Triage.NoMilestoneDropsNeedsTriage | tools/cmd/github_issue_manager/triage.go:49-54 | for labels without duplicates: without a milestone, triage/needs-triage is removed iff it is present beside another triage label other than triage/accepted |
| Triage.LoneTriageLabelKept | tools/cmd/github_issue_manager/triage.go:44-54 | a single triage label other than accepted and needs-triage, with no milestone, causes no change |
| Triage.MilestoneAccepts | tools/cmd/github_issue_manager/triage.go:55-66 | with a milestone, triage/accepted is added iff missing; exactly the other triage labels are removed, in label order |
| Triage.UpdatesDisjointAndTriageOnly | tools/cmd/github_issue_manager/triage.go:35-69 | no label is both added and removed, and only triage/ labels are touched |
| Triage.ComputeDeclined | tools/cmd/github_issue_manager/triage.go:86-103 | the result is that of the declined rules |
| Triage.DeclinedFacts | tools/cmd/github_issue_manager/triage.go:86-103 | nil iff triage/declined is absent; otherwise the milestone is removed iff present, the issue is closed iff it is not already, and exactly the other triage labels are removed, in order, never triage/declined itself |
| IssueManager.AtoiAccepts | tools/cmd/github_issue_manager/main.go:70-74 | strconv.Atoi accepts exactly an optional sign, then one or more decimal digits within the signed 64-bit range; the value is the digits' value, negated after a minus |
| IssueManager.ScanUintStops | tools/cmd/github_issue_manager/main.go:70-73 | any non-digit after the sign is a syntax error |
| IssueManager.AtoiIntToString | tools/cmd/github_issue_manager/main.go:70-74 | every 64-bit integer written in decimal reads back as itself |
| IssueManager.ResolvePrecedence | tools/cmd/github_issue_manager/main.go:55-85 | a resolved setting takes the flag when given and the environment variable otherwise; GITHUB_ISSUE is read only when --issue is 0; owner, repo, issue and token are never empty or zero |
| IssueManager.ResolveErrors | tools/cmd/github_issue_manager/main.go:56-85 | no command, an unparsable GITHUB_ISSUE, a missing owner/repo/issue and a missing token each give their own error, in that order of precedence |
| IssueManager.NonNumericIssue | tools/cmd/github_issue_manager/main.go:68-73 | a GITHUB_ISSUE with a non-digit character is always rejected when --issue is not given |
| IssueManager.RemoveEachStopsAtFirstError | tools/cmd/github_issue_manager/main.go:147-151 | label removals are sent one by one in order; the first failure stops the loop and is returned; without any failure every label is removed |
| IssueManager.ClosingCalls | tools/cmd/github_issue_manager/main.go:185-195 | the milestone is removed iff asked; the issue is closed iff asked and the milestone removal did not fail; milestone removal comes first |
| IssueManager.RunOrdering | tools/cmd/github_issue_manager/main.go:33-113 | a resolution error makes no call; otherwise the issue is fetched first; a failed fetch, or an unknown command after it, ends the run with that error |
| IssueManager.UpdateLabelsCalls | tools/cmd/github_issue_manager/main.go:115-154 | a declined issue, dry-run or no change make no call; otherwise the additions go in one AddLabels call first, then one RemoveLabel per removed label, in order |
| IssueManager.AddThenRemove | tools/cmd/github_issue_manager/main.go:141-151 | an AddLabels call can only come first; every other call is a RemoveLabel for the next label in order |
| IssueManager.RemovalsInOrder | tools/cmd/github_issue_manager/main.go:147-151 | the removals sent are a prefix of the labels, in order |
| IssueManager.CloseDeclinedCalls | tools/cmd/github_issue_manager/main.go:156-198 | an issue that is not declined, or dry-run, makes no call; otherwise the other triage labels are removed first, and a failure there stops the run before the milestone removal and the close |
| IssueManager.ThenAssociative | tools/cmd/github_issue_manager/main.go:141-198 | chaining the steps of a command does not depend on grouping |
| IssueManager.GitHubClient.constructor | tools/cmd/github_issue_manager/github.go:83-91 | a client with its token, owner and repo, and no calls yet |
| IssueManager.GitHubClient.Send | tools/cmd/github_issue_manager/github.go:160-223 | each request is recorded, and fails exactly when the server is set to fail it |
| IssueManager.GitHubClient.FetchIssue | tools/cmd/github_issue_manager/github.go:141-158 | one GetIssue request, answered with the server's issue |
| IssueManager.RemoveLabels | tools/cmd/github_issue_manager/main.go:147-151 | the loop sends the removals RemoveEach gives, in order, stopping at the first failure, and returns its error |
| IssueManager.RunUpdateLabels | tools/cmd/github_issue_manager/main.go:115-154 | the calls and the error equal UpdateLabelsTrace |
| IssueManager.RunCloseDeclined | tools/cmd/github_issue_manager/main.go:156-198 | the calls and the error equal CloseDeclinedTrace |
| IssueManager.ResolveSettings | tools/cmd/github_issue_manager/main.go:51-85 | reassigning owner, repo and issue from the environment gives Resolve: flags win over the environment, with the error cases of main.go |
| IssueManager.Run | tools/cmd/github_issue_manager/main.go:33-113 | the calls and the error of run equal RunTrace |
| IssueManager.RunCommand | tools/cmd/github_issue_manager/main.go:103-112 | the switch dispatches update-labels and close-declined, and rejects any other command without a call |
| CrsGenerator.Lower | hack/generate_coreruleset_configmaps.py:228 | lower-casing keeps the length and maps each character on its own (ASCII letters only) |
| CrsGenerator.SplitLines | hack/generate_coreruleset_configmaps.py:279 | splitlines yields lines that contain no line boundary |
| CrsGenerator.GroupsShape | hack/generate_coreruleset_configmaps.py:134-165 | the blocks, taken as line groups, concatenate back to the lines; every group but the last is a closed directive or a single other line, and the last may be an open continuation |
| CrsGenerator.ScanKeepsInvariant | hack/generate_coreruleset_configmaps.py:139-159 | the line loop keeps the invariant that the finished blocks and the open block cover exactly the lines seen |
| CrsGenerator.SplitIntoRulesRoundTrip | hack/generate_coreruleset_configmaps.py:126-165 | joining the blocks with newlines gives back the file content exactly |
| CrsGenerator.SplitIntoRulesLoop | hack/generate_coreruleset_configmaps.py:126-165 | the loop builds exactly the blocks SplitIntoRules gives, which join back to the content |
| CrsGenerator.FindIdFirst | hack/generate_coreruleset_configmaps.py:120 | the search finds the first position that starts id: followed by a digit, or reports that none exists |
| CrsGenerator.ExtractRuleIdSpec | hack/generate_coreruleset_configmaps.py:117-123 | "unknown" iff no "id:" followed by digits occurs; otherwise the full digit run after the first occurrence |
| CrsGenerator.Dispose | hack/generate_coreruleset_configmaps.py:194-211 | only a Sec directive block is ever dropped, and it is dropped iff it is a SecRule using @pmFromFile while that flag is set, or its id is in the ignore list |
| CrsGenerator.KeptOrRemoved | hack/generate_coreruleset_configmaps.py:194-211 | every block is either kept or reported removed; comments and other non-directive blocks are always kept |
| CrsGenerator.KeptInOrder | hack/generate_coreruleset_configmaps.py:194-211 | the kept blocks keep their file order |
| CrsGenerator.FilterBlocks | hack/generate_coreruleset_configmaps.py:194-211 | the loop returns exactly the kept blocks and the removed rules, with their reasons |
| CrsGenerator.ProcessFileContentFacts | hack/generate_coreruleset_configmaps.py:180-214 | an unreadable file, or one without SecRule or SecAction, gives empty content; with nothing to drop the content comes back unchanged |
| CrsGenerator.NothingDropped | hack/generate_coreruleset_configmaps.py:194-211 | without the pmFromFile flag and with no listed id, every block is kept and nothing is reported |
| CrsGenerator.LastDot | hack/generate_coreruleset_configmaps.py:228 | the stem ends before the last dot of the file name |
| CrsGenerator.ReplaceUnderscores | hack/generate_coreruleset_configmaps.py:231 | every underscore becomes a hyphen and nothing else changes |
| CrsGenerator.KeepNameChars | hack/generate_coreruleset_configmaps.py:234 | only lower-case letters, digits, '-' and '.' remain; a name made of them is unchanged |
| CrsGenerator.TrimLeadingNonAlnum | hack/generate_coreruleset_configmaps.py:237 | the result is a suffix that starts with a letter or digit, or is empty |
| CrsGenerator.TrimTrailingNonAlnum | hack/generate_coreruleset_configmaps.py:240 | the result is a prefix that ends with a letter or digit, or is empty |
| CrsGenerator.GenerateConfigMapNameValid | hack/generate_coreruleset_configmaps.py:217-249 | every name produced is a valid RFC 1123 subdomain name; an error is raised iff the sanitized name is empty or longer than 253 characters |
| CrsGenerator.GenerateConfigMapNameRoundTrip | hack/generate_coreruleset_configmaps.py:217-249 | a valid name with ".conf" appended maps back to itself |
| CrsGenerator.IndentLines | hack/generate_coreruleset_configmaps.py:279 | one output line per content line |
| CrsGenerator.IndentLinesFacts | hack/generate_coreruleset_configmaps.py:279 | blank lines become empty, and every other line gets four spaces of indent |
| CrsGenerator.ConfigMapYamlHead | hack/generate_coreruleset_configmaps.py:281-288 | the ConfigMap document starts with its apiVersion, kind and name |
| CrsGenerator.GenerateConfigMapFacts | hack/generate_coreruleset_configmaps.py:252-290 | fails iff the name fails; the file is skipped with "No SecRule or SecAction directives found" iff its processed content is blank; otherwise it yields a valid name and a ConfigMap document under that name |
| CrsGenerator.RuleSetEntries | hack/generate_coreruleset_configmaps.py:295-302 | base-rules comes first when requested, then one entry per ConfigMap, in order |
| CrsGenerator.GenerateRuleSet | hack/generate_coreruleset_configmaps.py:293-315 | the RuleSet document lists those entries one per line |
| CrsGenerator.IgnoreRuleIdsMembers | hack/generate_coreruleset_configmaps.py:362-367 | an id is ignored iff it is a non-empty stripped part of the comma-separated list; no ignored id contains a comma |
| FtwRunner.PyGet | ftw/run.py:69 | dict.get fails on a non-dict; on a dict it gives the value under the key, or the default when the key is absent |
| FtwRunner.SingleService | ftw/run.py:68-77 | len() of items decides, for a list, a dict or a string alike: 0 is the no-service error, more than 1 the multiple-services error, and a service is chosen only for exactly one item, that item |
| FtwRunner.FindHttpPort | ftw/run.py:91-97 | the loop finds the port HttpPort defines: that of the first entry named http (80 when there is none) |
| FtwRunner.HttpPortFirst | ftw/run.py:91-97 | among dict entries, the first one named http gives its port (80 when it has none); with no http entry the port is 80 |
| FtwRunner.GetGatewayServiceInfo | ftw/run.py:44-99 | a failed kubectl call or unparsable output, no service or several services, are errors; otherwise the address, port and name ServiceInfoOf gives |
| FtwRunner.AddressClassification | ftw/run.py:78-88 | the address is ClusterIP unless the service is a LoadBalancer with an ingress entry, whose ip is then used (ClusterIP when it has none); a missing metadata gives an empty name |
| FtwRunner.ExactlyOneService | ftw/run.py:68-75 | a service is found iff the query lists exactly one; none is reported with the label in the error |
| FtwRunner.FirstAnswer | ftw/run.py:167-180 | the attempt found is within range and was answered |
| FtwRunner.FirstAnswerIsFirst | ftw/run.py:167-180 | no earlier attempt was answered; with no answer, no attempt in range was |
| FtwRunner.TestConnectivity | ftw/run.py:152-188 | succeeds iff some attempt within max_retries is answered; the attempts and the retry sleeps between them are exactly those AttemptsTrace lists |
| FtwRunner.AttemptsTraceShape | ftw/run.py:167-186 | k attempts alternate with k-1 sleeps, starting and ending with an attempt |
| FtwRunner.ConnectivityFacts | ftw/run.py:152-188 | never more than max_retries attempts and none when it is not positive; on success the last attempt is the first answered; on failure no attempt was answered; no sleep follows the last attempt |
| FtwRunner.OverlayKeepsOthers | ftw/run.py:306-313 | only testoverride.input.dest_addr and testoverride.input.port are set, to the target; every other key at every level is kept |
| FtwRunner.OverlayTargets | ftw/run.py:312-313 | after the overlay the config holds the target host and port |
| FtwRunner.EmptyDocumentOverlay | ftw/run.py:292-313 | an empty YAML document loads as {} and gets exactly the target overrides |
| FtwRunner.RunFtw | ftw/run.py:191-387 | the exit status and events of main equal FtwRun: service lookup, port-forward, probe, the float() parse of the log-start timeout (status 1 when it raises), config overlay, FTW with status rc mod 256, and the finally cleanup |
| FtwRunner.RunTryBlock | ftw/run.py:218-375 | the try block's exit status and events equal TryBlock, including the status-1 exit when float() rejects the log-start timeout |
| FtwRunner.RunAfterProbe | ftw/run.py:257-375 | the steps after the probe equal AfterProbe: a rejected log-start timeout exits 1 before the config is read, then config load and overlay, the write, FTW and the unlink |
| FtwRunner.CleanupOnEveryExit | ftw/run.py:377-387 | whenever the port-forward started, every exit ends with its termination (and a kill when it does not stop within 5 s); when it did not start, nothing is terminated |
| FtwRunner.TryBlockEvents | ftw/run.py:218-244 | the port-forward starts, as the first event, exactly for a ClusterIP service, and the try block itself never stops it |
| FtwRunner.AfterProbeStatus | ftw/run.py:272-375 | when the log-start timeout parses, the config loads, overlays and is written and FTW runs, the status is FTW's code mod 256, FTW runs and then the config is unlinked; any failure there exits with 1 with at most the config written |
| FtwRunner.TryBlockNormal | ftw/run.py:272-375 | on the normal path (which includes a parsable log-start timeout) the exit status is FTW's code mod 256 and the last two events are the FTW run and the unlink |
| FtwRunner.TryBlockOther | ftw/run.py:248-330 | off the normal path the exit status is 1 and FTW never runs |
| FtwRunner.NormalExitStatus | ftw/run.py:362-375 | main exits with FTW's return code mod 256 (a negative signal code wraps), and the modified config is unlinked right after FTW runs |
| FtwRunner.OtherExitStatus | ftw/run.py:54-330 | every other path exits with 1 without running FTW |
| FtwRunner.ExitStatus | ftw/run.py:375 | sys.exit with an integer gives a status in 0..255 congruent to it mod 256, the integer itself when already in range |
| FtwRunner.BadLogTimeoutExitsOne | ftw/run.py:272 | when float() rejects FTW_LOG_START_TIMEOUT_SECONDS, main exits with 1 and neither writes the config nor runs FTW |
| FtwRunner.BadLogTimeoutTryBlock | ftw/run.py:218-272 | the try block ends at the rejected parse with status 1, before any config is written or FTW runs |
| FtwRunner.ProbeTarget | ftw/run.py:214-248 | the probe targets 127.0.0.1 and the local port for a ClusterIP service, and the service address and port otherwise |
| FtwRunner.FtwCommandOptions | ftw/run.py:339-354 | the FTW command has 13 fixed words, then -f with the output log and --output with the format, each only when given |
| TestScenario.RunOrder | test/framework/scenario.go:84-86 | the pass runs every registered function exactly once |
| TestScenario.RunOrderReverses | test/framework/scenario.go:84-86 | the registered list is run back to front |
| TestScenario.RunOrderCons | test/framework/scenario.go:79-92 | the first function registered runs last |
| TestScenario.Actions | test/framework/scenario.go:84-86 | one effect per function run |
| TestScenario.ActionsInOrder | test/framework/scenario.go:84-86 | the effects are the functions' actions, in run order |
| TestScenario.Scenario.constructor | test/framework/scenario.go:65-77 | a scenario with no cleanups, no namespaces, not failed, and nothing done yet |
| TestScenario.Scenario.OnCleanup | test/framework/scenario.go:90-92 | the function is pushed on top of the cleanup stack and nothing else changes |
| TestScenario.Scenario.Cleanup | test/framework/scenario.go:81-87 | the stack is taken and cleared first, then run last-in first-out; only what the running functions register remains |
| TestScenario.Scenario.CreateNamespace | test/framework/scenario.go:114-134 | the namespace is created; on failure the test fails and nothing is recorded; on success it is recorded and its deletion is pushed as a cleanup |
| TestScenario.Scenario.GenerateNamespace | test/framework/scenario.go:103-111 | a failed random read fails the test before any call; otherwise the namespace is the prefix, '-' and six lower-case hex digits of three random bytes, and it is created as CreateNamespace does |
| TestScenario.Scenario.ApplyManifest | test/framework/scenario.go:138-147 | the manifest is applied with kubectl; a failure fails the test; a success pushes kubectl delete --ignore-not-found=true of the same file as a cleanup |
| TestScenario.Scenario.DumpOnFailure | test/framework/scenario.go:155-163 | every namespace is dumped, in creation order, exactly when the test has failed |
| TestScenario.Dumps | test/framework/scenario.go:160-162 | one dump per namespace, in order |
| TestScenario.FinishTest | test/framework/scenario.go:71-76 | after the test the failure dump runs before the resource cleanup, which runs last-in first-out |
| TestScenario.CleanupIsLifo | test/framework/scenario.go:84-92 | the function registered last runs first |
| TestScenario.CleanupIdempotent | test/framework/scenario.go:79-87 | when the functions register nothing, a second Cleanup runs nothing |
| TestScenario.RegisteredAppend | test/framework/scenario.go:81-86 | what a pass registers is collected in run order |
| TestScenario.Hex | test/framework/scenario.go:108 | %x writes two lower-case hex digits per byte |
| TestScenario.HexRoundTrip | test/framework/scenario.go:108 | the hex suffix determines the bytes: reading it back gives them |
| TestScenario.GeneratedNameShape | test/framework/scenario.go:100-111 | a generated name is the prefix, a hyphen, then six lower-case hex digits that decode to the random bytes |
| TestEvents.MatchesEventIff | test/framework/events.go:86-94 | an event matches iff each non-empty criterion equals its field |
| TestEvents.EmptyMatchMatchesAll | test/framework/events.go:86-94 | the empty criterion matches every event |
| TestEvents.AnyMatch | test/framework/events.go:58-64 | found iff some listed event matches |
| TestEvents.ExpectEvent | test/framework/events.go:48-70 | passes iff some poll listed the events without error and one of them matches |
| TestEvents.Parts | test/framework/events.go:96-105 | one "Type/Reason: Note" part per event, in order |
| TestEvents.SummarizeEvents | test/framework/events.go:96-105 | the loop's summary is "none" for no events, and the parts joined by "; " otherwise |
| TestEvents.SummaryNoneIffEmpty | test/framework/events.go:96-105 | the summary is "none" exactly when there are no events |
| TestEvents.SummaryAppend | test/framework/events.go:96-105 | each further event adds "; " and its own part at the end |
| TestEvents.SummaryFirst | test/framework/events.go:96-105 | the summary starts with the first event's part |
| TestEvents.Matching | test/framework/events.go:75-84 | the matching events are exactly the listed ones that match |
| TestEvents.ExpectNoEvent | test/framework/events.go:75-84 | a failed listing fails at once and reports nothing else; otherwise one error message per matching event, in list order |
| TestEvents.UnexpectedMessages | test/framework/events.go:75-84 | one message per matching event, in order |
| TestEvents.NoEventIffNoMatch | test/framework/events.go:75-84 | ExpectNoEvent reports nothing exactly when no listed event matches |
| TestAssertions.Conditions | test/framework/assertions.go:129-132 | conditions are read only when status.conditions is present and is a list |
| TestAssertions.HasCondition | test/framework/assertions.go:128-143 | true iff status.conditions is a list holding a map whose type and status are the given strings; non-map elements are skipped |
| TestAssertions.MissingConditionsNeverMatch | test/framework/assertions.go:129-132 | a missing or non-list status.conditions never has the condition |
| TestAssertions.NonMapsAreSkipped | test/framework/assertions.go:133-137 | a non-map element neither matches nor hides a later match |
| TestAssertions.ExpectCondition | test/framework/assertions.go:34-47 | passes iff some poll got the object without error and it had the condition |
| TestAssertions.ExpectEngineReady | test/framework/assertions.go:50-54 | passes iff some poll saw Ready=True |
| TestAssertions.ExpectEngineDegraded | test/framework/assertions.go:57-61 | passes iff some poll saw Degraded=True |
| TestAssertions.ExpectGatewayProgrammed | test/framework/assertions.go:65-69 | passes iff some poll saw Programmed=True |
| TestAssertions.ExpectGatewayAccepted | test/framework/assertions.go:72-76 | passes iff some poll saw Accepted=True |
| TestAssertions.ExpectWasmPluginExists | test/framework/assertions.go:84-93 | passes iff some Get succeeded |
| TestAssertions.ExpectResourceGone | test/framework/assertions.go:96-107 | passes iff some Get failed, with any error and not only NotFound |
| TestAssertions.ExpectCreateFails | test/framework/assertions.go:115-122 | a nil error never passes, and a passing message is no longer than the error |
| TestAssertions.ExpectCreateFailsEmbedded | test/framework/assertions.go:115-122 | an error whose message embeds msg anywhere passes |
| TestAssertions.ExpectCreateFailsTooLong | test/framework/assertions.go:119-121 | a message longer than the error never passes |
| TestAssertions.ExpectCreateFailsEmptyMessage | test/framework/assertions.go:115-122 | with an empty expected message, every error passes |
| TestFramework.New | test/framework/framework.go:75-118 | a kind cluster when KIND_CLUSTER_NAME is set, otherwise the default kubeconfig under the name "external"; it succeeds iff the config step for that case and both client creations succeed |
| TestFramework.KubeContext | test/framework/framework.go:128-133 | no context for the external cluster, "kind-" followed by the cluster name otherwise |
| TestFramework.KubectlArgs | test/framework/framework.go:141-151 | --context comes first when there is a context, then -n with a non-empty namespace, then the caller's arguments unchanged |
| TestFramework.Kubectl | test/framework/framework.go:137-139 | the command runs kubectl and ends with the caller's arguments |
| TestFramework.ExternalClusterHasNoContext | test/framework/framework.go:91-99 | against the default kubeconfig, kubectl gets no --context flag |
| TestFramework.KindClusterContext | test/framework/framework.go:81-90 | against a kind cluster, kubectl gets --context kind- followed by the cluster name |
| TestFramework.PortAfter | test/framework/framework.go:53 | the counter after k allocations stays in uint32 range and is 29000+k until it wraps |
| TestFramework.PortAfterNext | test/framework/framework.go:122 | each allocation moves the counter one step, wrapping at 2^32 |
| TestFramework.PortCounter.constructor | test/framework/framework.go:53 | the counter starts at 29000 |
| TestFramework.PortCounter.AllocatePort | test/framework/framework.go:121-124 | returns the value before the increment, in decimal, and advances the counter with uint32 wrap-around |
| TestFramework.AllocatePorts | test/framework/framework.go:121-124 | the i-th port handed out by a fresh counter is 29000+i (mod 2^32), in decimal |
| TestFramework.FirstAllocatedPort | test/framework/framework.go:51-53 | the first port handed out is "29000" |
| TestFramework.AllocatedPortsDistinct | test/framework/framework.go:120-124 | until the counter wraps, no port is handed out twice |
| TestResources.DefaultWasmImage | test/framework/resources.go:91-98 | CORAZA_WASM_IMAGE when set, otherwise the pinned fallback image; never empty |
| TestResources.SimpleBlockRuleId | test/framework/resources.go:100-107 | the rule carries its id: the CRS generator's id extraction reads back exactly the decimal id when the target has no colon |
| TestResources.SimpleBlockRuleIsDirective | test/framework/resources.go:100-107 | the generated rule is a single-line SecRule directive |
| TestResources.BuildGatewayShape | test/framework/resources.go:114-146 | the Gateway is an istio-class gateway in the given namespace and name, ClusterIP-annotated, with one http listener on port 80 |
| TestResources.RuleRefs | test/framework/resources.go:152-157 | one rule reference per ConfigMap name, the i-th being {"name": names[i]} |
| TestResources.BuildRuleList | test/framework/resources.go:152-157 | the loop builds RuleRefs: one {name} reference per ConfigMap name, in order |
| TestResources.BuildRuleSet | test/framework/resources.go:151-172 | the object equals RuleSetObject, whose spec.rules names the ConfigMaps in order |
| TestResources.RuleSetRulesInOrder | test/framework/resources.go:151-172 | spec.rules names exactly the ConfigMaps, in the given order |
| TestResources.WorkloadLabels | test/framework/resources.go:186-194 | explicit workload labels win; otherwise the gateway-name label when a gateway is named; otherwise app=gateway |
| TestResources.WithDefaults | test/framework/resources.go:176-184 | an empty image, failure policy or poll interval is replaced by its default (the image default, "fail", 5); every other option is kept |
| TestResources.CopyLabels | test/framework/resources.go:196-200 | the copy holds exactly the labels, as strings |
| TestResources.BuildEngine | test/framework/resources.go:175-234 | the object equals EngineObject, whose fields EngineFields states |
| TestResources.EngineFields | test/framework/resources.go:202-233 | the Engine carries the defaulted image, gateway mode, the workload labels, the defaulted poll interval, the defaulted failure policy and the RuleSet reference |
| TestResources.ExplicitOptionsKept | test/framework/resources.go:176-184 | options that are all given are left as they are |
| TestResources.WithDefaultsIdempotent | test/framework/resources.go:176-184 | defaulting twice is defaulting once |
| TestResources.CreateConfigMap | test/framework/resources.go:241-266 | the ConfigMap with the rules is created; a failure fails the test and registers nothing; a success pushes its deletion as a cleanup |
| TestResources.CreateGateway | test/framework/resources.go:269-288 | the built Gateway is created; a failure fails the test; a success pushes its deletion as a cleanup |
| TestResources.TryCreateRuleSet | test/framework/resources.go:310-316 | the built RuleSet is created and the error is returned, with no cleanup and no failure |
| TestResources.CreateRuleSet | test/framework/resources.go:292-306 | as TryCreateRuleSet, and then a failure fails the test while a success pushes its deletion as a cleanup |
| TestResources.TryCreateEngine | test/framework/resources.go:338-344 | the built Engine is created and the error is returned, with no cleanup and no failure |
| TestResources.CreateEngine | test/framework/resources.go:320-334 | as TryCreateEngine, and then a failure fails the test while a success pushes its deletion as a cleanup |
| TestResources.SetSpecRules | test/framework/resources.go:363 | SetNestedSlice fails iff spec exists and is not a map; otherwise spec.rules is the new list and every other top-level key is kept |
| TestResources.UpdateRuleSet | test/framework/resources.go:352-370 | the Get is always sent; a failed Get or set then fails the test without an update; otherwise the object with the new spec.rules is sent, and a failed update fails the test |
| TestResources.UpdateConfigMap | test/framework/resources.go:374-386 | the Get is always sent; a failed Get then fails the test without an update; otherwise the ConfigMap with data replaced by the rules alone is sent, and a failed update fails the test |
| TestRecorder.NoopRecorder.WithLogger | test/utils/logger.go:51-53 | the no-op recorder returns itself |
| TestRecorder.FakeRecorder.constructor | test/utils/logger.go:74-76 | a fake recorder starts with no events |
| TestRecorder.FakeRecorder.Eventf | test/utils/logger.go:79-86 | exactly one event is appended, with the note formatted with the arguments |
| TestRecorder.FakeRecorder.WithLogger | test/utils/logger.go:89-91 | the fake recorder returns itself |
| TestRecorder.FakeRecorder.HasEvent | test/utils/logger.go:94-101 | true iff some recorded event has both the type and the reason |
| TestRecorder.RecordedPersists | test/utils/logger.go:79-101 | once recorded, an event stays visible whatever is recorded after it |
| TestRecorder.RecordedAfterEventf | test/utils/logger.go:79-101 | an event just recorded is found by its type and reason |
| TestRecorder.NotRecordedIfAbsent | test/utils/logger.go:94-101 | HasEvent is false when no event has that type and reason |
| TestBuilders.NewTestRuleSet | test/utils/resource_builders.go:40-70 | each empty option takes its default (name, namespace, instance, one default rules reference); given options are used as they are; there are no conditions |
| TestBuilders.RuleSetOptionsRoundTrip | test/utils/resource_builders.go:40-70 | options that are all given are read back from the built RuleSet unchanged |
| TestBuilders.NewTestRuleSetIdempotent | test/utils/resource_builders.go:40-70 | rebuilding from a built RuleSet's own options gives the same RuleSet |
| TestBuilders.NewTestConfigMap | test/utils/resource_builders.go:73-83 | the ConfigMap has the name, the namespace, and the rules as its only data key |
| TestBuilders.OrDefault | test/utils/resource_builders.go:105-134 | an empty option takes its default, a given one is kept |
| TestBuilders.EngineDefaults | test/utils/resource_builders.go:105-134 | every empty Engine option takes its default: name, namespace, instance, Istio driver in Wasm mode, image, poll interval, workload labels, gateway mode and the fail policy |
| TestBuilders.EngineDefaultsFixpoint | test/utils/resource_builders.go:105-134 | defaulting yields complete options, and complete options are left unchanged |
| TestBuilders.EngineOptionsOf | test/utils/resource_builders.go:136-161 | options can be read back exactly from an Engine whose driver fields are all set |
| TestBuilders.NewTestEngine | test/utils/resource_builders.go:104-162 | the built Engine carries exactly the defaulted options |
| TestBuilders.EngineOptionsKept | test/utils/resource_builders.go:104-162 | complete options are read back from the built Engine unchanged |
| TestBuilders.EngineFieldsPlaced | test/utils/resource_builders.go:136-161 | the given instance, image and poll interval land in their spec fields; no labels gives the default selector; no policy gives "fail" |
| TestBuilders.NewTestEngineIdempotent | test/utils/resource_builders.go:104-162 | rebuilding from a built Engine's own options gives the same Engine |
| Strings.Utf8LenBounds | internal/rulesets/cache/cache.go:117-122 | the byte size Go's len gives a string lies between its length in characters and four times that, and equals that length exactly for ASCII text |
| Strings.Utf8LenAppend | internal/rulesets/cache/cache.go:117-122 | the byte size of concatenated strings is the sum of their sizes, so sizes add up over entries |
| Strings.JoinSplit | hack/generate_coreruleset_configmaps.py:134-163 | Python's split on a separator followed by a join on that separator gives back the original text |
| Strings.SplitJoin | hack/generate_coreruleset_configmaps.py:134-163 | splitting a join of separator-free parts gives back exactly those parts |
| Strings.SplitPartsHaveNoSeparator | hack/generate_coreruleset_configmaps.py:134 | no piece of a split contains the separator |
| Strings.RStrip | hack/generate_coreruleset_configmaps.py:140 | rstrip removes exactly the trailing whitespace: the result is a prefix, ends in a non-space, and everything dropped is whitespace |
| Strings.StripIsSlice | hack/generate_coreruleset_configmaps.py:195 | strip returns a slice of its input with only whitespace dropped at either end, and the result neither starts nor ends with whitespace |
| Strings.StripEmptyIffBlank | hack/generate_coreruleset_configmaps.py:275 | strip returns the empty string exactly when the input is all whitespace |
| Strings.NatToStringValue | test/framework/framework.go:123 | the decimal rendering Go's %d gives a number reads back as that number |
| Strings.NatToStringInjective | test/framework/framework.go:123 | distinct numbers have distinct decimal renderings |
| Strings.IntToString | tools/cmd/github_issue_manager/github.go:94 | %d renders digits, with a leading minus sign for negatives |

## Left out

- Concurrency: the cache's RWMutex, the server's `Start`/`ListenAndServe`/`Shutdown` goroutines and the ticker's select loop; a GC tick is one sequential call, and `AllocatePort`'s atomic counter is a plain counter.
- Wall-clock time, UUIDs and random bytes are parameters (`now`, a fresh UUID, the random namespace suffix); `Put` requires the fresh UUID not to be in use already for that instance, as `uuid.New` makes it.
- Go's `Time.Sub` saturation is not modelled: timestamps are unbounded integers.
- Go map iteration order is a parameter where the resulting state depends on it (`PruneBySize`). Elsewhere an arbitrary key is picked at each step, and the contract holds for every order: `Validate` gives the messages grouped per operator name in some visiting order of the map, and as a multiset one per occurrence.
- The cache holds its versions as values, so sharing of one `*RuleSetEntry` between the cache and its callers is not captured.
- RFC 3339 timestamp rendering (section 5.6 of RFC 3339) and JSON encoding of the server's responses are not modelled; a response body is a datatype.
- `http.ServeMux` path cleaning and redirects are not modelled; routing works on the path as given.
- Logging output (the logr calls in the handlers and the controllers, `t.Logf`, the issue manager's `log`, stderr printing) is left out. `LogInfo`, `LogDebug` and `LogError` are kept only as the argument lists they build.
- The ANTLR SecLang lexer and parser are abstracted as the syntax errors they report and the operator names the tree walk visits.
- controller-runtime's client is a map-backed store. Server-side apply and the status patches are actions in a trace, each with an optional injected error. `SetControllerReference` is modelled only as a step that can fail; the owner reference it writes into the applied WasmPlugin is not modelled.
- The `setStatus*` helpers are not part of this model: a status write is an action that names its condition and reason, and the condition list they edit is not modelled.
- `SetupWithManager`, the manager wiring and CRD marker enforcement by the API server are left out; the markers are stated as predicates only.
- The GitHub client's HTTP requests and JSON decoding: a call is a trace entry, and its error is an injected fault.
- Flag and environment parsing in the issue manager is abstracted to the flag values and environment variables it reads.
- `fmt.Sprintf` in `FakeRecorder.Eventf` is a parameter of the method.
- Go's `%q` is approximated by escaping only `"`, `\`, newline, tab and carriage return.
- Python's `re` patterns are restated as character predicates with ASCII `\d`, `\w` and `\b`. `str.lower` is ASCII lower-casing. `splitlines` splits at every Python line boundary (`\n`, `\r`, `\r\n` as one, `\v`, `\f`, `\x1c`-`\x1e`, `\x85`, `\u2028`, `\u2029`) and drops a trailing empty line. `str.strip` and `str.rstrip` use Python's full `isspace` set.
- File reading, globbing, argument parsing, `sys.exit` and the output printing of the CRS generator are left out; its functions take the file contents as strings.
- In `ftw/run.py`: kubectl subprocesses, `urllib` requests, `find_free_port` sockets, temporary files, YAML reading and writing, the log-streaming thread and its float deadline loop, and the process signalling itself. These are parameters or trace events; stopping the port-forward is a `Terminated` event, followed by `Killed` when the process outlives the 5 s wait.
- The e2e framework's namespace dump on failure, artifact writing, pod logs, `Step` logging and the port-forward in `traffic.go` are not modelled. `GetEvents` is folded into the listing result that `ExpectNoEvent` takes.
- In `github.go`, the URL builders, the HTTP transport and JSON encoding and decoding are not modelled: each request method is a call recorded in a trace. `hack/ocp_cluster.py`, `hack/kind_cluster.py`, `ftw/ftw.go` and `internal/controller/manager.go` are not part of this model; they are I/O or wiring.
- TestScenario.RunOrder: its own contract states only the length; the back-to-front order is stated by `RunOrderReverses` and `RunOrderCons`.
- TestScenario.Actions: its own contract states only the length; the order of the effects is stated by `ActionsInOrder`.
- Triage.Filtered: its own contract states only the length bound; membership is stated by `FilteredMembers`.
- SecLangValidator.Unsupported: its own contract states only the length bound; which occurrences it keeps is stated by the lemmas about `Messages` and `Validate`.
- Triage.NoMilestoneDropsNeedsTriage: proved only for labels without duplicates. With a duplicated `triage/needs-triage` and no other triage label, the source also removes it, because it counts the filtered list's length.
