# Control One agent and content packs: a verified model

This project models, in Dafny, six parts of the repository and proves what they guarantee.

1. Network-policy enforcement in the node agent: the plan of a policy, the presence check against a
   firewall listing, and the state machine over the remembered policy, its saved copy, the firewall and
   the last receipt, with failures at every point.
   Files: `NetworkPlan`, `NetworkPresence`, `NetworkMachine`, `NetworkApplier`, `NetworkSafety`, `NetworkConvergence`,
   `NetworkOrder`, `NetworkLimits`, `NetworkTrust`, `NetworkExamples`.
2. The content-pack registry and the manifest validator: acceptance, resolution, version comparison,
   the lifecycle of packs, and snapshots.
   Files: `Manifest`, `ManifestValidator`, `ManifestResolution`, `ManifestGuarantees`, `Semver`, `Registry`,
   `RegistryLaws`, `RegistryAnswers`.
3. The compiler from content-pack sources to an OpenTelemetry collector configuration.
   Files: `OtelModel`, `OtelCompiler`, `OtelProperties`, `OtelClosure`, `OtelNames`, `OtelAttributes`, `OtelRequests`,
   `OtelReceivers`; `TrimmedMaps`, which field maps share.
4. The autoblock pipeline and the collector runtime: a rate limiter and a lock-and-goroutine protocol, as
   interleaved atomic steps.
   Files: `Autoblock`, `AutoblockAnswers`; `CollectorRuntime`, `CollectorProgress`.
5. The event field store and the CEF, LEEF and Windows normalisers, with the parser's stage loop.
   Files: `FieldStore`, `Normalizers`, `Carriers`, `CarrierFields`, `WindowsMeanings`, `ParserStages`, `FieldMap`,
   `FieldMapRuns`, `FieldMapClash`, `FieldMapOrder`.
6. Tokenisers, the metric-label parser and the metrics report.
   Files: `Tokenizers`, `TokenQuotes`, `MetricLabels`, `MetricsReport`, `MetricNames`.

`Examples` holds concrete inputs on which an expected guarantee fails, and inputs that meet the conditions of
the general results. `Text`, `Sorting` and `Wrappers` hold the string, sorting and result types the others share.

Code that changes state is modelled by classes and methods with loops; each method is proved equal to a
function of its inputs and the old state, and the results about whole runs are lemmas about those functions.
What the code cannot decide for itself is a parameter: the answers of the host firewall and the file system,
clock readings, the hash of a policy's payload, signature verification, CIDR containment, how values that are
not text print, and the receiver section of a syslog source.

## What the proofs showed about the code

- Ids that differ in letter case alone are treated as one policy when deciding whether to roll back, but as
  two in tags and comments, so a policy sent again with its id respelled can leak rules
  (`NetworkLimits.LeakFreeIff` gives the exact condition).
- Two ids that share their 16-character tag can end with the new policy reported applied and no rule left
  (exact condition in `NetworkLimits.OtherPolicyInstalledIff`, run in `NetworkExamples.SharedTagRun`). Results
  that need it assume ids with distinct tags.
- A failed save followed by a restart leaves rules without an owner, and so does a blank state directory, where
  a save reports success (`NetworkLimits.RestartSafeIff`, which also names the rules that survive). Restarts in runs
  therefore follow successful saves.
- A rollback cut short and followed by the same plan changes the order of the rules, so a listed peer can be
  blocked while the receipt says applied (exact condition in `NetworkOrder.InstalledPolicyAdmits`, run in
  `NetworkExamples.InterruptedRun`).
- Pipelines of syslog and netflow sources end with `batch/controlone.network`, not `batch`, when a network
  endpoint is set (`OtelClosure.PipelineStages`).
- Redaction does not hide a value stored under a top-level key that spells a dotted path
  (`FieldStore.RedactionIff`).
- The CEF version is not unescaped, unlike the other header fields (`Tokenizers.HeaderRoundTrip`).
- Padded detection and sample references are accepted by the validator but dropped on resolution
  (`ManifestResolution.DetectionResolvedIff`, `ManifestResolution.SampleResolvedIff`).
- Version numbers of 2^63-1 and above compare equal (`Semver.NumbersAgreeIff`), and a dash inside build metadata
  reads as a prerelease (`Semver.PrereleaseAgreesIff`, input in `Examples.DashedBuild`).
- A cooldown above 9223372036 seconds is cut short (`Autoblock.CooldownKeptIff`).
- Marking a running collector disabled leaves its goroutine with nothing to cancel it until the runtime's own
  context ends (`CollectorRuntime.OrphansIff`, run in `CollectorRuntime.OrphanRun`).
- A quarantined pack can be enabled again: deprecating it takes it out of quarantine, and disabling it out of
  deprecation (`RegistryAnswers.QuarantineEscapes`; `RegistryAnswers.QuarantineStandsIff` shows no other operation does).
- The capacity of the collector's queue counts as queue depth, so a collector that states it reports
  back-pressure even when its queue is empty (`MetricNames.CapacityPresses`).
- A value that is no object under `event`, `source`, `destination`, `network`, `user`, `host` or `process` is lost to
  a normaliser that writes below it (exact condition in `Carriers.RootValueKeptIff`, inputs in `Examples.UserLost`
  and `Examples.EventLost`).
- The outcome of a field map can depend on map order, for its copies (`FieldMapOrder.FieldMapOrderIff`, input in
  `FieldMap.FieldMapOrderMatters`), for its constants (`FieldMapOrder.SettingsOrderIff`), and for keys that trim
  alike (`TrimmedMaps.TrimOrderIff`).
- So can a collector plan, when two keys of its attribute map trim alike (`OtelAttributes.AttributesOrderIff`).

## Model

| member | source | states |
|---|---|---|
| NetworkPlan.PlanDecidesPackets | cmd/nodeagent/network_policy.go:588-618 | In a direction whose default is to block, first match over the planned rules allows a peer exactly when a CIDR of the effective allowlist covers it, and blocks it otherwise; a direction that does not block by default is left undecided. |
| NetworkPlan.PolicyDecidesPackets | cmd/nodeagent/network_policy.go:588-618 | The same in the policy's own words: a direction is decided where its default action spells block in any letter case, and the peers let through are those of the enforcement intent, or else of the policy. |
| NetworkPlan.ListOrderIrrelevant | cmd/nodeagent/network_policy.go:500-537 | Permuting the lists of a policy changes neither its desired-state id nor the multiset of its planned rules. |
| NetworkPlan.SamePayloadSamePlan | cmd/nodeagent/network_policy.go:588-618 | Policies that agree on id and hashed payload plan the same multiset of rules and the same rule set. |
| NetworkPlan.PlannedRuleShape | cmd/nodeagent/network_policy.go:588-618 | Every planned rule carries the tag of its policy and the comment that names the policy's id and its own fingerprint. |
| NetworkPresence.PlannedRulesPresent | cmd/nodeagent/network_policy.go:620-655 | The counting scan, with its per-identity budget, returns the drift list of the specification, and ok exactly when that list is empty. |
| NetworkPresence.DriftIsExact | cmd/nodeagent/network_policy.go:620-655 | The check accepts exactly when, for every planned identity, the planned count is at most the existing count or the fingerprint occurs in the listing's comments and tags; the drift names precisely the fingerprints that fail. |
| NetworkPresence.RejectedIffAbsent | cmd/nodeagent/network_policy.go:620-655 | The scan rejects some planned rule of an identity exactly when rules of that identity are not present. |
| NetworkPresence.FullListingPasses | cmd/nodeagent/network_policy.go:620-655 | A listing that holds every planned rule passes, whatever else it holds. |
| NetworkPresence.PassingListingIsFull | cmd/nodeagent/network_policy.go:657-678 | When fingerprints tell the planned rules apart, a listing drawn from the plan that passes holds every planned rule. |
| NetworkApplier.Firewall.Remove | cmd/nodeagent/network_policy.go:450-469 | The assumed firewall contract for removal: it succeeds and the rule is gone, or the rules are unchanged; removing an absent rule changes nothing. |
| NetworkApplier.Firewall.Apply | cmd/nodeagent/network_policy.go:436-448 | The assumed firewall contract for adding: it succeeds and the rule is appended unless present, or the rules are unchanged. |
| NetworkApplier.Applier.ApplyRules | cmd/nodeagent/network_policy.go:436-448 | Applies a prefix of the plan, stops at the first failure, and reports how many rules went in. |
| NetworkApplier.Applier.RollbackRules | cmd/nodeagent/network_policy.go:450-469 | Removes a prefix of the previous plan, stops at the first failure, and reports how many rules went out and whether that was all of them. |
| NetworkApplier.Applier.Build | cmd/nodeagent/network_policy.go:305-355 | Receipt and firewall of one evaluation equal the specification, for every answer the host may give. |
| NetworkApplier.Applier.BuildForActive | cmd/nodeagent/network_policy.go:357-425 | The active branch: listing, drift, rollback of another policy, and the early outcomes. |
| NetworkApplier.Applier.ApplyAndVerify | cmd/nodeagent/network_policy.go:401-434 | Applies the plan and verifies it against a second listing; a partial application or a failed verification is reported failed. |
| NetworkApplier.Applier.Save | cmd/nodeagent/network_policy.go:287-303 | Writes the state file or leaves it; without a state directory it writes nothing and reports success. |
| NetworkApplier.Applier.Call | cmd/nodeagent/network_policy.go:183-248 | One call moves the applier's variables, the state file and the firewall as the evaluation function says, including throttling and the persistence failure. |
| NetworkSafety.StepSafe | cmd/nodeagent/network_policy.go:183-252 | One step with any faults keeps every network-policy rule within the plan of the remembered policy, provided the new policy rolls the old one back first or plans every network-policy rule in the firewall. |
| NetworkSafety.RollbackSafe | cmd/nodeagent/network_policy.go:450-469 | A rollback, complete or cut short, leaves only rules of the policy rolled back, and none of them when it completes. |
| NetworkSafety.RestartRestores | cmd/nodeagent/network_policy.go:254-285 | A restart after a successful save restores the same remembered policy and touches no rule. |
| NetworkSafety.NextKeepsInv | cmd/nodeagent/network_policy.go:160-248 | Every permitted event, a call with arbitrary faults or a restart after a successful save, keeps the invariant. |
| NetworkSafety.NoPolicyLeaksOverRuns | cmd/nodeagent/network_policy.go:183-248 | In every reachable world every network-policy rule in the firewall belongs to the plan of the remembered policy, and there is none when nothing is remembered. |
| NetworkConvergence.EnforcingStepInstalls | cmd/nodeagent/network_policy.go:305-425 | From any reachable world, one fault-free unthrottled step with a trusted active policy makes the network-policy rules exactly its plan, leaves its missing rules appended to what the step found, reports applied, and remembers and saves it. |
| NetworkConvergence.EnforcingStepOutcome | cmd/nodeagent/network_policy.go:369-425 | A fault-free enforcing step always reports applied; its plan enters the firewall unless the listing already passes the check. |
| NetworkConvergence.EnforcingStepClears | cmd/nodeagent/network_policy.go:183-248 | From any reachable world, one fault-free step with a trusted inactive policy leaves no network-policy rule and nothing remembered, and clears the state file when there was a policy to forget. |
| NetworkConvergence.UntrustedOrDryRunChangesNothing | cmd/nodeagent/network_policy.go:305-353 | An untrusted policy, and any policy while enforcement is off, changes neither the firewall nor the remembered policy nor the state file. |
| NetworkTrust.FailedCheckRefuses | cmd/nodeagent/network_policy.go:315-321 | One failed check of six (digest, signature present, algorithm, key loaded, key ids, signature verifies) is enough: an active policy is reported failed with policy_signature missing, and rules, remembered policy and state file stay. |
| NetworkTrust.ReceiptVouchesIff | cmd/nodeagent/network_policy.go:471-498 | A receipt says the signature is valid exactly when all six checks pass. |
| NetworkTrust.FailedCheckKeepsForce | cmd/nodeagent/network_policy.go:326-353 | An inactive policy that fails a check does not undo the policy in force. |
| NetworkTrust.RestartLoadsIff | cmd/nodeagent/network_policy.go:254-285 | A restart remembers a saved policy exactly when enforcement is on, there is a state directory, and the policy has an id, is active and passes all six checks. |
| NetworkTrust.SamePayloadSamePolicy | cmd/nodeagent/network_policy.go:500-537 | Equal payloads mean equal policies, up to id, signature, the order of lists, and an absent against an empty expiry. |
| NetworkTrust.RepeatSuppressedIff | cmd/nodeagent/network_policy.go:197-212 | A second call is suppressed exactly when its id is the same, the first receipt was not a failure, and less than the interval has passed; it then changes nothing. |
| NetworkTrust.DryRunReports | cmd/nodeagent/network_policy.go:357-383 | With enforcement off a trusted active policy is reported unsupported, drifted or planned, by the host, the plan and the rules missing from the listing. |
| NetworkConvergence.RulesOfOthersUntouched | cmd/nodeagent/network_policy.go:436-469 | No call, whatever fails, adds, removes or reorders a rule that is not a network-policy rule. |
| NetworkOrder.InstalledPlanDecidesIff | cmd/nodeagent/network_policy.go:401-424 | After an applying fault-free step from any reachable world, the rules in the firewall decide a packet as the plan does exactly when the rules the step found are silent or agree. |
| NetworkOrder.InstalledPolicyAdmits | cmd/nodeagent/network_policy.go:401-424 | In a default-block direction the firewall then admits exactly the listed peers, except those that the rules the step found already block; an unlisted peer is never admitted. |
| NetworkOrder.FreshInstallDecidesPackets | cmd/nodeagent/network_policy.go:384-424 | Installed over no policy or another one, the network-policy rules the step leaves, tried in order, admit a peer in a default-block direction exactly when it is on the effective allowlist. |
| NetworkOrder.InterruptedRollbackRotatesPlan | cmd/nodeagent/network_policy.go:386-425 | A policy is in force, a rollback of it for another stops after k rules, and it is sent again without faults: the receipt says applied and the k removed rules stand last. |
| NetworkOrder.RotatedPlanDecides | cmd/nodeagent/network_policy.go:588-618 | A plan that blocks inbound only, so rotated, admits a peer exactly when a CIDR that was not rotated covers it. |
| NetworkLimits.LeakFreeIff | cmd/nodeagent/network_policy.go:384-425 | In any world without a leak, when a trusted policy meets another one in force, no host behaviour can leak a rule exactly if the ids differ by more than letter case or every network-policy rule in the firewall is one of the new plan. |
| NetworkLimits.FullPlanLeakFreeIff | cmd/nodeagent/network_policy.go:384-425 | Where the old plan is there in full: exactly if the ids differ by more than letter case or the new plan keeps every old rule. |
| NetworkLimits.RespelledIdSharesNoRule | cmd/nodeagent/network_policy.go:588-618 | Two spellings of one id never share a rule. |
| NetworkLimits.RespelledIdLeaks | cmd/nodeagent/network_policy.go:384-425 | When a policy is sent again under another letter case of its id, some host behaviour leaks rules exactly if the firewall holds a network-policy rule. |
| NetworkLimits.RespelledIdExample | cmd/nodeagent/network_policy.go:384-425 | A concrete policy, world and host for which that happens. |
| NetworkLimits.RestartSafeIff | cmd/nodeagent/network_policy.go:217-235 | From any world whose state file is up to date, after a step that remembers a policy and strands no rule, a restart keeps the firewall within the remembered policy exactly when the file could be written or the rules put in are all of the policy remembered before. |
| NetworkLimits.FirstRestartSafeIff | cmd/nodeagent/network_policy.go:217-235 | After a first step that put rules into the firewall: exactly when there is a state directory and it could be written. |
| NetworkLimits.OtherPolicyInstalledIff | cmd/nodeagent/network_policy.go:369-424 | A fault-free step while another id is in force reports applied in any case; it installs exactly the plan if and only if the listing does not pass the check already, and when it passes, the ids share a tag and no network-policy rule is left. |
| NetworkLimits.SharedTagPasses | cmd/nodeagent/network_policy.go:620-689 | The rules of one policy pass the check for another of the same shape whose id shares the tag. |
| NetworkExamples.SharedTagRun | cmd/nodeagent/network_policy.go:369-400 | Two policies that differ in their reason, with ids that share the tag and faithful listings: the second is reported applied and no rule is left. |
| NetworkExamples.InterruptedRun | cmd/nodeagent/network_policy.go:384-425 | Three calls, the second with a rollback refused half-way: the last is reported applied and a listed peer is blocked. |
| NetworkExamples.RunIsPermitted | cmd/nodeagent/network_policy.go:183-248 | Those calls make a run the general results speak of, from a host without rules. |
| NetworkExamples.ForgedRefused | cmd/nodeagent/network_policy.go:494-496 | A policy that passes every check but the signature's is refused, and nothing changes. |
| NetworkExamples.TamperedRefused | cmd/nodeagent/network_policy.go:472-474 | A signed policy whose content was changed under its id is refused, and nothing changes. |
| CollectorRuntime.Runtime.Register | cmd/nodeagent/collector_runtime.go:38-45 | Replaces the handle of a name that has none, and keeps one that exists, as the transition function says. |
| CollectorRuntime.Runtime.MarkDisabled | cmd/nodeagent/collector_runtime.go:47-51 | Overwrites the handle of the name with a disabled one, whatever was there. |
| CollectorRuntime.Runtime.Start | cmd/nodeagent/collector_runtime.go:61-93 | Starts a goroutine with a fresh context, ended from the outset once the runtime's own has, and the next generation, unless the collector cannot run or runs already. |
| CollectorRuntime.Runtime.Shutdown | cmd/nodeagent/collector_runtime.go:69-70 | The end of the runtime's own context ends every context derived from it. |
| CollectorRuntime.Runtime.StopBegin | cmd/nodeagent/collector_runtime.go:95-116 | The locked half of Stop: marks the handle, takes its cancel function out and advances the generation. |
| CollectorRuntime.Runtime.StopCancel | cmd/nodeagent/collector_runtime.go:112-115 | The unlocked half of Stop: cancels the context it took. |
| CollectorRuntime.Runtime.Exit | cmd/nodeagent/collector_runtime.go:79-92 | The exit section of a goroutine changes its handle only when name and generation still match. |
| CollectorRuntime.NextKeepsInv | cmd/nodeagent/collector_runtime.go:38-116 | Every atomic action keeps the protocol invariant on handles, generations and contexts. |
| CollectorRuntime.RunningIffGoroutineLives | cmd/nodeagent/collector_runtime.go:61-116 | After any interleaving, a collector's state is running exactly when the goroutine of its present generation has not run its exit section, and no Stop has cancelled, or has yet to cancel, that goroutine. |
| CollectorRuntime.StaleExitTouchesNoHandle | cmd/nodeagent/collector_runtime.go:79-92 | However long it takes to return, a stopped or replaced goroutine leaves every handle as it finds it. |
| CollectorRuntime.OrphansIff | cmd/nodeagent/collector_runtime.go:47-51 | One action keeps every older goroutine cancelled or owed a cancel exactly when it does not mark a running collector disabled while the runtime's own context has not ended. |
| CollectorRuntime.LooseUntilShutdown | cmd/nodeagent/collector_runtime.go:47-116 | A context that no handle knows of is ended by one action alone, the end of the runtime's own. |
| CollectorRuntime.OrphanRun | cmd/nodeagent/collector_runtime.go:38-93 | A collector registered, started and marked disabled: whatever follows short of the runtime's end, its goroutine is never cancelled. |
| CollectorRuntime.AtMostOneUncancelled | cmd/nodeagent/collector_runtime.go:61-116 | With no Stop in flight a collector has at most one uncancelled goroutine, and has one exactly when its state is running and the runtime's own context has not ended. |
| CollectorProgress.RunnableIff | cmd/nodeagent/collector_runtime.go:38-51 | After any run a collector can be started exactly when some action registered it and none marked it disabled. |
| CollectorProgress.StartStarts | cmd/nodeagent/collector_runtime.go:61-93 | After any run and a Start, the collector is running exactly when it was registered and never marked disabled; if it was not running before, it has a fresh goroutine of a generation above every earlier one, not owed a cancel, and ended only if the runtime has. |
| CollectorProgress.StopStops | cmd/nodeagent/collector_runtime.go:95-116 | After any run and the locked half of a Stop, the collector is not running, and exactly the goroutine that was current is newly owed a cancel. |
| CollectorProgress.StopThenStart | cmd/nodeagent/collector_runtime.go:61-116 | A Stop and then a Start launch a new goroutine, whatever came before. |
| CollectorProgress.ExitStops | cmd/nodeagent/collector_runtime.go:79-92 | A goroutine that returned is gone after its exit section; it stops its collector exactly when it is the current one. |
| Autoblock.Pipeline.CanBlockNow | internal/autoblock/autoblock.go:229-239 | The in-place filter keeps exactly the times after the cutoff, in order, and answers whether the cap leaves room. |
| Autoblock.Pipeline.DecideLocked | internal/autoblock/autoblock.go:146-163 | The critical section of a decision equals the decision function on cooldown map and window. |
| Autoblock.Pipeline.Record | internal/autoblock/autoblock.go:203-210 | Appends to the audit log and keeps the last 1000 entries. |
| Autoblock.Pipeline.Process | internal/autoblock/autoblock.go:118-192 | The whole decision of one candidate, by target, allowlist, score, cooldown, cap and the outcome of the block, recorded once. |
| Autoblock.CooldownExactIff | internal/autoblock/autoblock.go:146-163 | The cooldown in force is the configured one exactly up to 9223372036 seconds; above that the 64-bit product makes it shorter. |
| Autoblock.CooldownKeptIff | internal/autoblock/autoblock.go:146-163 | Every run with a monotone clock keeps admissions of one target as far apart as configured exactly when the cooldown is at most 9223372036 seconds. |
| Autoblock.AuditIsLastRecords | internal/autoblock/autoblock.go:203-210 | After any run the audit log is the end of all decisions recorded, 1000 of them or all. |
| Autoblock.RunsRespectLimits | internal/autoblock/autoblock.go:146-163 | Over any run with a monotone clock at most the hourly cap of admissions falls in any one-hour window, and two admissions of one target are at least the cooldown apart. |
| Autoblock.SpacedBoundsWindow | internal/autoblock/autoblock.go:229-239 | Admissions spaced an hour per cap bound every one-hour window, wherever it starts. |
| AutoblockAnswers.DecisionIs | internal/autoblock/autoblock.go:146-163 | After any run with a monotone clock: suppressed exactly when an admission of the target was stamped less than the cooldown ago, else rate-limited exactly when the cap of admissions fall in the last hour, else admitted. Refusals leave no trace. |
| AutoblockAnswers.RunKeepsStamps | internal/autoblock/autoblock.go:146-163 | After any run with a monotone clock the cooldown map holds the stamp of each target's last admission, and nothing else. |
| OtelModel.MakeComponentName | internal/contentpacks/otel_collector.go:1318-1341 | The renaming loop computes the component name function. |
| OtelNames.ComponentNameStable | internal/contentpacks/otel_collector.go:1318-1341 | Every component name is well formed (name characters only, not empty, no edge character at an end), and a well-formed id is its own name. |
| OtelModel.BuildFileLog | internal/contentpacks/otel_collector.go:373-404 | Editing the file-log receiver's configuration in place gives the receiver of the specification, or the error when no path is given. |
| OtelModel.BuildWindowsEvents | internal/contentpacks/otel_collector.go:889-927 | One receiver per channel, named by channel when there are several, or the error when there is none. |
| OtelCompiler.BuildCollectorConfig | internal/contentpacks/otel_collector.go:124-271 | The compiler's loop over the sorted sources returns the plan, or the error, of the specification. |
| OtelCompiler.Compiler.PlugReceivers | internal/contentpacks/otel_collector.go:195-213 | Enters the receivers of one source in place and stops at the first id already taken. |
| OtelCompiler.Compiler.PlugProcessors | internal/contentpacks/otel_collector.go:215-226 | Enters the source processor and, for collect_parsed, the redaction processor. |
| OtelCompiler.Compiler.Wire | internal/contentpacks/otel_collector.go:232-250 | Builds the processor chain by appending and, for network sources, overwriting its last element. |
| OtelCompiler.Compiler.Plug | internal/contentpacks/otel_collector.go:195-267 | Merges one compiled source into the plan's maps in place, or reports the identifier that repeats. |
| OtelProperties.MergeIff | internal/contentpacks/otel_collector.go:195-267 | A source merges into a plan exactly when its name and its receiver ids are fresh, and the merged plan again represents its sources. |
| OtelProperties.BuildSucceedsIff | internal/contentpacks/otel_collector.go:124-271 | Compilation succeeds exactly when there is a source and an endpoint, each source compiles alone, and neither a component name nor a receiver id occurs twice. |
| OtelProperties.TieFails | internal/contentpacks/otel_collector.go:1383-1395 | Unequal sources that tie under the comparison make compilation fail. |
| OtelProperties.OrderIndependent | internal/contentpacks/otel_collector.go:163-271 | For any permutation of the sources both builds fail or both return the same plan. |
| OtelClosure.PlanIsClosed | internal/contentpacks/otel_collector.go:133-266 | Every receiver, processor and exporter a pipeline names and every service extension is defined, and no pipeline is without receivers. |
| OtelClosure.ReceiverFeedsPipeline | internal/contentpacks/otel_collector.go:195-250 | Every receiver of a plan feeds a pipeline. |
| OtelClosure.ReceiverFeedsOnePipeline | internal/contentpacks/otel_collector.go:195-250 | No receiver feeds two pipelines. |
| OtelClosure.SourceIsPlanned | internal/contentpacks/otel_collector.go:168-267 | Every given source has its entry, with its trimmed id, its collect mode and, where approval is needed, a reference that is not empty. |
| OtelClosure.SourcesMapInjectively | internal/contentpacks/otel_collector.go:215-231 | Two entries of a plan never share a pipeline or a source processor. |
| OtelClosure.PipelineHasSource | internal/contentpacks/otel_collector.go:228-267 | A plan has no pipelines but those of its sources. |
| OtelClosure.PipelineStages | internal/contentpacks/otel_collector.go:232-250 | Each pipeline starts with memory_limiter; ends with batch, or with batch/controlone.network exactly when a network endpoint is set and the mode is syslog or netflow; and redacts between source processor and batch exactly for collect_parsed. |
| OtelRequests.RedactedIff | internal/contentpacks/otel_collector.go:1174-1196 | In a compiled plan a request's pipeline holds a redaction exactly when its collect mode reads collect_parsed, up to case and padding; the plan then defines it, right before the batch. |
| OtelRequests.UnknownModeFails | internal/contentpacks/otel_collector.go:1233-1242 | A request whose collect mode is neither blank, collect_raw nor collect_parsed makes the whole build fail. |
| OtelRequests.SensitiveIsApproved | internal/contentpacks/otel_collector.go:174-180 | Every source of a compiled plan that asks for approval, or is of high or critical risk or of high or restricted sensitivity, was approved, and its entry carries the reference. |
| OtelRequests.UnapprovedFails | internal/contentpacks/otel_collector.go:178-180 | Such a source without a reference makes the whole build fail. |
| OtelRequests.RequestMode | internal/contentpacks/otel_collector.go:303-350 | Each request is collected by the mode asked for, else by its first recipe that renders, else by its first mode that does, and with that recipe's configuration. |
| OtelRequests.RequestIsLabelled | internal/contentpacks/otel_collector.go:1198-1231 | Each source's processor carries exactly the attributes that say its source, pack, modes, parsers and approval. |
| OtelRequests.ExportersReach | internal/contentpacks/otel_collector.go:140-161 | Records go to the endpoint given, those of network pipelines to the network endpoint when there is one. |
| OtelReceivers.FileLogReads | internal/contentpacks/otel_collector.go:373-404 | A file-log source reads exactly the paths its recipe lists, trimmed and each once, and fails exactly when all are blank; it starts at the end unless told otherwise. |
| OtelReceivers.WindowsReads | internal/contentpacks/otel_collector.go:889-927 | A Windows source has exactly one receiver for each channel its recipe lists. |
| OtelClosure.ReceiverStorageIsDefined | internal/contentpacks/otel_collector.go:1008-1041 | In a compiled plan every receiver a source contributes is entered under its id, and storage it names and its recipe does not is the plan's storage extension, defined and started. |
| OtelClosure.QueueStorageIsDefined | internal/contentpacks/otel_collector.go:1104-1115 | In a compiled plan the queue of every exporter names storage exactly when there is a storage extension, and names that one, defined and started. |
| TrimmedMaps.TrimEntries | internal/contentpacks/otel_collector.go:1158-1164 | The loop over a raw map enters its non-blank entries, trimmed, one by one in some order of the map. |
| TrimmedMaps.TrimOrderIff | internal/contentpacks/parser.go:466-474 | All orders of a raw map give one trimmed map exactly when no two of its keys trim alike and keep non-blank values that do not: for the mappings of a field map as for the common attributes. |
| OtelAttributes.CommonAttributes | internal/contentpacks/otel_collector.go:1150-1165 | Tenant and collector, when given, and then the further attributes trimmed in some order of their map. |
| OtelAttributes.AttributesShow | internal/contentpacks/otel_collector.go:1166-1172 | The common processor of a compiled plan carries the attributes as they are, whatever the sources. |
| OtelAttributes.AttributesOrderIff | internal/contentpacks/otel_collector.go:1158-1172 | For sources that compile, every order of the attribute map gives one plan exactly when no two of its keys trim alike and keep values that do not. |
| FieldStore.GetField | internal/contentpacks/parser.go:490-511 | The lookup walk equals the path lookup: the flat key first, then the segments. |
| FieldStore.SetField | internal/contentpacks/parser.go:513-533 | The setter's walk, creating objects where there are none, equals the path update. |
| FieldStore.GetAfterSet | internal/contentpacks/parser.go:490-533 | A value just set is read back exactly when the path has one segment or no top-level key spelling the whole path holds another value. |
| FieldStore.SetLeavesOthers | internal/contentpacks/parser.go:490-533 | Setting a path leaves every path that is neither above nor below it as it was. |
| FieldStore.SetSet | internal/contentpacks/parser.go:513-533 | The last write to a path wins. |
| FieldStore.SetIfAbsentSettles | internal/contentpacks/parser_formats.go:259-264 | Setting an absent path always takes effect, and a present one keeps its value. |
| FieldStore.RedactFields | internal/contentpacks/parser.go:374-381 | The redact stage's loop equals the redaction function. |
| FieldStore.RedactionIff | internal/contentpacks/parser.go:374-381 | After redaction nothing but the replacement is readable under any listed field, exactly when no listed dotted field is also spelled by a top-level key that holds something else. |
| ParserStages.Parse | internal/contentpacks/parser.go:154-198 | The stage loop returns the output of the specification, and an error exactly when the status is failed. |
| ParserStages.StopsForGood | internal/contentpacks/parser.go:171-196 | Once an event is dropped or has failed, later stages change nothing. |
| ParserStages.StatusMeaning | internal/contentpacks/parser.go:171-198 | Parsed means no stage error and not dropped; partial means stage errors, all from stages told to keep the raw event; a dropped parse's last error, if any, comes from a stage told to keep the raw event or to drop the event, a failed one's from a stage told neither; all other errors come from stages told to keep the raw event. |
| FieldMap.CopyMappings | internal/contentpacks/parser.go:327-333 | The loop over the mappings applies them one by one in some order of the map. |
| FieldMap.MapsCommute | internal/contentpacks/parser.go:326-337 | Two mappings that do not write where the other reads or writes commute on every event. |
| FieldMap.FieldMapOrderIrrelevant | internal/contentpacks/parser.go:326-337 | Mappings that commute two by two give one result in every order of the map. |
| FieldMap.FieldMapStageOrderIrrelevant | internal/contentpacks/parser.go:326-349 | Under that condition the outcome of the whole stage, with its constants and coercions and whether it fails, is the same in every order. |
| FieldMap.FieldMapOrderMatters | internal/contentpacks/parser.go:326-337 | An input: one mapping reads what another writes, and the two orders give different events. |
| FieldMap.ConstantsWin | internal/contentpacks/parser.go:326-349 | After the stage each constant holds, whatever the mappings copied to its path, unless another constant or a coercion touches the path or a top-level key spells it. |
| FieldMapOrder.FieldMapOrderIff | internal/contentpacks/parser.go:327-333 | For any list of copies over any dotted paths: every order gives one result on every event exactly when any two of them have paths that let them trade places. |
| FieldMapOrder.TwoCopiesIff | internal/contentpacks/parser.go:327-333 | Two copies commute on every event exactly when one has no effect, they are the same, neither writes where the other reads or writes, or they read one path, write apart, and one writes that path back. |
| FieldMapOrder.PlainFieldMapOrderIff | internal/contentpacks/parser.go:327-333 | With plain fields and one copy for each target, every order gives one result on every event exactly when no copy reads the target of another, those from a field to itself apart. |
| FieldMapOrder.SettingsOrderIff | internal/contentpacks/parser.go:334-336 | Every order of the constants gives one result on every event exactly when of any two the targets lie apart or the outer value already holds the inner one. |
| FieldMapClash.ReaderDisagrees | internal/contentpacks/parser.go:327-333 | When a copy reads what another writes and targets lie apart, two orders differ, whatever the other copies are. |
| FieldMapClash.OuterDisagrees | internal/contentpacks/parser.go:327-333 | When a target lies at or above another and its copy reads outside that object, two orders differ, whatever the other copies are. |
| FieldMapClash.MixedDisagrees | internal/contentpacks/parser.go:327-333 | When an object is copied into itself and also written from outside, two orders differ. |
| FieldMapClash.SelvesDisagree | internal/contentpacks/parser.go:327-333 | When an object is copied into itself at two places one below the other, two orders differ. |
| Normalizers.Idempotent | internal/contentpacks/parser_formats.go:167-264 | A list of set-if-absent steps in which no step reads what it or a later step sets changes nothing when run again. |
| Normalizers.NeverOverwrites | internal/contentpacks/parser_formats.go:259-264 | Such a list never changes a target field that was present, nor any field outside the common schema. |
| Normalizers.StepSettled | internal/contentpacks/parser_formats.go:231-264 | On a state the list has produced, each of its steps on its own changes nothing. |
| Carriers.Event.SetIfMissing | internal/contentpacks/parser_formats.go:259-264 | Sets the field when the lookup finds none. |
| Carriers.Event.CopyString | internal/contentpacks/parser_formats.go:231-241 | Copies a printable, informative value to an absent target. |
| Carriers.Event.CopyNumber | internal/contentpacks/parser_formats.go:243-257 | Copies an integer to an absent target. |
| Carriers.Event.SetOutcome | internal/contentpacks/parser_formats.go:211-229 | Derives success or failure from the words of the action. |
| Carriers.Event.SetMeaning | internal/contentpacks/parser_formats.go:926-974 | Sets category, action and outcome by event code and provider, both read before any of the three is set. |
| Carriers.Event.EventDataText | internal/contentpacks/parser_formats.go:988-995 | The first event-data field with text. |
| Carriers.Event.NormalizeCEF | internal/contentpacks/parser_formats.go:167-187 | The CEF normaliser runs the CEF steps. |
| Carriers.Event.NormalizeLEEF | internal/contentpacks/parser_formats.go:189-209 | The LEEF normaliser runs the LEEF steps. |
| Carriers.Event.NormalizeWindows | internal/contentpacks/parser_formats.go:849-974 | The Windows normaliser runs the Windows steps. |
| Carriers.CarriersOrdered | internal/contentpacks/parser_formats.go:167-209 | In each of the three normalisers no step reads what it or a later step sets. |
| Carriers.CarriersNormalize | internal/contentpacks/parser_formats.go:849-870 | Each normaliser is idempotent and keeps every field present at a target path and every field outside the schema. |
| Normalizers.RootValueStands | internal/contentpacks/parser.go:513-533 | For any program whose steps read outside the schema or under the root they write to: a value that is no object under a root stands exactly when every step under that root is silent on the event, and an object takes its place otherwise. |
| Carriers.CarriersNear | internal/contentpacks/parser_formats.go:167-209 | No step of a normaliser reads under another root of the schema than the one it writes under. |
| Carriers.RootValueKeptIff | internal/contentpacks/parser_formats.go:259-264 | For each of the seven roots: a value there that is no object outlives a normaliser exactly when, for every step that writes under the root, a top-level key spells the target or the source yields nothing; otherwise an object takes its place. |
| Carriers.EventValueReplaced | internal/contentpacks/parser_formats.go:849-850 | After a normaliser `event` holds an object whenever it held one, or held another value and no top-level key spells event.kind. |
| CarrierFields.CefFieldsArrive | internal/contentpacks/parser_formats.go:167-187 | Each CEF extension of the table that holds text ends up, trimmed or as a number, in its common field when that was absent. |
| CarrierFields.LeefFieldsArrive | internal/contentpacks/parser_formats.go:189-209 | So does each LEEF attribute of its table. |
| CarrierFields.WindowsFieldsArrive | internal/contentpacks/parser_formats.go:849-924 | And each system field of a Windows event, and the first event-data field for each common one. |
| CarrierFields.OutcomesFollow | internal/contentpacks/parser_formats.go:211-229 | After the CEF and the LEEF normaliser the outcome, where there was none, is what the words of the action say, success before failure. |
| WindowsMeanings.KnownEventMeans | internal/contentpacks/parser_formats.go:926-974 | A Windows event whose code and provider are in the table of ten events ends with that event's category, action and outcome where it had none. |
| WindowsMeanings.OtherEventStays | internal/contentpacks/parser_formats.go:926-974 | Any other Windows event keeps the three fields as they were. |
| Tokenizers.SplitEscapedLimit | internal/contentpacks/parser_formats.go:552-576 | The escape automaton as a loop equals the splitting function. |
| Tokenizers.SplitRejoins | internal/contentpacks/parser_formats.go:552-576 | The parts join back to the input and are at most as many as the limit. |
| Tokenizers.SplitInvertsJoin | internal/contentpacks/parser_formats.go:552-576 | Parts without open escapes or bare separators come back from their join, with arbitrary text for the last part once the limit is met. |
| Tokenizers.HeaderRoundTrip | internal/contentpacks/parser_formats.go:108-121 | A CEF header printed with CEF escaping splits into its eight parts; every field but the version is restored for arbitrary text, the extension may hold bars, and the version is restored exactly when it needs no escaping. |
| Tokenizers.SplitTokens | internal/contentpacks/parser_formats.go:596-636 | The escape and quote automaton as a loop equals the token function. |
| Tokenizers.TokensInvertPrinting | internal/contentpacks/parser_formats.go:596-636 | Splitting escaped and printed tokens gives back the tokens that are not blank. |
| Tokenizers.DelimiterIff | internal/contentpacks/parser_formats.go:596-636 | That holds for all lists of tokens exactly when the delimiter is neither a backslash nor a quote. |
| TokenQuotes.QuotedRun | internal/contentpacks/parser_formats.go:596-636 | A quoted text joins the token at hand as it is, whatever delimiters, spaces and other quotes it holds. |
| TokenQuotes.TokensInvertQuoting | internal/contentpacks/parser_formats.go:596-636 | Splitting tokens printed in quotes of either kind gives back the tokens that are not blank. |
| TokenQuotes.WordsSplit | internal/contentpacks/parser_formats.go:623-630 | With a space for delimiter, words come apart at white space of any kind and length. |
| Tokenizers.ParseKeyValues | internal/contentpacks/parser_formats.go:583-594 | The loop over tokens equals the key-value function. |
| Tokenizers.TrimQuotesFixedIff | internal/contentpacks/parser_formats.go:638-646 | A value survives exactly when it is trimmed and not wrapped in a pair of quotes. |
| Tokenizers.KeyValuesInvertPrinting | internal/contentpacks/parser_formats.go:583-594 | Printed pairs with trimmed non-empty keys free of equals signs parse to their keys and unquoted values. |
| Tokenizers.KeyValuesRecoverIff | internal/contentpacks/parser_formats.go:583-594 | A printed map is recovered exactly when each of its values is trimmed and unquoted. |
| MetricLabels.ParseQuotedLabel | cmd/nodeagent/content_pack_collector.go:908-935 | The quoted-value loop equals the specification of value and rest. |
| MetricLabels.ParseLabels | cmd/nodeagent/content_pack_collector.go:876-906 | The label loop terminates and collects the labels of the specification. |
| MetricLabels.LabelsInvertPrinting | cmd/nodeagent/content_pack_collector.go:876-935 | Parsing labels printed in the Prometheus text format 0.0.4 gives them back, in order, for arbitrary values. |
| MetricLabels.ParsedLabelsAre | cmd/nodeagent/content_pack_collector.go:876-906 | With distinct valid names the parsed map holds each label and nothing else. |
| MetricLabels.LabelBlockIff | cmd/nodeagent/content_pack_collector.go:848-857 | A metric line's label block is cut where it was closed exactly when no label value holds a closing brace. |
| MetricsReport.Scrape.Observe | cmd/nodeagent/content_pack_collector.go:694-801 | One metric line updates receiver counters and collector figures as its effect says. |
| MetricsReport.Scrape.AddReceiverMetric | cmd/nodeagent/content_pack_collector.go:969-1004 | Adds to one counter of one receiver with 64-bit wrap-around. |
| MetricsReport.Scrape.Finish | cmd/nodeagent/content_pack_collector.go:805-832 | Combines collector figures into every receiver, whatever order the map gives them. |
| MetricsReport.ParseMetrics | cmd/nodeagent/content_pack_collector.go:683-833 | The whole fold over the lines returns the report of the specification. |
| MetricsReport.ReportOrderIrrelevant | cmd/nodeagent/content_pack_collector.go:683-833 | The report does not change when the lines are permuted. |
| MetricsReport.CountersAreSums | cmd/nodeagent/content_pack_collector.go:969-988 | A receiver's counter is the wrapped sum of the lines that feed it, and is present exactly when one does. |
| MetricsReport.ReportedErrorIs | cmd/nodeagent/content_pack_collector.go:797-832 | In the report a receiver shows its own error exactly when a failing line is its own, the collector's when it has none and output errors were seen, and none otherwise. |
| MetricsReport.GlobalsAre | cmd/nodeagent/content_pack_collector.go:735-800 | Queue depth and send failures are the largest values seen, at least zero; output drops and errors are wrapped sums. |
| MetricsReport.NotOkIff | cmd/nodeagent/content_pack_collector.go:805-832 | The report is not ok exactly when some line feeds a receiver whose drops, queue depth or retries, as sums of its lines combined with the collector's figures, are positive. |
| MetricsReport.PressesWithoutWrap | cmd/nodeagent/content_pack_collector.go:1006-1019 | As long as the sums do not wrap, that is as soon as any of the receiver's or the collector's figures is positive. |
| MetricNames.CollectorLineFeeds | cmd/nodeagent/content_pack_collector.go:699-748 | Each metric of the collector itself, by its full name, adds to the received or dropped events of the receiver its labels name, or is its queue depth or retries. |
| MetricNames.AgentLineFeeds | cmd/nodeagent/content_pack_collector.go:749-800 | Each Vector and Fluent Bit metric feeds one counter of its receiver, named with the agent's prefix, or the drops or errors of all. |
| MetricNames.OtherLineFeedsNothing | cmd/nodeagent/content_pack_collector.go:699-800 | No other metric feeds anything. |
| MetricNames.ReportShows | cmd/nodeagent/content_pack_collector.go:805-832 | What the report shows of each receiver, counter by counter, and its state. |
| MetricNames.CapacityPresses | cmd/nodeagent/content_pack_collector.go:736-739 | A line that states the queue's capacity puts every receiver under back-pressure, however empty the queue is. |
| ManifestValidator.Validate | internal/contentpacks/manifest.go:51-156 | The validator's loops and tables accept exactly the manifests of the declarative acceptance predicate. |
| ManifestValidator.Validator.CheckRefs | internal/contentpacks/manifest.go:285-296 | References are checked for form, existence and repetition, in one pass. |
| ManifestValidator.Validator.RequireUnique | internal/contentpacks/manifest.go:460-471 | A repeated value is an issue; a blank one is let pass. |
| ManifestValidator.Validator.ValidateSources | internal/contentpacks/manifest.go:128-141 | Accepts exactly the well-formed sources and tabulates their parsers and samples under the id as spelled. |
| ManifestValidator.Validator.ValidateSample | internal/contentpacks/manifest.go:335-361 | Accepts exactly samples whose references exist and whose parser the source lists as spelled. |
| ManifestValidator.Validator.ValidateSamples | internal/contentpacks/manifest.go:143-153 | Accepts exactly the well-formed samples and tabulates owners and coverage. |
| ManifestValidator.Validator.ValidateSampleRefs | internal/contentpacks/manifest.go:375-389 | Adds no issue exactly when every sample a source names exists and is its own. |
| ManifestValidator.Validator.ValidateCoverage | internal/contentpacks/manifest.go:363-373 | Adds no issue exactly when every parser a source names is exercised by one of its samples. |
| ManifestGuarantees.RiskyNeedsApproval | internal/contentpacks/manifest.go:484-494 | An accepted source of high or critical risk, or high or restricted sensitivity, says that it needs approval. |
| ManifestGuarantees.PathsArePlain | internal/contentpacks/manifest.go:16 | Every path of an accepted manifest that is read starts with no slash or dot and holds no space, backslash or quote. |
| ManifestGuarantees.ParsersAreExercised | internal/contentpacks/manifest.go:363-373 | Every parser an accepted source lists is in the pack, and a sample of the pack exercises it for that source. |
| ManifestGuarantees.SamplesAreOwned | internal/contentpacks/manifest.go:375-389 | Every sample an accepted source lists is in the pack, once, belongs to that source and exercises a parser of the pack. |
| ManifestResolution.ResolveFromRecord | internal/contentpacks/registry.go:417-446 | The filtering loops compute the resolved parsers, detections and samples. |
| ManifestResolution.ResolvesToItsParsers | internal/contentpacks/registry.go:417-432 | Every source of an accepted manifest resolves to exactly the parsers it lists, each once. |
| ManifestResolution.AcceptedIsUnpadded | internal/contentpacks/manifest.go:335-373 | In an accepted manifest source ids and parser references carry no surrounding white space. |
| ManifestResolution.PaddingRejected | internal/contentpacks/manifest.go:335-373 | A manifest with a padded parser reference or source id is always rejected, by the checks in combination. |
| ManifestResolution.DetectionResolvedIff | internal/contentpacks/registry.go:417-440 | A detection an accepted source refers to is resolved exactly when the reference is not padded. |
| ManifestResolution.SampleResolvedIff | internal/contentpacks/registry.go:417-446 | A sample an accepted source refers to is resolved exactly when its unpadded id is listed. |
| ManifestResolution.PaddedDetectionAccepted | internal/contentpacks/manifest.go:291-296 | Padding a detection reference of an accepted manifest leaves it accepted. |
| ManifestResolution.PaddedSampleAccepted | internal/contentpacks/manifest.go:375-389 | Padding a sample reference of an accepted manifest leaves it accepted. |
| Semver.Compare | internal/contentpacks/registry.go:277-300 | The comparison loop computes the comparison function. |
| Semver.CompareIsPreorder | internal/contentpacks/registry.go:277-300 | The comparison is a total preorder on all strings. |
| Semver.NumeralReads | internal/contentpacks/registry.go:486-498 | A core number reads as its value up to the largest 64-bit integer, and as that integer above. |
| Semver.NumbersAgreeIff | internal/contentpacks/registry.go:486-498 | Two core numbers compare as their values do exactly when they are equal or one is below the largest 64-bit integer. |
| Semver.PrereleaseAgreesIff | internal/contentpacks/registry.go:500-511 | The prerelease the comparison uses is the one the version pattern reads exactly when no dash stands before the last character of a build without a prerelease. |
| Semver.CoreAgrees | internal/contentpacks/registry.go:277-300 | On versions that match the pattern, with core numbers below that bound, the order is that of section 11 of Semantic Versioning 2.0.0 on the core triple, and a prerelease precedes a release whose build holds no such dash. |
| Semver.PrereleaseTextDecides | internal/contentpacks/registry.go:277-300 | Where the core numbers tie, no prerelease comes last, and prereleases compare as texts. |
| Registries.Registry.Install | internal/contentpacks/registry.go:111-129 | Installs a valid, compatible, new manifest, or fails and changes nothing. |
| Registries.Registry.SourceConflict | internal/contentpacks/registry.go:314-337 | Finds a conflict exactly when an enabled record of another pack declares one of the sources. |
| Registries.Registry.Enable | internal/contentpacks/registry.go:131-165 | Guards, conflict check, demotion of other versions and promotion, as the transition function says. |
| Registries.Registry.DemoteOthers | internal/contentpacks/registry.go:150-158 | Every other enabled version of the pack becomes available for rollback; all other records stay. |
| Registries.Registry.Disable | internal/contentpacks/registry.go:167-178 | Disables a record that is not quarantined. |
| Registries.Registry.Quarantine | internal/contentpacks/registry.go:180-190 | Quarantines a record with its reason. |
| Registries.Registry.Deprecate | internal/contentpacks/registry.go:192-200 | Deprecates a record. |
| Registries.Registry.ResolveSource | internal/contentpacks/registry.go:230-254 | Returns nothing exactly when no enabled record declares the source, and otherwise an enabled declaring record of highest version, in any visiting order. |
| RegistryLaws.SnapshotConflict | internal/contentpacks/registry.go:339-361 | The owner table finds a conflict exactly when two enabled records of different owners share a source. |
| RegistryLaws.RegistryFromSnapshot | internal/contentpacks/registry.go:68-92 | Restores the records in order, recomputing what the manifest determines, or fails as specified. |
| RegistryLaws.NextKeeps | internal/contentpacks/registry.go:111-200 | Every operation, and every accepted restore under any version, keeps the registry invariant. |
| RegistryLaws.RunKeeps | internal/contentpacks/registry.go:68-200 | In every run from the empty registry, each source id is declared by at most one enabled record and every record agrees with its manifest. |
| RegistryLaws.ResolutionUnique | internal/contentpacks/registry.go:230-254 | In every run the best record for a source is unique, so resolution does not depend on map order. |
| RegistryLaws.EnabledResolves | internal/contentpacks/registry.go:131-165 | Once a record is enabled, each source it declares resolves to it. |
| RegistryLaws.RetiredResolvesToNothing | internal/contentpacks/registry.go:167-200 | Once the enabled owner of a source is disabled, quarantined or deprecated, the source resolves to nothing. |
| RegistryLaws.RunOneVersion | internal/contentpacks/registry.go:131-165 | From an empty registry, operations enable at most one version of each pack. |
| RegistryLaws.SnapshotRoundTrip | internal/contentpacks/registry.go:68-109 | Restoring any listing of a reachable registry under its own version gives an equal registry. |
| RegistryAnswers.InstallIff | internal/contentpacks/registry.go:111-129 | A manifest installs exactly when it is accepted, its key is new, and its minimum is blank or both versions match the pattern and the present one is not below; one record differs then. |
| RegistryAnswers.CompatibleIff | internal/contentpacks/registry.go:256-275 | A pack is refused as too new exactly when both versions match the pattern and the present one is below the minimum. |
| RegistryAnswers.EnableIff | internal/contentpacks/registry.go:131-148 | A record is enabled exactly when it exists, is neither quarantined nor deprecated, the version allows it, and no other enabled pack shares a source; a refusal changes no status. |
| RegistryAnswers.EnableEffect | internal/contentpacks/registry.go:150-164 | Enabling makes the record enabled, puts the enabled version of the same pack on standby, and changes no other record. |
| RegistryAnswers.RollbackReturns | internal/contentpacks/registry.go:131-165 | Enabling another version of a pack and then the former one again brings the former one back. |
| RegistryAnswers.QuarantineHolds | internal/contentpacks/registry.go:131-200 | Short of restores, a record stays quarantined over every run that does not deprecate it. |
| RegistryAnswers.QuarantineStandsIff | internal/contentpacks/registry.go:131-200 | Any one operation other than a restore leaves a quarantined record so exactly when it does not deprecate it. |
| RegistryAnswers.QuarantineEscapes | internal/contentpacks/registry.go:167-200 | A quarantined record is deprecated, disabled and enabled again, none of the three refused, where version and sources allow. |
| Examples.FlatKeyOutlives | internal/contentpacks/parser.go:374-381 | A text under a dotted top-level key outlives both a write to its path and its redaction. |
| Examples.UserLost | internal/contentpacks/parser_formats.go:167-187 | A CEF event with a text under user and a source user loses the text. |
| Examples.EventLost | internal/contentpacks/parser_formats.go:167-187 | A text under event is lost although a top-level key spells event.kind, because the action is set. |
| Examples.WriteBackCommutes | internal/contentpacks/parser.go:326-333 | Two dependent copies that commute: x.y to itself beside x.y to z. |
| Examples.EscapedVersion | internal/contentpacks/parser_formats.go:114 | A CEF version that holds a bar comes back with its escape. |
| Examples.LargeNumbersTie | internal/contentpacks/registry.go:486-498 | Two core numbers of different value that read as one. |
| Examples.DashedBuild | internal/contentpacks/registry.go:500-511 | The version 1.0.0+a-b matches the pattern, and the comparison reads a prerelease in it where the pattern reads none. |
| Examples.AcceptedManifest | internal/contentpacks/manifest.go:68-156 | A concrete manifest the validator accepts. |
| Examples.PaddedDetectionDropped | internal/contentpacks/registry.go:433-440 | The same manifest with its detection reference padded is accepted too, and its source resolves to no detection. |
| Examples.PaddedSampleDropped | internal/contentpacks/registry.go:441-445 | With its sample reference padded it is accepted too, and its source resolves to no sample. |
| Examples.VersionGate | internal/contentpacks/registry.go:118-120 | A pack that needs version 1.0.0 installs on version 2.0.0, and is refused as too new for version 0.9.0. |
| Examples.NetworkPipeline | internal/contentpacks/otel_collector.go:241-245 | A netflow source with a network endpoint compiles, and its pipeline does not end in the common batch processor. |
| Sorting.SortPermutation | internal/contentpacks/otel_collector.go:163-166 | Two rearrangements of one list sort to the same list when ties are equal. |

## Left out

- Strings are sequences of Unicode scalar values; lower-casing and case folding act on ASCII letters only.
- SHA-256, Ed25519, PEM, JSON and YAML: a hash and a verifier are parameters, and what is saved is what is loaded.
- Receipt fields that carry no decision (compiled and observed times, backend, mode, host name) and the receipt queue.
- Applier calls are sequential; a second call that starts while the first builds its receipt is not modelled.
- The 64-bit generation counter of the collector runtime is unbounded here; SetEnabled and Snapshot are not modelled.
- NetworkApplier.Firewall.Apply: the contract of the host firewall is assumed, not derived from its implementation, which is not part of this model.
- NetworkConvergence.EnforcingStepInstalls: assumes the tag of the remembered policy differs from the new one's when their ids do, and fingerprints that tell the planned rules apart, because both are truncated hashes.
- Autoblock.Pipeline.Process: containment of an address in the allowlist is a predicate; nothing is claimed about overlapping ranges.
- OtelCompiler.BuildCollectorConfig: the syslog receiver's section is any function of source and recipe; exporter headers, TLS, timeouts and sizes, the telemetry section and edge network policies are not carried.
- OtelClosure.ReceiverStorageIsDefined: for syslog receivers assumes that their section names storage only when the recipe does, since that section is a parameter.
- FieldStore.SetField: nested objects are values, so updates in place through a shared map and aliasing between fields are not captured.
- Carriers.Event.NormalizeWindows: an object-valued provider prints through one function of the object; the code's fallback search for its name follows map order.
- FieldMapOrder.FieldMapOrderIff: copied objects are values, so an object that two fields share after a copy, and that a later write changes in both, is not captured.
- TrimmedMaps.TrimOrderIff: the mappings of a field map come as texts; a pack built in Go may hold untrimmed paths, which the results on orders cover as they are.
- ManifestValidator.Validate: issues are counted by kind without their paths and messages; the checks on a detection's temporal rule are one flag; the checks on single fields of one entity are taken together.
- Registries.Registry.ResolveSource: the resolved copy carries ids and content; cloning is the identity on values.
- RegistryLaws.SnapshotRoundTrip: a snapshot lists the records in any order; the sort by id and version is not modelled.
- Semver.CoreAgrees: the order of prerelease identifiers is not claimed to be that of the standard, since the code compares them as one text.
- MetricsReport.ParseMetrics: lines come parsed; rounding of floating-point samples, scanner limits and the derived source id are not modelled.
- MetricLabels.LabelBlockIff: whole metric lines beyond the label block are not modelled.
- Regular expressions of syslog, grok and the regex stage, timestamps, JSON and XML decoding, and the CEF extension's round trip.
- The content-pack sync loop, process supervision, HTTP calls, static catalogues and sample packs.
