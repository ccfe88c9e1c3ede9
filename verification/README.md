# Verification model of NvStrapsReBar's deployment, BAR rules and guarded saving

This project models the parts of the repository where a wrong step is expensive: the client's
deployment session, the guarded deployment workflow of the backend, the BAR-size rules shared by the
client and the driver, the saving of settings under expected tokens, and the external-boot preview.
Each part is written in the form the program has: classes and loops where it changes state, functions
where it computes a value. Every method is proved equal to a function on values, and the promises are
proved about those functions, over all inputs and over whole runs.

| file | what it holds |
|---|---|
| `Prelude`, `Hardware`, `Lists`, `History` | shared values, the GPU inventory, filtering and sorting, numbered files several workers write to |
| `BarRules`, `DraftRules` | overlapping rules, one GPU's choice, what makes a draft acceptable |
| `CoreConfig`, `ConfigCodec`, `DraftWire` | the driver's lookup, the byte format of the variable, drafts to wire and back |
| `HardwareRecords`, `Recommendation` | hardware records with their checks, the recommended configuration |
| `TopologyToken`, `DriverEvidence`, `SaveSettings` | the inventory token, the write gate, saving under expected tokens |
| `Identity`, `DeploymentPlan`, `PlanStore` | the pinned machine and its three comparisons, the plan, its store of revisions |
| `Workflow`, `WorkflowRuns`, `DeploymentRuns`, `CommandOutcomes`, `Commands` | the guarded commands on values, what they keep, whole runs, what each leaves on record, the commands on mutable state |
| `Preparation`, `Resumption`, `PreparationOutcome`, `Preparer`, `PreparationRuns` | firmware preparation on values, its resumption, what it leaves on disk, the pipeline itself, and its place among the commands |
| `Handoff` | recording a vendor flash against a plan that may move |
| `SessionModel`, `SessionSlot`, `SessionRuns`, `SessionDrafts`, `SessionReviews`, `SessionRestarts`, `SessionHandoff`, `SessionEffects`, `Session` | the client session as a machine, its promises, what its steps show, and the class |
| `ExternalBoot`, `ExternalBootSteps` | the external-boot preview machine and its screens, and what each operation does to which medium |

How the models are tied together: the class methods carry `ensures` that equate their result and the
whole new state with a function of the old one, so a method that skips or swaps a step fails. The
functions then meet statements that do not rest on how they are defined: round trips, invariants over
runs of any length, order independence, exact conditions, and what each operation leaves, in the terms
of its inputs.

## Where the code and its own words differ

The model follows the code in each of these.

- `src/guided/bar-settings-model.ts:4-10` says the client mirrors the driver's lookup order. It does,
  except for a location rule that names subsystem id 0xFFFF: the driver reads that selector as a device
  rule and so applies it to GPUs the client does not show it for
  (`DraftWire.DriverDisagreesOnWildcardLocation`). `DraftWire.DriverReadsRule` gives the exact condition.
- A location rule at bus 0xFF, device 31, function 7 is stored as "any location"
  (`ConfigCodec.StorableExactly`).
- A draft that leaves the driver unconfigured is stored as no variable, so its other options are lost
  (`DraftWire.SavedDraftReadsBack`).
- A profile creation that finishes before the first profile listing can leave the created plan beside
  another selected profile (`SessionRuns.EarlyCreationMixesProfiles`).
- With two recommendation requests under way, the older answer can replace the shown draft while the
  confirmation given for the newer one stays in force, and the save then sends a draft nobody reviewed
  (`SessionReviews.OlderAnswerIsSaved` is such a run). `SessionReviews.SavesWhatWasReviewed` says exactly
  when a save sends the draft its confirmation was given for.
- `crates/nvstraps-deploy/src/workflow.rs:3-6` calls the plan's transitions append-only and a new revision
  durably stored. `crates/nvstraps-deploy/src/store.rs:1003-1061` looks for the file and later renames a
  temporary one into place, which replaces what another worker stored in between; nothing locks the
  store. Two workers can so be told they stored the same revision, and the stored plans may no longer be
  one line (`PlanStore.TwoPreparationsLoseOne`). `PlanStore.HistoryStaysLinear` says exactly when they are.
- The relaxed identity comparison is one-sided. If two pinned GPUs differ in their address range alone,
  it lets a different GPU take the place of one of them (`Identity.RelaxedTopologyAdmitsStranger`).

## Model

| member | source | states |
|---|---|---|
| BarRules.ApplyGpuChoice | src/guided/bar-settings-model.ts:56-70 | the loop over the other devices yields the list the properties below are about, and touches nothing but the rules |
| BarRules.LocationEdit | src/guided/bar-settings-model.ts:39-46 | writing a location size decides that GPU, is unseen by every GPU some rule can tell apart from it, and moves no mask statement of any GPU |
| BarRules.ClearedStates | src/guided/bar-settings-model.ts:58-61 | clearing leaves the GPU no size statement, gives no GPU one it did not have, and keeps every mask statement |
| BarRules.ClearingKeeps | src/guided/bar-settings-model.ts:58-61 | every rule that has no size or does not match the GPU stays, in order, and the sizes left are exactly those of the rules that do not match it |
| BarRules.SizeChoiceIsLocal | src/guided/bar-settings-model.ts:48-57 | a size or exclusion gives the GPU exactly that choice and changes the deciding size of no GPU at another location, for any overlapping rules |
| BarRules.AutoChoiceKeepsOthers | src/guided/bar-settings-model.ts:48-70 | "auto" makes the choice auto and leaves every other listed GPU's deciding size and choice as it was |
| BarRules.AutoDecides | src/guided/bar-settings-model.ts:48-70 | what "auto" means to every GPU, listed or not: a listed one elsewhere keeps its deciding size, any other gets what the rules that do not match the GPU decide; no mask statement moves |
| BarRules.AutoAddsOnlyWhatMoved | src/guided/bar-settings-model.ts:58-70 | a rule is added only for a listed device whose deciding size clearing moved, and gives it that size back; where no sized rule matches the GPU the list stays as it is |
| DraftRules.ValidateDraft | src-tauri/src/config.rs:349-424 | the validation loop accepts exactly the drafts with supported settings, at most eight rules, no empty, duplicate, out-of-range or unmatched rule; each error, the two about settings included, names a real objection |
| DraftRules.ValidDraftMeans | src-tauri/src/config.rs:349-424 | what an accepted draft is in its own terms: modes, targets, selectors and locations in range, every rule says something and matches a device, and no two of one scope reach the same GPUs |
| DraftRules.IdentityIsReach | src-tauri/src/config.rs:407-424 | two rules count as duplicates exactly if they have one scope and reach the same GPUs |
| DraftRules.LocationEditStaysAcceptable | src/guided/bar-settings-model.ts:39-46 | a location size on a detected GPU keeps every rule acceptable and no two rules alike |
| DraftRules.ChoiceStaysAcceptable | src/guided/bar-settings-model.ts:56-70 | any valid choice on a detected GPU keeps the rules acceptable and every mask statement as it was |
| DraftRules.EditsKeepDraftValid | src-tauri/src/config.rs:349-405 | after any sequence of valid choices the draft is accepted exactly while at most eight rules remain, and no GPU's mask decision ever moved |
| CoreConfig.LookupBarSize | crates/nvstraps-core/src/config.rs:419-472 | the driver's single pass with its early return computes: first location, else last subsystem, else last device, else the global mode |
| CoreConfig.LookupMaskOverride | crates/nvstraps-core/src/config.rs:474-516 | the same for the mask override, falling back to the global switch |
| CoreConfig.NextStatement | crates/nvstraps-core/src/config.rs:424-455 | one more selector either ends the search, overrides what was found so far, or is outranked by a subsystem selector |
| CoreConfig.ReachMeans | crates/nvstraps-core/src/config.rs:607-624 | which GPUs a selector speaks to and at what scope, wildcards included |
| CoreConfig.PrecedenceMeans | crates/nvstraps-core/src/config.rs:419-472 | the deciding statement by its place among all statements: the first location one, else the last subsystem one, else the last |
| CoreConfig.WhoDecidesSize | crates/nvstraps-core/src/config.rs:419-472 | which priority a lookup ends with and what it selects, the built-in list and the Turing fallback of selector 5 included |
| ConfigCodec.Encode | crates/nvstraps-core/src/config.rs:342-389 | the writer fails exactly on too many records, writes nothing for an unconfigured driver, and otherwise the layout the reader inverts |
| ConfigCodec.Decode | crates/nvstraps-core/src/config.rs:251-340 | the cursor over header and three counted lists reads exactly what the list-by-list reading yields, error for error |
| ConfigCodec.StorableExactly | crates/nvstraps-core/src/config.rs:626-636 | a packed PCI location comes back exactly if it fits five and three bits and is not the slot mistaken for the wildcard |
| ConfigCodec.ReadBack | crates/nvstraps-core/src/config.rs:251-389 | decoding what was encoded gives the configuration with every location as stored, or the default for an unconfigured driver |
| ConfigCodec.RoundTripExactly | crates/nvstraps-core/src/config.rs:251-389 | a configuration comes back unchanged if and only if every location is storable, or it is the default |
| ConfigCodec.DecodesExactly | crates/nvstraps-core/src/config.rs:251-340 | stored bytes can be read if and only if there are none or the three counts fit their limits and the bytes behind them; each list then has that many records |
| ConfigCodec.LayoutPlaces | crates/nvstraps-core/src/config.rs:342-389 | where target, flags, checksum and the three counts are in a stored variable, and how long it is |
| ConfigCodec.SelectorPlaces | crates/nvstraps-core/src/config.rs:359-368 | which byte of a selector record holds what |
| DraftWire.SettingsRoundTrip | src-tauri/src/config.rs:94-113 | all five settings survive the option bits exactly when the mode fits its two bits |
| DraftWire.FlagBits | src-tauri/src/config.rs:94-113 | each setting has option bits of its own and nothing else is ever set |
| DraftWire.SelectorSays | src-tauri/src/config.rs:287-317 | how a selector says no size, and nothing, yes or no of the mask |
| DraftWire.RuleRoundTrip | src-tauri/src/config.rs:287-347 | size and mask come back; the rule reaches the same GPUs exactly when it is not a subsystem rule naming 0xFFFF |
| DraftWire.DriverReadsRule | src-tauri/src/config.rs:287-317 | the driver gives a rule's selector the rule's own reach and scope for every GPU exactly when no subsystem or location rule names 0xFFFF |
| DraftWire.DriverAgreesWithClient | src/guided/bar-settings-model.ts:22-37 | client and driver hear the same statements, for every GPU and both facets, exactly when no subsystem or location rule names 0xFFFF; then the client's deciding size and mask are the driver's decision on the encoded draft, and the global mode decides exactly where the client shows none |
| DraftWire.DriverDisagreesOnWildcardLocation | crates/nvstraps-core/src/config.rs:607-624 | a draft the backend accepts, on two detected GPUs, where the driver applies a location rule to the other GPU and the client shows none |
| DraftWire.DraftRoundTrip | src-tauri/src/config.rs:94-206 | an accepted draft tells every GPU the same after the round trip exactly when no subsystem rule names 0xFFFF; then sizes, masks and choices are the same |
| DraftWire.SecondRoundTrip | src-tauri/src/config.rs:287-347 | a second round trip changes nothing more exactly unless a subsystem rule names 0xFFFF in just one of its ids |
| DraftWire.SavedDraftReadsBack | src-tauri/src/config.rs:94-206 | through the stored variable the settings come back exactly when the driver stays configured or only defaults were set, and the rules exactly when none sits at the top slot |
| HardwareRecords.ValidateBar0 | src-tauri/src/config.rs:268-285 | accepted exactly if BAR0 is a non-zero, naturally aligned 32-bit window; the invalid-range outcome is never produced |
| HardwareRecords.OneBridgePerBusUsed | src-tauri/src/config.rs:216-266 | the bridge list holds each selected GPU's bridge, nothing else, and one per bus |
| HardwareRecords.PopulateHardware | src-tauri/src/config.rs:216-266 | the loop succeeds exactly when every selected GPU is aligned, each bus has one bridge and the counts fit; then each selected GPU, in order, has a record of its ids, location and window, each of their bridges one record with the bus behind it, and nothing else changed; every error is explained by the inventory |
| HardwareRecords.SelectedMeans | src-tauri/src/config.rs:216-222 | selected, in their order, are exactly the devices given a size, neither those given none nor those excluded |
| Recommendation.ConfigFromDraft | src-tauri/src/config.rs:94-113 | a configuration is built exactly for accepted drafts, and a draft error is told apart from a hardware error |
| Recommendation.CollectFallbacks | src-tauri/src/config.rs:115-181 | the loop over Turing GPUs makes a rule for exactly the unlisted ones, counts the rest, and fails exactly if an unlisted GPU has no safe selector; what those rules say is RecommendationMeans |
| Recommendation.RecommendDeploymentConfig | src-tauri/src/config.rs:115-181 | succeeds exactly for recommendable inventories, with the draft and counts the three rows below are about; each error names its cause in the inventory |
| Recommendation.RecommendationMeans | src-tauri/src/config.rs:115-181 | mode, target and switches of the recommended draft; each of its rules is a location rule without mask for an unlisted Turing GPU; each such GPU is decided its own safe selector; the counts are the numbers of Turing GPUs, listed and not |
| Recommendation.RecommendedSizes | src-tauri/src/config.rs:135-151 | each unlisted Turing GPU is given its own safe selector and no other GPU is told anything |
| Recommendation.RequireRecommended | src-tauri/src/config.rs:183-195 | accepts exactly the draft the backend would recommend now |
| Recommendation.KeyIsLexicographic | src-tauri/src/config.rs:115-181 | the numeric sort key orders rules as the source's tuple does |
| Recommendation.AcceptedReordered | src-tauri/src/config.rs:216-424 | acceptance of a draft does not depend on the order of the devices |
| Recommendation.OrderDoesNotMatter | src-tauri/src/config.rs:115-195 | for any permutation of the devices the recommendation succeeds or fails alike, with the same draft and counts |
| TopologyToken.ComputeTopologyToken | src-tauri/src/bar_settings.rs:175-207 | the append loop hashes the count and the sorted records |
| TopologyToken.BytesDetermineRecords | src-tauri/src/bar_settings.rs:188-205 | equal bytes hold equal records in equal order, even if the 32-bit count wrapped |
| TopologyToken.TokenIdentifiesInventory | src-tauri/src/bar_settings.rs:175-207 | for pairwise distinct locations, tokens are equal if and only if the inventories hold the same set of records, in whatever order |
| TopologyToken.TokenTellsHardwareApart | src-tauri/src/bar_settings.rs:175-207 | tokens are equal exactly if each inventory holds, for every device of the other, one with the same ids, location, bridge and BAR0 window |
| TopologyToken.SlotComesFirst | src-tauri/src/bar_settings.rs:175-187 | the sort key orders devices by location and then by their ids, as the source's tuple does |
| DriverEvidence.FlagAgreesWithGate | src-tauri/src/bar_settings.rs:79-173 | the availability flag and the write gate agree on every observation, and both hold exactly on a current-boot status or an expanded Turing aperture |
| DriverEvidence.LoadedDriverOpensGate | src-tauri/src/status.rs:41-83 | every status that proves the driver loaded opens the gate; the missing-driver code never does by itself |
| DriverEvidence.AssessmentMeans | src-tauri/src/bar_settings.rs:79-163 | what the client is shown of every observation: status, boot state, evidence, saved state and the token of the bytes read |
| DriverEvidence.StatusCodes | src-tauri/src/status.rs:41-83 | which codes prove the driver loaded, and which that it ran at all |
| SaveSettings.AppState.SaveConfigForDevices | src-tauri/src/app.rs:231-268 | checks, write, read-back and state update end in exactly the backend copy and variable of the value model, also when a call fails halfway |
| SaveSettings.AppState.SaveBarSettings | src-tauri/src/bar_settings_commands.rs:41-61 | the command ends in the state and receipt of the value model |
| SaveSettings.RejectedSaveChangesNothing | src-tauri/src/bar_settings_commands.rs:63-89 | a save is turned away exactly if the gate, a token, firmware access or the draft is not in order, and then nothing changed |
| SaveSettings.WhyTurnedAway | src-tauri/src/bar_settings_commands.rs:41-89 | each refusal arises exactly for the first precondition that does not hold |
| SaveSettings.FailedSaveKeepsCopy | src-tauri/src/app.rs:231-268 | once its preconditions hold a save fails exactly at a failing call or the read-back, and the backend copy moves exactly if the write was seen to land |
| SaveSettings.AcceptedSaveIsStored | src-tauri/src/app.rs:231-268 | after an accepted save the variable is the encoded draft, the whole backend copy is that configuration with the devices found, a reader decodes it, and receipt and tokens match, with no trust in the firmware |
| SaveSettings.HonestFirmwareSaves | src-tauri/src/bar_settings_commands.rs:41-89 | if calls work and the firmware stores what it is given, a save goes through exactly when its preconditions hold |
| SaveSettings.SameTokenSameBytes | src-tauri/src/bar_settings_commands.rs:75-89 | two accepted saves carry the same expected token exactly if the variable held the same bytes before both |
| SaveSettings.NoLostUpdate | src-tauri/src/bar_settings_commands.rs:75-89 | after an accepted save a second one is accepted only with the token handed out with the first, however many steps that keep the bytes lie between |
| SaveSettings.CopyStaysCurrent | src-tauri/src/app.rs:231-283 | over any run without an outside write or an unseen write the backend copy stays the one in the variable |
| SaveSettings.RefreshTakesOver | src-tauri/src/app.rs:283-420 | what a refresh takes over into the backend copy, and that the variable stays |
| Identity.ExactTopology | crates/nvstraps-deploy/src/lib.rs:1489-1506 | compared exactly, the GPUs match if and only if they are the same set |
| Identity.RelaxedTopology | crates/nvstraps-deploy/src/lib.rs:1489-1506 | with relocation allowed they match if and only if models and slots are the same set, where the expected GPUs differ in more than their address range; the two rows below are about the rest |
| Identity.RelaxedTopologyAdmitsStranger | crates/nvstraps-deploy/src/lib.rs:1489-1506 | where two expected GPUs differ in address range alone, any other GPU can stand in for one of them |
| Identity.RelaxedTopologyPinsExactly | crates/nvstraps-deploy/src/lib.rs:1489-1506 | the relaxed comparison pins models and slots if and only if the expected GPUs differ in more than their address range |
| Identity.ComparesExactly | crates/nvstraps-deploy/src/lib.rs:1438-1508 | nothing differs exactly if board, BIOS vendor, models and slots are the same, and the BIOS revision unless a firmware transition is allowed, and the ranges if no change is; where a change is allowed, for GPUs that differ in more than their address range |
| Identity.SameTextMeans | crates/nvstraps-deploy/src/lib.rs:1416-1429 | two texts compare as the same exactly if they are alike letter by letter, up to the case of ASCII letters; the identity theorems speak of that |
| Identity.NormalizedMeans | crates/nvstraps-deploy/src/lib.rs:142-166 | an identity can be pinned exactly if no text is blank, there is a GPU and each is usable; texts then lose the white space around them, GPUs their order and repetitions |
| DeploymentPlan.ValidateSteps | crates/nvstraps-deploy/src/lib.rs:1158-1206 | the loop accepts exactly the plans whose first steps are completed on evidence that proves them, the next one ready, the rest pending |
| DeploymentPlan.ValidateFor | crates/nvstraps-deploy/src/lib.rs:1131-1207 | a plan passes exactly if it is the profile's canonical list in that shape |
| DeploymentPlan.BuiltIsFresh | crates/nvstraps-deploy/src/lib.rs:891-982 | the built plan is canonical, with nothing completed, at revision zero |
| DeploymentPlan.CompleteAdvances | crates/nvstraps-deploy/src/lib.rs:1058-1097 | completing succeeds exactly for the one ready step with proving evidence, moves "ready" on by one, and changes nothing else |
| DeploymentPlan.CompleteExtends | crates/nvstraps-deploy/src/lib.rs:1067-1097 | what was completed stays completed on the same evidence |
| DeploymentPlan.TrimIsTrimmed | crates/nvstraps-deploy/src/lib.rs:843-861 | stored evidence text rebuilds to itself |
| PlanStore.DeploymentStore.SavePlan | crates/nvstraps-deploy/src/store.rs:1003-1061 | looks, then renames into what the files are by then: an equal file found is accepted, a different one is a conflict, an invalid plan never lands, and a landing replaces what others stored since the look |
| PlanStore.DeploymentStore.LoadPlan | crates/nvstraps-deploy/src/store.rs:247-284 | the scan in any order returns the stored plan of the highest revision and fails only on no plan or an unreadable file |
| PlanStore.DeploymentWorkflow.RecordStep | crates/nvstraps-deploy/src/workflow.rs:35-45 | the plan in hand moves on exactly if the save of its next revision reported success, and is the plan it saved |
| PlanStore.RecordingKeepsHistory | crates/nvstraps-deploy/src/workflow.rs:3-45 | recording from any stored revision, however old, while others add to the history, keeps it one line and changes nothing stored, exactly unless the rename displaces what another worker stored for that revision since the look |
| PlanStore.HistoryStaysLinear | crates/nvstraps-deploy/src/store.rs:237-284 | from the empty store, over every interleaving of workers that look, land and leave: the revisions stay one line with nothing lost exactly when no worker lands other contents than another one landed for that revision since its look; then every worker holds a revision of that line |
| PlanStore.NoFork | crates/nvstraps-deploy/src/store.rs:1003-1061 | a worker that looks after a revision was stored is turned away with different evidence, whatever happens in between short of an overwrite |
| PlanStore.OverwriteSplitsHistory | crates/nvstraps-deploy/src/store.rs:1003-1061 | an overwrite loses a revision a worker was told is stored, and leaves one line of history exactly if nothing was recorded on top of it yet |
| PlanStore.TwoPreparationsLoseOne | crates/nvstraps-deploy/src/store.rs:1003-1061 | from the empty store of any profile with plain texts, two preparations with different drivers can leave stored revisions that are not one line |
| WorkflowRuns.Anchor | src-tauri/src/deployment.rs:434-442 | commands compare against the profile until the first boot is recorded, then against the latest recorded boot |
| WorkflowRuns.ActiveStep | src-tauri/src/deployment.rs:443-453 | the allowed change is the firmware transition in the flash, setup and first-boot window, relocation at the configuration restart, nothing elsewhere |
| WorkflowRuns.AdmittedRelates | src-tauri/src/deployment.rs:395-454 | what the identity gate lets through relates to the expected identity as its segment of the plan says |
| WorkflowRuns.AdmitsExactly | src-tauri/src/deployment.rs:395-454 | the gate lets a machine through if and only if the built-in profile stands, the kept firmware is intact and the machine's identity relates to the expected one as its segment of the plan says; it hands on that identity and those devices |
| WorkflowRuns.CollectedMeans | src-tauri/src/machine.rs:27-46 | what the firmware texts and devices of a machine give as its identity, and when they give one |
| WorkflowRuns.CommandKeepsEvidence | src-tauri/src/deployment_workflow.rs:169-359 | every command, accepted, refused or cut short by the disk, leaves a later plan with steps in order, the revision counting them, and evidence meaning what was checked, whatever the GPUs are |
| WorkflowRuns.CommandKeepsAnchors | src-tauri/src/deployment.rs:395-454 | every command keeps the recorded boots those of the pinned machine, where its GPUs differ in more than their address range |
| DeploymentRuns.IdentityOverRun | src-tauri/src/deployment.rs:395-454 | for any two admitted commands of any run: board, BIOS vendor, models and slots are the pinned ones; BIOS revision and address ranges differ only across the windows that allow it |
| DeploymentRuns.CollectedPartsAreDistinct | src-tauri/src/machine.rs:27-46 | a profile pinned from GPUs at distinct locations meets the condition of that theorem |
| DeploymentRuns.ReachablePlans | crates/nvstraps-deploy/src/lib.rs:1067-1097 | in every reachable plan steps are completed in order and once, the revision counts them, the driver step proves the driver loaded, and the configuration restart is later than the recorded save |
| DeploymentRuns.OnlySaveWrites | src-tauri/src/deployment_workflow.rs:169-199 | of all commands only the guarded save can write a configuration |
| DeploymentRuns.ConfigWrittenAfterDriver | src-tauri/src/deployment_workflow.rs:169-212 | a configuration is written only with its step active, the driver proven loaded, the inventory unchanged, and the draft the recommended one |
| DeploymentRuns.OnlySaveTouchesConfig | src-tauri/src/deployment_workflow.rs:169-199 | no other command, and no save at another step, changes the variable or the backend copy |
| DeploymentRuns.DriverVerificationConverges | src-tauri/src/deployment_workflow.rs:254-308 | driver verification succeeds only from its two entry steps and ends in the same place from either, with the status it read on record |
| DeploymentRuns.DriverVerificationSucceeds | src-tauri/src/deployment_workflow.rs:254-308 | from any plan in shape, an admitted driver verification succeeds exactly if an entry step is active, eight status bytes prove the driver loaded, the boot can be dated and the disk takes its one or two records |
| DeploymentRuns.RebootVerificationSucceeds | src-tauri/src/deployment_workflow.rs:310-359 | from any plan in shape, an admitted reboot verification succeeds exactly if the configuration restart is the active step, a save time is on record, Windows booted strictly later, and the disk takes the record |
| DeploymentRuns.RebootVerificationLeaves | src-tauri/src/deployment_workflow.rs:310-342 | it then leaves that boot with the identity seen as the next evidence, and all earlier evidence as it was |
| CommandOutcomes.GateComesFirst | src-tauri/src/deployment.rs:395-432 | a command the gate does not let through changes nothing |
| CommandOutcomes.SavingSucceeds | src-tauri/src/deployment_workflow.rs:169-199 | the guarded save goes through if and only if its step is active, the inventory is unchanged, the draft is the recommended one, the write went through and the disk takes the record |
| CommandOutcomes.SavingLeaves | src-tauri/src/deployment_workflow.rs:169-199 | it then leaves the time of that save as the next evidence, and otherwise the plan as it was |
| CommandOutcomes.RestartIsAfterItsSave | src-tauri/src/deployment_workflow.rs:310-359 | over every run, a completed configuration restart is a boot later than the time of a guarded save that went through in that run, which is the time on record |
| CommandOutcomes.ManualSucceeds | src-tauri/src/deployment_workflow.rs:214-252 | an operator's confirmation goes through if and only if it was given, its step is active and an operator step, its token names step, profile and revision, and a flash has its artifacts and route |
| CommandOutcomes.ManualLeaves | src-tauri/src/deployment_workflow.rs:214-252 | it then leaves that step attested at that time, and otherwise the plan as it was |
| CommandOutcomes.BarEvidenceRecorded | src-tauri/src/resizable_bar_commands.rs:54-75 | the observed sizes are recorded under their digest exactly while their step is active |
| CommandOutcomes.DriverVerificationLeaves | src-tauri/src/deployment_workflow.rs:254-298 | entered before the firmware boot is on record, driver verification records that boot with the identity it saw |
| CommandOutcomes.ProvisioningLeaves | crates/nvstraps-deploy/src/store.rs:156-188 | provisioning goes through exactly if the open texts stand as they are and the disk takes them, and leaves the first three steps on the profile's id, recovery note and original firmware |
| CommandOutcomes.CompletedStepsStandOn | crates/nvstraps-deploy/src/lib.rs:1209-1230 | in a plan in shape the first three steps stand on the profile's own values, prepared images on a digest, restarts on a dated boot, each with the evidence of its step |
| Commands.Backend.LoadExactDeployment | src-tauri/src/deployment.rs:395-432 | loads the latest stored plan and admits exactly the machines the value model admits, a built-in legacy profile that no longer stands turned away first |
| Commands.Backend.Provision | crates/nvstraps-deploy/src/store.rs:156-188 | stores the first plan where there is none yet, and then the loop records each of the first three steps still open, one durable revision at a time |
| Commands.Backend.ConfirmManualStep | src-tauri/src/deployment_workflow.rs:214-252 | on store and state, ends where the value model does |
| Commands.Backend.VerifyDeploymentDriver | src-tauri/src/deployment_workflow.rs:254-298 | on store and state, ends where the value model does, including a disk failure between its two records |
| Commands.Backend.SaveDeploymentConfig | src-tauri/src/deployment_workflow.rs:169-199 | on store, backend copy and variable, ends where the value model does, also if the write landed and the record failed |
| Commands.Backend.VerifyReboot | src-tauri/src/deployment_workflow.rs:310-342 | on store and state, ends where the value model does |
| Commands.Backend.CollectNvidiaSmiEvidence | src-tauri/src/resizable_bar_commands.rs:54-75 | records the evidence digest exactly when its step is active |
| Commands.DecideManualStep | src-tauri/src/deployment_workflow.rs:214-238 | the checks in the command's order let through exactly the active operator step, confirmed, with the token of this profile, step and revision |
| Commands.DecideSave | src-tauri/src/deployment_workflow.rs:174-181 | the write goes ahead exactly with its step active, the inventory unchanged and the draft recommended |
| Resumption.WritesResume | src-tauri/src/deployment.rs:485-490 | "persist, then record" cut off anywhere is finished by doing it again |
| Resumption.InjectionStageResumes | src-tauri/src/deployment.rs:541-629 | so is the injection stage, and what it leaves passes its own later validation |
| Resumption.BothLawful | src-tauri/src/deployment.rs:456-629 | two resumable stages in a row are a resumable stage |
| Resumption.PreparationResumes | src-tauri/src/deployment.rs:456-629 | cut off after any number of durable writes and run again with the same driver, preparation ends with the result, plan and artifacts of an uninterrupted run |
| Resumption.AnyCutsResume | src-tauri/src/deployment.rs:456-629 | the same after any number of cuts |
| Resumption.FinishedPreparationIsStable | src-tauri/src/deployment.rs:722-822 | a finished preparation run again, with whatever driver is bundled, returns the same result and changes neither plan nor artifacts |
| Resumption.OtherDriverOnceRecorded | src-tauri/src/deployment.rs:465-476 | once the driver step is recorded, the bundled driver makes no difference |
| Resumption.OtherDriverBeforeRecord | src-tauri/src/deployment.rs:477-492 | a different driver after a cut between persisting and recording is refused with nothing changed |
| PreparationOutcome.PreparedFirmwareIsRight | src-tauri/src/deployment.rs:456-629 | however a preparation got through, the disk holds a valid driver, on a legacy board the patched firmware the authority stands by, and the base firmware with that very driver injected; each recorded step and the result name the digests of what is there, and the receipts decode to them |
| PreparationOutcome.NotDueWritesNothing | src-tauri/src/deployment.rs:477-480 | a stage whose step is neither completed nor active writes nothing |
| PreparationOutcome.FreshDriver | src-tauri/src/deployment.rs:477-492 | a driver stage that does its step takes the bundled driver, and only a valid one |
| PreparationOutcome.FreshLegacy | src-tauri/src/deployment.rs:496-530 | a legacy stage that does its step takes what the patcher makes of the original's payload, with a receipt for those bytes |
| PreparationOutcome.FreshInjection | src-tauri/src/deployment.rs:571-600 | an injection that would take the driver twice is refused before anything is written |
| Preparer.Pipeline.PreserveArtifact | crates/nvstraps-deploy/src/store.rs:295-320 | an artifact is written once; equal bytes are accepted, others are a conflict |
| Preparer.Pipeline.PrepareDriver | src-tauri/src/deployment.rs:465-492 | the first stage on mutable state, write by write |
| Preparer.Pipeline.ApplyLegacyPatches | src-tauri/src/deployment.rs:494-539 | the legacy stage on mutable state, write by write |
| Preparer.Pipeline.InjectDriver | src-tauri/src/deployment.rs:541-629 | the injection stage on mutable state, write by write |
| Preparer.Pipeline.PrepareFromBytes | src-tauri/src/deployment.rs:456-629 | the whole pipeline leaves the disk and returns the result of the value model wherever it is cut off |
| PreparationRuns.PreparationIsACommand | src-tauri/src/deployment.rs:349-353 | however preparation ends, its plan is one the preparation command of a run leaves: the open steps recorded in plan order |
| PreparationRuns.PreparationStaysSound | src-tauri/src/deployment.rs:456-629 | so the pipeline itself keeps both invariants the run theorems rest on |
| Handoff.Client.RecordFirmwareHandoff | src/deployment-workspace/verification-actions.ts:76-116 | the loop of previews and confirmations ends, and completes steps, exactly as the recursive description |
| Handoff.ConfirmsItsToken | src-tauri/src/deployment_workflow.rs:214-252 | a confirmation that goes through completed the step of its token in a plan at the token's revision |
| Handoff.PreviewMeans | src-tauri/src/deployment_workflow.rs:406-429 | a preview is given exactly while the machine is the expected one and an operator step is active, a flash only with its artifacts and route; it is for that step, profile and stored revision |
| Handoff.ConfirmIsTheCommand | src-tauri/src/deployment_workflow.rs:214-252 | confirming through the client is the confirmed command of the workflow model |
| Handoff.PreviewThenConfirm | src-tauri/src/deployment_workflow.rs:406-431 | a preview confirmed while nothing moved goes through |
| Handoff.BackendIsHonest | src-tauri/src/deployment_workflow.rs:406-431 | the backend's calls meet all the client relies on |
| Handoff.HandoffStaysWithinReview | src/deployment-workspace/verification-actions.ts:76-116 | however the stored plan moves, only the shown step at the reviewed revision and, when asked, the one right after it are completed, and success is reported only for all of that |
| Handoff.MovedPlanFails | src/deployment-workspace/workflow-operations.ts:17-49 | a plan that moved before either call makes the hand-off fail there with nothing recorded |
| Handoff.StalePreviewStops | src/deployment-workspace/verification-actions.ts:92-102 | a hand-off no longer current after its preview records nothing and reports no success |
| SessionHandoff.SessionTakesTheTurns | src/deployment-workspace/verification-actions.ts:76-116 | a hand-off started in any session, with any other intents and replies between its calls, completes a first part of what the client's loop completes, all of it once it settled, and settles with an error exactly if the loop fails |
| SessionHandoff.SessionStaysWithinReview | src/deployment-workspace/verification-actions.ts:76-116 | so in a session, too, only the shown step at the reviewed revision and, when asked, the one right after it are completed |
| SessionSlot.SlotOverRun | src/deployment-workspace/session.ts:193-234 | until disposal at most one current operation is pending, it is the one in flight, and one is in flight exactly while an action is shown as busy, whatever order replies come in |
| SessionSlot.OpenedHasSlot | src/deployment-workspace/session.ts:110-115 | a new session starts in that state |
| SessionSlot.LateReplyIsInert | src/deployment-workspace/session.ts:110-191 | a reply to work started before the latest selection or disposal changes neither session state nor reboot binding and starts nothing; a hand-off makes no further call |
| SessionSlot.LateFinallyIsInert | src/deployment-workspace/session.ts:226-231 | a late `finally` changes nothing, except that after disposal it may free the slot and the busy mark |
| SessionSlot.LateRepliesDoNotMatter | src/deployment-workspace/session.ts:193-234 | late replies can be left out of any run: the session ends in the same state, binding and current work |
| SessionRuns.PlanBelongsToSelection | src/deployment-workspace/session.ts:110-191 | in every run where no creation finishes before the first listing, a shown plan belongs to the selected profile at every moment |
| SessionRuns.PlanBelongsExactly | src/deployment-workspace/session.ts:110-191 | over every run of a new session, plan and selection agree at every moment if and only if no current listing arrives while a plan is shown and picks another record |
| SessionRuns.ListingBesideAPlan | src/deployment-workspace/session.ts:116-126 | a listing that finds a plan shown leaves it, and the two agree exactly if the listing picks that plan's profile |
| SessionRuns.EarlyCreationMixesProfiles | src/deployment-workspace/profile-source-actions.ts:115-141 | a concrete run in which an early creation leaves plan and selection apart |
| SessionDrafts.SavesWereReviewed | src/deployment-workspace/session.ts:245-299 | over every run, with any number of overlapping requests, each save carries a draft requested for the profile and revision it is sent for and confirmed since that request |
| SessionDrafts.SaveIsForThePlanShown | src/deployment-workspace/verification-actions.ts:189-239 | those are the profile and revision held at that moment, under a confirmation in force or given by that click |
| SessionReviews.SavesWhatWasReviewed | src/deployment-workspace/session.ts:245-299 | over every run, a save carries exactly the draft on screen when the confirmation in force was given, if and only if no recommendation was put on screen between that confirmation and the save |
| SessionReviews.BookIsKept | src/deployment-workspace/session.ts:271-299 | what that is counted with: the count grows exactly with each recommendation put on screen, and the draft and count are noted exactly with each confirmation |
| SessionReviews.OlderAnswerIsSaved | src/deployment-workspace/session.ts:271-284 | a run of a new session that ends by saving a draft other than the one confirmed |
| SessionRestarts.RestartsWereReviewed | src/deployment-workspace/firmware-deployment-actions.ts:95-163 | over every run, a firmware restart is requested if and only if the slot is free and the plan on screen is still the one, at its revision and step, that the latest fitting preview since the last selection was asked for; it carries that preview's token, the one on screen |
| SessionEffects.PickMeans | src/deployment-workspace/session.ts:118-122 | the record picked is the one last worked on if listed, else the first |
| SessionEffects.ListingTakesHold | src/deployment-workspace/session.ts:110-147 | when a listing takes hold, and what it shows and loads |
| SessionEffects.SelectionStartsAfresh | src/deployment-workspace/session-state.ts:80-104 | a selection leaves the state of a new session but for selection, form and the count of creations, frees the slot, forgets the reviewed restart and loads the plan |
| SessionEffects.PlanTakesHold | src/deployment-workspace/session.ts:161-191 | a loaded plan is shown exactly if its selection is still in force, and a recommendation is sought then |
| SessionEffects.RecommendationIsSought | src/deployment-workspace/session.ts:245-265 | the shown recommendation and its confirmation are withdrawn, and a new one is asked for exactly while the write step is active |
| SessionEffects.DraftTakesHold | src/deployment-workspace/session.ts:271-299 | a recommendation is shown exactly if neither a selection nor another plan came in between |
| SessionEffects.AskingAgain | src/deployment-workspace/session.ts:245-265 | asking again makes one request exactly while the write step is active |
| SessionEffects.LocalIntents | src/deployment-workspace/session-state.ts:106-175 | form, dialog and confirmation intents touch nothing else, and no intent acts after disposal |
| SessionEffects.OfferedMeans | src/deployment-workspace/verification-actions.ts:123-234 | which requests never reach the slot |
| SessionEffects.SaveIsSent | src/deployment-workspace/verification-actions.ts:190-240 | a save is sent if and only if the confirmed recommendation is for the very plan shown and the slot is free |
| SessionEffects.OperationShows | src/deployment-workspace/session.ts:193-205 | what an operation shows when it gets the slot, and what one that is turned away leaves |
| SessionEffects.ReceiptTakesHold | src/deployment-workspace/verification-actions.ts:123-222 | what a receipt or a failure of a plan-advancing call shows, exactly while current |
| SessionEffects.OpeningReceiptTakesHold | src/deployment-workspace/verification-actions.ts:123-222 | a receipt that may open the write step also withdraws the recommendation and seeks a new one |
| SessionEffects.CreationTakesHold | src/deployment-workspace/profile-source-actions.ts:115-141 | a creation selects its profile and shows its plan together, exactly while current |
| SessionEffects.ChainGoesOn | src/deployment-workspace/firmware-deployment-actions.ts:75-93 | when a chain of calls goes on, and what its replies show |
| SessionEffects.FailureIsShown | src/deployment-workspace/session.ts:213-225 | a failure is shown exactly while its operation is current |
| Session.DeploymentSession.LoadRecommendation | src/deployment-workspace/session.ts:245-265 | the stretch before the request clears the confirmation and is the machine's step |
| Session.DeploymentSession.LoadPlan | src/deployment-workspace/session.ts:161-171 | the stretch before the request is the machine's step |
| Session.DeploymentSession.SelectProfile | src/deployment-workspace/session.ts:149-156 | a selection bumps the generation, frees the slot, resets the projection and starts one load |
| Session.DeploymentSession.ProfilesListed | src/deployment-workspace/session.ts:110-147 | the listing's continuation, current, stale or failed |
| Session.DeploymentSession.PlanReplied | src/deployment-workspace/session.ts:172-190 | the plan's continuation, current, stale, for another selection or failed |
| Session.DeploymentSession.DraftReplied | src/deployment-workspace/session.ts:271-298 | the recommendation's continuation |
| Session.DeploymentSession.Run | src/deployment-workspace/session.ts:193-234 | an operation is turned away while the slot is taken, and otherwise takes it in the same stretch |
| Session.DeploymentSession.ReceiptReplied | src/deployment-workspace/verification-actions.ts:123-222 | what a plan-advancing reply patches, and when it loads a recommendation |
| Session.DeploymentSession.CreationReplied | src/deployment-workspace/profile-source-actions.ts:115-141 | a creation moves selection and plan together, if still current |
| Session.DeploymentSession.RebootPreviewReplied | src/deployment-workspace/firmware-deployment-actions.ts:95-129 | the binding is set only from a fitting preview of a current operation |
| Session.DeploymentSession.OtherReplied | src/deployment-workspace/firmware-deployment-actions.ts:75-93 | a chain of calls stops where its guard finds it stale |
| Session.DeploymentSession.HandoffPreviewReplied | src/deployment-workspace/verification-actions.ts:92-101 | a stale hand-off makes no confirmation call |
| Session.DeploymentSession.HandoffReceiptReplied | src/deployment-workspace/verification-actions.ts:102-114 | a current receipt becomes the shown plan and the next target is looked for |
| Session.DeploymentSession.Finally | src/deployment-workspace/session.ts:226-231 | frees the slot only if it is still this operation's |
| Session.DeploymentSession.Dispatch | src/deployment-workspace/session.ts:75-86 | every intent is the machine's step, and none acts after disposal |
| Session.DeploymentSession.Reply | src/deployment-workspace/session.ts:110-299 | every reply to anything pending is the machine's step |
| Session.DeploymentSession.Dispose | src/deployment-workspace/session.ts:93-97 | disposal is the machine's step |
| ExternalBoot.BlockReasons | src/external-boot/model.ts:34-41 | each reason is listed once, exactly when it applies, and none exactly when the machine is not blocked |
| ExternalBoot.PreviewBridge.PrepareDiagnostic | src/external-boot/preview-bridge.ts:106-119 | ends in the machine, reports and clock of the value model |
| ExternalBoot.PreviewBridge.WriteLoader | src/external-boot/preview-bridge.ts:121-139 | the checks in order, then the loader stage, as in the value model |
| ExternalBoot.PreviewBridge.MakePermanent | src/external-boot/preview-bridge.ts:140-146 | only an installed loader with a receipt becomes the first entry |
| ExternalBoot.PreviewBridge.Remove | src/external-boot/preview-bridge.ts:147-153 | medium and report go together |
| ExternalBoot.PreviewBridge.SaveCertificate | src/external-boot/preview-bridge.ts:154-158 | goes through exactly if the first drive with that root has a FAT file system, and is unavailable exactly if there is no such drive |
| ExternalBoot.PreviewBridge.Restart | src/external-boot/preview-bridge.ts:159-201 | all media see the restart, only the active route is booted |
| ExternalBoot.OnAfterWrite | src/external-boot/preview-bridge.ts:65-75 | writing to one medium changes that medium and no other |
| ExternalBoot.RestartStaysSound | src/external-boot/preview-bridge.ts:159-201 | a restart keeps the invariant whatever stage is booted |
| ExternalBoot.SoundOverRun | src/external-boot/preview-bridge.ts:104-201 | in every run "restarted" holds exactly if Windows booted after the stage was written, "report" exactly if one is stored, and a receipt exists only for a restarted loader whose size its report offers without error |
| ExternalBoot.ResultScreenMeansBootedLoader | src/external-boot/model.ts:20-32 | the result screen appears exactly for a receipt on the active route not yet made permanent, and in a run that means a loader booted since it was written |
| ExternalBootSteps.WriteProblemMeans | src/external-boot/preview-bridge.ts:55-63 | a medium may be written exactly if it is there, takes files and Secure Boot is off or ready |
| ExternalBootSteps.DiagnosticWritten | src/external-boot/preview-bridge.ts:106-119 | when a diagnostic goes onto a medium, and that it alone changes, to a fresh unreported one |
| ExternalBootSteps.OffersMeans | src/external-boot/preview-bridge.ts:121-128 | a report offers a size exactly if its entry for the GPU is not refused and that entry's line for the size has no error |
| ExternalBootSteps.LoaderWritten | src/external-boot/preview-bridge.ts:121-139 | when a loader goes onto a medium, and that it alone changes, to that loader with its plan and the report |
| ExternalBootSteps.PermanentMade | src/external-boot/preview-bridge.ts:140-146 | exactly an installed loader that has left a receipt becomes the first entry, the diagnostic's entry goes, and the screen says so |
| ExternalBootSteps.RemovalTouches | src/external-boot/preview-bridge.ts:147-153 | removing leaves nothing of the medium's own and everything else |
| ExternalBootSteps.RouteMeans | src/external-boot/model.ts:14-18 | the active medium is the system partition if anything is staged there, else the first drive with something staged |
| ExternalBootSteps.RestartDoes | src/external-boot/preview-bridge.ts:159-201 | when a restart is refused, what every medium shows of it, and that only the active medium's stage runs and what it leaves |
| ExternalBootSteps.ScreenMeans | src/external-boot/model.ts:20-32 | which screen a machine is shown, each under its exact condition |

## Left out

- DeploymentRuns.IdentityOverRun: stated for profiles whose GPUs differ in more than their address range, which every profile pinned from distinct locations satisfies (DeploymentRuns.CollectedPartsAreDistinct); without it the code's comparison does not pin the models (Identity.RelaxedTopologyPinsExactly).
- DeploymentRuns.ReachablePlans: takes each command as one step between loading and its last record; several workers recording at once are PlanStore.HistoryStaysLinear.
- SessionSlot.LateReplyIsInert: promises no further adapter call for everything but the chains of unguarded calls that only fill in form fields, because the source does make those calls.
- SessionRuns.PlanBelongsExactly: stated for listings whose profile ids are not empty strings, which every stored profile has.
- Handoff.HandoffStaysWithinReview: bounds what is completed; that the backend may complete a step whose reply then finds the client moved on is in the model, since the source cannot undo it.
- WorkflowRuns.CommandKeepsAnchors: under the same condition on GPUs as DeploymentRuns.IdentityOverRun.
- WorkflowRuns.AdmitsExactly: under the same condition; for the exact comparison alone Identity.ComparesExactly needs none.
- SessionRestarts.RestartsWereReviewed: that a preview fits the plan it was asked for is part of its reply, because the backend's answer is not modelled.
- Commands.Backend.Provision: starts from a store whose revisions are one line, possibly none; a store with unreadable files is refused by PlanStore.DeploymentStore.LoadPlan before anything is recorded.
- PlanStore.TwoPreparationsLoseOne: gives one losing run for each profile; PlanStore.HistoryStaysLinear says exactly which runs lose.
- SessionReviews.SavesWhatWasReviewed: stated with three fields of the model that the program does not have, which only count and note what was shown and confirmed.
- SHA-256 is a collision-free constructor over its bytes; hash prefixes, hexadecimal text and file hashing are not modelled.
- The built-in size list is a parameter, any function of the device id; so are the operating system, firmware, clock and registry calls, each of which may fail.
- A device id is its PCI location printed as text (`src-tauri/src/devices.rs:257`) and is modelled as that location.
- FFS injection, legacy patching, receipt encoding and the patch authority are functions of their inputs that encode what they decode and stand by the receipts they issue; nothing is said about their insides.
- A temporary file is written whole or not at all; temporary names, directory creation and file-system errors other than "it did not happen" are left out.
- The confirmation token is the triple of step, profile and revision that its text is printed from; upper-casing of the profile id is not modelled.
- Evidence texts are modelled by what they are read as (digest, boot observation, status, time); their formats, step titles, step kinds, schema versions and the unused roll-back of a plan are left out, as is the normalisation of BIOS dates.
- Error payloads and user-facing messages are dropped; which error arises is kept.
- In the session, form fields and the remaining projection are opaque values, replies carry the profile id that was asked for, listeners do not re-enter, adapter calls other than saves, restarts and the two of a hand-off are one kind, and an operation that waits for a recommendation may resume at any time.
- In the external-boot preview, drives have distinct roots, the report a diagnostic leaves is a parameter, and plan details beyond target and size are dropped.
- The expansion switch, change lists, size texts and the validation report of the settings screen are settled by reading one expression each.
- Package export, profile requests, hardware catalog, the UEFI driver and loader binaries, S3 probing and all screens are not part of this model.
- A save is not atomic against writers outside the application: the code reads the token and writes later.
