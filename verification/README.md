# StackWarden: model and proofs

StackWarden resolves a hardware profile and a stack into a build plan, executes the
plan under a lock, keeps a catalog of artifacts, and runs builds as cancellable
background jobs whose events a web client follows. This project models the logic of
five connected parts and proves what they keep, where they agree, and exactly where
they do not.

* **Composition** (`Specs`, `Validation`, `PipConstraints`, `Composition`, `LastWriter`,
  `CompositionLaws`, `ConflictReports`, `ReportEntries`, `CompositionTheorems`,
  `ComposedStack`, `ComposedParts`, `Environment`, `OrderTheorems`, `PipChains`, `CompositionExamples`,
  `Composer`): merging layers into a stack, and the three reports that predict it.
* **Resolution** (`Profiles`, `Ordering`, `Hashing`, `Fingerprints`, `Selection`, `Scoring`, `Rules`, `Compatibility`,
  `Requirements`, `CompatibilityTheorems`, `VerdictReports`, `CudaVersions`, `BuildOptimization`, `Labels`, `Resolver`,
  `ResolverTheorems`, `Ensure`): verdicts, base image, fingerprint, tag, labels and parallelism.
* **Artifact lifecycle** (`Catalog`, `Drift`, `Executor`, `ExecutorTheorems`, `ExecutionSteps`,
  `BuildRecords`, `Verify`, `VerifyReports`, `Locking`, `Lifecycle`, `LifecycleTheorems`, `Overlaps`): the table, one execution step by step,
  and all executions interleaved.
* **Jobs** (`JobStore`, `JobProtocol`, `JobOutcomes`, `FanOut`, `FanOutTheorems`, `LogTail`, `LogCuts`, `Admission`): the job state
  machine, event queues, log following and memory admission.
* **Event stream** (`EventStream`, `EventStreamStandard`): the client's incremental parser.

Code that works on values is modelled by functions. Code that changes things step by
step is modelled by classes and loops, each proved equal to a specification function,
and the properties are proved about that function or about the transition system built
from it.

Conventions. SHA-256 over canonical JSON is a function on payloads, injective where a
result needs it. Memory is counted in hundredths of a GB. Each catalog or job-table
call is one atomic step. The `packaging` library, the JSON codec of variants, the
hardware id tables, digests, cancel answers, builder outcomes, capture files, clocks
and fresh ids are parameters.

What the proofs found:

* A stack that received tuple hints fails verification right after its build, because
  the fingerprint uses the hinted stack while the executor snapshots the one it was
  called with (`Verify.FreshBuildVerifiesIff`).
* A failed row with a live image is returned instead of being rebuilt
  (`ExecutorTheorems.ServedAsItEnded`).
* `find_unused` documents protection per profile, stack and variant, but rows never
  carry a variant, so it protects one row per profile and stack. That is the same
  exactly where no pair has built rows of two variants; two overlapping variant builds
  leave the newest row of one of them unprotected (`Overlaps.ProtectsEachVariantIff`,
  `Overlaps.PruningProtectsVariantsIff`, `Overlaps.OverlapLosesAVariant`). The model
  follows the code.
* Two variants of one profile and stack built at once both end up active
  (`Overlaps.OneActivePerPairIff`).
* The fingerprint does not see the entrypoint, variant definitions or schema versions
  (`Hashing.FingerprintsEqualIff` lists all it sees).
* A subscriber leaves at a cancel without the runner's last status
  (`FanOutTheorems.LeaverMissesNothingIff`).
* An explanation can change the plan when a base image is listed twice
  (`ResolverTheorems.ExplainIsHarmlessIff`).
* CUDA 12.10 fails a minimum of 12.4 (`CudaVersions.TupleMinimumRightIff`).
* Pip pins are compared as texts and only with their neighbours
  (`PipConstraints.WildcardVerdict`, `PipChains.ChainIsPairwiseIff`).
* Rebuilding the job manager under a live build turns a failed job succeeded
  (`JobProtocol.ResurrectionRun`).
* The retry of a failed job ignores the memory budget (`Admission.RetryStaysWithinIff`).
* A poll in mid-line tears a log line (`LogCuts.PublishedAreTheLinesIff`).
* The event parser keeps an event type across a blank line when no data came with it
  (`EventStreamStandard.TypeLeaks`).

## Model

| member | source | states |
|---|---|---|
| Specs.PipValidationNormalises | packages/stackwarden/src/stackwarden/domain/models.py:166-175 | A validated pip dependency is `latest` exactly when it has no version, validating again changes nothing, and only blank custom versions are refused. |
| Specs.ComponentsValidationSettles | packages/stackwarden/src/stackwarden/domain/models.py:227-249 | Component validation settles: a validated value validates to itself. |
| Validation.StripOf | packages/stackwarden/src/stackwarden/domain/models.py:227-249 | Stripping takes all whitespace from both ends of a text and nothing else; it leaves nothing exactly of a blank one. |
| Validation.PipAccepted | packages/stackwarden/src/stackwarden/domain/models.py:166-175 | A pip package is accepted if and only if its version is not blank, or missing where the mode is not custom; its mode then says whether it has one, and nothing else changes. |
| Validation.NpmAccepted | packages/stackwarden/src/stackwarden/domain/models.py:195-203 | The same of an npm package. |
| Validation.ComponentsAccepted | packages/stackwarden/src/stackwarden/domain/models.py:227-249 | Components are accepted if and only if apt constraints are of listed packages and of one line, pin_only leaves no package without one, and a wheelhouse in use has a path; only that path is changed. |
| Validation.LockfileFound | packages/stackwarden/src/stackwarden/domain/models.py:294-300 | A path to one of the three lockfiles is recognised, with slashes of either kind and any number of them at its end. |
| Validation.LockfileIs | packages/stackwarden/src/stackwarden/domain/models.py:294-300 | And nothing else is. |
| PipConstraints.CompatibleSymmetric | packages/stackwarden/src/stackwarden/domain/composition.py:60-92 | The pip compatibility verdict does not depend on which declaration came first. |
| PipConstraints.RejectionIsSound | packages/stackwarden/src/stackwarden/domain/composition.py:60-92 | A rejection between exact, uniformly spelled pins means no version satisfies both specifiers under PEP 440 matching. |
| PipConstraints.SinglePinVerdict | packages/stackwarden/src/stackwarden/domain/composition.py:71-75 | For two single exact pins the verdict is right if and only if the texts are equal, the public parts differ, or the local labels clash. |
| PipConstraints.PinRangeVerdict | packages/stackwarden/src/stackwarden/domain/composition.py:60-92 | A single exact pin against a range is accepted if and only if the range admits its version; an acceptance is always right, and without a local label so is a rejection. |
| PipConstraints.UncheckedPass | packages/stackwarden/src/stackwarden/domain/composition.py:60-92 | An open version and two ranges always pass, and the check fails exactly on a written specifier that does not parse. |
| PipConstraints.WildcardVerdict | packages/stackwarden/src/stackwarden/domain/composition.py:60-92 | A single wildcard pin against a single exact pin is always rejected; some version satisfies both, and the rejection is wrong, if and only if the exact version matches the wildcard. |
| PipConstraints.TwoWildcardsVerdict | packages/stackwarden/src/stackwarden/domain/composition.py:60-92 | Two differently written wildcard pins are rejected; some version satisfies both if and only if one release prefix continues the other. |
| PipConstraints.WildcardFalseAlarm | packages/stackwarden/src/stackwarden/domain/composition.py:71-75 | Such an input: `==1.*` against `==1.2` is rejected although 1.2 satisfies both. |
| CompositionLaws.MergePipOutcome | packages/stackwarden/src/stackwarden/domain/composition.py:95-117 | Merging pip succeeds exactly when every declaration is compatible with the one it replaces, and then the last declaration per name is kept. |
| CompositionLaws.MergeNpmOutcome | packages/stackwarden/src/stackwarden/domain/composition.py:120-143 | Merging npm fails exactly when a custom version replaces a different custom version; otherwise the last declaration per key is kept. |
| CompositionLaws.ConsumeAllOutcome | packages/stackwarden/src/stackwarden/domain/composition.py:449-503 | Consuming all layers and the recipe succeeds exactly when pip and npm declarations chain, and then every accumulator is the in-order last-writer result. |
| ConflictReports.PushPartsOutcome | packages/stackwarden/src/stackwarden/domain/composition.py:146-272 | The dependency report has a pip or npm error exactly when the merge would fail, and no pip or npm entry exactly when no declaration is ever replaced by a different one. |
| ConflictReports.PushRuntimesOutcome | packages/stackwarden/src/stackwarden/domain/composition.py:322-413 | The runtime report lists an env, entrypoint or base-role entry exactly when a later value differs from the one it replaces. |
| CompositionTheorems.ComposeSucceedsIff | packages/stackwarden/src/stackwarden/domain/composition.py:416-547 | Composition succeeds if and only if layer references are distinct and known, the dependency report has no pip or npm error, and a pin_only recipe has a constraint for every merged apt package. |
| CompositionTheorems.ReportOutcome | packages/stackwarden/src/stackwarden/domain/composition.py:146-272 | The report predicts the merge: no hard conflict exactly when all declarations chain. |
| ComposedStack.ComposedStackIs | packages/stackwarden/src/stackwarden/domain/composition.py:416-547 | The composed stack field by field: each list holds the last declaration per key in strict key order, apt and ports are the sorted unions, and every scalar, constraint and variant comes from the last part that sets it, with the fixed defaults. |
| ComposedParts.PartsAre | packages/stackwarden/src/stackwarden/domain/composition.py:424-435 | What is composed are the layers in the order of the recipe, each the last one given under its id, and then the recipe. |
| ComposedParts.ReferencesChecked | packages/stackwarden/src/stackwarden/domain/composition.py:418-435 | A layer referenced twice is refused as such, then one that is not given, and nothing else gives these two errors. |
| ComposedParts.ComposedLists | packages/stackwarden/src/stackwarden/domain/composition.py:449-541 | The pip, npm and copy lists hold exactly the last declaration of each name, of each name, manager and scope, and of each source and destination, in strict order of these. |
| ComposedParts.ComposedSets | packages/stackwarden/src/stackwarden/domain/composition.py:464-541 | The apt packages and ports are all that any part names, once each and in order. |
| ComposedParts.ComposedIsCustom | packages/stackwarden/src/stackwarden/domain/composition.py:516-547 | Task, serving and interface of a composed stack are custom, and no policy is overridden. |
| ComposedParts.StrLeIs | packages/stackwarden/src/stackwarden/domain/composition.py:527-541 | The order of keys: a text comes before every longer one it begins, and otherwise the first difference decides. |
| CompositionTheorems.LayerOrderIsImmaterial | packages/stackwarden/src/stackwarden/domain/composition.py:416-547 | If the reports list no pip, npm, env or base-role entry, every permutation of the layers also has clean reports, succeeds alike and composes the same pip, npm, apt, env, ports, copy items and base role. |
| CompositionTheorems.CleanReportsMean | packages/stackwarden/src/stackwarden/domain/composition.py:146-413 | Clean reports hold exactly when no pip, npm, env or base-role value is ever replaced by a different one. |
| CompositionTheorems.TupleReportIgnoresOrder | packages/stackwarden/src/stackwarden/domain/composition.py:275-319 | The tuple report is empty exactly when no two layers disagree on a watched key, in whatever order. |
| ReportEntries.TupleReportEmptyIff | packages/stackwarden/src/stackwarden/domain/composition.py:275-319 | The tuple report is empty if and only if no two referenced layers ask for different non-blank values of arch, OS family, OS version, container runtime, GPU vendor or GPU family. |
| ReportEntries.DependencyEntriesAreTrue | packages/stackwarden/src/stackwarden/domain/composition.py:146-272 | Every entry of the dependency report tells of two declarations of one pip package, npm package or wheelhouse setting that differ, the earlier one as existing, each with the part it comes from, with nothing different said between them; it is an error exactly where pip specifiers exclude each other, two custom npm versions differ, or an exclusive wheelhouse meets another setting. |
| ReportEntries.RuntimeEntriesAreTrue | packages/stackwarden/src/stackwarden/domain/composition.py:322-413 | The same of every env, entrypoint and base-role entry of the runtime report. |
| ReportEntries.TupleEntriesAreTrue | packages/stackwarden/src/stackwarden/domain/composition.py:275-319 | The same of every entry of the tuple report. |
| Environment.KeyIsName | packages/stackwarden/src/stackwarden/domain/composition.py:40-41 | An entry `name=value`, and `name` alone, set `name`, for every name without `=` and every value. |
| Environment.NamesIff | packages/stackwarden/src/stackwarden/domain/composition.py:40-41 | An entry sets exactly one name: it is that name, or starts with it and `=`. |
| Environment.ComposedEnv | packages/stackwarden/src/stackwarden/domain/composition.py:471-541 | The composed environment holds for every name the last entry of any layer or of the recipe to set it, and nothing else, in strict order of names, so no name is set twice. |
| Environment.EnvReportedIff | packages/stackwarden/src/stackwarden/domain/composition.py:334-353 | The runtime report has an env entry if and only if two different entries set one name. |
| OrderTheorems.StrategyOrderFreeIff | packages/stackwarden/src/stackwarden/domain/composition.py:449-510 | Where every order of the layers composes, the build strategy is the same in every order if and only if the recipe sets it or all referenced layers that set it agree. |
| OrderTheorems.EntrypointOrderFreeIff | packages/stackwarden/src/stackwarden/domain/composition.py:449-513 | The same of the entrypoint, word by word. |
| OrderTheorems.ConstraintOrderFreeIff | packages/stackwarden/src/stackwarden/domain/composition.py:449-527 | The same of the constraint of each apt package. |
| OrderTheorems.VariantOrderFreeIff | packages/stackwarden/src/stackwarden/domain/composition.py:449-533 | The same of each variant definition. |
| OrderTheorems.StackOrderFreeIff | packages/stackwarden/src/stackwarden/domain/composition.py:416-547 | Under clean reports every order composes, and the whole stack but its layer list is the same in every order if and only if the setters of all four agree. |
| CompositionExamples.OrderStillShows | packages/stackwarden/src/stackwarden/domain/composition.py:416-547 | An input where they do not: with clean reports a swap of two layers changes build strategy, apt constraints, variants and entrypoint. |
| PipChains.ChainIsPairwiseIff | packages/stackwarden/src/stackwarden/domain/composition.py:95-117 | An accepted chain of single pins and open versions is pairwise compatible if and only if no open declaration stands between two different pins of its name. |
| PipChains.ComposedIsPairwiseIff | packages/stackwarden/src/stackwarden/domain/composition.py:449-503 | The same of the declarations of every recipe and its layers that compose. |
| CompositionExamples.PinsApartAreAccepted | packages/stackwarden/src/stackwarden/domain/composition.py:95-117 | Such an input: pinned, unpinned, pinned differently composes although the two pins exclude each other. |
| CompositionExamples.WheelhouseErrorIsIgnored | packages/stackwarden/src/stackwarden/domain/composition.py:218-246 | A wheelhouse error in the report does not block composition. |
| Composer.ComposeStack | packages/stackwarden/src/stackwarden/domain/composition.py:416-547 | The loops over accumulators compute exactly the specification `Compose`, errors included; `ComposedStack.ComposedStackIs` and `Environment.ComposedEnv` say what that is. |
| Composer.ReportDependencies | packages/stackwarden/src/stackwarden/domain/composition.py:146-272 | The dependency-analysis loops compute exactly `AnalyzeDependencies`. |
| Composer.ReportRuntime | packages/stackwarden/src/stackwarden/domain/composition.py:322-413 | The runtime-analysis loops compute exactly `AnalyzeRuntime`. |
| Composer.ReportTuples | packages/stackwarden/src/stackwarden/domain/composition.py:275-319 | The tuple-analysis loops compute exactly `AnalyzeTuples`. |
| Composer.DependencyAnalyzer.PushOnePart | packages/stackwarden/src/stackwarden/domain/composition.py:248-270 | One layer or recipe takes the analyzer from one state of the specification to the next. |
| Composer.StackComposer.ConsumePart | packages/stackwarden/src/stackwarden/domain/composition.py:449-503 | One layer or recipe takes the accumulators from one state of the specification to the next, or fails with its error. |
| Hashing.OrderFreeIffUnambiguous | packages/stackwarden/src/stackwarden/domain/hashing.py:54-117 | The fingerprint forgets the order of all lists if and only if no two pip entries of one name, npm entries of one key or copies of one source differ. |
| Hashing.DistinctKeysAreUnambiguous | packages/stackwarden/src/stackwarden/domain/hashing.py:54-79 | Distinct pip names, npm keys and copy sources suffice. |
| Hashing.FingerprintsEqualIff | packages/stackwarden/src/stackwarden/domain/hashing.py:36-136 | Equal fingerprints mean equal content up to order and version whitespace; for unambiguous stacks the converse holds too. |
| Fingerprints.EqualIff | packages/stackwarden/src/stackwarden/domain/hashing.py:36-136 | Equal fingerprints mean the same profile id, architecture and CUDA variant, settings, inputs, and lists up to order and version whitespace; for stacks in which no name has two versions the converse holds too. Stated on profiles, stacks and inputs themselves: entrypoint, layer list, variant definitions and schema versions are not among it. |
| Fingerprints.OrderHiddenIff | packages/stackwarden/src/stackwarden/domain/hashing.py:54-117 | The order of lists never shows if and only if packages of one name have one version, npm packages of one key one version and mode, and copies of one source one destination. |
| Fingerprints.VersionsConcat | packages/stackwarden/src/stackwarden/domain/hashing.py:22-24 | Whitespace counts for nothing in a version, and everything else stays in its place. |
| Fingerprints.TagIs | packages/stackwarden/src/stackwarden/domain/hashing.py:156-175 | A tag names stack, profile, CUDA variant, serving and interface, and ends in the first twelve characters of the fingerprint. |
| Hashing.NormalizedVersion | packages/stackwarden/src/stackwarden/domain/hashing.py:22-24 | Normalising a version removes all whitespace, settles, and changes only versions with whitespace. |
| Hashing.SameTagIff | packages/stackwarden/src/stackwarden/domain/hashing.py:156-175 | Tags of one stack and profile coincide if and only if the fingerprints share their first twelve characters. |
| Hashing.SharedSourceShowsOrder | packages/stackwarden/src/stackwarden/domain/hashing.py:76-79 | Two copies of one source to two destinations make the fingerprint order-sensitive. |
| Selection.PickBestTag | packages/stackwarden/src/stackwarden/resolvers/scoring.py:31-40 | The loop returns the first CUDA-matching tag with its bonus, else the first tag, else `latest`. |
| Selection.ScoreCandidate | packages/stackwarden/src/stackwarden/resolvers/scoring.py:43-53 | The accumulated score is bias plus role bonus plus tag bonus. |
| Selection.SelectPicksWinner | packages/stackwarden/src/stackwarden/resolvers/scoring.py:75-95 | `select_base` returns the first candidate of maximal score and, within it, least name, with its best tag. |
| Selection.DetailedPicksName | packages/stackwarden/src/stackwarden/resolvers/scoring.py:98-123 | `select_base_detailed` returns the first candidate that bears the winner's name. |
| Selection.SelectionsAgreeIff | packages/stackwarden/src/stackwarden/resolvers/scoring.py:75-133 | The two procedures agree if and only if some best candidate is the first to bear its name. |
| Selection.DistinctNamesAgree | packages/stackwarden/src/stackwarden/resolvers/scoring.py:75-133 | With distinct names they always agree. |
| Selection.SelectionOrderFreeIff | packages/stackwarden/src/stackwarden/resolvers/scoring.py:86-95 | The order of the candidates is immaterial if and only if all best candidates are the same. |
| Selection.DuplicateNamesDiffer | packages/stackwarden/src/stackwarden/resolvers/scoring.py:113-123 | A name listed twice makes them return different images. |
| Selection.AlwaysSomeCandidate | packages/stackwarden/src/stackwarden/resolvers/base_catalog.py:18-55 | Override, profile and defaults together always offer a candidate. |
| Scoring.RoleMatchesIff | packages/stackwarden/src/stackwarden/resolvers/scoring.py:21-23 | A role matches a name if and only if it stands in it, in any case, between ends, slashes, dashes, underscores and dots. |
| Scoring.CudaMatchesIff | packages/stackwarden/src/stackwarden/resolvers/scoring.py:26-28 | A CUDA variant matches a tag if and only if it stands in it, in any case, with no digit or dot beside it. |
| Scoring.BestTagIs | packages/stackwarden/src/stackwarden/resolvers/scoring.py:31-40 | The chosen tag is the first that matches the variant, without a match the first of all, without tags `latest`. |
| Scoring.ScoreIs | packages/stackwarden/src/stackwarden/resolvers/scoring.py:43-72 | A candidate scores its bias, 200 for a name that bears the role, and 50 for a tag of the CUDA variant; the detailed score says the same part by part. |
| Scoring.RoleThenCuda | packages/stackwarden/src/stackwarden/resolvers/scoring.py:75-95 | Among candidates of one bias the one selected bears the role if any does, and then has a tag of the CUDA variant if any of those has. |
| Scoring.CandidatesAre | packages/stackwarden/src/stackwarden/resolvers/base_catalog.py:18-55 | An overridden image, with its tag or `latest`, stands alone; otherwise come the profile's own candidates and last the fixed image for its kind. |
| Compatibility.EvaluateCompatibility | packages/stackwarden/src/stackwarden/resolvers/compatibility.py:258-425 | The appending loops compute exactly the specification `Evaluate`; `CompatibilityTheorems.CompatibleIff` and the rows of `Requirements` say what that is. |
| Compatibility.EvaluateTuples | packages/stackwarden/src/stackwarden/resolvers/compatibility.py:501-573 | The tuple loop computes exactly `ResolveTuple`. |
| Compatibility.ReportBuilder.CheckRule | packages/stackwarden/src/stackwarden/resolvers/compatibility.py:589-663 | One catalog rule appends to errors, warnings or info as specified. |
| CompatibilityTheorems.ChosenTuple | packages/stackwarden/src/stackwarden/resolvers/compatibility.py:523-573 | The chosen tuple is the first supported match, without one the first match of any other status; one is chosen exactly when some tuple matches. |
| CompatibilityTheorems.MoreTuplesKeepMatch | packages/stackwarden/src/stackwarden/resolvers/compatibility.py:501-573 | Adding tuples anywhere never loses a match nor a supported one. |
| CompatibilityTheorems.ForgettingFactsKeepsMatch | packages/stackwarden/src/stackwarden/resolvers/compatibility.py:469-498 | Without CUDA, driver or GPU family facts a tuple still matches what it matched with them. |
| CompatibilityTheorems.StrictErrorsExtend | packages/stackwarden/src/stackwarden/resolvers/compatibility.py:380-392 | The lenient error list is a prefix of the strict one. |
| CompatibilityTheorems.EnforceIsStrictest | packages/stackwarden/src/stackwarden/resolvers/compatibility.py:348-378 | Compatible under enforce implies compatible under every mode. |
| CompatibilityTheorems.CompatibleIff | packages/stackwarden/src/stackwarden/resolvers/compatibility.py:258-425 | Compatible if and only if no layer conflicts with a referenced one, every requirement is met by the profile, a supported tuple matches when enforced, and no hard rule that concerns the profile is broken when strict: each in terms of profile, requirement, tuple and rule. |
| VerdictReports.ErrorsListed | packages/stackwarden/src/stackwarden/resolvers/compatibility.py:325-378 | The errors of a report are exactly: layers that exclude each other, requirements not met, a missing tuple where tuples are enforced, and broken hard rules where judgement is strict. |
| VerdictReports.WarningsListed | packages/stackwarden/src/stackwarden/resolvers/compatibility.py:348-378 | Its warnings: a missing tuple where tuples are only watched, and the other broken rules. |
| VerdictReports.NotesListed | packages/stackwarden/src/stackwarden/resolvers/compatibility.py:348-392 | Its notes: a tuple that matched or was not asked for, the information rules, and that all is well when there is no error. |
| Requirements.MetIff | packages/stackwarden/src/stackwarden/resolvers/compatibility.py:73-255 | A requirement is met exactly when its handler reports nothing, key by key in terms of the profile and the value: a minimum driver by an unknown driver, a value that is no number, or a driver at least that number; likewise arch, OS, its family and version, GPU vendor and family, container runtime, and the CUDA minimum, maximum and list. |
| Requirements.UnmetGivesItsCode | packages/stackwarden/src/stackwarden/resolvers/compatibility.py:50-255 | Every error a requirement causes carries the code of its key and the layer that asks. |
| Requirements.BoundsAreCounted | packages/stackwarden/src/stackwarden/resolvers/compatibility.py:201-255 | A CUDA requirement reports once per broken bound. |
| Requirements.IdIs | packages/stackwarden/src/stackwarden/resolvers/compatibility.py:26-38 | Hardware words are looked up in lower case without surrounding space; an unknown one stands for itself. |
| Requirements.FactsAre | packages/stackwarden/src/stackwarden/resolvers/compatibility.py:103-165 | A profile goes by the id of its OS family, OS version, GPU vendor and GPU family, and without one by the name. |
| Requirements.TupleMatchesIff | packages/stackwarden/src/stackwarden/resolvers/compatibility.py:455-498 | A tuple matches a profile if and only if each fact it names is the profile's, in any case, and CUDA and driver meet its bounds; only the GPU family and the versions may be unknown. |
| Requirements.DecisionIs | packages/stackwarden/src/stackwarden/resolvers/compatibility.py:501-573 | What a resolution takes from the tuple chosen: its id, status and two hints. |
| Requirements.ViolationIs | packages/stackwarden/src/stackwarden/resolvers/compatibility.py:615-663 | A rule is violated if and only if it concerns the profile and asks for another runtime, a newer driver, or a CUDA version out of its bounds. |
| Requirements.BlamedField | packages/stackwarden/src/stackwarden/resolvers/compatibility.py:615-663 | The violation blames the runtime before the driver and the driver before CUDA. |
| Requirements.RuleAdds | packages/stackwarden/src/stackwarden/resolvers/compatibility.py:589-663 | A broken rule adds an error if it is a hard error rule judged strictly, else a warning; an information rule notes every profile it concerns; nothing else is added. |
| CompatibilityTheorems.StrictInventsIff | packages/stackwarden/src/stackwarden/resolvers/compatibility.py:589-663 | Strictness adds an error that is no warning of the lenient report if and only if some active, applicable hard error rule asks for a minimum driver, its runtime is met, and the driver is unknown though marked detected. |
| CompatibilityTheorems.RuleInventsIff | packages/stackwarden/src/stackwarden/resolvers/compatibility.py:615-663 | Of one rule: the same, and the error then blames the driver version. |
| CompatibilityTheorems.UnknownDriverIsRefused | packages/stackwarden/src/stackwarden/resolvers/compatibility.py:622-628 | Such a rule: it refuses every such profile in strict mode and is silent in lenient mode. |
| CudaVersions.DecimalOrder | packages/stackwarden/src/stackwarden/resolvers/compatibility.py:428-431 | Versions read as decimals are ordered by major number, and within it by the minor numbers scaled to a common length. |
| CudaVersions.TupleMinimumRightIff | packages/stackwarden/src/stackwarden/resolvers/compatibility.py:469-498 | A tuple's CUDA minimum is judged as version order would judge it if and only if the majors differ or that scaling keeps the order of the minors. |
| CudaVersions.NeedMinimumRightIff | packages/stackwarden/src/stackwarden/resolvers/compatibility.py:258-346 | The same of the minimum in a layer's CUDA requirement. |
| CudaVersions.SameLengthInOrder | packages/stackwarden/src/stackwarden/resolvers/compatibility.py:428-431 | Minor numbers of equally many digits are always judged rightly. |
| CudaVersions.TwelveTenFailsTwelveFour | packages/stackwarden/src/stackwarden/resolvers/compatibility.py:428-498 | CUDA 12.10 fails every tuple and every requirement with minimum 12.4, though it is later. |
| BuildOptimization.ComputeBuildOptimization | packages/stackwarden/src/stackwarden/resolvers/build_optimization.py:200-281 | Fails exactly when strict host optimisation misses a fact for a GPU stack on an uncurated profile; otherwise jobs, budget, estimate and risk are as specified, and jobs stay within CPUs, budget and the high-risk cap. |
| BuildOptimization.JobsBounded | packages/stackwarden/src/stackwarden/resolvers/build_optimization.py:262-281 | 1 <= jobs <= max(1, cpus), jobs x 1.5 GB <= budget, at most 2 under high risk. |
| BuildOptimization.JobsMaximal | packages/stackwarden/src/stackwarden/resolvers/build_optimization.py:269-281 | One more job would exceed the CPUs, the budget or the cap. |
| BuildOptimization.JobsGrow | packages/stackwarden/src/stackwarden/resolvers/build_optimization.py:262-281 | More CPUs or more known memory never mean fewer jobs. |
| BuildOptimization.JobsShrinkWithEstimate | packages/stackwarden/src/stackwarden/resolvers/build_optimization.py:185-197 | A heavier stack never builds with more jobs. |
| BuildOptimization.KnowingReducesIff | packages/stackwarden/src/stackwarden/resolvers/build_optimization.py:262-281 | Learning the memory of a host reduces the jobs if and only if it is above 0 and below 5 GB and the CPUs allow two jobs. |
| BuildOptimization.BudgetInNumbers | packages/stackwarden/src/stackwarden/resolvers/build_optimization.py:263-267 | The budget is 4 GB for unknown memory, 1.5 GB up to 3.5 GB, and 2 GB less than the memory above. |
| BuildOptimization.RiskInNumbers | packages/stackwarden/src/stackwarden/resolvers/build_optimization.py:273-277 | The risk is high above 85 percent of the budget and low up to 65 percent. |
| BuildOptimization.EveryPackageCounts | packages/stackwarden/src/stackwarden/resolvers/build_optimization.py:185-197 | One more pip, npm or apt package or copied file adds its share to the estimate, which starts at 1.5 GB. |
| BuildOptimization.AcceleratorsAreAggressive | packages/stackwarden/src/stackwarden/resolvers/build_optimization.py:43-46 | The route is aggressive exactly for the GPU vendors nvidia, amd and intel, by id before name. |
| BuildOptimization.CpusAreUsed | packages/stackwarden/src/stackwarden/resolvers/build_optimization.py:262-281 | With memory to spare all CPUs of an accelerated host are used, and all but one of any other. |
| BuildOptimization.UnknownCpus | packages/stackwarden/src/stackwarden/resolvers/build_optimization.py:262-271 | Unknown CPUs and none count as two. |
| Labels.ReadShownInt | packages/stackwarden/src/stackwarden/resolvers/resolver.py:155-162 | Schema numbers written into labels read back as themselves. |
| Labels.ShownPlainly | packages/stackwarden/src/stackwarden/resolvers/resolver.py:155-162 | They are written without leading zeros, and with a sign exactly when negative. |
| Resolver.SplitRejoins | packages/stackwarden/src/stackwarden/resolvers/resolver.py:37-46 | The parts of an image reference make it up again; a tag holds neither slash nor colon. |
| Resolver.SplitOf | packages/stackwarden/src/stackwarden/resolvers/resolver.py:37-46 | What follows the last colon is the tag unless a slash is in it. |
| Resolver.HintsKeep | packages/stackwarden/src/stackwarden/resolvers/resolver.py:49-64 | Overrides the hints do not name stay as they are. |
| Resolver.HintsChangeIff | packages/stackwarden/src/stackwarden/resolvers/resolver.py:49-64 | Tuple hints change the stack if and only if some non-blank hint part does not already stand in its overrides. |
| Resolver.HintsSettle | packages/stackwarden/src/stackwarden/resolvers/resolver.py:49-64 | Applying the same hints twice is applying them once. |
| Resolver.HintDecidesBase | packages/stackwarden/src/stackwarden/resolvers/resolver.py:49-64 | A tuple's base image hint decides the plan's base image, with its own tag, one overridden before, or `latest`, whatever the profile offers. |
| ResolverTheorems.ExplainIsHarmlessIff | packages/stackwarden/src/stackwarden/resolvers/resolver.py:137-152 | Asking for an explanation changes nothing if and only if resolution fails anyway or the first offered candidate with the winner's name has the winner's best tag. |
| ResolverTheorems.ExplainChangesThePlan | packages/stackwarden/src/stackwarden/resolvers/resolver.py:137-152 | A profile on which it changes the plan's base image. |
| ResolverTheorems.ResolveSucceedsIff | packages/stackwarden/src/stackwarden/resolvers/resolver.py:67-262 | Resolution succeeds if and only if profile and stack are sound, the profile may serve the stack, it suits the layers (`CompatibilityTheorems.CompatibleIff`), strict host optimisation of a GPU stack knows CPUs, memory, driver and compute capability, and the strategy is overlay or pull; selection never comes up empty. |
| ResolverTheorems.ResolveErrorIs | packages/stackwarden/src/stackwarden/resolvers/resolver.py:67-153 | Otherwise the first of these conditions that fails names the error. |
| ResolverTheorems.PlanSays | packages/stackwarden/src/stackwarden/resolvers/resolver.py:131-262 | The plan is for this profile and stack, on the chosen candidate and tag, with the digest given, under the fingerprint of the hinted stack on that very base and the tag made of it, for the builder of the strategy. |
| ResolverTheorems.LabelsSay | packages/stackwarden/src/stackwarden/resolvers/resolver.py:155-228 | Its labels give strategy, pip mode and wheelhouse, the tuple it was resolved with, its mode and hints, the time, and the optimisation. |
| Catalog.RecordRoundTrip | packages/stackwarden/src/stackwarden/catalog/store.py:160-198 | A record survives being stored and read if and only if no schema version is 0 and the layer schema is at least 1. |
| Catalog.LayerSchemaResolved | packages/stackwarden/src/stackwarden/catalog/store.py:37-50 | The resolved layer schema is positive, is 1 only when neither column exceeds 1, and resolves to itself. |
| Catalog.LayerSchemaIs | packages/stackwarden/src/stackwarden/catalog/store.py:37-50 | A layer schema above 1 counts, without one a block schema above 1, and otherwise it is 1. |
| Catalog.ReadRow | packages/stackwarden/src/stackwarden/catalog/store.py:412-443 | Reading a row keeps what it shares with a record; an absent or zero stack or profile schema reads as 1. |
| Catalog.InsertKeepsValid | packages/stackwarden/src/stackwarden/catalog/store.py:160-198 | Writing a row keeps ids, tags and fingerprints unique if and only if no other row has its tag or fingerprint; so it does when nothing collides. |
| Catalog.CatalogStore.InsertArtifact | packages/stackwarden/src/stackwarden/catalog/store.py:160-198 | Refuses a taken id, tag or fingerprint and otherwise adds exactly one row. |
| Catalog.CatalogStore.UpdateArtifact | packages/stackwarden/src/stackwarden/catalog/store.py:200-215 | Copies the mutable fields into an existing row and never creates one. |
| Catalog.CatalogStore.MarkAllStale | packages/stackwarden/src/stackwarden/catalog/store.py:226-248 | Marks exactly the built, building and planned rows of the pair, keeps an old reason when none is given, and counts them. |
| Catalog.MarkedRow | packages/stackwarden/src/stackwarden/catalog/store.py:226-248 | Exactly the planned, building and built rows of the pair turn stale, with the reason if one is given; nothing else changes. |
| Catalog.CatalogStore.NewestBuild | packages/stackwarden/src/stackwarden/catalog/store.py:301-313 | Finds a newest built row of the pair exactly when there is one. |
| Catalog.FindUnused | packages/stackwarden/src/stackwarden/catalog/store.py:327-349 | The loop returns the built rows whose id is not protected. |
| Catalog.CountProtected | packages/stackwarden/src/stackwarden/catalog/store.py:360-375 | The count equals the size of the protected set. |
| Catalog.UnusedOrProtected | packages/stackwarden/src/stackwarden/catalog/store.py:327-349 | Unused and protected rows partition the built rows. |
| Catalog.OneProtectedPerKey | packages/stackwarden/src/stackwarden/catalog/store.py:327-349 | Each key with a built row protects exactly one, and that one is newest of its key. |
| Catalog.ProtectedIffNewest | packages/stackwarden/src/stackwarden/catalog/store.py:327-349 | With distinct creation times a built row is protected if and only if it is the newest of its key. |
| ResolverTheorems.OptionalSay | packages/stackwarden/src/stackwarden/resolvers/resolver.py:177-198 | Two labels are there only with something to say: the encoded variants, and the stripped wheelhouse hint of the tuple. |
| ResolverTheorems.WishedIs | packages/stackwarden/src/stackwarden/resolvers/scoring.py:31-53 | A base is wished for by the role of the stack and the CUDA variant of the profile, as far as there are any. |
| Drift.DetectDrift | packages/stackwarden/src/stackwarden/domain/drift.py:30-112 | The appending branches compute exactly `Detect`. |
| Drift.NoDriftIff | packages/stackwarden/src/stackwarden/domain/drift.py:30-112 | No drift if and only if the image has a label of its own, its fingerprint is the plan's, no digest, template hash or schema known on both sides differs, each schema of the record is the plan's number, and the builder version is absent or current. |
| Drift.ReasonsAreExact | packages/stackwarden/src/stackwarden/domain/drift.py:30-112 | An image with labels of its own gets a drift reason exactly when the condition behind it holds, any other image only the missing labels. |
| Drift.ReasonsAreDistinct | packages/stackwarden/src/stackwarden/domain/drift.py:78-106 | No drift reason is reported twice. |
| Executor.DoExecute | packages/stackwarden/src/stackwarden/builders/plan_executor.py:208-292 | The step-by-step execution computes exactly the specifications `Execute` and `ExecuteFiles`: catalog, way out and snapshot files; the rows of `BuildRecords` say what is recorded. |
| Executor.CheckForImage | packages/stackwarden/src/stackwarden/builders/plan_executor.py:93-135 | The freshness check decides and ages the record as specified. |
| ExecutionSteps.CheckOfRow | packages/stackwarden/src/stackwarden/builders/plan_executor.py:93-135 | With an image and a row under the plan's tag: the row is returned exactly when labels, record and builder version agree, drift is raised exactly when they do not and images are immutable, and otherwise the build goes on, a built row aged under the names of the drift and nothing else changed. |
| ExecutionSteps.CheckOfNothing | packages/stackwarden/src/stackwarden/builders/plan_executor.py:108-135 | Without an image or a row nothing is returned or aged; immutability still raises for a built row without image, and for an image that drifted. |
| ExecutionSteps.SummaryIs | packages/stackwarden/src/stackwarden/domain/drift.py:115-117 | The names of the reasons, separated by commas. |
| ExecutionSteps.ExecuteDecides | packages/stackwarden/src/stackwarden/builders/plan_executor.py:208-235 | An execution is canceled, stopped by the check, or builds on what the check left; a forced rebuild does not check. |
| ExecutionSteps.InsertsIff | packages/stackwarden/src/stackwarden/builders/plan_executor.py:232-243 | The insert succeeds if and only if no cancel comes before it, the schema labels are numbers, and no row but the one of the plan's own fingerprint has the new id or the tag. |
| ExecutionSteps.NotInserted | packages/stackwarden/src/stackwarden/builders/plan_executor.py:232-243 | Otherwise the build leaves by the first of these, with the way cleared but for the cancel. |
| ExecutionSteps.OthersAre | packages/stackwarden/src/stackwarden/builders/plan_executor.py:235-243 | Whatever the way out, of the other rows exactly the one with the plan's fingerprint is gone, planned, building and built rows of the pair are stale and otherwise as before, and the rest is unchanged. |
| ExecutionSteps.FilesLeft | packages/stackwarden/src/stackwarden/builders/plan_executor.py:295-376 | The captures that succeed leave manifest, plan and the profile and stack the executor was given under the plan's fingerprint; no other file changes, and without a returned builder none does. |
| Executor.RunBuild | packages/stackwarden/src/stackwarden/builders/plan_executor.py:245-292 | Repeated writes of the record leave the row as its last value, with the exit specified. |
| Executor.Capture | packages/stackwarden/src/stackwarden/builders/plan_executor.py:295-394 | The capture steps write manifest and snapshots of the executor's own profile and stack, only add paths to the record, and the row follows it. |
| Executor.RunHooks | packages/stackwarden/src/stackwarden/builders/plan_executor.py:397-426 | Hook failures, and only they, turn the record and its row failed with a detail. |
| BuildRecords.InputsRecorded | packages/stackwarden/src/stackwarden/builders/plan_executor.py:429-455 | However an execution ends, its row says profile, stack, tag, fingerprint, builder, base image, digest and time of the plan executed. |
| BuildRecords.SchemasMade | packages/stackwarden/src/stackwarden/builders/plan_executor.py:429-455 | A record is made exactly of schema labels that are empty or numbers, and holds those numbers, 1 for an empty or absent one; the legacy layer label counts where only it is present. |
| BuildRecords.SuccessRecorded | packages/stackwarden/src/stackwarden/builders/plan_executor.py:258-292 | A successful build records the builder's image id and digest and the path of each capture in its own column, and returns that record. |
| BuildRecords.FailureRecorded | packages/stackwarden/src/stackwarden/builders/plan_executor.py:247-285 | Row, error detail and way out of every failure before or in the builder: unknown builder, cancel, exception of the builder, and the two exceptions that pass through. |
| BuildRecords.LateFailureRecorded | packages/stackwarden/src/stackwarden/builders/plan_executor.py:258-292 | After the builder returned its result is recorded all the same: a cancel fails the row without paths, failing hooks fail it with their lines and all paths. |
| BuildRecords.LinesAre | packages/stackwarden/src/stackwarden/builders/plan_executor.py:397-426 | Hook failures stand one to a line, in order. |
| BuildRecords.BuilderFollowsStrategy | packages/stackwarden/src/stackwarden/resolvers/resolver.py:239-247 | The plan of an overlay stack names the overlay builder and that of a pull stack the pull builder, which the executor knows. |
| ExecutorTheorems.OwnRowSettles | packages/stackwarden/src/stackwarden/builders/plan_executor.py:242-292 | Past the insert, the own row is built exactly on success, failed with a detail otherwise, and stays building if and only if the builder itself raises one of the two passed-through exceptions. |
| ExecutorTheorems.ReturnedIsStored | packages/stackwarden/src/stackwarden/builders/plan_executor.py:287-292 | The record returned is the one the catalog holds. |
| ExecutorTheorems.OthersKept | packages/stackwarden/src/stackwarden/builders/plan_executor.py:235-243 | Other rows are unchanged except that active rows of the pair turn stale. |
| ExecutorTheorems.BuildKeepsValid | packages/stackwarden/src/stackwarden/builders/plan_executor.py:235-243 | Executions keep ids, tags and fingerprints unique. |
| ExecutorTheorems.SchemasSurviveLabels | packages/stackwarden/src/stackwarden/builders/plan_executor.py:429-455 | Schema numbers travel unchanged from specifications through labels into the record. |
| ExecutorTheorems.LargestSchema | packages/stackwarden/src/stackwarden/resolvers/resolver.py:155-166 | The layer schema is the greatest of the layers' schemas, 1 without layers. |
| ExecutorTheorems.PlanNamesItsPair | packages/stackwarden/src/stackwarden/resolvers/resolver.py:155-170 | The labels of a plan name its profile and stack, and give the layer schema under its legacy name too. |
| ExecutorTheorems.SecondRunIsFreshIff | packages/stackwarden/src/stackwarden/builders/plan_executor.py:93-135 | A second check on the image's own labels is fresh if and only if no schema version is 0 and the layer schema is at least 1. |
| ExecutorTheorems.SecondRunIsIdle | packages/stackwarden/src/stackwarden/builders/plan_executor.py:208-233 | Executing the plan again returns the stored row and leaves the catalog unchanged. |
| ExecutorTheorems.ResolvedAgain | packages/stackwarden/src/stackwarden/resolvers/resolver.py:67-262 | Resolving the same inputs later yields the same plan up to its clock label. |
| ExecutorTheorems.SkipIgnoresStatus | packages/stackwarden/src/stackwarden/builders/plan_executor.py:113-120 | Whether a build is skipped does not depend on the status of any row. |
| ExecutorTheorems.ServedAsItEnded | packages/stackwarden/src/stackwarden/builders/plan_executor.py:93-135 | The second execution builds nothing and returns a built row if and only if the first succeeded: a failed row is served too. |
| ExecutorTheorems.VariantsShareTheirGroup | packages/stackwarden/src/stackwarden/builders/plan_executor.py:429-455 | The row an execution writes carries no variant, so its key is profile and stack alone. |
| Ensure.EnsureInternal | packages/stackwarden/src/stackwarden/domain/ensure.py:25-134 | The pipeline executes exactly the plan specified, snapshotting the profile and stack it loaded, or ends without touching catalog and files. |
| Ensure.DigestKeepsBase | packages/stackwarden/src/stackwarden/domain/ensure.py:89-117 | Pinning a digest changes neither verdict nor base image. |
| Ensure.PlanPinsItsOwnBase | packages/stackwarden/src/stackwarden/domain/ensure.py:101-117 | The digest executed and recorded is the digest of the base image it stands beside. |
| Ensure.PlanReachedIff | packages/stackwarden/src/stackwarden/domain/ensure.py:71-118 | A plan is executed if and only if none of the five checks cancels, all variants are defined, and resolution succeeds with a permitted base image. |
| Ensure.PipelineStops | packages/stackwarden/src/stackwarden/domain/ensure.py:71-118 | Otherwise the first of these in the order of the pipeline says why. |
| Verify.VerifyArtifact | packages/stackwarden/src/stackwarden/domain/verify.py:73-201 | The checks compute exactly the specification `VerifyReport`; the rows of `VerifyReports` say what that is. |
| Verify.ApplyFix | packages/stackwarden/src/stackwarden/domain/verify.py:204-222 | A failed report marks the record stale with its classified reason; a passing one changes nothing. |
| VerifyReports.PassesIff | packages/stackwarden/src/stackwarden/domain/verify.py:73-201 | Verification passes if and only if the record is found and built, its image is there with all six required labels, no non-empty fingerprint label differs from the catalog, no snapshot file is missing when strict, and a recomputation, where it can be made, equals the catalog and any label. |
| VerifyReports.CodesAre | packages/stackwarden/src/stackwarden/domain/verify.py:73-201 | Each error code occurs exactly when its condition holds. |
| VerifyReports.ErrorsAre | packages/stackwarden/src/stackwarden/domain/verify.py:107-194 | Each missing label, conflicting label, missing file and diverging recomputation is listed among the errors exactly when there is one. |
| VerifyReports.WarningsAre | packages/stackwarden/src/stackwarden/domain/verify.py:132-200 | Without strictness missing files are warnings, and so is a recomputation that could not be made. |
| VerifyReports.UnreachedReport | packages/stackwarden/src/stackwarden/domain/verify.py:73-112 | A record not found, not built, or without its image is reported as just that. |
| VerifyReports.FingerprintsShown | packages/stackwarden/src/stackwarden/domain/verify.py:105-176 | The three fingerprints a report shows, and when. |
| VerifyReports.FoundBy | packages/stackwarden/src/stackwarden/domain/verify.py:40-70 | A key is tried as a tag, then as a fingerprint, then as an id. |
| VerifyReports.RecomputedFromFiles | packages/stackwarden/src/stackwarden/domain/verify.py:139-189 | The recomputation hashes the stored profile and stack with the record's base image and with digest, template hash and builder version from the labels where these have them, whenever files and variants can be read. |
| VerifyReports.VariantsFrom | packages/stackwarden/src/stackwarden/domain/verify.py:139-165 | Its variants come from the label, without one from the record, without either there are none. |
| VerifyReports.ReasonIs | packages/stackwarden/src/stackwarden/domain/verify.py:225-237 | The stale reason names the gravest code: a fingerprint, then labels, the image, the record. |
| VerifyReports.FixMarks | packages/stackwarden/src/stackwarden/domain/verify.py:204-222 | A fix marks the found row stale with that reason and touches no other row. |
| VerifyReports.WrongLabelIsFixed | packages/stackwarden/src/stackwarden/domain/verify.py:125-222 | An image whose fingerprint label contradicts its record is reported, whatever else is there, and the fix makes the row stale for a fingerprint mismatch. |
| Verify.FreshBuildVerifiesIff | packages/stackwarden/src/stackwarden/domain/verify.py:139-189 | After a successful build with its captures, the recomputed fingerprint is the catalog's, and verification passes, if and only if the tuple hints changed no policy override; the snapshots are those the build wrote. |
| Verify.UncapturedBuildPasses | packages/stackwarden/src/stackwarden/domain/verify.py:139-189 | Where the captures failed and no older snapshots exist, the lenient verification passes whatever the hints changed. |
| Verify.VerifyFixAfterBuild | packages/stackwarden/src/stackwarden/domain/verify.py:204-222 | Build, capture, verify, fix: the artifact stays built exactly when the hints changed nothing, else it becomes stale for a fingerprint mismatch. |
| Locking.SanitizeSettles | packages/stackwarden/src/stackwarden/domain/locking.py:41-42 | Lock names hold safe characters only, and sanitising settles. |
| Locking.SanitizeAt | packages/stackwarden/src/stackwarden/domain/locking.py:41-42 | Letters, digits, dash, dot and underscore stay, any other character becomes an underscore. |
| Locking.LocksCoincideIff | packages/stackwarden/src/stackwarden/domain/locking.py:27-42 | Where ids hold safe characters other than the underscore, two targets share a lock if and only if profile, stack and sanitised variant hash are equal. |
| Locking.SamePairLocks | packages/stackwarden/src/stackwarden/domain/locking.py:37-42 | Targets of one profile and stack share a lock if and only if their sanitised variant hashes are equal. |
| Locking.LocksMayCoincide | packages/stackwarden/src/stackwarden/domain/locking.py:37-42 | With an underscore in an id different targets may share a lock. |
| Lifecycle.OneActivePerVariant | packages/stackwarden/src/stackwarden/builders/plan_executor.py:163-292 | Over every interleaving of builds, prunes and manual changes, at most one row per profile, stack and variant is building or built. |
| Lifecycle.OneActivePerPairWithoutOverlap | packages/stackwarden/src/stackwarden/builders/plan_executor.py:163-292 | Where builds of one profile and stack never overlap, at most one row of the pair is. |
| Lifecycle.InvariantAfter | packages/stackwarden/src/stackwarden/builders/plan_executor.py:235-263 | Every transaction keeps the invariant behind both, for any grouping within a pair whose builds stay apart. |
| Overlaps.OneActivePerPairIff | packages/stackwarden/src/stackwarden/builders/plan_executor.py:163-292 | At most one row per profile and stack is active in every reachable state if and only if any two buildable targets of a pair share their lock. |
| Overlaps.OneActivePerPairIffOneVariant | packages/stackwarden/src/stackwarden/domain/locking.py:17-42 | With the real lock names and hashes that tell variants apart: if and only if no pair has two buildable variant choices. |
| Overlaps.ProtectsEachVariantIff | packages/stackwarden/src/stackwarden/catalog/store.py:327-349 | With distinct creation times, exactly the newest built row per profile, stack and variant is protected if and only if no pair has built rows of two variants. |
| Overlaps.PruningProtectsVariantsIff | packages/stackwarden/src/stackwarden/catalog/store.py:327-349 | So in every reachable state if and only if any two buildable targets of a pair share their lock. |
| Overlaps.OverlapLosesAVariant | packages/stackwarden/src/stackwarden/catalog/store.py:327-349 | A reachable state in which the unused rows are exactly the newest built row of a variant. |
| LifecycleTheorems.TwoVariantsBothActive | packages/stackwarden/src/stackwarden/builders/plan_executor.py:235-263 | Two overlapping builds of one pair reach a state with two active rows. |
| LifecycleTheorems.InsertNeverCollides | packages/stackwarden/src/stackwarden/builders/plan_executor.py:237-243 | When fingerprints name targets, a build that has cleared its way never finds its id, tag or fingerprint taken, whatever runs beside it. |
| LifecycleTheorems.FingerprintDeterminesTarget | packages/stackwarden/src/stackwarden/domain/hashing.py:120-136 | Fingerprints do name targets: equal ones come from one profile, stack and variant choice. |
| LifecycleTheorems.ReleasedRowIsSettled | packages/stackwarden/src/stackwarden/builders/plan_executor.py:242-292 | Whatever runs beside it, a build that releases its lock after its insert leaves its row gone, stale, built, or failed with a detail. |
| LifecycleTheorems.OutsideCommands | packages/stackwarden/src/stackwarden/catalog/store.py:226-358 | Marking a pair stale by hand, with the reason `manual`, and the two prunes are possible in every state and touch no row but those they name. |
| LifecycleTheorems.SoloBuildIsExecutorBuild | packages/stackwarden/src/stackwarden/builders/plan_executor.py:235-263 | Undisturbed, the transactions leave the catalog exactly as the executor's specification says. |
| JobStore.Store.CancelIfActive | packages/stackwarden/src/stackwarden/web/jobs/store.py:108-131 | Cancels exactly queued or running jobs and reports whether it did. |
| JobStore.Store.MarkOrphanedRunningAsFailed | packages/stackwarden/src/stackwarden/web/jobs/store.py:133-147 | Turns exactly the running jobs failed, with an end time, and counts them. |
| JobStore.Manager.RequestCancel | packages/stackwarden/src/stackwarden/web/jobs/manager.py:75-80 | Sets the signal exactly when the row was canceled. |
| JobStore.BeginEnsureJob | packages/stackwarden/src/stackwarden/web/jobs/runners.py:25-40 | The first segment of a runner does what the protocol's start step says. |
| JobStore.FinishEnsureJob | packages/stackwarden/src/stackwarden/web/jobs/runners.py:58-113 | The last segment does what the protocol's finish step says, unguarded for a raised cancellation; `JobProtocol.FinishDecides` says what that is. |
| JobProtocol.StartDecides | packages/stackwarden/src/stackwarden/web/jobs/runners.py:30-56 | A started job is running from that time on unless it was canceled before, and the news says which. |
| JobProtocol.FinishDecides | packages/stackwarden/src/stackwarden/web/jobs/runners.py:58-113 | A finished job succeeded exactly when an uncanceled run came back built, failed exactly when an uncanceled run came back not built or raised, and is canceled otherwise; artifact, error and times are those of the outcome, and the news names that status. |
| JobProtocol.SeenMayRaise | packages/stackwarden/src/stackwarden/web/jobs/runners.py:94-104 | A build thread may raise the cancellation exactly from when it has seen the signal of an accepted cancel. |
| JobProtocol.EndedFromOutside | packages/stackwarden/src/stackwarden/web/jobs/store.py:108-147 | An accepted cancel and a restart leave their status, reason and time, and no other row changes. |
| JobProtocol.TerminalHasItsCause | packages/stackwarden/src/stackwarden/web/jobs/runners.py:58-113 | In every run a succeeded job was finished by a build that came back built with its artifact, a failed one by a build that did not, an exception or a restart, a canceled one by an accepted cancel or a raised cancellation. |
| JobOutcomes.JobEndsAsItsBuild | packages/stackwarden/src/stackwarden/web/jobs/runners.py:25-113 | From builder to job: the job of an uncanceled execution succeeds exactly when the execution does, with the id of the built row; failing hooks fail it with their row's detail, any other way out with the text of the exception. |
| JobProtocol.RunKeepsInvariant | packages/stackwarden/src/stackwarden/web/jobs/runners.py:30-124 | In every careful run end times stand exactly in terminal rows, runners find the row they expect, and a set signal means canceled. |
| JobProtocol.TerminalForever | packages/stackwarden/src/stackwarden/web/jobs/runners.py:58-113 | A succeeded, failed or canceled job keeps that status forever. |
| JobProtocol.AcceptedCancelStays | packages/stackwarden/src/stackwarden/web/jobs/manager.py:75-80 | An accepted cancel ends canceled whatever the runner does. |
| JobProtocol.RestartIsSafe | packages/stackwarden/src/stackwarden/web/jobs/manager.py:25-32 | A process restart keeps the invariant and leaves no job running. |
| JobProtocol.RebuildSafeIff | packages/stackwarden/src/stackwarden/web/deps.py:65-71 | Rebuilding the manager keeps the invariant if and only if no build thread has a running row. |
| JobProtocol.UnsafeRebuildResurrects | packages/stackwarden/src/stackwarden/web/deps.py:65-71 | Otherwise the job turns failed and then succeeded. |
| JobProtocol.ResurrectionRun | packages/stackwarden/src/stackwarden/web/deps.py:65-71 | A concrete run from the start does so. |
| FanOut.SeenInOrder | packages/stackwarden/src/stackwarden/web/jobs/manager.py:89-138 | Over every schedule a subscriber sees an in-order subsequence of the events published to it. |
| FanOut.OfferedTo | packages/stackwarden/src/stackwarden/web/jobs/manager.py:89-115 | A thousand items fill a queue: an event finds no place then, a sentinel takes that of the oldest item. |
| FanOutTheorems.NothingMissedIff | packages/stackwarden/src/stackwarden/web/jobs/manager.py:89-138 | Over every schedule a subscriber has seen everything published to it if and only if no full queue cost it an event and no event is left unread in its queue. |
| FanOutTheorems.LeaverMissesNothingIff | packages/stackwarden/src/stackwarden/web/jobs/manager.py:89-138 | A subscriber that left has seen everything published while it was there if and only if no full queue cost it an event and nothing was published between the sentinel it met and its leaving; without losses it saw exactly what preceded that sentinel. |
| FanOutTheorems.EveryLeaverMetOne | packages/stackwarden/src/stackwarden/web/jobs/manager.py:117-138 | Every run in which it left has such a sentinel. |
| FanOutTheorems.CancelHidesLastStatus | packages/stackwarden/src/stackwarden/web/routes/jobs.py:261-285 | The run after a cancel: the subscriber leaves without the runner's last status although no queue was full. |
| FanOutTheorems.RoomyLeaverSawAllBefore | packages/stackwarden/src/stackwarden/web/jobs/manager.py:89-138 | While fewer than 1000 wait, a leaver has seen exactly what was published before the sentinel it met. |
| FanOut.SentinelArrives | packages/stackwarden/src/stackwarden/web/jobs/manager.py:97-138 | From a published sentinel on, a thousand gets per sentinel end the subscription, even if the queue was full. |
| FanOut.NoSentinelNoEnd | packages/stackwarden/src/stackwarden/web/jobs/manager.py:117-138 | Without a sentinel after subscribing it never ends. |
| FanOut.Publisher.PublishEvent | packages/stackwarden/src/stackwarden/web/jobs/manager.py:89-95 | Every queue of the job is offered the event, full ones drop it. |
| FanOut.Publisher.PublishDone | packages/stackwarden/src/stackwarden/web/jobs/manager.py:97-115 | Every queue of the job receives the sentinel, a full one loses its oldest item. |
| LogTail.TailLog | packages/stackwarden/src/stackwarden/web/jobs/runners.py:152-176 | The polling loop publishes the lines of its chunks and returns the offset behind them. |
| LogTail.FlushRemaining | packages/stackwarden/src/stackwarden/web/jobs/runners.py:179-194 | The flush publishes the lines behind the offset. |
| LogTail.TailAndFlushReadTheFile | packages/stackwarden/src/stackwarden/web/jobs/runners.py:115-194 | For every poll schedule and cancellation point, tailed chunks and flush concatenate to exactly the file. |
| LogCuts.PublishedAreTheLinesIff | packages/stackwarden/src/stackwarden/web/jobs/runners.py:152-194 | The published lines are the non-blank lines of the file if and only if every poll ends at a line start, just before a break, at the end, or within a blank line. |
| LogTail.WholePollsPublishTheLines | packages/stackwarden/src/stackwarden/web/jobs/runners.py:152-194 | In particular when polls end on whole lines. |
| LogTail.MidLinePollTearsALine | packages/stackwarden/src/stackwarden/web/jobs/runners.py:161-171 | Such an input: a poll in mid-line publishes the line in two pieces. |
| LogTail.SplitKeepsText | packages/stackwarden/src/stackwarden/web/jobs/runners.py:169-171 | Splitting into lines loses nothing but the line breaks and leaves none. |
| Admission.Desk.TryEnsure | packages/stackwarden/src/stackwarden/web/routes/jobs.py:92-116 | The admission section reserves exactly when the decision allows it. |
| Admission.Desk.StartRetry | packages/stackwarden/src/stackwarden/web/routes/jobs.py:193-213 | A retry reserves for every failed job without asking for admission, and for no other. |
| Admission.AdmissionInNumbers | packages/stackwarden/src/stackwarden/web/jobs/admission.py:22-69 | Unknown memory admits a build beside at most three, known memory what leaves 2 GB of the host free and always 2 GB. |
| Admission.RequestInNumbers | packages/stackwarden/src/stackwarden/web/routes/jobs.py:92-116 | A build without an estimate reserves 2 GB, one with an estimate that much but at least 1 GB. |
| Admission.ReservedAsEstimated | packages/stackwarden/src/stackwarden/web/routes/jobs.py:92-213 | In every run each reservation is that of its job's estimate, and never below it. |
| Admission.EnsureOnlyRunsStayWithin | packages/stackwarden/src/stackwarden/web/jobs/admission.py:22-69 | In runs that start jobs only through ensure, reservations never exceed the budget of the last admitted profile, or at most 4 jobs are active when it knew no memory. |
| Admission.RetryStaysWithinIff | packages/stackwarden/src/stackwarden/web/routes/jobs.py:193-213 | A retry of a failed job keeps the bound if and only if this process admitted a build before and admission would have granted the retry. |
| Admission.RetryBreaksTheBudget | packages/stackwarden/src/stackwarden/web/routes/jobs.py:193-213 | A run from the start: a job fails, another fills the budget, a third is refused, and the retry of the failed one exceeds the budget. |
| Admission.RetryBreaksTheLimit | packages/stackwarden/src/stackwarden/web/routes/jobs.py:193-213 | With unknown memory the retry of a failed job starts a fifth one that ensure would refuse. |
| Admission.OversizedIsRefused | packages/stackwarden/src/stackwarden/web/jobs/admission.py:51-62 | On an idle host a build is admitted exactly when it fits the budget, which never drops below 2 GB. |
| EventStream.StreamEvents | apps/web/src/composables/useJobStream.ts:65-132 | The read loop emits exactly the events of the specification `Parse`. |
| EventStream.ChunksDoNotMatter | apps/web/src/composables/useJobStream.ts:95-121 | However the stream is cut into chunks, even between CR and LF, the events are those of the whole text. |
| EventStream.AbandonedIsPrefix | apps/web/src/composables/useJobStream.ts:95-99 | A stream given up early has delivered a prefix of the whole stream's events. |
| EventStream.BlankTailIsImmaterial | apps/web/src/composables/useJobStream.ts:123-131 | The blank test on the unfinished last line makes no difference. |
| EventStreamStandard.AgreesWithStandardIff | apps/web/src/composables/useJobStream.ts:82-131 | Where every CR is followed by LF, the events are those of section 9.2.6 of the WHATWG HTML Standard if and only if no event type leaks from a block without data and no data is pending at the end. |
| EventStreamStandard.TypesWithDataNeverLeak | apps/web/src/composables/useJobStream.ts:88-93 | Nothing leaks when every block that names a type carries data. |
| EventStreamStandard.FieldsAre | apps/web/src/composables/useJobStream.ts:82-93 | A field's name ends at the first colon, one space behind it is dropped, and without a colon the value is empty. |
| EventStreamStandard.TypeLeaks | apps/web/src/composables/useJobStream.ts:88-93 | A text whose client events and standard events differ: a type named in a block without data is lent to the next block. |
| EventStreamStandard.PendingDataIsDelivered | apps/web/src/composables/useJobStream.ts:123-131 | Another: data no blank line follows is delivered by the client and discarded by the standard. |
| EventStreamStandard.EncodedEventsReadBack | apps/web/src/composables/useJobStream.ts:82-131 | Events written with LF or CRLF come back as sent, however cut into chunks. |

## Left out

- Error and warning texts, display names, traces, suggested fixes and log lines: only the kind of each error is modelled.
- Name patterns and path checks of the field validators (`_PIP_NAME_RE`, `_APT_NAME_RE`, copy-path traversal, non-empty entrypoints): they only refuse inputs.
- The architecture warnings of `rules.py`, which never refuse, and the negative CUDA minor number that `validate_profile` refuses.
- One typed view of layer requirements: the tuple report reads them as texts (`Layer.needs`), the verdict as typed values (`LayerNeeds`); the two are separate inputs.
- DGX certification warnings, portability hints and the tuning knobs of `compute_build_optimization`: constant tables beside the verdict and the arithmetic.
- Capture steps that fail after writing some of their files: a failed capture is modelled as writing nothing.
- Non-ASCII case folding in `lower()`, and the underscores and non-decimal digits that Python's `int()` and `float()` accept.
- JSON text itself: payloads are values under an injective hash, snapshots read back as the values written.
- `compute_template_hash`, `extract_template_version`: file reading; the template hash is an input.
- UTF-8 decoding, newline translation of log files, `fetch`, abort timing, and the interface state `applyEvent` updates: the stream starts as characters and ends as a list of events.
- `JobManager.subscribe` leaving its list, keepalive events and the timeout: a subscriber that left is simply offered nothing.
- SQL sessions, busy retries and failing catalog writes: every store call succeeds, so the logging around failed updates is not modelled.
- The `sbom` command, which writes a whole record read earlier, and `update_artifact_status`, which has no callers.
- `cleanup_stale_locks`: it has no callers; lock files are modelled as exclusion of builds with one lock name, without timeouts.
- `plan.json`, build steps, rationale and build arguments of a plan: nothing later reads them back.
- `retry_with_fix`'s failure analysis and override file: only the job it starts is modelled.
- Remote catalogs, license scanning, hooks' own checks, authentication, views and the command line.
- CompositionTheorems.LayerOrderIsImmaterial: says nothing about entrypoint, build strategy, apt constraint values and variants; OrderTheorems.StackOrderFreeIff says when they depend on the order.
- PipConstraints.RejectionIsSound: asks for exact pins spelled alike, because differently spelled and wildcard pins are rejected wrongly (PipConstraints.SinglePinVerdict, PipConstraints.WildcardVerdict).
- PipChains.ChainIsPairwiseIff: covers single pins and open versions; two ranges are never checked against each other, so they can exclude each other even as neighbours.
