# A model of go-specs, with proofs

This project models the parts of go-specs where most can go wrong and proves what they promise. Everything is Dafny;
`dafny verify dfyconfig.toml` checks it. The model follows the Go code branch by branch, with its constants, its
integer widths and its error paths.

**Compiling a suite.** A `Describe` callback is a script of calls (Declarations). It is compiled in three ways: while
it runs, by a compiler that emits as it goes, filters for focus afterwards and moves every range (BytecodeCompiler,
FocusFilter, BytecodeSuite); from a registry whose finished tree of nodes is walked (Arena, ArenaLabels, ArenaWalk);
and by the Builder, which groups neighbouring specs with equal hooks (Builder, BuilderItems, BuilderGroups,
BuilderPlans, BuilderParts). Plans gives the meaning all three are compared with; Labels, ScopeTables and ReportPaths
give scopes the labels under which they are reported. What a suite has to show is also told from its calls alone,
without any compiler: Declared, DeclaredPlans, DeclaredRuns, DeclaredNames, LateHooks and BuilderShows.

**Running it.** GroupRun walks a plan with its once-per-group hooks and fail-fast; GroupLaws, GroupTearDown and
GroupTraces say what every trace keeps; PlanSections shows that every compiled plan can be walked. Shards and ShardLaws
split a run over several jobs, ProgramShards and BCProgram a program. Runners and RunnersAgree put the three loops that
run one spec side by side. GoState and Settle are the tasks and cleanups of one spec, in every interleaving. Claims and
WorkerPool are the worker pool and its 32-bit counter. SubtestNames tells the subtests of a parallel run apart.

**Explaining a failure.** Values, Fingerprints and FingerprintBuilder are the bounded fingerprints of map values;
FingerprintLaws, FingerprintDecodes, FingerprintSizes, FingerprintReadings, Namesakes and HeapContents say what a
fingerprint depends on, when it is complete and what equal ones decide. Meter, StableSorts, SortedEntries, Windows,
WindowClass, WindowSelect, WindowMemo and Messages sort and select the entries of maps within the budget of one
message. KeyOrder, DiffValues, DiffUnits and StructuralDiff are the structural diff; KeyMeanings and DiffMeanings say
what its order of keys and its equality mean, DiffLog, DiffReports and DiffPaths what it reports, TiedKeys where that
is wrong; JsonTrees, JsonDiff and JsonDiffLaws the one of JSON documents; Numbers and NumberTexts the two canonical
forms of JSON numbers; ManualClock and Poll are `Eventually` and `Consistently` on a clock advanced by hand.

Code that updates state is a class or a method with loops, proved against a function of the old state; what the source
promises is then proved about that function. User code is a parameter throughout: what a hook, a spec, a task or a
matcher does is an arbitrary function or an arbitrary choice.

## Model

| member | source | states |
|---|---|---|
| CompilersAgree.CompileBothWays | specs/execution_plan.go:133-307 | For any script and any name, the registry's walk and the direct compiler panic at the first call that registers a per-spec hook after a spec or scope of its own scope, or, without such a call, both compile; then each suite shows what the calls declare: every spec that runs, in order, under a name that spells the named scopes around it and its own, with the hooks of those scopes around its body, its marks, hooked groups and parallel runs. The two suites are the same (excluded marks up to order) if and only if no spec that runs has an empty name below a scope with a name. |
| CompilersAgree.UnnamedSpecDiffers | specs/subtest_identity.go:40-41 | The failing family has a member: a spec with an empty name under "D" is "D/" for the one compiler, as documented, and "D" for the other. |
| DeclaredRuns.PlanIsDeclared | specs/compiler.go:139-430 | The plan of the tree has exactly the specs, hooks, groups, parallel runs, marks and focused names that the calls of the callback declare, told by positions in the script and not by any compiler. |
| DeclaredNames.FullNameTells | specs/compiler.go:349-354 | Where no name holds a "/", two specs have one full name only if the scopes with names around them, in order, and their own names are the same; FullNamesTellSpecs says so of the specs of any suite compiled directly. |
| LateHooks.LateIsFirst | specs/compiler.go:228-238 | A callback is refused at the first of its calls, or of the calls inside, that registers a per-spec hook after a spec or scope of its own scope, and goes through if none does. |
| Plans.FocusedIsFocusedBuild | specs/compiler.go:462-545 | Emitting everything, then dropping unfocused specs and moving every group and run, gives the plan of a compiler that knows of the focus beforehand, for every tree. |
| Recordings.RecordMeans | specs/compiler.go:139-275 | What the compiler's stacks accumulate call by call is what the tree of declarations means, and it panics exactly at the first hook registered after a spec or scope of its own scope. |
| BytecodeSuites.DescribeWithCompiler | specs/compiler.go:553-593 | The compiler with its flat tables of ids and windows returns the focused plan of the tree with every scope under its label, or the late hook. |
| FocusFilters.ApplyFocusFilter | specs/compiler.go:462-536 | The in-place filter leaves the program windows well formed and the plan equal to the filtered plan, groups and runs remapped or dropped. |
| ArenaLabels.ComputeArenaGroupLabels | specs/scope_report_labels.go:97-123 | Every group below the compiled root gets the label its siblings under the same parent determine, whatever else the arena holds; the root keeps its name. |
| ScopeTables.ComputeScopeLabels | specs/scope_report_labels.go:78-88 | From the two parallel arrays, each scope gets the label its place among the children of its parent determines. |
| ReportLabels.DisambiguateSiblingNames | specs/scope_report_labels.go:22-71 | The first sibling of a name keeps it, and so does one without a name; any other is given its name with the least number from 2 on that is neither a sibling's name nor an elder's label. |
| ReportLabels.LabelsDiffer | specs/scope_report_labels.go:22-71 | No two siblings with names have the same label, also where a name looks like a number given to another. |
| ReportPaths.PathsTellScopesApart | specs/scope_report_labels.go:148-160 | Different scopes of a table have different reported paths if and only if no two scopes with names have the same nearest scope with a name around them and names that come to one label among their own siblings. |
| ReportPaths.ReportPathsAreInjective | specs/scope_report_labels.go:73-160 | In a compiled suite whose groups have names, every chain of scope ids recorded for a spec, mark or group is a chain of the table, and different chains have different reported paths. |
| FingerprintBuilders.Compute | assert/tiebreak.go:118-388 | The recursive writer, with its path of references, its node and byte budgets and its sorted map entries, prints the encoding of the unfolded value up to the first refusal, with the same flags and nodes left. |
| FingerprintLaws.LargerAllowance | assert/tiebreak.go:350-371 | A fingerprint that was not cut for want of nodes is unchanged by any larger allowance, and visits as many nodes. |
| FingerprintSizes.CompleteExactly | assert/tiebreak.go:174-388 | A fingerprint is complete if and only if nothing of the value is more than 64 levels down, no map has more than 256 entries, and every part fits in the bytes and nodes it is given, each entry of a map in an equal share of what is left; it then visits exactly the value's own nodes, and n + n * (binary digits of n) for each map of n entries. |
| FingerprintSizes.CutIsPrefix | assert/tiebreak.go:128-166 | Cut or not, the fingerprint of a value without maps is a beginning of its encoding. |
| HeapContents.AddressesAndOrderAreInvisible | assert/tiebreak.go:28-32 | Renaming every address and permuting the entries of every map changes no fingerprint, complete or truncated. |
| FingerprintReadings.ReadingIsEncoding | assert/tiebreak.go:138-182 | Equal bytes are equal readings and the reverse: for any values, their encodings are equal exactly when they spell the same tokens. |
| HeapContents.FingerprintIsContent | assert/tiebreak.go:21-22 | For any two typed heap values and any allowances, complete fingerprints are equal if and only if the values have the same content or dynamic types spelled alike meet in them; the two cases exclude each other, and values whose dynamic types are spelled apart are never in the second. |
| Namesakes.CompleteDecidesContent | assert/tiebreak.go:21-22 | The same on unfolded values, with no hypothesis about the program's other types. |
| Namesakes.NamesakesCollide | assert/tiebreak.go:261-270 | For any two slice types with one String and one PkgPath that fits, their nil values differ and have the same complete fingerprint. |
| Namesakes.NamesakesNest | assert/tiebreak.go:261-285 | Comparing dynamic types by String and PkgPath is not enough: two structs declared under one name with one and two fields give values with equal complete fingerprints where one has an interface value and the other none. |
| Meters.FpMeter.TieAllowance | assert/tiebreak.go:409-423 | The allowance is zero or a power of two, at most the node limit, at most the fair share, more than half of it, and all tied entries together spend at most half of what is left. |
| Meters.FpMeter.TieFingerprint | assert/tiebreak.go:448-477 | Memo or not, the result is the fingerprint at that allowance, the call spends at most the allowance, and nodes left and visited always sum to the budget. |
| Meters.RecallIsExact | assert/tiebreak.go:448-462 | What the memo returns, at its own allowance or a larger one, is what recomputing would give. |
| SortedEntries.SortEntries | assert/tiebreak.go:491-522 | Sorting in place leaves exactly the entries there were, each whose key ties with its fingerprint at one common allowance, in order of key, then of the fingerprint's bytes, whole before cut, expected before actual; it spends at most that allowance for each tied entry and at most half of what is left. |
| SortedEntries.InputOrderIsInvisible | assert/tiebreak.go:486-490 | Sorting any two arrangements of the same entries uses the same allowance and gives, place by place, keys that tie, equal fingerprints and the same side. |
| KeyMeanings.KeysInOrder | assert/structural_diff.go:830-936 | For any two keys of one type: they tie exactly when they are the same but for the sign of zeros, and one comes first exactly when it is before the other as booleans, numbers (by exact value, NaN first), bytes, nil-ness, type names or lists of parts are. |
| WindowSelection.SelectSmallest | assert/structural_diff.go:719-812 | Two bounded scans find the first k entries by key and fingerprint, every fingerprint at one allowance, and mark an entry ambiguous exactly when some other entry of the whole map, in the window or not, cannot be told from it. |
| WindowSelection.WindowsAgree | assert/structural_diff.go:690-697 | Windows of any two sizes over one map agree, place by place, in key, fingerprint and mark. |
| WindowMemos.SmallestMapEntriesWith | assert/structural_diff.go:698-717 | With the memo of big maps the result still is a window of the map, a remembered one costs nothing and is returned unchanged, and nothing remembered is ever changed. |
| Messages.Message | assert/tiebreak.go:390-405 | Over any sequence of sorts and window selections in one message every answer is right, at most 32768 nodes are visited, and equal requests for a big map have equal answers. |
| StructuralDiffs.StructuralDiff | assert/structural_diff.go:83-112 | Whatever the depth limit, the memo of compared pairs and the fingerprints, values that are not deeply equal give an entry; deeply equal ones give one if and only if some map the walk sorted holds two entries whose keys tie and whose fingerprints, at the allowance of that map, are equal; and where all keys can be told apart they give none. Values whose meanings differ always give an entry. Every entry is so: its path leads through both values to a pair of values of which it is true that they differ, have different types, lengths or nil-ness, that one lacks the element or key named, or that entries of theirs cannot be told apart. At most limit + 1 entries. |
| DiffMeanings.DeepEqualIsMeaning | assert/structural_diff.go:954-972 | For any two sound values: equal ones have one meaning, that is, the same tree without addresses, order of map entries and signs of zeros; without NaNs and functions in them, one meaning makes them equal; and where they share no address, equality is one meaning without NaNs and functions. |
| StructuralDiffs.ProbeAgrees | assert/structural_diff.go:485-504 | For all values: the probe finds something exactly when they are not deeply equal, the walk exactly when they are not or it meets such a map; so the two agree where keys can be told apart. |
| StructuralDiffs.EqualMaps | assert/structural_diff.go:419-483 | Two deeply equal maps of any size, at different addresses, are reported as different if and only if two of their entries tie and have equal fingerprints at the allowance their ties leave, or a map inside does; where the values inside cannot, if and only if two entries do. |
| DiffUnits.SortUnion | assert/structural_diff.go:437-445 | Sorting the entries of both maps together puts entries that cannot be told apart next to each other, at the one allowance the tied entries share. |
| TiedKeys.NamesakeKeysReported | assert/structural_diff.go:444-470 | There are such maps: the keys are the number 1 in two types of one name and the values two strings too long for the fingerprint; the maps are deeply equal, and reported. |
| GroupRuns.RunPlanWithGroups | specs/group_hooks.go:448-498 | Finding each group's children by a stack over first and last indices, and then walking them, gives the trace of the nested sections. |
| GroupLaws.AllReports | specs/group_hooks.go:655-705 | Whatever fails, with fail-fast or without, each spec the shard has is reported once, run, suppressed or unstarted, in declaration order. |
| GroupLaws.SoberAll | specs/group_hooks.go:655-695 | With fail-fast, no spec and no BeforeAll starts after any failure anywhere before. |
| GroupTearDown.AllTrace | specs/group_hooks.go:775-878 | No event happens twice, every event is about a spec or group of the range, and once anything of a group was run each of its AfterAll hooks runs after it. |
| GroupTraces.TraceIsFaithful | specs/group_hooks.go:775-878 | In the trace of any suite a group's BeforeAll is reported as failed if and only if one of its hooks failed when it was run, its AfterAll likewise; a spec is skipped if and only if that was so of a group around it; every spec run is reported with its own outcome, after all hooks of all groups around it passed; a hook runs after those before it; and a spec is left unstarted only after a failure under fail-fast. |
| PlanSections.RunSuite | specs/group_hooks.go:448-498 | Every plan any tree compiles to can be walked: its groups nest, its parallel runs lie inside or outside every group; and the trace is faithful in that sense. |
| Shards.OneOwner | specs/execution_plan.go:565-608 | A spec is in exactly the shard that owns its unit, a top-level hooked group, a parallel run or a single spec. |
| Shards.UnitsWhole | specs/execution_plan.go:547-563 | No shard splits a unit. |
| ShardLaws.JobsShareTheSuite | specs/execution_plan.go:547-608 | Whatever fails in which shard, with fail-fast or without, the shards report each spec exactly once between them, and the hooks of a group are run, or reported as failed, by the one shard that has its specs. |
| Shards.ShardsMakeTheRun | specs/execution_plan.go:547-608 | Where outcomes do not depend on what ran before and nothing stops early, the traces of all shards together are the trace of the whole run, event for event with multiplicity. |
| Shards.SelectUnits | specs/execution_plan.go:565-608 | The loop that counts units over the tree of groups selects exactly those specs. |
| ProgramShards.ShardProgram | specs/scheduler.go:341-371 | The loop over the groups of a built program keeps those at index k, k + count, k + 2 * count and so on, the first shard alone keeps the marks a focus excluded, and a shard with neither, nor a focus, is none. |
| ProgramShards.ShardsShareTheProgram | specs/scheduler.go:341-371 | All shards of a built program together run each spec with its hooks, and report each skipped, pending or excluded one, as often as the program does. |
| BCPrograms.ShardBCProgram | specs/sharding.go:175-210 | It panics exactly on an invalid partition, and else returns a well-formed program with the specs at index k, k + count, k + 2 * count and so on, each with its own code. |
| BCPrograms.ShardsOfProgram | specs/sharding.go:175-179 | All shards together have each spec as often as the program. |
| BCPrograms.BCBuilder.BuildBC | specs/bytecode_impl.go:84-91 | The result is well formed with the specs added, and the builder itself is left with one more start: a spec without code. |
| GoStates.GoState.Settle | specs/context_go.go:226-294 | The operation on the shared fields is the settle point the laws below are about. |
| GoStates.FirstFailureWins | specs/context_go.go:260-294 | After any sequence of operations and earlier settle points, a settle point gives the spec its own failure's message, or else the first a task recorded, or else the first deferred since the last settle point; and it fails the spec exactly when there is one of these or a panic to report. |
| GoStates.PanicReportedOnce | specs/context_go.go:231-249 | However many tasks panic and however often the spec settles, exactly the first panic is reported, once, and only at a settle point after it. |
| Settling.EveryRun | specs/context_go.go:135-294 | In every interleaving of a spec, its tasks, nested tasks, hooks and cleanups, told by the actions taken: every task started has ended once cleanups begin; at the end the spec failed if and only if some action failed, with the message of its own last failed assertion if there was one, and every cleanup registered ran exactly once. |
| Settling.HooksRunInOrder | specs/execution_plan.go:1052-1073 | In every run that is over the body ended first, then each after hook, once and in order, then the cleanups; and whenever the spec went on from waiting, every task started before had ended. |
| Settling.LastFirst | specs/context_cleanup.go:111-137 | In every such run the next cleanup is the one registered last among those left, also when a cleanup registers another. |
| Settling.EveryCaseEnds | specs/context_go.go:205-249 | From whatever a run has got to, a bounded number of steps is left once user code and tasks do no more than end, in any order, and some such steps lead to the end of the case. |
| Settling.RunCase | specs/context_cleanup.go:93-159 | Performing the actions on the shared object under its lock is the machine those laws are about. |
| BuilderItems.EqualKeysEqualHooks | specs/builder.go:326-346 | Items with equal hook keys have the same hooks before and after, for every script. |
| BuilderGroups.GroupsRunTheItems | specs/builder.go:393-483 | Grouping by key, batching parallel specs and buffering skips change nothing: the units run the items' hooks and bodies, in order, under their names, and every mark is attached exactly once. |
| BuilderParts.GroupsAreParts | specs/builder.go:393-483 | The groups cut the items, in order, into neighbouring parts: specs of one hook key, or parallel specs with nothing between them, each with the marks before them, and marks at the end in a group of their own; and no two neighbouring groups could have been one. |
| BuilderPlans.BuilderCollectsThePlan | specs/builder.go:159-333 | The items collected are the specs of the plan of the same tree, and the table its table. |
| BuilderAgrees.BuildSuite | specs/builder.go:486-506 | The Builder panics at the late hook the compilers panic at, and else its program runs the specs the compiled plan has and shows what the calls declare: each spec that runs, in order, with the hooks of the scopes around it, its name and breadcrumb, and the marks of those skipped, pending or excluded. |
| BuilderGroups.BuildingTwice | specs/builder.go:362-392 | Building again gives the same program if and only if no focused item comes after an unfocused one. |
| BuilderAgrees.BuildAgain | specs/builder.go:362-392 | With It("a") and FIt("b"), building twice names the focused specs ["b"] and then ["b", "b"]. |
| RunnersAgree.RunThreeWays | specs/runner.go:554-661 | For any user code, each loop calls the before hooks and the body in order up to the first that stops it and then every after hook, last first, and reports just the failures, panics and tasks' panics that happened, in order. The program loop and the parallel loop call the same functions; the group loop does too if and only if fail-fast does not stop it between before hooks; then the same failures are reported, and the same message unless a task's panic was replaced. |
| RunnersAgree.WhenFirstIsKept | specs/runner.go:590-625 | The group loop reports the first panic that happened if and only if it is not a task's panic with an after hook's panic behind it. |
| RunnersAgree.RecordIsFirst | specs/program.go:260-302 | A parallel spec's record is its first failure if and only if that is not a panic with a failed assertion behind it. |
| RunnersAgree.TaskPanicLost | specs/runner.go:594 | A task panics, then a hook: the hook's message is the one reported. |
| RunnersAgree.PanicLost | specs/program.go:275-285 | A body panics, then a hook's assertion fails: the record is the assertion. |
| WorkerPools.EveryInterleaving | specs/scheduler_batch.go:22-48 | In every interleaving of any number of workers that all stop, each spec ran exactly once if and only if the 32-bit counter suffices; and no result is overwritten. |
| WorkerPools.RoomyRuns | specs/scheduler.go:204-221 | It does suffice whenever the specs and a chunk more for each worker fit in 32 bits. |
| Claims.NotEnough | specs/scheduler_batch.go:29-34 | Where it does not, two claims run one spec before the workers have stopped. |
| WorkerPools.StepsRunOut | specs/scheduler_batch.go:29-47 | Every step but a report uses up one of finitely many. |
| WorkerPools.NeverStuck | specs/scheduler_batch.go:29-47 | While a worker has not stopped, some step is possible. |
| WorkerPools.OnlyTheClaimantWrites | specs/scheduler.go:141-151 | A result is written only by the worker that claimed its chunk. |
| WorkerPools.ResultsAreReported | specs/scheduler.go:141-151 | In every interleaving the result of each spec is the first failure reported while some worker ran it, and none if none was. |
| WorkerPools.ReportFailures | specs/scheduler.go:272-280 | Each failed spec is reported with its own message, in index order, and nothing else is. |
| WorkerPools.SmallSizes | specs/minimal_runner.go:119-130 | For every size, a run with chunks claims one spec at a time, as RunParallel does, in all interleavings if and only if the size is 0 or 1 in its last 32 bits or there is one spec only. |
| WorkerPools.NegativeSizes | specs/minimal_runner.go:119-130 | A size of -k gives the first claim every spec, so that one worker runs them all, as long as specs and k for each worker fit in 32 bits; each still runs once. |
| Claims.BelowZeroSuffices | specs/scheduler_batch.go:29-34 | For -k with k at most the number of specs, the counter suffices if and only if they do fit. |
| SubtestNames.UniqueSubtestName | specs/group_hooks.go:595-613 | A name is returned as it is when new and not taken, else with the least number nobody asked for, and only its own count changes. |
| SubtestNames.UniqueNames | specs/group_hooks.go:534-580 | For any names, empty ones too, and as long as no count overflows, the names given are pairwise different if and only if "#00" is not asked for after an empty name became "#00". |
| SubtestNames.NamesAgain | specs/group_hooks.go:581-594 | Names that are pairwise different come back unchanged from the testing package's own rule if and only if none is empty and none is number 0 of an earlier one. |
| Numbers.CanonicalIffSame | assert/json_matchers.go:302-325 | Canonical texts of two JSON numbers are equal exactly when the numbers are, at any exponent. |
| NumberTexts.CanonicalJSONNumber | assert/json_matchers.go:304-325 | The method over the characters computes that canonical text for every JSON literal. |
| NumberTexts.CanonicalizeNumber | snapshots/normalize.go:69-120 | The other method computes its own canonical text, or the literal itself when the exponent is not a 32-bit number. |
| NumberTexts.CanonicalizeBothWays | snapshots/normalize.go:69-120 | Running both canonicalizers on one literal gives one text if and only if its exponent fits 32 bits or the literal is already spelled canonically: no fraction, a small e without plus or leading zeros, no zero at either end of the digits. |
| NumberTexts.SnapshotIffSame | snapshots/normalize.go:64-68 | Call a literal plain if its exponent fits 32 bits or it is spelled canonically: two snapshot texts are equal exactly when both literals are plain and denote one number, or neither is and they are the same literal; and so never for different numbers. |
| JsonTrees.EqualIsSame | assert/json_matchers.go:327-362 | For parsed documents the recursive comparison is equality of the documents, numbers by value and keys in any order. |
| JsonTrees.MergeIsUnion | assert/json_matchers.go:418-440 | Merging two ascending key lists gives the ascending union. |
| JsonDiffs.Compare | assert/json_matchers.go:364-416 | The walker that stops when full finds the first limit + 1 of all differences, in order. |
| JsonDiffLaws.BoundedIffEqual | assert/json_matchers.go:364-416 | However small the limit, nothing is found exactly when the documents are equal, and more than the limit exactly when there is more. |
| JsonDiffLaws.ReportedIffDiffers | assert/json_matchers.go:378-416 | An entry is among the differences if and only if following its path from both roots meets that difference. |
| ManualClocks.ManualClock.Advance | assert/poll_clock.go:78-99 | Exactly the timers due by the new time fire, earliest first, each with its own due time; the others stay; a clock never goes back. |
| Polls.Poll | assert/poll.go:214-291 | For Eventually and Consistently, at any interleaving of deadline, interval and context: a poll that ends says why, its attempts and the time it took are those there were, and nothing earlier would have ended it. It is cancelled exactly when the context had ended before an attempt or during a wait, no attempt begins with an ended context, and it has not ended only if the rounds give no reason to. No timer is left running. |
| Polls.AttemptsApart | assert/poll.go:262-290 | Attempts begin at least an interval apart, and all but the first before the time is up. |

## Findings

Where the code does not keep what it, its comments or its documentation promise, the code is modelled as it is.

- specs/execution_plan.go:249 joins the pushed names, and an empty spec name is never pushed (lines 175-177): compiled
  from the registry, It("") under Describe("D") runs as "D", where specs/subtest_identity.go:40-41 promises "D/" and
  specs/compiler.go:352-354 gives it. CompilersAgree.UnnamedSpecDiffers; the exact condition is in CompileBothWays.
- specs/group_hooks.go:595-613, 619-640: the simulated names leave out the parent's path, so "#00" is not read as
  number 0 of the empty name: parallel specs named "" and "#00" are both called "#00". SubtestNames.UnnamedClash;
  exact condition in UniqueNames.
- specs/group_hooks.go:581-594: a name that ends in "/#00" or otherwise reads as number 0 of an earlier sibling is
  renamed by the testing package although it was given as unique. Exact condition in SubtestNames.NamesAgain;
  NoZeroNoClash gives the names that are safe.
- assert/tiebreak.go:21-22: equal complete fingerprints do not mean identical entries. A dynamic type is written by
  its String and PkgPath only (lines 268-269), so `[]a/p.T` and `[]b/p.T`, or types of one name local to two
  functions, are not told apart: Namesakes.NamesakesCollide, HeapContents.NilNamesakes; NamesakesNest shows that
  structs of one name with different fields may even exchange parts of their contents, because nothing marks a
  struct's end (lines 282-285).
- assert/tiebreak.go:329-334: two channels or functions of one type look alike whatever they are.
  HeapContents.ChannelsLookAlike.
- assert/structural_diff.go:444-470: deeply equal maps are reported as different when two of their keys tie and their
  entries cannot be told apart, because a unit of several entries is reported without comparing values.
  TiedKeys.NamesakeKeysReported; exact condition for two maps in StructuralDiffs.EqualMaps, for any values in
  StructuralDiff.
- specs/scope_report_labels.go:148-160: a scope inside one without a name may be reported under the path of a scope of
  the same name beside that one. ReportPaths.UnnamedHides; exact condition in PathsTellScopesApart.
- specs/runner.go:594: a task's panic is replaced by that of a later after hook, where
  specs/execution_plan.go:1055-1060 keeps the first. RunnersAgree.TaskPanicLost; exact condition in WhenFirstIsKept.
- specs/program.go:255-258: a later failure does replace a panic, when it is an assertion. RunnersAgree.PanicLost;
  exact condition in RecordIsFirst.
- specs/builder.go:485: Build is called safe to call again, but the focus filter overwrites the items it reads.
  BuilderAgrees.BuildAgain; exact condition in BuilderGroups.BuildingTwice.
- specs/bytecode_impl.go:85-86: BuildBC appends to the builder it reads, so a second program has a spec without code.
  BCPrograms.BCBuilder.BuildBC.
- specs/scheduler_batch.go:29-34: the counter wraps, and a spec may run twice. Claims.NotEnough; exact condition in
  WorkerPools.EveryInterleaving.
- specs/minimal_runner.go:119-126: a size of at most 1 is said to behave like RunParallel, but a negative one is a
  huge chunk once it is 32 bits wide: with -1, one worker runs every spec. WorkerPools.NegativeSizes; exact condition
  in SmallSizes.
- snapshots/normalize.go:83-86: equal numbers with exponents of more than 32 bits may be different snapshots, while
  the JSON matcher takes them as equal. The comment at lines 64-68 documents the fallback to the literal as it is.
  NumberTexts.HugeExponents; exact conditions in CanonicalizeBothWays and SnapshotIffSame.

## Left out

- StructuralDiffs.StructuralDiff: values are finite trees, so pairs that contain themselves are not walked; the text
  of paths and entries is not modelled, except that rendering spends any amount of the budget; a path has a step for
  a pointer and an interface too, and a probe, whose paths nobody sees, has them as well. Which differences are
  reported first, when there are more than the limit, is not stated. Which
  allowance a map inside other values is sorted with depends on what was spent before, so the condition names the
  allowances the walk gave; EqualMaps names the first one outright.
- SortedEntries.SortEntries: entries that agree in key and fingerprint may come in either order; stability is not
  stated.
- KeyOrder.CompareKeys: key types that share a name are taken to have one structure; comparing structs with different
  numbers of fields, where the source would panic, is not reached.
- Meters.FpMeter.TieFingerprint: the counter of scans, which only serves the original's own measurements, is left out.
- RunnersAgree.RunThreeWays: real `testing.T` subtests, Goexit out of a hook and the output attached to messages.
- Settling.EveryRun: a goroutine that user code starts by itself and that outlives the spec.
- SubtestNames.UniqueNames: counts of 2^31 and more, where the source's int32 overflows; the recursion over groups
  that feeds the names; the rewriting of spaces and unprintable characters.
- CompilersAgree.CompileBothWays: source locations in focus reports, nil against empty slices, the rejection of hooked
  groups whose names collide, and what a suite is after a recovered panic of a late hook.
- PlanSections.RunSuite: hooked groups without a name, which the source rejects before it runs anything, are run.
- WorkerPools.EveryInterleaving: suites of 2^32 specs and more; task and cleanup state on the flat runners.
- BCPrograms.ShardBCProgram: the parsing of flags and environment variables.
- Polls.Poll: the real clock, and the text of a result.
- `-run` selection, reporters and their formats, mocks, property testing, snapshots on disk, coverage tools: not
  modelled; they would add only easy members or depend on the file system.
