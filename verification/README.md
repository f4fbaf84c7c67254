# A model of the self-tuning retrieval router

This project models the stateful algorithms of the router in Dafny and proves what they keep. It is
checked with `dafny verify dfyconfig.toml`. One module stands for one component; objects the source
updates in place are classes whose methods are proved against specification functions, and what those
functions promise is proved as lemmas over all inputs, all runs or all interleavings.

## What is modelled

- **The heuristics bandit** (`Profile`, `Trial`, `HeuristicsStore`, `Keys`, `Bandit`, `PickerRun`,
  `PickerMeaning`, `AuditLog`, `PickerLimits`, `PickerReach`). A profile is twelve bounded knobs. A trial
  perturbs the stored profile of a bucket by one unit in one knob, collects rewards, and is promoted,
  discarded or rolled back. `Bandit` and `Store` are the classes; `PickerRun` is the transition system
  of a process under concurrency. A pick is a sequence of separate steps under a shared read lock (read
  the bucket, read the intent, seed what is missing, enter the bandit, return), any of which may fail;
  rewards and resets hold the write lock; the process may restart. The main results are that in every
  interleaving each live candidate is one step from the profile stored for its bucket, that what a pick
  is served is within bounds and one step of what was stored, that the audit log replays, and that every
  change of a stored profile was earned by the rewards received. `PickerMeaning` says in draws and
  rewards alone what any pick is served and what any reward decides. `PickerLimits` and `PickerReach`
  show where this stops.
- **The source-breadth bandit** (`SourceBandit`): the scalar twin over document counts per source.
- **The async mutex** (`AsyncMutex`): a wake-and-recheck lock under any schedule of the event loop.
- **Bounded fan-out and federated search** (`FanOut`, `FederatedSearch`, `Sorting`): goroutines against
  a semaphore, a result channel and a wait group, in both disciplines found in the repository (the
  spawner takes the slot, or the worker does); merging in arrival order, stable sort, cut.
- **The subgraph snapshot** (`CodeGraph`, `Subgraph`, `SnapshotOrder`): two bounded breadth-first walks
  per seed over a server given as an oracle, structural neighbours, caps, and the output order.
- **Tag linking** (`TagLinks`): identifier tokens, scoring, in-place insertion sort on an array.
- **Bounded online structures against offline specifications**: the last-call list (`LastCallLru`), the
  capped trace index (`TraceIndex`), the topic registry (`TopicRegistry`) and the flow-feedback counters
  (`FlowOverlay`).
- **Topic labels** (`TopicLabel`) and **masked mean pooling** over flat buffers (`MeanPool`).

Redis is maps, sequences and a sorted set with the meaning of the commands used; the code-graph server,
the tokenizer and the model are functions; random draws, times, topic sample counts and the success of
each read or write are inputs of the step that uses them; floats are reals.

## Where the code and its own words differ

The model follows the code.

- Rollback compares the adjusted reward with the threshold (internal/heuristics/bandit.go:216); comments
  speak of the raw one.
- `Reset` restores only the intent's own profile. Its comment (internal/heuristics/bandit.go:239-243)
  says bucket profiles are lazily seeded anew; a bucket that has a stored profile keeps it, so it is back at the
  default exactly when it had none or was there before (`PickerLimits.ResetReachesBucketIff`), and a run leads
  to one that is not (`PickerReach.KeptBucketIsReached`).
- The statistics page reads and seeds profiles of intents and buckets without taking the picker's lock
  (internal/heuristics/picker.go:336-338, 381-416). The agreement of candidates, picks under way and frozen
  defaults with the store is therefore proved for picks, rewards and resets, and `PickerLimits` gives the exact
  condition under which a late write of that page keeps it: the slot's candidates and the picks under way must
  all come from what is written. For every intent the page visits `PickerReach` leads runs from the empty store
  to states in which it does not: past an explore, before one, and after a promotion.
- `EnsureDefault` ignores an error of its existence test and writes the default anyway
  (internal/heuristics/store.go:108-115). A frozen default is still never changed, because what is written
  is the built-in profile it already holds.
- History entries may be of kind "seed" according to the type's comment; nothing writes one.
- `ApplyMemoryShrink` can leave the bounds that no bandit profile can leave: exactly when three memories
  or more point at files (`Profiles.ShrinkingStaysInBoundsIff`).
- The mutex serves callers in the order they arrive exactly as long as no newcomer arrives between a wake-up
  and the woken caller's recheck (`AsyncMutex.FirstComeFirstServedIff`).
- The topic registry promises the global topic on any Redis failure (internal/heuristics/topics.go:137-139).
  Its loader tests for an empty answer before it tests for the error (internal/heuristics/topics.go:319-322),
  so a read that failed altogether is taken for an empty bucket: the query is answered t-0, and a live t-0 is
  written over (`TopicRegistry.BlindResolveBalancesIff`).
- `Subgraph` promises what a seed extends. It records the From end and draws to the seed
  (internal/codegraph/client.go:661-665), so an edge from the seed to its parent leaves nothing, without a mark
  (`Subgraph.ParentShownIff`, `Subgraph.ParentIsLost`).
- `Subgraph` says that the first record of a name is the closest to the seed. The node map is shared by all
  walks, so this is exact only for the first seed's downstream walk, and it is proved for that one. A later seed
  that this walk has reached is a callee and never a seed (`Subgraph.ReachedSeedIsCallee`,
  `Subgraph.SecondSeedIsCallee`); a start stands as a seed exactly when it was no node before
  (`Subgraph.Snapshot.Begin`).
- A walk can stop at exactly 500 nodes without setting `Truncated` (internal/codegraph/client.go:576,
  `Subgraph.StopsUnmarked`), which is why the completeness claims ask for fewer than 500 nodes.
- An edge key joins type and both names with a bar, so two edges whose names hold bars can share one key, and
  the second is then passed over (`Subgraph.BarsShareKey`; `Subgraph.KeyTells` says when that cannot happen).
- `LinkTag` documents 1.0 for a tag equal to the name. The code compares the lower-cased tag with the name,
  so a name with capitals never scores 1.0 (`TagLinks.EqualNamesScoreFullIffLower`).
- `splitIdentifierTokens` documents one token for an acronym; every capital opens a token
  (`TagLinks.AcronymsFallApart`).
- Evicting a topic resets its sample count under the same id, so a hot bucket can turn cold while its
  candidate is still live (`TopicRegistry.EvictionCoolsTheBucket`).
- `UpdateFlowOverlay` calls its pipeline all-or-nothing; it is a plain pipeline, not a transaction. The
  model covers the pipeline that succeeds or fails as a whole.
- A topic label whose first token is longer than 40 characters and opens with 40 digits cannot be extracted
  again from itself (`TopicLabels.ReextractionAgreesIff`).

## Model

| member | source | states |
|---|---|---|
| `Profiles.Clip` | internal/heuristics/profile.go:128-142 | the result is inside every bound, and a profile already inside is returned unchanged |
| `Profiles.ClipIsNearest` | internal/heuristics/profile.go:128-142 | clipping moves each knob to the nearest value inside its bounds |
| `Profiles.Default` | internal/heuristics/profile.go:76-124 | every intent starts inside the bounds |
| `Profiles.KnobOf` | internal/heuristics/bandit.go:270-307 | a name selects the knob of that name, and exactly the names off the list select none |
| `Profiles.PerturbIsOneStep` | internal/heuristics/bandit.go:270-307 | a perturbed profile differs from its base exactly when the named knob exists and is not already at the bound it is pushed to, and then by one unit in that knob, in the direction drawn |
| `Profiles.ShrinkingStaysInBoundsIff` | internal/heuristics/profile.go:159-197 | tightening for strong memory never raises a knob and is idempotent, and it stays inside the bounds if and only if fewer than three memories point at files |
| `Trials.ComputeMean` | internal/heuristics/bandit.go:372-381 | the loop computes the mean, 0 for no samples |
| `Trials.MeanIsAverage` | internal/heuristics/bandit.go:372-381 | the mean is the plain average: n+1 times the mean with one number more is n times the mean before plus that number |
| `Trials.TrailingBadMeansSuffix` | internal/heuristics/bandit.go:214-225 | n strikes in a row means exactly that the last n candidate rewards were below the rollback threshold |
| `Trials.StrikesGrow` | internal/heuristics/bandit.go:214-225 | one more reward creates a run of three bad ones exactly when it completes one at the end |
| `Trials.ObserveIsFaithful` | internal/heuristics/bandit.go:200-237 | the running counters say what the whole reward stream says: rollback happens exactly when the stream holds three bad candidate rewards in a row, and both windows hold the weighted rewards in order |
| `Trials.AThirdIsGood` | internal/heuristics/bandit.go:216-226 | in a stream without three bad rewards in a row at least a third, rounded down, is good |
| `Trials.PromotionIsEarned` | internal/heuristics/bandit.go:227-236 | a promotion needs 20 candidate and 5 base samples, a mean lift of more than 0.05, and at least floor(n/3) candidate rewards at or above 0.30 |
| `HeuristicsStore.Store.SetCurrentFor` | internal/heuristics/store.go:431-436 | the write goes to the slot of the bucket, clipped, and to no other; a failed write changes nothing |
| `HeuristicsStore.Store.AppendHistoryFor` | internal/heuristics/store.go:440-450 | the entry becomes the newest of its slot, the list stays within 200 entries, other slots and tables are untouched |
| `HeuristicsStore.Store.EnsureDefault` | internal/heuristics/store.go:108-115 | the frozen default is written once and never overwritten |
| `HeuristicsStore.Store.LoadDefault` | internal/heuristics/store.go:119-129 | the frozen default, or the built-in one when it is missing or unreadable |
| `HeuristicsStore.Store.CurrentProfile` | internal/heuristics/store.go:76-97 | reading an intent seeds it and its frozen default from the built-in profile when missing, and returns what is then stored |
| `HeuristicsStore.Store.CurrentProfileFor` | internal/heuristics/store.go:402-428 | reading a bucket seeds it from its intent when missing, and returns what is then stored |
| `Keys.BanditKeysAreUnique` | internal/heuristics/bandit.go:66-73 | candidate keys of intents and topics without a bar are equal only for equal buckets, whatever the repository is called; and two buckets that do collide when a topic holds a bar |
| `Keys.ResetPrefixIsExact` | internal/heuristics/bandit.go:261-266 | as long as intents hold no bar, the prefix a reset deletes by matches exactly the candidates of that intent |
| `Keys.CurrentKeysAreUnique` | internal/heuristics/store.go:331-383 | as long as the intents and topics of buckets hold no colon, Redis keys of live profiles are equal only for equal slots |
| `Bandits.UpdateCountsOrFiles` | internal/heuristics/bandit.go:194-237 | a routed reward either only counts, or closes the trial: the candidate goes, its slot takes the outcome unless that is a discard, and the matching entry is filed |
| `Bandits.Bandit.EnableKnob` | internal/heuristics/bandit.go:103-107 | adds one name to the tunable knobs and changes nothing else |
| `Bandits.Bandit.Select` | internal/heuristics/bandit.go:146-185 | the new state and the served profile are those of SelectSpec; what is then served, and when a candidate appears, PickerMeaning.EveryPickServes says in plain terms |
| `Bandits.Bandit.Update` | internal/heuristics/bandit.go:194-237 | the new state is that of UpdateSpec; which rewards count, with what weight, and when they promote, drop or roll back, PickerMeaning.EveryRewardDecides says in plain terms |
| `Bandits.Bandit.JudgeWindow` | internal/heuristics/bandit.go:227-236 | once both windows are full the trial is promoted or discarded by its means; otherwise nothing changes |
| `Bandits.Bandit.PromoteCandidate` | internal/heuristics/bandit.go:321-336 | stores the candidate, files the entry and drops the trial; when the store refuses, nothing changes |
| `Bandits.Bandit.DiscardCandidate` | internal/heuristics/bandit.go:339-350 | files the entry and drops the trial, leaving the stored profile |
| `Bandits.Bandit.RollbackCandidate` | internal/heuristics/bandit.go:353-368 | stores the frozen default, files the entry and drops the trial even when the store refuses |
| `Bandits.Bandit.ResetIntent` | internal/heuristics/bandit.go:244-268 | restores the intent, files a rollback entry and drops its candidates; when the store refuses, nothing changes |
| `Bandits.Bandit.ClearIntent` | internal/heuristics/bandit.go:261-266 | removes exactly the candidates of one intent |
| `PickerRun.Target` | internal/heuristics/store.go:371-379 | every global coordinate is routed to the one global bucket of its intent, and the slot does not change |
| `PickerRun.InitialAgrees` | internal/heuristics/picker.go:52-101 | a fresh process agrees with the store |
| `PickerRun.AccessKeepsAgreement` | internal/heuristics/picker.go:152-204 | any single store access of a pick, at any moment and whether or not it fails, keeps the agreement of candidates, picks under way and frozen defaults with the store |
| `PickerRun.SelectIsSound` | internal/heuristics/bandit.go:146-185 | whatever the draws, the served profile is at most one step from the profile read, and a candidate that appears was perturbed from the stored one |
| `PickerRun.EnterKeepsAgreement` | internal/heuristics/bandit.go:146-185 | a pick entering the bandit keeps the agreement |
| `PickerRun.SlotDeterminesBucket` | internal/heuristics/store.go:371-383 | no two buckets the picker can have candidates for share a stored slot |
| `PickerRun.UpdateKeepsCandidates` | internal/heuristics/bandit.go:194-237 | a reward leaves every live candidate with the profile stored in its slot as base, and no frozen default changed |
| `PickerRun.RewardKeepsAgreement` | internal/heuristics/picker.go:206-221 | a reward under the write lock keeps the agreement |
| `PickerRun.ResetKeepsCandidates` | internal/heuristics/bandit.go:244-268 | a reset leaves the remaining candidates in agreement |
| `PickerRun.ResetKeepsAgreement` | internal/heuristics/picker.go:256-273 | a reset under the write lock keeps the agreement |
| `PickerRun.StepKeepsAgreement` | internal/heuristics/picker.go:120-273 | every step of every interleaving keeps the agreement: each live candidate is one unit step, in one knob, from a base that is the profile stored for its bucket |
| `PickerMeaning.EveryPickServes` | internal/heuristics/bandit.go:146-185 | whenever a pick of any run enters the bandit: with a knob enabled, a global or warm bucket and an exploring draw, a live candidate is served and stays, and without one a candidate appears exactly when moving the drawn knob changes the profile read, and is served; in all other cases the profile read is served and no candidate changes |
| `PickerMeaning.EveryChoiceHoldsTheStored` | internal/heuristics/picker.go:120-204 | the profile a pick brings to the bandit is the one then stored for its intent if the pick is global or cold, and else the one stored for its bucket |
| `PickerMeaning.WindowsHoldWhatWasHeard` | internal/heuristics/bandit.go:194-226 | in every state of every run the windows of a live trial hold, in order, adjusted reward times weight of exactly the rewards that named its profile, and of those that named its base, since it appeared; strikes are the trailing bad ones of the former |
| `PickerMeaning.EveryRewardDecides` | internal/heuristics/bandit.go:194-237 | every reward of every run that concerns a live candidate: three bad ones in a row bring back the default; else, once 20 of the candidate and 5 of its base are in, it is promoted if the average of reward times weight is more than 0.05 above its base's, and dropped if not; else the trial goes on; no other bucket is touched |
| `PickerMeaning.OtherRewardsDoNothing` | internal/heuristics/bandit.go:186-206 | a reward that concerns no live candidate, or reaches a frozen process, changes nothing |
| `PickerMeaning.OtherStepsKeepCandidates` | internal/heuristics/picker.go:120-273 | candidates change only with picks that enter the bandit, rewards, resets and restarts |
| `PickerMeaning.EveryResetRestores` | internal/heuristics/bandit.go:244-268 | a reset that can be stored puts the intent's own profile back to its built-in one and drops exactly its candidates; one that cannot changes neither |
| `PickerMeaning.EveryAccessOnlySeeds` | internal/heuristics/picker.go:152-204 | a store access of a pick overwrites nothing: it adds the built-in profile for an intent, or for a bucket the profile its intent then has |
| `AuditLog.StepRemembers` | internal/heuristics/bandit.go:321-368 | every step keeps the log explained by the stored profiles and the trials faithful to the rewards received |
| `AuditLog.EveryStateKeeps` | internal/heuristics/picker.go:120-273 | agreement and memory hold in every state of every run |
| `AuditLog.EveryPickIsOneStepFromTheStore` | internal/heuristics/picker.go:120-204 | in every interleaving what a pick is served is inside the bounds and at most one unit step from the profile stored at that moment in the slot it was read from |
| `AuditLog.AuditReplays` | internal/heuristics/bandit.go:244-370 | while no write failed, the stored list of every slot is the newest 200 entries of its log, the newest of them ends in the stored profile, adjacent stored promotions chain, and the whole log replayed from the seed gives the stored profile |
| `AuditLog.TruthfulAt` | internal/heuristics/bandit.go:321-368 | in such a log every promotion starts from what the older entries leave and is one step, every discard returns to it from one step off, every rollback ends in the default and names a candidate one step off or, for a reset, none |
| `AuditLog.LiveTrialsAreUndecided` | internal/heuristics/bandit.go:214-237 | no live candidate ever has three trailing bad rewards, nor, while writes succeed, both windows full |
| `AuditLog.EveryPromotionIsEarned` | internal/heuristics/bandit.go:227-336 | every promotion any run records is of the candidate that was live, with both windows full, the mean lift, and at least a third of its rewards good |
| `AuditLog.EveryStoredChangeIsEarned` | internal/heuristics/bandit.go:194-237 | in every run, a reward that changes a stored profile, whether or not its audit entry was written, either stores the candidate and the rewards received up to and including it earned that, or stores the default after three bad ones in a row |
| `PickerLimits.FrozenDefaultIsForever` | internal/heuristics/store.go:108-115 | once written, a frozen default is the same in every later state |
| `PickerLimits.ResetLeavesBucketProfiles` | internal/heuristics/bandit.go:239-268 | a reset restores the intent and drops its candidates, but a bucket that has its own stored profile keeps it |
| `PickerLimits.ResetReachesBucketIff` | internal/heuristics/bandit.go:239-268 | read after a reset, a bucket is at the default if and only if it had no profile of its own or that was at the default before |
| `PickerReach.KeptBucketIsReached` | internal/heuristics/bandit.go:239-268 | for every bucket some run leads to a reset that leaves it with a profile other than its default |
| `PickerLimits.LateWriteAgreesIff` | internal/heuristics/store.go:99-103 | whatever profile is written over whatever slot without the lock, candidates, picks under way and frozen defaults still agree with the store if and only if every candidate of the slot was perturbed from that profile and every pick under way has foreseen it |
| `PickerLimits.UnlockedSeedingAgreesIff` | internal/heuristics/picker.go:381-416 | a bucket seed written by the statistics page, which takes no lock, leaves the agreement intact if and only if the bucket's live candidate, if any, has it as base and every pick of the bucket that is past its gate has chosen it, is about to store it, or will read it from the intent |
| `PickerLimits.UnlockedDefaultAgreesIff` | internal/heuristics/picker.go:336-338 | likewise for the default the page writes for an intent it found missing: the intent's candidate must have the default as base and its picks must still expect it |
| `PickerLimits.UnlockedFreezeAgrees` | internal/heuristics/picker.go:336-338 | the frozen default the page writes then never breaks the agreement |
| `PickerLimits.LateWriteReplaysIff` | internal/heuristics/picker.go:381-416 | the audit log still replays after such a write if and only if the slot was empty or held that profile already |
| `PickerReach.SuchAMomentIsReached` | internal/heuristics/picker.go:318-416 | for every intent the page visits, every bucket of it and every floor, a run of one pick and twenty-five rewards that ends in a promotion reaches a moment from which its late write can go wrong |
| `PickerReach.DisagreementIsReached` | internal/heuristics/picker.go:318-416 | so for each of them some run from the empty store leads to a reachable, agreeing state in which the late write of what the page read breaks the agreement |
| `PickerReach.SurprisedPickIsReached` | internal/heuristics/picker.go:381-416 | for each of them some run leads to a state in which the bucket has no candidate and the late write still breaks the agreement: all bases agree, but a pick has chosen what is overwritten, and its explore opens a candidate that is at odds with the store |
| `PickerReach.LateDefaultIsReached` | internal/heuristics/picker.go:336-338 | the same for the default of an intent that was missing when the page looked and has been promoted since |
| `PickerLimits.UnlockedSeedingCanDisagree` | internal/heuristics/picker.go:381-416 | a run in which it does not: look, reset, warm, explore, then the late write |
| `SourceBandits.SourceBandit.CurrentSourceBreadth` | internal/heuristics/store.go:587-604 | reading a cell seeds it and its default when missing, clipped, and returns the clipped stored value |
| `SourceBandits.SourceBandit.SelectAll` | internal/heuristics/sourcebandit.go:105-158 | the new state, the breadths and the exploration record are those of SelectSpec, of which SelectionIsSound, LiveCandidateIsServed, NewCandidateIsServed and NothingIsExplored are proved |
| `SourceBandits.SourceBandit.ReadAll` | internal/heuristics/sourcebandit.go:105-158 | every source is read and, when missing, seeded |
| `SourceBandits.SourceBandit.Update` | internal/heuristics/sourcebandit.go:165-199 | the new state is that of UpdateSpec, of which UpdateIsSound, EndOfTrial, RefusedWrite and StaleRewardsDoNothing are proved |
| `SourceBandits.ChoiceIsSound` | internal/heuristics/sourcebandit.go:118-158 | the choice changes no stored cell; what is served is the stored breadths except for at most one source, one off, and that one is named by the record |
| `SourceBandits.SelectionIsSound` | internal/heuristics/sourcebandit.go:105-158 | a selection keeps the invariant, writes only seeds of cells not yet stored, serves values within 2 and 15, equal to the stored ones but for one step in at most one source |
| `SourceBandits.UpdateIsSound` | internal/heuristics/sourcebandit.go:165-245 | a reward keeps the invariant, changes no default and no other cell |
| `SourceBandits.EndOfTrial` | internal/heuristics/sourcebandit.go:209-245 | a promotion stores the candidate's value, a discard nothing, a rollback the default the cell was first seeded with; an undecided trial holds the reward and nothing else changes |
| `SourceBandits.FirstSeedCounts` | internal/heuristics/sourcebandit.go:110-116 | a cell not yet stored gets the breadth of the first configuration that names it, 5 unless that is positive, within 2 and 15, as value and default; a stored one stays |
| `SourceBandits.LiveCandidateIsServed` | internal/heuristics/sourcebandit.go:126-143 | with a live candidate an exploring draw serves it and any other its base, the record says so and trials stay; the candidate of a source no longer configured goes |
| `SourceBandits.NewCandidateIsServed` | internal/heuristics/sourcebandit.go:144-162 | without one an exploring draw moves the picked source by one and serves that, unless it is at that bound already; no other draw starts anything |
| `SourceBandits.NothingIsExplored` | internal/heuristics/sourcebandit.go:119-124 | disabled, without sources or in a cold bucket, every source is served as stored and no trial changes |
| `SourceBandits.StaleRewardsDoNothing` | internal/heuristics/sourcebandit.go:165-192 | a reward for another source, or for a breadth that is neither the candidate's nor its base, changes nothing |
| `SourceBandits.RefusedWrite` | internal/heuristics/sourcebandit.go:209-245 | when the store refuses, no breadth changes, a trial due for promotion goes on with its reward, and one rolled back is gone |
| `SourceBandits.EveryRunKeeps` | internal/heuristics/sourcebandit.go:105-245 | the invariant holds after every run of selections and rewards: values in bounds, bases equal to stored cells, candidates one step off |
| `SourceBandits.DefaultsAreForever` | internal/heuristics/store.go:587-623 | the default of a cell never changes once a run has set it |
| `AsyncMutex.Mutex.TryAcquire` | codegraph/src/utils.ts:362-369 | one turn of the acquire loop takes a free lock or joins the end of the queue |
| `AsyncMutex.Mutex.Release` | codegraph/src/utils.ts:371-377 | unlocks and wakes the caller that slept longest, if any |
| `AsyncMutex.Turn` | codegraph/src/utils.ts:362-390 | the two methods do to the mutex what a step of the transition system says |
| `AsyncMutex.StepKeeps` | codegraph/src/utils.ts:353-390 | every step keeps: locked exactly while someone holds, the queue holds exactly the sleepers, never unlocked with sleepers and nobody woken |
| `AsyncMutex.StepBurnsFuel` | codegraph/src/utils.ts:353-390 | every step lowers the measure Idle 3, Woken 3, Waiting 2, Holding 2 |
| `AsyncMutex.SomeoneCanStep` | codegraph/src/utils.ts:353-390 | while anyone is unfinished somebody can step |
| `AsyncMutex.ScheduleKeeps` | codegraph/src/utils.ts:353-390 | the invariant holds, and at most 3n steps are left over, at every point of every schedule |
| `AsyncMutex.MutualExclusionAndProgress` | codegraph/src/utils.ts:353-390 | in every schedule of n callers: at most one holder, at most 3n turns, and a schedule that cannot go on has finished all callers and left the lock free |
| `AsyncMutex.FirstComeFirstServedIff` | codegraph/src/utils.ts:362-377 | over all schedules: callers come to hold the lock in the order of their first turn if and only if nobody takes a first turn while somebody is woken |
| `AsyncMutex.ArrivalInTheGapOvertakes` | codegraph/src/utils.ts:362-377 | in any reachable state a first turn in that gap takes the lock, and the woken caller goes back to the end of the queue |
| `AsyncMutex.WokenCallerCanBeOvertaken` | codegraph/src/utils.ts:362-377 | a schedule of three callers in which that happens |
| `FanOut.StepKeeps` | internal/anchorlearn/parallel.go:43-57 | every turn keeps the counts of semaphore, wait group, results and workers in step |
| `FanOut.BoundedInFlight` | internal/anchorlearn/parallel.go:46-55 | never more than limit bodies run at once |
| `FanOut.ResultNeverBlocks` | internal/crossrepo/linker.go:106-120 | a worker with a result never finds the channel full |
| `FanOut.SomeoneCanTurn` | internal/anchorlearn/parallel.go:43-57 | until the call has returned somebody can take a turn |
| `FanOut.ScheduleKeeps` | internal/anchorlearn/parallel.go:43-57 | the invariant holds at every point of every schedule, and the remaining work is bounded |
| `FanOut.FanOutIsBoundedAndComplete` | internal/anchorlearn/parallel.go:32-58 | in every schedule and under both semaphore disciplines: bounded in flight, at most 7n+1 turns, stuck only when returned, and on return every worker finished with every index reported exactly once |
| `FanOut.RequestedLimitHolds` | internal/anchorlearn/parallel.go:32-45 | with the limit a caller asked for, 8 standing in for none, no more bodies than that and no more than n are in flight |
| `FanOut.RequestedLimitIsReached` | internal/anchorlearn/parallel.go:32-45 | and in some schedule that many are in flight at once, or n if that is fewer |
| `FederatedSearch.ResolveRepos` | internal/crossrepo/linker.go:243-283 | the selected repositories are distinct and registered, in registry order cut to the maximum, or in the order asked for |
| `FederatedSearch.KeptIsInOrder` | internal/crossrepo/linker.go:243-283 | the repositories kept are those of the list asked for, in the order of their first occurrence |
| `FederatedSearch.BeforeIsAnOrder` | internal/crossrepo/linker.go:290-308 | the ranking is a strict weak order |
| `FederatedSearch.TiesShareRepo` | internal/crossrepo/linker.go:290-308 | two hits tie if and only if they agree on score, repository, file and name |
| `FederatedSearch.RankAndTrim` | internal/crossrepo/linker.go:290-311 | the hits sorted stably and cut to the limit; so the reported and the left-out hits are together all there were, ranked as RankingIsTheBest says |
| `FederatedSearch.RankingIsTheBest` | internal/crossrepo/linker.go:290-311 | of any two reported hits the earlier has the greater score, or the same and then repository, file and name do not descend; no hit left out ranks above one reported; and none is left out unless the limit is exceeded |
| `FederatedSearch.Collect` | internal/crossrepo/linker.go:122-141 | hits concatenated in arrival order; counts and errors exactly those of the repositories that answered and failed |
| `FederatedSearch.MergeResults` | internal/crossrepo/linker.go:122-147 | the reported hits are the ranked and cut merge of the answers, as RankingIsTheBest says, and the counts and errors are those of the answers |
| `FederatedSearch.MergeHoldsTheAnswers` | internal/crossrepo/linker.go:122-141 | restricted to one repository the merge is exactly that repository's answer, under its name and in its order |
| `FederatedSearch.TiesComeFromOneRepo` | internal/crossrepo/linker.go:122-147 | all merged hits that tie come from one repository, in that repository's own order |
| `FederatedSearch.SearchIgnoresCompletionOrder` | internal/crossrepo/linker.go:106-147 | any two completion orders of the same answers give the same final list, ties included |
| `FederatedSearch.SearchIsDeterministic` | internal/crossrepo/linker.go:102-147 | any two schedules of the bounded fan-out report the same hits in the same order |
| `FederatedSearch.RepeatedRepoShowsOrder` | internal/crossrepo/linker.go:106-147 | two answers filed under one repository would show the order of arrival |
| `CodeGraph.WithinIsReachable` | internal/codegraph/client.go:560-606 | a name is within k exactly when a walk of at most k steps leads to it |
| `CodeGraph.NextLevelFromLayer` | internal/codegraph/client.go:560-606 | one more level is found by asking only about the names of the last one |
| `CodeGraph.EmptyLayerIsTheEnd` | internal/codegraph/client.go:562-562 | an empty level means nothing lies further out |
| `Subgraph.Snapshot.UpsertNode` | internal/codegraph/client.go:519-532 | the first record of a name wins, and only a full snapshot sets the truncation mark |
| `Subgraph.Snapshot.AddEdge` | internal/codegraph/client.go:533-546 | blank ends, loops and known keys are passed over; a full snapshot takes no edge and is marked |
| `Subgraph.Snapshot.Record` | internal/codegraph/client.go:570-575 | one edge of an answer: its far end with file, role and signed depth, and the edge |
| `Subgraph.Snapshot.Absorb` | internal/codegraph/client.go:570-575 | an answer adds exactly its unknown far ends, and the truncation mark is set exactly when some recorded end or drawable edge of the answer is missing afterwards |
| `Subgraph.Snapshot.Ask` | internal/codegraph/client.go:565-593 | one lookup; a failed one adds nothing; the mark is set exactly when a call answer reached the server limit or something of the answer is missing, and the walk has to stop exactly when 500 nodes stand |
| `Subgraph.Snapshot.Visit` | internal/codegraph/client.go:564-593 | after both lookups the neighbours of a name are nodes and its edges drawn, unless something was cut; the wire answer is not asked for exactly when the call answer leaves no room |
| `Subgraph.Snapshot.Level` | internal/codegraph/client.go:563-594 | a level adds only names one step out of the frontier, all of them unless something was cut, in at most two lookups a name |
| `Subgraph.Snapshot.Trim` | internal/codegraph/client.go:595-603 | an over-long frontier is sorted, cut to 40 and marked; no other is touched |
| `Subgraph.Snapshot.Descend` | internal/codegraph/client.go:562-605 | unless something was cut the next frontier is everything new one step out |
| `Subgraph.Snapshot.Rounds` | internal/codegraph/client.go:560-606 | a walk ends with an empty frontier, at depth 5 or full, after at most 322 lookups, and after one if there was no room to begin with; unless something was cut it has stopped short nowhere, so that FollowedAt holds of every node |
| `Subgraph.FollowedOn` | internal/codegraph/client.go:560-606 | an uncut level leaves nothing short but the names it found, which stand one level further out |
| `Subgraph.MarkIsDue` | internal/codegraph/client.go:565-602 | after an answer the mark has a reason, be it that of an earlier one |
| `Subgraph.Snapshot.Walk` | internal/codegraph/client.go:560-649 | every name added at depth d lies on a chain of exactly d steps from the start; from a lone start and uncut, the levels are exactly the breadth-first levels |
| `Subgraph.Snapshot.AddStructural` | internal/codegraph/client.go:653-672 | one structural answer: every recorded end is a node, named by that answer, at depth 1, and an edge is drawn from each From end to the seed, or for methods to the method, unless something was cut |
| `Subgraph.Snapshot.AddAux` | internal/codegraph/client.go:653-672 | unless something was cut, of importers, parents and methods the snapshot takes the From end (for methods the To end) and an edge to the seed (to the method); new nodes are ends of those answers |
| `Subgraph.Snapshot.SnapshotSeed` | internal/codegraph/client.go:678-684 | one start: both walks and the structural answers are taken unless something was cut, every node is sound, and the number of new nodes is returned |
| `Subgraph.Snapshot.Begin` | internal/codegraph/client.go:687-690 | a start stands as a seed at depth 0 if and only if it was no node yet and there was room, or stood as one before; and all around it is taken unless something was cut |
| `Subgraph.Snapshot.StartSeed` | internal/codegraph/client.go:686-705 | a seed whose lookups brought nothing but itself has been tried by the name after its last dot, unless that is generic or frequent; and that name is tried in no other case, so that, uncut, all callees and callers of the seed were then known |
| `Subgraph.CleanSeeds` | internal/codegraph/client.go:490-505 | the first eight distinct non-blank trimmed seeds, in order |
| `Subgraph.UsableAreTheFirst` | internal/codegraph/client.go:490-505 | they are trimmed seeds in the order in which they first come, and none is missing unless there are eight before it |
| `Subgraph.Snapshot.Build` | internal/codegraph/client.go:486-706 | at most 500 nodes and 1000 edges; every node is a seed, the end of a walk of exactly its depth from a start, or an end of a structural answer about a start; every edge was answered by the server; from a server that anchors its answers, as the sidecar does, both ends of every edge are nodes below the node cap, and if nothing was cut everything said about every start but its parents is shown; and downstream of the first seed every name within 5 steps is a node at exactly its shortest distance with all edges out of names within 4, no call answer there having reached the limit; unless cut, every callee at depth below 5 has all its callees as nodes and its answers drawn, and so has every caller above -5 with its callers, whatever seed they came from; and the mark is set only with more than 40 nodes, 1000 edges or a node whose call answer reached the server limit |
| `Subgraph.AroundShows` | internal/codegraph/client.go:560-672 | from a server that anchors its answers, as the sidecar does (codegraph/lib/handlers.js:153-177, 207-221, 267-281, 302-314), what is taken of call, wire, import and method answers about a start is all of them: both ends are nodes and each edge is drawn as given |
| `Subgraph.ParentShownIff` | internal/codegraph/client.go:661-665 | an edge answered about what a start extends, or what extends it, is drawn as given with both ends if and only if its To end is a start that was asked and names the From end; for a lone start, if and only if its To end is that start |
| `Subgraph.ParentIsLost` | internal/codegraph/client.go:661-665 | a server answers that S extends P, and no snapshot of S has P or any edge |
| `Subgraph.RecordJoinsIff` | internal/codegraph/client.go:570-575 | one recorded edge leaves all edges joining nodes if and only if its near end is a node |
| `Subgraph.ForeignEdge` | internal/codegraph/client.go:570-575 | a server that answers a question about S with an edge from X to Y has it drawn, with X no node |
| `Subgraph.KeyTells` | internal/codegraph/client.go:533-546 | an edge whose names hold no bar is the only one that can stand under its key |
| `Subgraph.BarsShareKey` | internal/codegraph/client.go:533-546 | two edges with one key, of which the second is passed over |
| `Subgraph.StopsUnmarked` | internal/codegraph/client.go:576-578 | from any 499 nodes a call answer that takes the last place ends the walk with the wire answer not asked for, and without a mark |
| `Subgraph.ReachedSeedIsCallee` | internal/codegraph/client.go:686-705 | a later seed within 5 steps downstream of the first is recorded as a callee at its distance from the first and never as a seed |
| `Subgraph.SecondSeedIsCallee` | internal/codegraph/client.go:686-705 | S calls T and both are seeds: T stands one step from S, though it is a start itself |
| `Subgraph.BareTail` | internal/codegraph/client.go:769-779 | the part after the last dot, at least three characters long and without a dot |
| `Subgraph.BareTailMeans` | internal/codegraph/client.go:769-779 | what follows the last dot is the tail exactly if it has three characters or more; a name without a dot has none |
| `Subgraph.ChainedIsExact` | internal/codegraph/client.go:560-606 | names of level k are ends of walks of exactly k steps |
| `Subgraph.BreadthfirstIsLayers` | internal/codegraph/client.go:560-606 | uncut levels are the layers of shortest distance, and together the names within reach |
| `Subgraph.WalkCovers` | internal/codegraph/client.go:560-606 | after an uncut walk from a lone start every name within 5 steps is a node at its shortest distance |
| `Subgraph.WalkDraws` | internal/codegraph/client.go:560-606 | after such a walk the edges out of every name within 4 steps are drawn |
| `SnapshotOrder.NodeBeforeIsAnOrder` | internal/codegraph/client.go:715-721 | role rank then name is a strict weak order |
| `SnapshotOrder.EdgeBeforeIsAnOrder` | internal/codegraph/client.go:726-734 | type, from, to is a strict weak order |
| `SnapshotOrder.ListNodes` | internal/codegraph/client.go:711-721 | the output lists every node once: seeds, callers, callees, methods, extended, importers, and each by name |
| `SnapshotOrder.ListEdges` | internal/codegraph/client.go:722-734 | the output lists every edge once, by type, then from, then to |
| `SnapshotOrder.NodeListingIsUnique` | internal/codegraph/client.go:708-721 | there is only one such listing of the nodes, whatever order the map was iterated in and however the sort moves ties |
| `SnapshotOrder.EdgeListingIsUnique` | internal/codegraph/client.go:722-734 | likewise for the edges |
| `LastCallLru.LastCallLRU.constructor` | internal/heuristics/lru.go:39-52 | an empty list; capacity 16 and ten minutes stand in for values not positive |
| `LastCallLru.LastCallLRU.Push` | internal/heuristics/lru.go:55-79 | the list stays the first capacity entries of the reversed push history with only the latest push of each id, and the index points at exactly the listed cells; blank ids are ignored |
| `LastCallLru.LastCallLRU.Unlink` | internal/heuristics/lru.go:64-67 | takes exactly one id out of list and index |
| `LastCallLru.LastCallLRU.Pop` | internal/heuristics/lru.go:71-77 | takes the last cell out of list and index |
| `LastCallLru.LastCallLRU.Evict` | internal/heuristics/lru.go:70-78 | cuts the list to the capacity from the back |
| `LastCallLru.LastCallLRU.MostRecent` | internal/heuristics/lru.go:83-95 | the entry pushed last, unless it is older than the TTL or there is none |
| `LastCallLru.EvictionCommutes` | internal/heuristics/lru.go:64-78 | dropping the overflow before or after a push makes no difference |
| `LastCallLru.LatestMeaning` | internal/heuristics/lru.go:55-79 | the offline list holds of every id exactly its last push, most recent push first |
| `LastCallLru.LastPushIsLast` | internal/heuristics/lru.go:55-79 | no later push has the id |
| `LastCallLru.FrontIsFreshest` | internal/heuristics/lru.go:83-95 | with non-decreasing times nothing is reported if and only if no retained entry is within the TTL |
| `LastCallLru.FrontTellsTruthIff` | internal/heuristics/lru.go:83-95 | at every time nothing is reported exactly when all retained entries are stale, if and only if the front carries the greatest retained time |
| `LastCallLru.StaleFrontHidesFreshEntry` | internal/heuristics/lru.go:83-95 | with times out of order a stale front hides a fresh entry |
| `TraceIndex.TraceStore.PutTrace` | internal/heuristics/store.go:246-259 | the trace joins the index under its timestamp or the present; without id or fields nothing happens |
| `TraceIndex.TraceStore.RecentTraceIds` | internal/heuristics/store.go:264-276 | the leading ids in descending order, 50 when no limit is given, never more than 500; after a rising run those of the ranking of everything ever put |
| `TraceIndex.IndexIsTopOfAll` | internal/heuristics/store.go:246-259 | if no put lowers a known id's score, the trimmed index is exactly the cap highest rows of everything ever put |
| `TraceIndex.TrimmingCommutes` | internal/heuristics/store.go:252-256 | trimming before or after such a put makes no difference |
| `TraceIndex.FreshIdsRise` | internal/heuristics/store.go:246-259 | puts of fresh ids never lower a score |
| `TraceIndex.RankMeaning` | internal/heuristics/store.go:246-259 | the full ranking holds exactly the last put of every id |
| `TraceIndex.RankIsDescending` | internal/heuristics/store.go:246-276 | it is strictly descending by score and member, each id once |
| `TraceIndex.RankIsByScore` | internal/heuristics/store.go:246-276 | higher scores come first, and of equal scores the greater id |
| `TraceIndex.TrimmingCommutesIff` | internal/heuristics/store.go:252-256 | one put into a trimmed index gives the trimmed full ranking if and only if it does not move a kept id below the highest row that was dropped |
| `TraceIndex.LoweredScoreForgets` | internal/heuristics/store.go:246-259 | a put with a lowered score makes the index forget a trace that should be back in it |
| `TopicRegistry.TopicIdRoundTrip` | internal/heuristics/topics.go:428-440 | a made id reads back as its number |
| `TopicRegistry.NextTopicId` | internal/heuristics/topics.go:419-440 | the lowest number no listed id reads as; it is at most the length of the list, and the id is on no list, malformed ids included |
| `TopicRegistry.LoadBucket` | internal/heuristics/topics.go:317-341 | every entry of the hash once, with its id and a scaled centroid |
| `TopicRegistry.Nearest` | internal/heuristics/topics.go:167-173 | an entry of greatest similarity above -1, or none |
| `TopicRegistry.LeastRecent` | internal/heuristics/topics.go:201-204 | an entry that no other was last seen before |
| `TopicRegistry.ResolveIn` | internal/heuristics/topics.go:165-233 | a close topic absorbs, and it is a closest one; else a full bucket gives up one least recently seen; else the lowest free id opens; and the entry saved has one sample more, the merged centroid, its creation time and its tag unless that was blank, or else is a fresh one of one sample with the query as centroid |
| `TopicRegistry.ResolveConserves` | internal/heuristics/topics.go:165-233 | a resolve of a bucket that was read keeps the ids exactly t-0 to t-(n-1) with n within the cap, and live samples plus forgotten ones grow by exactly one |
| `TopicRegistry.BlindResolveOpensFirst` | internal/heuristics/topics.go:317-324 | a resolve that sees nothing, because the bucket is empty or its read failed, opens t-0 whatever is asked |
| `TopicRegistry.EveryResolveConserves` | internal/heuristics/topics.go:140-233 | read or not, a resolve keeps the shape, and live, forgotten and overwritten samples together grow by exactly one |
| `TopicRegistry.BlindResolveBalancesIff` | internal/heuristics/topics.go:317-324 | after a failed read the balance of live and forgotten samples survives if and only if the write fails too or the bucket has no t-0 |
| `TopicRegistry.BlindResolveLosesSamples` | internal/heuristics/topics.go:317-324 | otherwise a live t-0 of two samples or more shrinks to one under the same id |
| `TopicRegistry.EvictionCoolsTheBucket` | internal/heuristics/topics.go:200-219 | a reused slot starts over at one sample under the same id, below any floor above one |
| `TopicRegistry.SamplesIn` | internal/heuristics/topics.go:245-255 | the samples of the topic, or 0 |
| `TopicRegistry.TopicStore.Persist` | internal/heuristics/topics.go:343-349 | writes one entry of one bucket |
| `TopicRegistry.TopicStore.Resolve` | internal/heuristics/topics.go:140-233 | the answer and the new registry follow from the resolve rules on what was seen; disabled, wrongly sized or broken off half way gives the global topic and changes nothing; a read that failed altogether answers t-0 and writes over it; the shape of every bucket and the balance of live, forgotten and overwritten samples are kept |
| `TopicRegistry.TopicStore.SamplesOf` | internal/heuristics/topics.go:240-255 | the samples of a topic, 0 for the global one |
| `TopicLabels.Tokenize` | internal/heuristics/topics.go:553-583 | the kept runs of letters and digits, in order |
| `TopicLabels.SeparatorsSeparate` | internal/heuristics/topics.go:553-583 | for all texts, anything but an ASCII letter or digit between them separates their tokens |
| `TopicLabels.RunIsOneToken` | internal/heuristics/topics.go:553-583 | a run of letters and digits is one token, its lower case, unless it is shorter than three, a stop word or a number |
| `TopicLabels.PickTokens` | internal/heuristics/topics.go:522-533 | the first three distinct tokens |
| `TopicLabels.ExtractTopicLabel` | internal/heuristics/topics.go:514-549 | the loop computes Label, of which LabelIsStable and ReextractionAgreesIff are proved |
| `TopicLabels.KeptIsGood` | internal/heuristics/topics.go:553-583 | kept tokens are alphanumeric, at least three long, no stop words, no numbers, all distinct |
| `TopicLabels.LastHyphen` | internal/heuristics/topics.go:538-546 | where the last hyphen before the limit stands in a joined list, and that one more token would reach the limit |
| `TopicLabels.LabelIsStable` | internal/heuristics/topics.go:514-583 | when the first kept token has at most 40 characters the label is the hyphen-join of leading distinct kept tokens, at most 40 long, all of them up to three that leave room, and extracting from it gives it back |
| `TopicLabels.LongTokenIsCut` | internal/heuristics/topics.go:538-548 | a longer first token is cut to 40 characters, and reading that back drops it exactly if it is a stop word or a number |
| `TopicLabels.ReextractionAgreesIff` | internal/heuristics/topics.go:514-583 | extracting twice equals extracting once if and only if the first kept token is not longer than 40 with 40 leading digits |
| `FlowOverlay.FieldsAreUnambiguous` | internal/memory/store.go:779-804 | fields and counters match one to one, whatever characters the paths hold |
| `FlowOverlay.NormaliseFileSet` | internal/memory/store.go:831-839 | the non-empty normalised paths |
| `FlowOverlay.NormalisedMeans` | internal/memory/store.go:841-848 | white space around a path, one leading slash, everything from the first colon on and capitals make no difference, and nothing else goes |
| `FlowOverlay.SplitOverlayCsv` | internal/memory/store.go:814-826 | the trimmed non-empty pieces between commas |
| `FlowOverlay.CommasSeparate` | internal/memory/store.go:814-826 | for all texts a comma separates their pieces, and a text without one is a single trimmed piece or blank |
| `FlowOverlay.MatchesAny` | internal/memory/store.go:656-662 | whether some read path contains the file or is contained in it |
| `FlowOverlay.OverlapMeans` | internal/memory/store.go:656-662 | two paths match exactly when one is the other with something before or after it |
| `FlowOverlay.QueueMarks` | internal/memory/store.go:648-668 | one useful or dead increment per listed file, as the rules say |
| `FlowOverlay.QueueMissing` | internal/memory/store.go:673-679 | one increment per non-blank missing file |
| `FlowOverlay.Exec` | internal/memory/store.go:646-688 | after the queued increments the hash holds in decimal exactly the counters ever moved |
| `FlowOverlay.ParseFlowOverlay` | internal/memory/store.go:773-809 | in whatever order the fields come, every file counter, missing counter, total and stamp is read from its own field and from no other |
| `FlowOverlay.IncrementsCount` | internal/memory/store.go:625-681 | one event moves a file's counters by how often the flow lists it, useful when some file read overlaps its path, dead only when none does and after success without further files; missing counters by how often the file is reported; and the total by one |
| `FlowOverlay.LogCounts` | internal/memory/store.go:625-681 | the counters of a run are the sums over its events, and the total is their number |
| `FlowOverlay.JudgedAtMostOnce` | internal/memory/store.go:648-681 | if the flow lists a file at most once each time, useful plus dead never exceeds the number of updates |
| `FlowOverlay.ParseRecovers` | internal/memory/store.go:773-809 | parsing the hash of a run recovers exactly its counters, for arbitrary path strings |
| `FlowOverlay.FlowOverlayStore.UpdateFlowOverlay` | internal/memory/store.go:625-690 | an update counts exactly when repo, name and flow exist and the pipeline succeeds; otherwise nothing changes |
| `FlowOverlay.FlowOverlayStore.LoadFlowOverlay` | internal/memory/store.go:695-704 | loading recovers the counters of everything applied, or the empty overlay |
| `TagLinks.SplitIdentifierTokens` | internal/crossrepo/tags.go:137-164 | the two passes compute IdentifierTokens, of which TokensSpell, SeparatorsSeparate, CapitalsSeparate and NothingElseSeparates are proved |
| `TagLinks.TokensSpell` | internal/crossrepo/tags.go:137-164 | the tokens, one after the other, spell the letters and digits of the identifier in lower case |
| `TagLinks.SeparatorsSeparate` | internal/crossrepo/tags.go:137-164 | for all texts, anything but a letter or digit between them separates their tokens |
| `TagLinks.CapitalsSeparate` | internal/crossrepo/tags.go:137-164 | so does a capital that follows a letter or digit |
| `TagLinks.NothingElseSeparates` | internal/crossrepo/tags.go:137-164 | a run of letters and digits without a capital after its first character is one token, its lower case |
| `TagLinks.AcronymsFallApart` | internal/crossrepo/tags.go:128-164 | a run of n capitals gives n tokens |
| `TagLinks.OverlapLongTokens` | internal/crossrepo/tags.go:169-188 | the first shared token of at least four characters |
| `TagLinks.ConfidenceMeans` | internal/crossrepo/tags.go:96-122 | for every tag and name, exactly when each confidence is given, and with which reason: equal as written and without capitals 1.0, equal but for case 0.9, tag inside name 0.8, name inside tag 0.7, neither but a shared token of four characters or more 0.6, nothing of these 0.0; and the two containments exclude each other |
| `TagLinks.ReasonNamesFirstShared` | internal/crossrepo/tags.go:116-120 | the reason of a token match names the first long token of the tag that the name shares |
| `TagLinks.EqualNamesScoreFullIffLower` | internal/crossrepo/tags.go:99-107 | a tag equal to the name scores 1.0 if and only if the name has no capitals, else 0.9 |
| `TagLinks.LessLinkIsAnOrder` | internal/crossrepo/tags.go:204-212 | confidence, length and name give a strict weak order |
| `TagLinks.SinkInto` | internal/crossrepo/tags.go:197-200 | swapping down places one more element into the sorted part |
| `TagLinks.SortLinksScored` | internal/crossrepo/tags.go:194-202 | the array is afterwards the stable sort of what it held |
| `TagLinks.CollectLinks` | internal/crossrepo/tags.go:43-72 | one link per eligible name, at its first row |
| `TagLinks.LinkTag` | internal/crossrepo/tags.go:33-82 | the ranked links, or none for a blank tag or an unreadable registry |
| `TagLinks.LinksAreTheEligible` | internal/crossrepo/tags.go:48-72 | a link is returned if and only if its name is registered, not blank, not the source but for case, and scores, and it carries that score and reason |
| `TagLinks.LinksAreRanked` | internal/crossrepo/tags.go:190-212 | confidence descending, then longer names, then name, strictly: each target once |
| `TagLinks.OnlyTheSetMatters` | internal/crossrepo/tags.go:33-82 | registries with the same set of names give the same list, in whatever row order and with whatever duplicates |
| `Sorting.StableSortIsStable` | internal/crossrepo/linker.go:290-308 | the reference sort is sorted and leaves ties in their order |
| `Sorting.SortedIsUnique` | internal/crossrepo/linker.go:290-308 | there is only one stable sort of a list |
| `Sorting.FittedIsStable` | internal/crossrepo/tags.go:194-202 | putting the next element behind everything not above it sorts one element more |
| `Sorting.SortedListingIsUnique` | internal/codegraph/client.go:715-734 | where ties are equal a set has only one sorted listing |
| `MeanPool.Fill` | embedder/embedder.go:212-227 | both flat buffers hold every text's tokens and mask followed by zeros, at b*maxLen |
| `MeanPool.FilledMeans` | embedder/embedder.go:212-227 | number by number: token j of text b stands at b*maxLen+j with its mask, 1 where the tokenizer gave none, and all else is 0 |
| `MeanPool.BatchLength` | embedder/embedder.go:192-210 | the longest text of the batch, at least 1 |
| `MeanPool.PoolText` | embedder/embedder.go:287-314 | the loops compute the mask-weighted mean of the text's rows scaled to length one, every flat index in range |
| `MeanPool.RowsMeans` | embedder/embedder.go:287-299 | number d of the answer for token s of text b is read at (b*length+s)*dim+d |
| `MeanPool.PooledMeans` | embedder/embedder.go:287-314 | column by column the vector times its length is the mean, and the mean times the weight of the mask is the weighted sum, with the floors for a zero weight and a tiny length |
| `MeanPool.SumsAdd` | embedder/embedder.go:287-299 | weighted sums add up over the tokens, one token giving its value times its mask |
| `MeanPool.WeightsAdd` | embedder/embedder.go:287-299 | so do the weights of masks, one entry giving itself |
| `MeanPool.SquaresAdd` | embedder/embedder.go:303-308 | and the squares of a vector, one number giving its square |
| `MeanPool.PaddingIsInvisible` | embedder/embedder.go:274-299 | rows under a zero mask, whatever they hold, do not change the vector |
| `MeanPool.PooledIsUnit` | embedder/embedder.go:303-313 | unless the norm is below the floor the squares of the vector sum to one |
| `MeanPool.NoTokensGiveZeros` | embedder/embedder.go:300-313 | a text none of whose tokens count gets the zero vector |
| `MeanPool.OnlyOwnTokensMatter` | embedder/embedder.go:287-314 | the vector of a text comes from its own rows and mask alone |
| `MeanPool.SameVectorInAnyBatch` | embedder/embedder.go:177-317 | the same text with the same answers at its tokens gets the same vector in any two batches |
| `MeanPool.EncodeBatch` | embedder/embedder.go:177-317 | succeeds exactly when the model answers in the right shape and dimension, and then every text gets the vector of its own tokens; an empty batch is empty |
| `Text.AtoiOfItoa` | internal/heuristics/topics.go:428-440 | a decimal reads back as its number, up to 64 bits |
| `Text.LessMeans` | internal/crossrepo/linker.go:290-308 | strings are ordered by the first place they differ, and one that ends there comes first |
| `Text.TrimSpace` | internal/memory/store.go:818-823 | no white space is left at either end and nothing is added |
| `Text.TrimMeans` | internal/memory/store.go:818-823 | exactly the white space at either end goes |

## Left out

- Profile ids: a profile is identified by its knobs, so collisions of the 64-bit FNV hash are not modelled.
- Candidates are held by value in the map; the source holds references, each reachable through one key only.
- Timestamps and reasons of history entries, TTLs, metrics, logs and JSON encoding, and undecodable values.
- Writers other than one router process; of the statistics page only single late writes are modelled, in `PickerLimits`, not whole page views among the steps of a run.
- PickerRun.StepKeepsAgreement: a write that reports an error is taken to have changed nothing. A timed-out write that did land, after which `promote` returns early (internal/heuristics/bandit.go:323-326), would leave a live candidate whose base is no longer stored.
- The bodies of rewards and resets are single steps, since they hold the write lock; a pick's store accesses are not.
- Reading all intents once at start-up (internal/heuristics/picker.go:108-114) makes the same accesses as a pick.
- Daily reward lists and rolling means feed the adjusted reward, which is an input here.
- SourceBandits.SourceBandit.SelectAll: reads and seed writes are taken to succeed, and the audit history of source breadths is not kept.
- Floating-point rounding, NaN scores and the numeric meaning of cosine similarity; `MeanPool` takes the square root as a given function.
- The quality of `Search` results, routes of linked tags and the registry file; the registry is its list of names.
- Which of several equally similar, or equally old, topics is taken depends on hash iteration and an unstable sort; the contracts admit any of them.
- FlowOverlay.FlowOverlayStore.LoadFlowOverlay: counters are taken to fit 64 bits, and loading many flows at once only repeats it.
- TopicLabels.ExtractTopicLabel: lower-casing and letter classes are those of ASCII, here and in `TagLinks` and `FlowOverlay`; Unicode case folding is not modelled.
- Subgraph.Snapshot.Walk: that every name within five steps upstream, or downstream of a later seed, is a node, and that its depth is the shortest, is not claimed: the shared first-write map does not give it, since a name already recorded further out is not visited again. That no walk stops short of its own nodes is claimed, by `Subgraph.Snapshot.Build`.
- The 15-entry limit of server answers is the server's. A call answer that reaches it sets the truncation mark; wire and structural answers set none (internal/codegraph/client.go:580-590, 653-672), so "uncut" speaks of what the server answered, not of what it withheld there.
- The exclusion of `FileLock` across processes, whose exists, read, unlink and create steps are not atomic.
- HTTP, git, the tokenizer, ONNX and SQLite, the dashboard, command-line tools, benchmark adapters and seeders.
- Graph traversal, extraction and resolution of the code-graph engine, which are re-exported and not part of this model.
- Reward clipping, implicit rewards, intent keywords and registry lookups, which would only add easy members.
