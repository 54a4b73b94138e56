# Build cleanup: a verified model

This project models the cleanup tool of the CustomBuild build server
(`scripts/cleanup_builds.py`). The server keeps one serialised record per
build under a `buildmeta-<id>` key in a Redis store, a list of queued builds
under `builds-queue`, and one artifacts sub-directory per build id. The tool
evicts records that are too old or stuck in RUNNING. On request it also
evicts FAILURE/ERROR records and clears the queue. It then removes artifact
directories that no longer have a record. A separate "nuclear" mode wipes
every record and every artifact directory after the operator types `yes`.
A dry-run mode changes nothing.

Modules:

- `BuildKeys` (`keys.dfy`): the `buildmeta-*` namespace and the key-to-id
  conversion. The tool derives an id with `str.replace("buildmeta-", "")`,
  which removes every occurrence of the prefix, so `RemoveAll` models that.
- `Store` (`store.dfy`): the store as a class. `entries` maps each key to
  what reading and deserialising its value yields (`Empty`, `Corrupt` or a
  decoded `BuildInfo`). `queue` is the `builds-queue` list.
- `Artifacts` (`artifacts.dfy`): the artifacts root as a class. It says
  whether the root exists and holds its sub-directory names and plain-file
  names.
- `Policies` (`policies.dfy`): the five cleanup passes as methods that
  change the shared store or root in place. The age, status and orphan
  passes loop over a snapshot of the keys or directory entries, in an
  unspecified order, and each is proved against a function naming exactly
  what it removes. The queue pass and the nuclear bulk delete are single
  operations, as in the source.
- `Driver` (`driver.dfy`): the top-level run. `PlanWorld` and `PlanOutcome`
  define what a run does and reports as functions of the starting state.
  `RunCleanup` performs the run in place and is proved equal to them. The
  lemmas about the plan cover dry runs, the confirmation gate, the nuclear
  wipe, orphan freedom and idempotence.

The source comment on the stuck-build branch speaks of RUNNING builds older
than one hour, so one might expect RUNNING builds under an hour to be kept.
The code, however, evicts any decoded record older than
`max_age_hours * 3600` seconds before it looks at the state. So with a maximum
age under one hour, a RUNNING build younger than an hour is evicted. The model
follows the code (`Policies.AgeEvicts`); `Policies.AgeRuleByState` and
`Policies.YoungRunningBuildEvictedUnderZeroMaximum` state this behaviour.

## Model

| member | source | states |
|---|---|---|
| BuildKeys.RemoveAll | scripts/cleanup_builds.py:47 | Removing the prefix never lengthens a key, and a key shorter than the prefix is returned unchanged |
| BuildKeys.RemoveAllAbsent | scripts/cleanup_builds.py:165 | `replace` leaves a string in which the prefix does not occur exactly as it is |
| BuildKeys.BuildIdOfKey | scripts/cleanup_builds.py:162-165 | The key written for an id that does not contain the prefix matches `buildmeta-*`, and the id the tool derives from it is that id |
| BuildKeys.InnerOccurrenceRemoved | scripts/cleanup_builds.py:165 | Every occurrence of the prefix is removed, not only the leading one: `buildmeta-abuildmeta-b` yields `ab` |
| BuildKeys.DistinctKeysShareId | scripts/cleanup_builds.py:164-166 | Two different keys can yield the same build id (`buildmeta-a` and `buildmeta-buildmeta-a` both yield `a`) |
| Store.MetaKeys | scripts/cleanup_builds.py:30 | A `buildmeta-*` listing returns only keys present in the store |
| Store.LiveIdOfRecord | scripts/cleanup_builds.py:162-166 | A record stored under `buildmeta-<id>` (prefix not in `id`) makes `id` an active build id |
| Policies.AgeEvicted | scripts/cleanup_builds.py:30-57 | The age rule only ever selects `buildmeta-*` keys present in the store |
| Policies.CleanupRedisBuilds | scripts/cleanup_builds.py:15-63 | Deletes exactly the listed keys whose decoded record is older than the maximum age, or RUNNING and older than 3600 s. Returns their number, which is also how much the store shrank. Other keys and the queue are unchanged |
| Policies.AgeRuleByState | scripts/cleanup_builds.py:44-57 | A RUNNING record is evicted iff its age exceeds the smaller of the maximum age and one hour; any other decoded record iff its age exceeds the maximum age |
| Policies.YoungRunningBuildEvictedUnderZeroMaximum | scripts/cleanup_builds.py:46-50 | With a maximum age of 0 hours, a RUNNING build 30 minutes old is evicted by the age branch |
| Policies.UndecodedValuesSurvive | scripts/cleanup_builds.py:36-124 | Empty values and values that fail to deserialise are never deleted by the age pass or the status pass |
| Policies.DeletedCount | scripts/cleanup_builds.py:49-50 | Deleting present keys shrinks the store by exactly their number; the age and status passes use it to prove that the count they return is the drop in the store's size |
| Policies.StatusEvicted | scripts/cleanup_builds.py:106-117 | The status rule only ever selects `buildmeta-*` keys present in the store |
| Policies.CleanupByStatus | scripts/cleanup_builds.py:88-127 | Deletes exactly the listed keys whose decoded record has one of the statuses (FAILURE and ERROR when none are given). Returns their number, which is also how much the store shrank. Everything else is unchanged |
| Policies.CleanupBuildQueue | scripts/cleanup_builds.py:65-86 | The queue is empty afterwards. The result is its former length (0 for an empty queue). Records are unchanged |
| Policies.CleanupAllBuilds | scripts/cleanup_builds.py:129-148 | Deletes every `buildmeta-*` key and returns how many there were (0 if none). Other keys and the queue are unchanged |
| Policies.RemoveArtifactDirectories | scripts/cleanup_builds.py:234-239 | Under an existing root, every sub-directory is removed and plain files remain. A missing root is left alone |
| Policies.Orphans | scripts/cleanup_builds.py:175-178 | Only directories under the root can be orphans; an orphan is one whose name is no active build id |
| Policies.ActiveBuildIds | scripts/cleanup_builds.py:161-166 | The collected set is exactly the ids derived from the `buildmeta-*` keys |
| Policies.RemoveInactiveDirectories | scripts/cleanup_builds.py:174-181 | Under an existing root, exactly the sub-directories whose name is not an active id are removed, and their number is returned. Plain files stay |
| Policies.CleanupOrphanedArtifacts | scripts/cleanup_builds.py:150-184 | Under an existing root, removes exactly the orphan directories and returns their number. Files, other directories and the store are unchanged. A missing root yields 0 and no change |
| Policies.AgePassIdempotent | scripts/cleanup_builds.py:36-57 | A second age pass at the same clock finds nothing to evict |
| Policies.StatusPassIdempotent | scripts/cleanup_builds.py:109-121 | A second status pass with the same statuses finds nothing to evict |
| Policies.AgeEvictedShrinks | scripts/cleanup_builds.py:36-57 | Deleting keys never makes the age rule select a key it did not select before |
| Policies.OrphanPassIdempotent | scripts/cleanup_builds.py:175-181 | A second orphan pass over an unchanged store removes nothing |
| Policies.InnerPrefixOrphansDirectory | scripts/cleanup_builds.py:162-181 | The live record `buildmeta-abuildmeta-b` does not protect the directory `abuildmeta-b`: the orphan pass removes it |
| Driver.ConfirmedSpellings | scripts/cleanup_builds.py:227-228 | The answer confirms iff it is `yes` in any mix of letter cases |
| Driver.RunCleanup | scripts/cleanup_builds.py:215-294 | The store and root after the run, and the reported outcome, are exactly those of `PlanWorld`/`PlanOutcome` on the starting state |
| Driver.RunRegularPasses | scripts/cleanup_builds.py:244-288 | The age, status (if requested), queue (if requested) and orphan passes run in that order, each on the state the previous one left. The total is the sum of their counts |
| Driver.DryRunChangesNothing | scripts/cleanup_builds.py:215-292 | A dry run changes nothing and reports a dry run, whatever the other switches are |
| Driver.NuclearCancelled | scripts/cleanup_builds.py:241-243 | An answer other than `yes` at the nuclear prompt ends the run with no change |
| Driver.NuclearWipe | scripts/cleanup_builds.py:222-240 | A confirmed nuclear run leaves no `buildmeta-*` key and no artifact directory. Other keys, the queue and plain files stay. It reports the number of keys removed |
| Driver.CompletedRunLeavesNoOrphans | scripts/cleanup_builds.py:279-286 | After every completed run, each artifact directory is named by an active build id, and the root stays well formed |
| Driver.EvictedBuildLosesDirectory | scripts/cleanup_builds.py:245-286 | When build ids are unique, the directory of a build that either record pass evicts (age, or status with `--clean-failed`) is gone after the run, because the orphan pass runs after both record passes |
| Driver.RecordPassesIdempotent | scripts/cleanup_builds.py:245-264 | After the age and status passes, a second round of both evicts nothing |
| Driver.RegularPassesIdempotent | scripts/cleanup_builds.py:244-288 | A second round of the regular passes changes nothing and cleans 0 items |
| Driver.SecondRunIsNoop | scripts/cleanup_builds.py:218-294 | Running again with the same switches, answer and clock right after a completed run changes nothing and reports 0 items cleaned |

## Left out

- The Redis transport is not modelled: host, port, connections, byte decoding of keys, and the store changing between a listing and a read. One store object stands for the server that every pass reconnects to.
- Deserialisation is not modelled. A value is what reading and deserialising it yields. A value that does not deserialise is `Corrupt`, and both passes skip it.
- A record whose creation time reads but whose state does not is represented as `Decoded(BuildInfo(t, s))`, where `s` is a name that is neither RUNNING nor among the statuses being cleaned. This reproduces the code exactly: the age pass deletes such a record when it is older than the maximum age (the comparison comes before the state is read), and otherwise skips it; the status pass always skips it.
- A record whose state reads but whose creation time does not is not represented. The age pass skips such a record (the age computation raises), while the status pass would still evict it by its state; no `Payload` value behaves that way.
- Time is not modelled. The clock is an integer parameter `now` read once per run, and record times are whole seconds, so float ages are out of scope.
- Printed and logged messages are not modelled, including the dry-run "would clean" lines. A dry run is modelled only as changing nothing.
- Command-line parsing and its defaults (24 hours, host, port, artifacts path) are not modelled. The switches are the `Options` value, and the operator's typed answer is the `answer` parameter.
- Filesystem calls are not modelled: `Path.exists`, `iterdir`, `is_dir` and `rmtree` are set operations on the root's directory and file names. Symbolic links, permission errors and a root that is a plain file are out of scope.
- Errors that abort a run are not modelled: a `builds-queue` key of the wrong type, a failing `rmtree`, and the exit with status 1 after partial work. Every modelled pass runs to completion.
- Concurrency with the build server, which may write records while the tool runs, is not modelled.
- Driver.ConfirmedSpellings: the model lower-cases ASCII letters only. No other character lower-cases to `y`, `e` or `s`, so the set of confirming answers is the same as with full Unicode lower-casing.
