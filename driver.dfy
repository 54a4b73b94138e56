/**
 * The driver of the cleanup script: either the confirmed nuclear wipe or the
 * regular passes (age always, status and queue on request, orphans last),
 * with a dry-run mode that issues no deletion. `PlanWorld` and `PlanOutcome`
 * state what the whole run leaves and reports as functions of the state it
 * starts from; `RunCleanup` performs it in place.
 */
module Driver {
  import opened BuildKeys
  import opened Store
  import opened Artifacts
  import opened Policies

  /** The command-line switches that affect what a run does. */
  datatype Options = Options(
    maxAgeHours: int,
    dryRun: bool,
    cleanFailed: bool,
    cleanQueue: bool,
    nuclear: bool)

  /** How a run ends: nuclear wipe cancelled, dry run, or cleaned with a total. */
  datatype Outcome = Cancelled | DryRunDone | Completed(total: nat)

  /** Everything a run can change: the store and the artifacts root. */
  datatype World = World(
    entries: map<string, Payload>,
    queue: seq<string>,
    present: bool,
    dirs: set<string>,
    files: set<string>)

  /** The artifacts part of a world is one a real directory tree can have. */
  predicate WellFormed(w: World) {
    RootShape(w.present, w.dirs, w.files)
  }

  /** Every artifact directory belongs to a live build record. */
  predicate NoOrphans(w: World) {
    w.dirs <= LiveIds(w.entries)
  }

  function Snapshot(r: MetadataStore, root: ArtifactsRoot): World
    reads r, root
  {
    World(r.entries, r.queue, root.present, root.dirs, root.files)
  }

  // ---------------------------------------------------------------------
  // Confirmation of the nuclear path

  /** Lower-casing of one character (letters A to Z; every other character is kept). */
  function LowerChar(c: char): char {
    if 'A' <= c <= 'Z' then (c as int - 'A' as int + 'a' as int) as char else c
  }

  function Lower(s: string): (t: string)
    ensures |t| == |s|
    ensures forall i :: 0 <= i < |s| ==> t[i] == LowerChar(s[i])
  {
    seq(|s|, i requires 0 <= i < |s| => LowerChar(s[i]))
  }

  /** The nuclear path goes ahead when the answer lower-cases to `yes`. */
  predicate Confirmed(answer: string) {
    Lower(answer) == "yes"
  }

  /** Exactly the eight spellings of `yes` in any mix of cases confirm. */
  lemma ConfirmedSpellings(answer: string)
    ensures Confirmed(answer) <==>
      |answer| == 3 && answer[0] in "yY" && answer[1] in "eE" && answer[2] in "sS"
  {
    if |answer| == 3 && answer[0] in "yY" && answer[1] in "eE" && answer[2] in "sS" {
      assert Lower(answer) == [LowerChar(answer[0]), LowerChar(answer[1]), LowerChar(answer[2])];
    }
  }

  // ---------------------------------------------------------------------
  // The run as a function of its starting state

  /** Records the age pass evicts. */
  function Aged(entries: map<string, Payload>, opts: Options, now: int): set<string> {
    AgeEvicted(entries, now, opts.maxAgeHours)
  }

  /** Records the status pass evicts, when requested, from what the age pass left. */
  function Failed(entries: map<string, Payload>, opts: Options, now: int): set<string> {
    if opts.cleanFailed then StatusEvicted(entries - Aged(entries, opts, now), DefaultStatuses) else {}
  }

  /** The records left after the age pass and the status pass. */
  function Kept(entries: map<string, Payload>, opts: Options, now: int): map<string, Payload> {
    entries - Aged(entries, opts, now) - Failed(entries, opts, now)
  }

  /** The queue after the queue pass, when requested. */
  function QueueAfter(queue: seq<string>, opts: Options): seq<string> {
    if opts.cleanQueue then [] else queue
  }

  /** The directories the orphan pass removes, given the records it reads. */
  function Swept(present: bool, dirs: set<string>, entries: map<string, Payload>): set<string> {
    if present then Orphans(dirs, entries) else {}
  }

  /**
   * The world after the regular passes of a run that is neither dry nor
   * nuclear: age, status, queue, orphans, each on what the previous one left.
   */
  function RegularWorld(w: World, opts: Options, now: int): World {
    World(Kept(w.entries, opts, now), QueueAfter(w.queue, opts), w.present,
          w.dirs - Swept(w.present, w.dirs, Kept(w.entries, opts, now)), w.files)
  }

  /** The total the regular passes report: the sum of the four pass counts. */
  function RegularTotal(w: World, opts: Options, now: int): nat {
    |Aged(w.entries, opts, now)| + |Failed(w.entries, opts, now)|
      + (if opts.cleanQueue then |w.queue| else 0)
      + |Swept(w.present, w.dirs, Kept(w.entries, opts, now))|
  }

  /** The confirmed nuclear path: all `buildmeta-*` keys and all directories go. */
  function NuclearWorld(w: World): World {
    w.(entries := w.entries - MetaKeys(w.entries), dirs := if w.present then {} else w.dirs)
  }

  /** The world one run leaves. */
  function PlanWorld(w: World, opts: Options, answer: string, now: int): World {
    if opts.dryRun then w
    else if opts.nuclear then (if Confirmed(answer) then NuclearWorld(w) else w)
    else RegularWorld(w, opts, now)
  }

  /** What one run reports. */
  function PlanOutcome(w: World, opts: Options, answer: string, now: int): Outcome {
    if opts.dryRun then DryRunDone
    else if opts.nuclear then
      (if Confirmed(answer) then Completed(|MetaKeys(w.entries)|) else Cancelled)
    else Completed(RegularTotal(w, opts, now))
  }

  /**
   * One invocation of the cleanup tool on the shared store and artifacts
   * root. `answer` is what the operator types at the nuclear prompt; it is
   * only consulted on the nuclear path outside dry-run mode.
   */
  method RunCleanup(r: MetadataStore, root: ArtifactsRoot, opts: Options, answer: string, now: int)
    returns (outcome: Outcome)
    requires root.Valid()
    modifies r, root
    ensures root.Valid()
    ensures Snapshot(r, root) == PlanWorld(old(Snapshot(r, root)), opts, answer, now)
    ensures outcome == PlanOutcome(old(Snapshot(r, root)), opts, answer, now)
  {
    ghost var w := Snapshot(r, root);
    var totalCleaned := 0;
    if opts.nuclear {
      if !opts.dryRun {
        if Lower(answer) == "yes" {
          var nuclearCleaned := CleanupAllBuilds(r);
          RemoveArtifactDirectories(root);
          totalCleaned := nuclearCleaned;
          assert Snapshot(r, root) == NuclearWorld(w);
        } else {
          return Cancelled;
        }
      }
    } else if !opts.dryRun {
      totalCleaned := RunRegularPasses(r, root, opts, now);
      assert Snapshot(r, root) == RegularWorld(w, opts, now);
      assert totalCleaned == RegularTotal(w, opts, now);
    }
    outcome := if opts.dryRun then DryRunDone else Completed(totalCleaned);
  }

  /**
   * The regular branch of a run outside dry-run mode: the age pass, the
   * status pass and the queue pass when requested, then the orphan pass; the
   * total is the sum of their counts.
   */
  method RunRegularPasses(r: MetadataStore, root: ArtifactsRoot, opts: Options, now: int)
    returns (totalCleaned: nat)
    requires root.Valid()
    modifies r, root
    ensures root.Valid()
    ensures r.entries == Kept(old(r.entries), opts, now)
    ensures r.queue == QueueAfter(old(r.queue), opts)
    ensures root.present == old(root.present) && root.files == old(root.files)
    ensures root.dirs == old(root.dirs) - Swept(old(root.present), old(root.dirs), r.entries)
    ensures totalCleaned == |Aged(old(r.entries), opts, now)| + |Failed(old(r.entries), opts, now)|
      + (if opts.cleanQueue then |old(r.queue)| else 0)
      + |Swept(old(root.present), old(root.dirs), r.entries)|
  {
    totalCleaned := 0;
    var redisCleaned := CleanupRedisBuilds(r, now, opts.maxAgeHours);
    totalCleaned := totalCleaned + redisCleaned;
    if opts.cleanFailed {
      var failedCleaned := CleanupByStatus(r, Some(DefaultStatuses));
      totalCleaned := totalCleaned + failedCleaned;
    } else {
      assert r.entries - {} == r.entries;
    }
    if opts.cleanQueue {
      var queueCleaned := CleanupBuildQueue(r);
      totalCleaned := totalCleaned + queueCleaned;
    }
    var artifactsCleaned := CleanupOrphanedArtifacts(r, root);
    totalCleaned := totalCleaned + artifactsCleaned;
  }

  // ---------------------------------------------------------------------
  // Properties of a run

  /** A dry run changes nothing and reports no total. */
  lemma DryRunChangesNothing(w: World, opts: Options, answer: string, now: int)
    requires opts.dryRun
    ensures PlanWorld(w, opts, answer, now) == w
    ensures PlanOutcome(w, opts, answer, now) == DryRunDone
  {
  }

  /** Any answer but `yes` cancels the nuclear path with no change at all. */
  lemma NuclearCancelled(w: World, opts: Options, answer: string, now: int)
    requires opts.nuclear && !opts.dryRun && !Confirmed(answer)
    ensures PlanWorld(w, opts, answer, now) == w
    ensures PlanOutcome(w, opts, answer, now) == Cancelled
  {
  }

  /**
   * A confirmed nuclear run removes every `buildmeta-*` key and every artifact
   * directory, reports how many keys it removed, and runs no other rule: other
   * keys, the queue and plain files stay even when other switches are set.
   */
  lemma NuclearWipe(w: World, opts: Options, answer: string, now: int)
    requires WellFormed(w)
    requires opts.nuclear && !opts.dryRun && Confirmed(answer)
    ensures var w' := PlanWorld(w, opts, answer, now);
      && MetaKeys(w'.entries) == {}
      && (forall k :: k in w.entries && !IsBuildKey(k) ==> k in w'.entries && w'.entries[k] == w.entries[k])
      && w'.dirs == {}
      && w'.queue == w.queue && w'.files == w.files
    ensures PlanOutcome(w, opts, answer, now) == Completed(|MetaKeys(w.entries)|)
  {
  }

  /**
   * Every completed run leaves each artifact directory matched by a live
   * record; this is the reconciliation the tool exists for.
   */
  lemma CompletedRunLeavesNoOrphans(w: World, opts: Options, answer: string, now: int)
    requires WellFormed(w)
    requires PlanOutcome(w, opts, answer, now).Completed?
    ensures NoOrphans(PlanWorld(w, opts, answer, now))
    ensures WellFormed(PlanWorld(w, opts, answer, now))
  {
  }

  /**
   * The orphan pass runs after the record passes: when build ids are unique,
   * the directory of a build that either record pass (age, or status when
   * requested) evicts in a run is gone after it.
   */
  lemma EvictedBuildLosesDirectory(w: World, opts: Options, answer: string, now: int, k: string)
    requires WellFormed(w)
    requires !opts.nuclear && !opts.dryRun
    requires k in MetaKeys(w.entries) && k !in Kept(w.entries, opts, now)
    requires forall k' :: k' in MetaKeys(w.entries) && BuildId(k') == BuildId(k) ==> k' == k
    ensures BuildId(k) !in PlanWorld(w, opts, answer, now).dirs
  {
  }

  /** The record passes leave nothing for a second round of themselves. */
  lemma RecordPassesIdempotent(entries: map<string, Payload>, opts: Options, now: int)
    ensures Aged(Kept(entries, opts, now), opts, now) == {}
    ensures Failed(Kept(entries, opts, now), opts, now) == {}
    ensures Kept(Kept(entries, opts, now), opts, now) == Kept(entries, opts, now)
  {
    var afterAge := entries - Aged(entries, opts, now);
    var kept := Kept(entries, opts, now);
    AgePassIdempotent(entries, now, opts.maxAgeHours);
    AgeEvictedShrinks(afterAge, Failed(entries, opts, now), now, opts.maxAgeHours);
    assert kept - {} == kept;
    if opts.cleanFailed {
      StatusPassIdempotent(afterAge, DefaultStatuses);
    }
  }

  /** A second round of the regular passes changes nothing and cleans 0 items. */
  lemma RegularPassesIdempotent(w: World, opts: Options, now: int)
    ensures RegularWorld(RegularWorld(w, opts, now), opts, now) == RegularWorld(w, opts, now)
    ensures RegularTotal(RegularWorld(w, opts, now), opts, now) == 0
  {
    var w' := RegularWorld(w, opts, now);
    RecordPassesIdempotent(w.entries, opts, now);
    if w.present {
      OrphanPassIdempotent(w.dirs, w'.entries);
    }
    assert Swept(w'.present, w'.dirs, w'.entries) == {};
    assert w'.dirs - {} == w'.dirs;
  }

  /**
   * Running the tool again with the same switches and clock, right after a
   * completed run, changes nothing and cleans 0 items.
   */
  lemma SecondRunIsNoop(w: World, opts: Options, answer: string, now: int)
    requires PlanOutcome(w, opts, answer, now).Completed?
    ensures var w' := PlanWorld(w, opts, answer, now);
      PlanWorld(w', opts, answer, now) == w' && PlanOutcome(w', opts, answer, now) == Completed(0)
  {
    var w' := PlanWorld(w, opts, answer, now);
    if opts.nuclear {
      assert MetaKeys(w'.entries) == {};
      assert w'.entries - {} == w'.entries;
    } else {
      RegularPassesIdempotent(w, opts, now);
    }
  }
}
