/**
 * The eviction rules of the cleanup script. Each pass takes one snapshot of
 * the keys (or directory entries), visits them in an unspecified order and
 * deletes in place, counting deletions. Every pass is proved against a
 * function naming exactly what it evicts.
 */
module Policies {
  import opened BuildKeys
  import opened Store
  import opened Artifacts

  datatype Option<T> = None | Some(value: T)

  /** The maximum age in seconds: hours times 3600. */
  function MaxAgeSeconds(maxAgeHours: int): int {
    maxAgeHours * 3600
  }

  /** A build still claiming RUNNING after this many seconds is stuck. */
  const StuckSeconds: int := 3600

  /** The statuses the status pass evicts when given none. */
  const DefaultStatuses: seq<string> := ["FAILURE", "ERROR"]

  // ---------------------------------------------------------------------
  // Age and stuck-RUNNING eviction

  /**
   * The age rule for one value: a decoded record older than the maximum age,
   * or one still RUNNING after an hour. Both comparisons are strict; a value
   * that is empty or does not decode is never evicted.
   */
  predicate AgeEvicts(p: Payload, now: int, maxAgeHours: int) {
    match p
    case Decoded(info) =>
      var age := now - info.timeCreated;
      age > MaxAgeSeconds(maxAgeHours) || (info.stateName == "RUNNING" && age > StuckSeconds)
    case _ => false
  }

  /** The keys the age pass deletes from `m`. */
  function AgeEvicted(m: map<string, Payload>, now: int, maxAgeHours: int): (ks: set<string>)
    ensures ks <= MetaKeys(m)
  {
    set k | k in MetaKeys(m) && AgeEvicts(m[k], now, maxAgeHours)
  }

  /**
   * The age pass: deletes exactly the `buildmeta-*` keys whose record is too
   * old or stuck RUNNING, returns how many it deleted, and leaves every other
   * key, and the queue, as they were.
   */
  method CleanupRedisBuilds(r: MetadataStore, now: int, maxAgeHours: int) returns (cleaned: nat)
    modifies r
    ensures r.entries == old(r.entries) - AgeEvicted(old(r.entries), now, maxAgeHours)
    ensures cleaned == |AgeEvicted(old(r.entries), now, maxAgeHours)|
    ensures |old(r.entries)| == |r.entries| + cleaned
    ensures r.queue == old(r.queue)
  {
    var keys := MetaKeys(r.entries);
    var maxAgeSeconds := MaxAgeSeconds(maxAgeHours);
    ghost var before := r.entries;
    ghost var deleted: set<string> := {};
    cleaned := 0;
    var pending := keys;
    while pending != {}
      invariant pending <= keys
      invariant deleted <= keys - pending
      invariant forall k :: k in keys - pending ==> (k in deleted <==> AgeEvicts(before[k], now, maxAgeHours))
      invariant r.entries == before - deleted
      invariant cleaned == |deleted|
      invariant r.queue == old(r.queue)
      decreases pending
    {
      var key :| key in pending;
      pending := pending - {key};
      var data := if key in r.entries then r.entries[key] else Empty;
      assert data == before[key];
      var evict := false;
      match data {
        case Decoded(info) =>
          var ageSeconds := now - info.timeCreated;
          if ageSeconds > maxAgeSeconds {
            evict := true;
          } else if info.stateName == "RUNNING" {
            if ageSeconds > StuckSeconds {
              evict := true;
            }
          }
        case _ =>
      }
      if evict {
        r.entries := r.entries - {key};
        cleaned := cleaned + 1;
        deleted := deleted + {key};
      }
    }
    assert keys - pending == keys;
    assert deleted == AgeEvicted(before, now, maxAgeHours);
    DeletedCount(before, deleted);
  }

  // ---------------------------------------------------------------------
  // Status eviction

  /** The status rule for one value: a decoded record in one of `statuses`. */
  predicate StatusEvicts(p: Payload, statuses: seq<string>) {
    p.Decoded? && p.info.stateName in statuses
  }

  /** The keys the status pass deletes from `m`. */
  function StatusEvicted(m: map<string, Payload>, statuses: seq<string>): (ks: set<string>)
    ensures ks <= MetaKeys(m)
  {
    set k | k in MetaKeys(m) && StatusEvicts(m[k], statuses)
  }

  /** The statuses a status pass uses: the ones given, or FAILURE and ERROR. */
  function StatusesOrDefault(statusesToClean: Option<seq<string>>): seq<string> {
    if statusesToClean.None? then DefaultStatuses else statusesToClean.value
  }

  /**
   * The status pass: deletes exactly the `buildmeta-*` keys whose record has
   * one of the statuses (FAILURE and ERROR when none are given), returns how
   * many it deleted, and leaves everything else as it was.
   */
  method CleanupByStatus(r: MetadataStore, statusesToClean: Option<seq<string>>) returns (cleaned: nat)
    modifies r
    ensures r.entries == old(r.entries) - StatusEvicted(old(r.entries), StatusesOrDefault(statusesToClean))
    ensures cleaned == |StatusEvicted(old(r.entries), StatusesOrDefault(statusesToClean))|
    ensures |old(r.entries)| == |r.entries| + cleaned
    ensures r.queue == old(r.queue)
  {
    var statuses := StatusesOrDefault(statusesToClean);
    var keys := MetaKeys(r.entries);
    ghost var before := r.entries;
    ghost var deleted: set<string> := {};
    cleaned := 0;
    var pending := keys;
    while pending != {}
      invariant pending <= keys
      invariant deleted <= keys - pending
      invariant forall k :: k in keys - pending ==> (k in deleted <==> StatusEvicts(before[k], statuses))
      invariant r.entries == before - deleted
      invariant cleaned == |deleted|
      invariant r.queue == old(r.queue)
      decreases pending
    {
      var key :| key in pending;
      pending := pending - {key};
      var data := if key in r.entries then r.entries[key] else Empty;
      assert data == before[key];
      match data {
        case Decoded(info) =>
          if info.stateName in statuses {
            r.entries := r.entries - {key};
            cleaned := cleaned + 1;
            deleted := deleted + {key};
          }
        case _ =>
      }
    }
    assert keys - pending == keys;
    assert deleted == StatusEvicted(before, statuses);
    DeletedCount(before, deleted);
  }

  // ---------------------------------------------------------------------
  // Queue eviction

  /**
   * The queue pass: a non-empty queue is deleted wholesale and its length
   * returned; an empty one is left alone and 0 returned. Records are untouched.
   */
  method CleanupBuildQueue(r: MetadataStore) returns (cleared: nat)
    modifies r
    ensures r.queue == []
    ensures cleared == |old(r.queue)|
    ensures r.entries == old(r.entries)
  {
    var queueLength := |r.queue|;
    if queueLength > 0 {
      r.queue := [];
      cleared := queueLength;
    } else {
      cleared := 0;
    }
  }

  // ---------------------------------------------------------------------
  // Nuclear eviction

  /**
   * Deletes every `buildmeta-*` key in one request and returns how many there
   * were (0 when there were none); other keys and the queue are untouched.
   */
  method CleanupAllBuilds(r: MetadataStore) returns (deleted: nat)
    modifies r
    ensures r.entries == old(r.entries) - MetaKeys(old(r.entries))
    ensures deleted == |MetaKeys(old(r.entries))|
    ensures r.queue == old(r.queue)
  {
    var keys := MetaKeys(r.entries);
    if keys != {} {
      r.entries := r.entries - keys;
      deleted := |keys|;
    } else {
      deleted := 0;
    }
  }

  /**
   * The directory sweep of the nuclear path: under an existing root every
   * sub-directory is removed and plain files stay; a missing root is left alone.
   */
  method RemoveArtifactDirectories(root: ArtifactsRoot)
    requires root.Valid()
    modifies root
    ensures root.Valid()
    ensures root.dirs == if old(root.present) then {} else old(root.dirs)
    ensures root.files == old(root.files) && root.present == old(root.present)
  {
    if root.present {
      var items := root.dirs + root.files;
      var pending := items;
      while pending != {}
        invariant pending <= items
        invariant root.dirs == old(root.dirs) - (items - pending)
        invariant root.files == old(root.files) && root.present == old(root.present)
        decreases pending
      {
        var item :| item in pending;
        pending := pending - {item};
        if item in root.dirs {
          root.dirs := root.dirs - {item};
        }
      }
    }
  }

  // ---------------------------------------------------------------------
  // Orphan eviction

  /** The directories with no live record: the ones the orphan pass removes. */
  function Orphans(dirs: set<string>, m: map<string, Payload>): (os: set<string>)
    ensures os <= dirs
  {
    dirs - LiveIds(m)
  }

  /** Collects the build id of every `buildmeta-*` key, one key at a time. */
  method ActiveBuildIds(r: MetadataStore) returns (ids: set<string>)
    ensures ids == LiveIds(r.entries)
  {
    var keys := MetaKeys(r.entries);
    ids := {};
    var pending := keys;
    while pending != {}
      invariant pending <= keys
      invariant ids == set k | k in keys - pending :: BuildId(k)
      decreases pending
    {
      var key :| key in pending;
      pending := pending - {key};
      ids := ids + {BuildId(key)};
    }
    assert keys - pending == keys;
  }

  /**
   * The sweep of an existing root: every sub-directory whose name is not in
   * `active` is removed, and their number returned; plain files stay.
   */
  method RemoveInactiveDirectories(root: ArtifactsRoot, active: set<string>) returns (cleaned: nat)
    requires root.Valid() && root.present
    modifies root
    ensures root.Valid()
    ensures root.dirs == old(root.dirs) * active
    ensures cleaned == |old(root.dirs) - active|
    ensures root.files == old(root.files) && root.present == old(root.present)
  {
    cleaned := 0;
    var items := root.dirs + root.files;
    var pending := items;
    ghost var removed: set<string> := {};
    while pending != {}
      invariant pending <= items
      invariant removed <= (items - pending) * old(root.dirs)
      invariant forall d :: d in (items - pending) * old(root.dirs) ==> (d in removed <==> d !in active)
      invariant root.dirs == old(root.dirs) - removed
      invariant cleaned == |removed|
      invariant root.files == old(root.files) && root.present == old(root.present)
      decreases pending
    {
      var item :| item in pending;
      pending := pending - {item};
      if item in root.dirs {
        if item !in active {
          root.dirs := root.dirs - {item};
          cleaned := cleaned + 1;
          removed := removed + {item};
        }
      }
    }
    assert items - pending == items;
    assert removed == old(root.dirs) - active;
  }

  /**
   * The orphan pass: under an existing root, removes exactly the
   * sub-directories whose name is no live build id and returns how many it
   * removed; plain files, matching directories and the store are untouched,
   * and a missing root yields 0 with no change.
   */
  method CleanupOrphanedArtifacts(r: MetadataStore, root: ArtifactsRoot) returns (cleaned: nat)
    requires root.Valid()
    modifies root
    ensures root.Valid()
    ensures root.dirs == old(root.dirs) - (if old(root.present) then Orphans(old(root.dirs), r.entries) else {})
    ensures cleaned == if old(root.present) then |Orphans(old(root.dirs), r.entries)| else 0
    ensures root.files == old(root.files) && root.present == old(root.present)
  {
    var active := ActiveBuildIds(r);
    if !root.present {
      return 0;
    }
    cleaned := RemoveInactiveDirectories(root, active);
    assert old(root.dirs) * active == old(root.dirs) - Orphans(old(root.dirs), r.entries);
  }

  // ---------------------------------------------------------------------
  // Properties of the eviction rules

  /**
   * The age rule per state: a RUNNING record is evicted once it is older than
   * the smaller of the maximum age and one hour; any other decoded record once
   * it is older than the maximum age.
   */
  lemma AgeRuleByState(info: BuildInfo, now: int, maxAgeHours: int)
    ensures info.stateName == "RUNNING" ==>
      (AgeEvicts(Decoded(info), now, maxAgeHours) <==>
       now - info.timeCreated > if MaxAgeSeconds(maxAgeHours) < StuckSeconds then MaxAgeSeconds(maxAgeHours) else StuckSeconds)
    ensures info.stateName != "RUNNING" ==>
      (AgeEvicts(Decoded(info), now, maxAgeHours) <==> now - info.timeCreated > MaxAgeSeconds(maxAgeHours))
  {
  }

  /**
   * A maximum age under one hour evicts RUNNING builds younger than an hour:
   * with a maximum age of 0 hours, a RUNNING build 30 minutes old goes.
   */
  lemma YoungRunningBuildEvictedUnderZeroMaximum()
    ensures AgeEvicts(Decoded(BuildInfo(0, "RUNNING")), 1800, 0)
  {
  }

  /** Empty and undecodable values are never evicted by the age or status pass. */
  lemma UndecodedValuesSurvive(m: map<string, Payload>, k: string, now: int, maxAgeHours: int, statuses: seq<string>)
    requires k in m && !m[k].Decoded?
    ensures k in m - AgeEvicted(m, now, maxAgeHours)
    ensures k in m - StatusEvicted(m, statuses)
  {
  }

  /** Deleting keys that are present shrinks the store by exactly their number. */
  lemma {:induction false} DeletedCount(m: map<string, Payload>, ks: set<string>)
    requires ks <= m.Keys
    ensures |m - ks| + |ks| == |m|
  {
    var rest := m - ks;
    assert rest.Keys == m.Keys - ks;
    assert m.Keys == rest.Keys + ks;
    assert rest.Keys !! ks;
  }

  /** A second age pass at the same time finds nothing left to evict. */
  lemma AgePassIdempotent(m: map<string, Payload>, now: int, maxAgeHours: int)
    ensures AgeEvicted(m - AgeEvicted(m, now, maxAgeHours), now, maxAgeHours) == {}
  {
  }

  /** A second status pass with the same statuses finds nothing left to evict. */
  lemma StatusPassIdempotent(m: map<string, Payload>, statuses: seq<string>)
    ensures StatusEvicted(m - StatusEvicted(m, statuses), statuses) == {}
  {
  }

  /**
   * Evicting keys never creates a record an eviction rule matches: a store
   * with no age-evictable records keeps none after further deletions.
   */
  lemma AgeEvictedShrinks(m: map<string, Payload>, ks: set<string>, now: int, maxAgeHours: int)
    ensures AgeEvicted(m - ks, now, maxAgeHours) <= AgeEvicted(m, now, maxAgeHours)
  {
  }

  /** A second orphan pass over an unchanged store removes nothing. */
  lemma OrphanPassIdempotent(dirs: set<string>, m: map<string, Payload>)
    ensures Orphans(dirs - Orphans(dirs, m), m) == {}
  {
  }

  /**
   * Because every occurrence of the prefix is removed, a live record can leave
   * its own directory looking orphaned: the record `buildmeta-abuildmeta-b`
   * yields the id `ab`, so a directory named `abuildmeta-b` is removed.
   */
  lemma InnerPrefixOrphansDirectory(p: Payload)
    ensures Orphans({"abuildmeta-b"}, map["buildmeta-abuildmeta-b" := p]) == {"abuildmeta-b"}
  {
    var m := map["buildmeta-abuildmeta-b" := p];
    InnerOccurrenceRemoved();
    assert MetaKeys(m) == {"buildmeta-abuildmeta-b"};
    assert LiveIds(m) == {"ab"};
    assert "abuildmeta-b" != "ab";
  }
}
