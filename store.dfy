/**
 * The build-metadata store as the cleanup script sees it: string keys mapped
 * to serialised build records, plus the list-typed `builds-queue` key.
 * Transport, connections and deserialisation are abstracted away: each value
 * is represented by what reading and deserialising it yields.
 */
module Store {
  import opened BuildKeys

  /** The fields of a deserialised build record that the eviction rules read. */
  datatype BuildInfo = BuildInfo(timeCreated: int, stateName: string)

  /** What fetching and deserialising the value of one key yields. */
  datatype Payload =
    | Empty                    // no value, or a zero-length one
    | Corrupt                  // bytes that do not deserialise to a build record
    | Decoded(info: BuildInfo)

  /** The shared key/value store; every cleanup pass works on the same one. */
  class MetadataStore {
    /** String-valued keys: the `buildmeta-*` records and any other keys. */
    var entries: map<string, Payload>
    /** The list stored under `builds-queue`; an absent key reads as empty. */
    var queue: seq<string>
  }

  /** The keys a `buildmeta-*` listing returns. */
  function MetaKeys(m: map<string, Payload>): (ks: set<string>)
    ensures ks <= m.Keys
  {
    set k | k in m && IsBuildKey(k)
  }

  /** The build ids of the live records, as the orphan pass derives them. */
  function LiveIds(m: map<string, Payload>): set<string> {
    set k | k in MetaKeys(m) :: BuildId(k)
  }

  /**
   * A record written under `buildmeta-<id>`, where the prefix does not occur
   * in `id`, makes `id` a live build id.
   */
  lemma LiveIdOfRecord(m: map<string, Payload>, id: string)
    requires MetaPrefix + id in m
    requires !Occurs(MetaPrefix, id)
    ensures id in LiveIds(m)
  {
    BuildIdOfKey(id);
    assert MetaPrefix + id in MetaKeys(m);
  }
}
