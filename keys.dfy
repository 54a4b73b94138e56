/**
 * Key naming in the build-metadata store: the `buildmeta-*` namespace and the
 * way a key is turned back into a build id.
 *
 * The cleanup script recovers a build id with `str.replace("buildmeta-", "")`,
 * which removes EVERY non-overlapping occurrence of the prefix, scanning left
 * to right, not only the leading one. `RemoveAll` models that operation.
 */
module BuildKeys {

  /** Prefix of every build-metadata key (the glob `buildmeta-*`). */
  const MetaPrefix: string := "buildmeta-"

  /** A key matches the glob `buildmeta-*`: the prefix followed by anything. */
  predicate IsBuildKey(k: string) {
    MetaPrefix <= k
  }

  /** `pat` occurs in `s` starting at position `i`. */
  predicate OccursAt(pat: string, s: string, i: nat) {
    i + |pat| <= |s| && s[i..i + |pat|] == pat
  }

  /** `pat` occurs somewhere in `s`. */
  predicate Occurs(pat: string, s: string) {
    exists i: nat | i <= |s| :: OccursAt(pat, s, i)
  }

  /**
   * `s.replace(pat, "")` for a non-empty `pat`: the leftmost occurrence is
   * dropped and the scan resumes right after it.
   */
  function RemoveAll(s: string, pat: string): (r: string)
    requires pat != []
    ensures |r| <= |s|
    ensures |s| < |pat| ==> r == s
    decreases |s|
  {
    if |s| < |pat| then s
    else if s[..|pat|] == pat then RemoveAll(s[|pat|..], pat)
    else [s[0]] + RemoveAll(s[1..], pat)
  }

  /** The build id the script derives from a metadata key. */
  function BuildId(key: string): string {
    RemoveAll(key, MetaPrefix)
  }

  /** A string in which `pat` does not occur is left as it is. */
  lemma {:induction false} RemoveAllAbsent(s: string, pat: string)
    requires pat != []
    requires !Occurs(pat, s)
    ensures RemoveAll(s, pat) == s
    decreases |s|
  {
    if |s| >= |pat| {
      assert !OccursAt(pat, s, 0);
      assert s[..|pat|] != pat;
      if Occurs(pat, s[1..]) {
        var i: nat :| i <= |s[1..]| && OccursAt(pat, s[1..], i);
        assert s[1..][i..i + |pat|] == s[i + 1..i + 1 + |pat|];
        assert OccursAt(pat, s, i + 1);
        assert false;
      }
      RemoveAllAbsent(s[1..], pat);
      assert s == [s[0]] + s[1..];
    }
  }

  /**
   * The key the build system writes for a build id in which the prefix does
   * not occur is in the namespace, and the script recovers that id from it.
   */
  lemma BuildIdOfKey(id: string)
    requires !Occurs(MetaPrefix, id)
    ensures IsBuildKey(MetaPrefix + id)
    ensures BuildId(MetaPrefix + id) == id
  {
    var key := MetaPrefix + id;
    assert key[..|MetaPrefix|] == MetaPrefix;
    assert key[|MetaPrefix|..] == id;
    RemoveAllAbsent(id, MetaPrefix);
  }

  /**
   * Every occurrence is removed, not only the leading one: the key
   * `buildmeta-abuildmeta-b` yields the id `ab`.
   */
  lemma InnerOccurrenceRemoved()
    ensures IsBuildKey("buildmeta-abuildmeta-b")
    ensures BuildId("buildmeta-abuildmeta-b") == "ab"
  {
    var key := "buildmeta-abuildmeta-b";
    assert key[..10] == MetaPrefix;
    var rest := key[10..];
    assert rest == "abuildmeta-b";
    assert rest[..10] != MetaPrefix by { assert rest[0] == 'a'; }
    assert rest[1..] == "buildmeta-b";
    assert rest[1..][..10] == MetaPrefix;
    assert rest[1..][10..] == "b";
    assert RemoveAll(rest[1..], MetaPrefix) == "b";
    assert RemoveAll(rest, MetaPrefix) == ['a'] + "b";
    assert RemoveAll(key, MetaPrefix) == RemoveAll(rest, MetaPrefix);
  }

  /**
   * Two different keys can name the same build id: `buildmeta-a` and
   * `buildmeta-buildmeta-a` both yield `a`.
   */
  lemma DistinctKeysShareId()
    ensures IsBuildKey("buildmeta-a") && IsBuildKey("buildmeta-buildmeta-a")
    ensures BuildId("buildmeta-a") == "a"
    ensures BuildId("buildmeta-buildmeta-a") == "a"
  {
    var k1 := "buildmeta-a";
    assert k1[..10] == MetaPrefix && k1[10..] == "a";
    var k2 := "buildmeta-buildmeta-a";
    assert k2[..10] == MetaPrefix && k2[10..] == k1;
  }
}
