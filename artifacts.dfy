/**
 * The artifacts root: one sub-directory per build id, possibly next to plain
 * files, or no root at all when it has not been created yet.
 */
module Artifacts {

  /** One name is one entry, and a missing root has no entries. */
  predicate RootShape(present: bool, dirs: set<string>, files: set<string>) {
    dirs !! files && (!present ==> dirs == {} && files == {})
  }

  class ArtifactsRoot {
    /** The root directory exists. */
    var present: bool
    /** Names of the sub-directories directly under the root. */
    var dirs: set<string>
    /** Names of the other (non-directory) entries directly under the root. */
    var files: set<string>

    /** The root has the shape of a real directory tree. */
    ghost predicate Valid()
      reads this
    {
      RootShape(present, dirs, files)
    }
  }
}
