/** The part of the file system the cache touches: which paths exist, and deleting one. */
module OS {

  class FileSystem {
    /** The paths that exist on disk. */
    var existing: set<string>

    constructor (existing: set<string>)
      ensures this.existing == existing
    {
      this.existing := existing;
    }

    /** os.Stat succeeds exactly on a path that exists. */
    method Stat(path: string) returns (found: bool)
      ensures found <==> path in existing
    {
      found := path in existing;
    }

    /** os.Remove: the path no longer exists; every other path is untouched. */
    method Remove(path: string)
      modifies this
      ensures existing == old(existing) - {path}
    {
      existing := existing - {path};
    }
  }
}
