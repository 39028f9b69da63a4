/** The part of the operating system's filesystem the manager touches: a map
    from full path to file contents, with the three calls it makes. */
module Storage {
  import opened Messages

  class FileSystem {
    var files: map<string, seq<byte>>

    constructor (files: map<string, seq<byte>>)
      ensures this.files == files
    {
      this.files := files;
    }

    /** os.Stat: succeeds exactly when a file is at the path (any error is
        read by the callers as "absent"). */
    method Stat(path: string) returns (found: bool)
      ensures found <==> path in files
    {
      found := path in files;
    }

    /** ioutil.ReadFile: the contents, or None when nothing is at the path. */
    method ReadFile(path: string) returns (r: Option<seq<byte>>)
      ensures r.None? <==> path !in files
      ensures r.Some? ==> r.value == files[path]
    {
      r := if path in files then Some(files[path]) else None;
    }

    /** ioutil.WriteFile: the write may fail; when it succeeds the path holds
        exactly the data and every other path is untouched, when it fails
        nothing changes. */
    method WriteFile(path: string, data: seq<byte>) returns (ok: bool)
      modifies this
      ensures files == if ok then old(files)[path := data] else old(files)
    {
      ok :| true;
      if ok {
        files := files[path := data];
      }
    }
  }
}
