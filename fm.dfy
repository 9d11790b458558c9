/** The file manager (crate `fm`): registers source files and hands out their ids. */
module Fm {
  import opened Common

  /** Index of a registered file. */
  type FileId = nat

  /** `FileId::default()`: the file that location-less diagnostics are anchored to. */
  const DefaultFileId: FileId := 0

  class FileManager {
    /** The file reader the manager was built with; `None` when a path cannot be read. */
    const reader: string -> Option<string>
    /** Registered files as (path, source); a file's id is its position. */
    var files: seq<(string, string)>

    constructor (reader: string -> Option<string>)
      ensures this.reader == reader && files == []
    {
      this.reader := reader;
      files := [];
    }

    /** Reads `path` and registers it under the next free id; `None` if it cannot be read. */
    method AddFile(path: string) returns (id: Option<FileId>)
      modifies this
      ensures reader(path).None? ==> id == None && files == old(files)
      ensures reader(path).Some? ==>
        id == Some(|old(files)|) && files == old(files) + [(path, reader(path).value)]
    {
      var source := reader(path);
      if source.None? {
        id := None;
      } else {
        id := Some(|files|);
        files := files + [(path, source.value)];
      }
    }
  }
}
