/**
 * The file system as the debug file sink sees it: java.io.File as a parent
 * directory and a name, and a set of existing paths with the text written to
 * each file. Every operation that can throw IOException takes a flag saying
 * whether it does.
 */
module Files {

  /** java.io.File built from a parent path and a child name. */
  datatype File = File(parent: string, name: string)
  {
    /** getPath(): the bare name when there is no parent, otherwise the
        parent, a separator and the name. */
    function Path(): string
    {
      if parent == "" then name else parent + "/" + name
    }
  }

  /** Which step of writing a debug file throws IOException, if any. */
  datatype IoFailure = NoFailure | FailsOnCreate | FailsOnOpen | FailsOnWrite

  class FileSystem {
    /** Paths that exist, files and directories alike. */
    var paths: set<string>
    /** The text written to each file. */
    var contents: map<string, string>

    ghost predicate Valid()
      reads this
    {
      contents.Keys <= paths
    }

    constructor (paths: set<string>, contents: map<string, string>)
      requires contents.Keys <= paths
      ensures Valid()
      ensures this.paths == paths && this.contents == contents
    {
      this.paths := paths;
      this.contents := contents;
    }

    /** File.mkdir(): creates the directory; an existing one stays as it is. */
    method Mkdir(dir: string)
      requires Valid()
      modifies this
      ensures Valid()
      ensures paths == old(paths) + {dir} && contents == old(contents)
    {
      paths := paths + {dir};
    }

    /** File.createNewFile(): creates an empty file unless the path exists. */
    method CreateNewFile(path: string, fails: bool) returns (ok: bool)
      requires Valid()
      modifies this
      ensures Valid()
      ensures ok == !fails
      ensures paths == if fails then old(paths) else old(paths) + {path}
      ensures contents == if fails || path in old(paths) then old(contents) else old(contents)[path := ""]
    {
      ok := !fails;
      if ok && path !in paths {
        paths := paths + {path};
        contents := contents[path := ""];
      }
    }

    /** new FileWriter(file): creates the file or truncates it. */
    method OpenWriter(path: string, fails: bool) returns (ok: bool)
      requires Valid()
      modifies this
      ensures Valid()
      ensures ok == !fails
      ensures paths == if fails then old(paths) else old(paths) + {path}
      ensures contents == if fails then old(contents) else old(contents)[path := ""]
    {
      ok := !fails;
      if ok {
        paths := paths + {path};
        contents := contents[path := ""];
      }
    }

    /** FileWriter.write(text): the text follows what was written before. */
    method Write(path: string, text: string, fails: bool) returns (ok: bool)
      requires Valid() && path in contents
      modifies this
      ensures Valid()
      ensures ok == !fails
      ensures paths == old(paths)
      ensures contents == if fails then old(contents) else old(contents)[path := old(contents)[path] + text]
    {
      ok := !fails;
      if ok {
        contents := contents[path := contents[path] + text];
      }
    }
  }
}
