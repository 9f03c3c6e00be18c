/** The output streams and the file system the collectors write to, as state
    that the methods change; each operation's failure is an oracle fixed when
    the object is made. */
module Io {
  import opened Errors

  /** An `io.Writer` that keeps what was written to it, chunk by chunk. A writer
      with a `fault` refuses every write with that error. */
  class Writer {
    var written: seq<string>
    const fault: Option<Err>

    constructor (fault: Option<Err>)
      ensures written == [] && this.fault == fault
    {
      written := [];
      this.fault := fault;
    }

    /** `w.Write(data)`. */
    method Write(data: string) returns (err: Option<Err>)
      modifies this
      ensures err == fault
      ensures written == old(written) + (if fault.None? then [data] else [])
    {
      err := fault;
      if fault.None? {
        written := written + [data];
      }
    }
  }

  /** The files and directories a run creates. `mkdirFault(p)` is what
      `os.MkdirAll(p)` fails with, `writeFault(p)` what writing the file `p` fails with. */
  class FileSystem {
    var files: map<string, string>
    var dirs: set<string>
    const mkdirFault: string -> Option<Err>
    const writeFault: string -> Option<Err>

    constructor (mkdirFault: string -> Option<Err>, writeFault: string -> Option<Err>)
      ensures files == map[] && dirs == {}
      ensures this.mkdirFault == mkdirFault && this.writeFault == writeFault
    {
      files := map[];
      dirs := {};
      this.mkdirFault := mkdirFault;
      this.writeFault := writeFault;
    }

    /** `os.MkdirAll(path, 0755)`. */
    method MkdirAll(path: string) returns (err: Option<Err>)
      modifies this
      ensures err == mkdirFault(path)
      ensures dirs == if err.None? then old(dirs) + {path} else old(dirs)
      ensures files == old(files)
    {
      err := mkdirFault(path);
      if err.None? {
        dirs := dirs + {path};
      }
    }

    /** `ioutil.WriteFile(path, data, 0644)`, and `os.Create` with `data == ""`:
        the file holds exactly `data` afterwards. */
    method WriteFile(path: string, data: string) returns (err: Option<Err>)
      modifies this
      ensures err == writeFault(path)
      ensures files == if err.None? then old(files)[path := data] else old(files)
      ensures dirs == old(dirs)
    {
      err := writeFault(path);
      if err.None? {
        files := files[path := data];
      }
    }

    /** `fmt.Fprintf` to a file opened by `os.Create`, whose error is ignored:
        `data` goes at the end of the file. */
    method Append(path: string, data: string)
      modifies this
      ensures files == if path in old(files) then old(files)[path := old(files)[path] + data]
                       else old(files)
      ensures dirs == old(dirs)
    {
      if path in files {
        files := files[path := files[path] + data];
      }
    }
  }
}
