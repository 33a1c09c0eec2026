/** Saving generated code to disk: validate the result, create the application's output
    directory, write the files into it and return the directory. */
module CodeFileSaver {
  import opened Common

  /** A generated file: name and content. */
  type FileEntry = (string, string)

  /** The local file system: the directories created and the text of every file written.
      `fails` holds the paths whose creation or writing throws `IORuntimeException`. */
  class Disk {
    var dirs: set<string>
    var files: map<string, string>
    const fails: set<string>

    constructor (dirs: set<string>, files: map<string, string>, fails: set<string>)
      ensures this.dirs == dirs && this.files == files && this.fails == fails
    {
      this.dirs := dirs;
      this.files := files;
      this.fails := fails;
    }

    /** `FileUtil.mkdir`: throws, creating nothing, when the path is one that fails. */
    method MakeDir(path: string) returns (threw: bool)
      modifies this`dirs
      ensures threw <==> path in fails
      ensures dirs == if threw then old(dirs) else old(dirs) + {path}
    {
      threw := path in fails;
      if !threw {
        dirs := dirs + {path};
      }
    }

    /** `FileUtil.writeString`: creates or overwrites the file, or throws and writes nothing
        when the path is one that fails. */
    method WriteString(path: string, content: string) returns (threw: bool)
      modifies this`files
      ensures threw <==> path in fails
      ensures files == if threw then old(files) else old(files)[path := content]
    {
      threw := path in fails;
      if !threw {
        files := files[path := content];
      }
    }
  }

  /** What `saveCode` does: it returns the directory, raises a business exception, or lets
      an `IORuntimeException` out. */
  datatype Saved = Saved(dir: string) | Refused(code: ErrorCode) | Crashed

  /** The files after `writeToFile(dir, name, content)`: blank content writes nothing. */
  function WriteOne(files: map<string, string>, dir: string, sep: string, e: FileEntry): map<string, string> {
    if IsStrBlank(Some(e.1)) then files else files[dir + sep + e.0 := e.1]
  }

  /** The files after writing `entries` into `dir` one after the other. */
  function Written(files: map<string, string>, dir: string, sep: string, entries: seq<FileEntry>): map<string, string>
    decreases |entries|
  {
    if entries == [] then files
    else WriteOne(Written(files, dir, sep, entries[..|entries| - 1]), dir, sep, entries[|entries| - 1])
  }

  /** Writing the entries adds exactly the paths `dir + sep + name` of the entries with
      non-blank content, and every file not among them keeps its content. */
  lemma {:induction false} WrittenPaths(files: map<string, string>, dir: string, sep: string, entries: seq<FileEntry>)
    ensures forall k :: k in Written(files, dir, sep, entries) <==>
      k in files || exists i | 0 <= i < |entries| :: k == dir + sep + entries[i].0 && !IsStrBlank(Some(entries[i].1))
    ensures forall k | k in files && (forall i | 0 <= i < |entries| :: k != dir + sep + entries[i].0 || IsStrBlank(Some(entries[i].1))) ::
      Written(files, dir, sep, entries)[k] == files[k]
    decreases |entries|
  {
    if entries != [] {
      var init := entries[..|entries| - 1];
      WrittenPaths(files, dir, sep, init);
      forall k
        ensures k in Written(files, dir, sep, entries) <==>
          k in files || exists i | 0 <= i < |entries| :: k == dir + sep + entries[i].0 && !IsStrBlank(Some(entries[i].1))
      {
        if k in files || exists i | 0 <= i < |entries| :: k == dir + sep + entries[i].0 && !IsStrBlank(Some(entries[i].1)) {
          if !(k in files) {
            var i :| 0 <= i < |entries| && k == dir + sep + entries[i].0 && !IsStrBlank(Some(entries[i].1));
            if i < |entries| - 1 {
              assert init[i] == entries[i];
            }
          }
        }
        if k in Written(files, dir, sep, init) && !(k in files) {
          var i :| 0 <= i < |init| && k == dir + sep + init[i].0 && !IsStrBlank(Some(init[i].1));
          assert entries[i] == init[i];
        }
      }
      forall k | k in files && (forall i | 0 <= i < |entries| :: k != dir + sep + entries[i].0 || IsStrBlank(Some(entries[i].1)))
        ensures Written(files, dir, sep, entries)[k] == files[k]
      {
        assert forall i | 0 <= i < |init| :: init[i] == entries[i];
      }
    }
  }

  /** Whether `writeToFile(dir, name, content)` throws: it writes, and the path fails. */
  predicate WriteThrows(dir: string, sep: string, e: FileEntry, fails: set<string>) {
    !IsStrBlank(Some(e.1)) && dir + sep + e.0 in fails
  }

  /** How many entries are written before the first write that throws: every entry before
      index `k` is written without throwing, and the entry at `k`, if any, throws. */
  function WrittenCount(dir: string, sep: string, entries: seq<FileEntry>, fails: set<string>): (k: nat)
    ensures k <= |entries|
    ensures forall i | 0 <= i < k :: !WriteThrows(dir, sep, entries[i], fails)
    ensures k < |entries| ==> WriteThrows(dir, sep, entries[k], fails)
    decreases |entries|
  {
    if entries == [] then 0
    else if WriteThrows(dir, sep, entries[0], fails) then 0
    else 1 + WrittenCount(dir, sep, entries[1..], fails)
  }

  /** With distinct names, every entry with non-blank content ends up in its own file. */
  lemma {:induction false} WrittenContent(files: map<string, string>, dir: string, sep: string, entries: seq<FileEntry>, j: nat)
    requires j < |entries| && !IsStrBlank(Some(entries[j].1))
    requires forall i | 0 <= i < |entries| && i != j :: entries[i].0 != entries[j].0
    ensures dir + sep + entries[j].0 in Written(files, dir, sep, entries)
    ensures Written(files, dir, sep, entries)[dir + sep + entries[j].0] == entries[j].1
    decreases |entries|
  {
    var init := entries[..|entries| - 1];
    var last := entries[|entries| - 1];
    var path := dir + sep + entries[j].0;
    if j < |entries| - 1 {
      WrittenContent(files, dir, sep, init, j);
      if dir + sep + last.0 == path {
        SamePrefixCancel(dir + sep, last.0, entries[j].0);
      }
    }
  }

  /** A saver for one kind of generated code. `root` is the output root directory, `sep` the
      platform's path separator and `codeType` the value of the saver's code type. */
  class Saver {
    const root: string
    const sep: string
    const codeType: string

    constructor (root: string, sep: string, codeType: string)
      ensures this.root == root && this.sep == sep && this.codeType == codeType
    {
      this.root := root;
      this.sep := sep;
      this.codeType := codeType;
    }

    /** The application's output directory: `root + sep + codeType + "_" + appId`. */
    function DirPath(appId: int): string {
      root + sep + codeType + "_" + IntToString(appId)
    }

    /** The same application always gets the same directory and different applications get
        different directories. */
    lemma DirPathInjective(a: int, b: int)
      ensures DirPath(a) == DirPath(b) <==> a == b
    {
      if DirPath(a) == DirPath(b) {
        SamePrefixCancel(root + sep + codeType + "_", IntToString(a), IntToString(b));
        IntToStringInjective(a, b);
      }
    }

    /** `saveCode`: the result is validated first, then the directory is built, then the
        files are saved into it and the directory is returned. A missing result or a
        missing application id raises `SYSTEM_ERROR` and touches nothing. An
        `IORuntimeException` from creating the directory or writing a file escapes; the
        files written before it stay on disk. */
    method SaveCode(result: Option<seq<FileEntry>>, appId: Option<int>, disk: Disk) returns (r: Saved)
      modifies disk
      ensures result.None? || appId.None? ==> r == Refused(SystemError) && unchanged(disk)
      ensures result.Some? && appId.Some? && DirPath(appId.value) in disk.fails ==>
        r == Crashed && unchanged(disk)
      ensures result.Some? && appId.Some? && DirPath(appId.value) !in disk.fails ==>
        var dir, entries := DirPath(appId.value), result.value;
        var k := WrittenCount(dir, sep, entries, disk.fails);
        && (r == Saved(dir) <==> k == |entries|)
        && (r == Crashed <==> k < |entries|)
        && disk.dirs == old(disk.dirs) + {dir}
        && disk.files == Written(old(disk.files), dir, sep, entries[..k])
    {
      var valid := ValidateInput(result);
      if !valid {
        return Refused(SystemError);
      }
      var dir := BuildUniqueDir(appId, disk);
      if dir.Refused? || dir.Crashed? {
        return dir;
      }
      var threw := SaveFiles(result.value, dir.dir, disk);
      r := if threw then Crashed else dir;
    }

    /** `validateInput`: a null result is refused. */
    method ValidateInput(result: Option<seq<FileEntry>>) returns (valid: bool)
      ensures valid <==> result.Some?
    {
      valid := result.Some?;
    }

    /** `buildUniqueDir`: creates and returns the application's directory; a null id raises
        `SYSTEM_ERROR` before anything is created, and a directory that cannot be created
        throws. */
    method BuildUniqueDir(appId: Option<int>, disk: Disk) returns (r: Saved)
      modifies disk`dirs
      ensures appId.None? ==> r == Refused(SystemError) && disk.dirs == old(disk.dirs)
      ensures appId.Some? && DirPath(appId.value) in disk.fails ==> r == Crashed && disk.dirs == old(disk.dirs)
      ensures appId.Some? && DirPath(appId.value) !in disk.fails ==>
        r == Saved(DirPath(appId.value)) && disk.dirs == old(disk.dirs) + {r.dir}
    {
      if appId.None? {
        return Refused(SystemError);
      }
      var dirPath := DirPath(appId.value);
      var threw := disk.MakeDir(dirPath);
      if threw {
        return Crashed;
      }
      return Saved(dirPath);
    }

    /** The `saveFiles` hook: each generated file is written into the directory, stopping
        at the first write that throws. */
    method SaveFiles(entries: seq<FileEntry>, dir: string, disk: Disk) returns (threw: bool)
      modifies disk`files
      ensures var k := WrittenCount(dir, sep, entries, disk.fails);
        && (threw <==> k < |entries|)
        && disk.files == Written(old(disk.files), dir, sep, entries[..k])
    {
      ghost var k := WrittenCount(dir, sep, entries, disk.fails);
      for i := 0 to |entries|
        invariant i <= k
        invariant disk.files == Written(old(disk.files), dir, sep, entries[..i])
      {
        threw := WriteToFile(dir, entries[i].0, entries[i].1, disk);
        if threw {
          assert WriteThrows(dir, sep, entries[i], disk.fails);
          return;
        }
        assert entries[..i + 1][..i] == entries[..i];
      }
      assert entries[..|entries|] == entries;
      threw := false;
    }

    /** `writeToFile`: blank content is skipped; otherwise the content goes to
        `dir + sep + name`, or the write throws and changes nothing. */
    method WriteToFile(dir: string, name: string, content: string, disk: Disk) returns (threw: bool)
      modifies disk`files
      ensures threw <==> WriteThrows(dir, sep, (name, content), disk.fails)
      ensures disk.files == if threw then old(disk.files) else WriteOne(old(disk.files), dir, sep, (name, content))
    {
      if IsStrBlank(Some(content)) {
        return false;
      }
      threw := disk.WriteString(dir + sep + name, content);
    }
  }
}
