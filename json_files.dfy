// The FileList and DeleteFile requests: a listing of one filesystem
// directory with the full path and size of every entry, and the removal
// of one named file.
module JsonFiles {
  import opened Wrappers
  import opened Json

  /** A directory entry as readdir and stat give it. */
  datatype DirEntry = DirEntry(name: string, size: int)

  /** The path of an entry: the filesystem name, a '/' unless it ends in one, then the entry name. */
  function FilePath(fs: string, name: string): (path: string)
    requires fs != []
    ensures |path| == |fs| + |name| + (if fs[|fs| - 1] == '/' then 0 else 1)
    ensures path[..|fs|] == fs && path[|path| - |name|..] == name
    ensures fs[|fs| - 1] == '/' || path[|fs|] == '/'
  {
    var dir := if fs[|fs| - 1] != '/' then fs + "/" else fs;
    assert (dir + name)[..|fs|] == fs;
    dir + name
  }

  /** The array item for one entry. */
  function FileItem(fs: string, e: DirEntry): (item: Json)
    requires fs != []
    ensures StringOf(Item(item, "filename")) == Some(FilePath(fs, e.name))
    ensures NumberOf(Item(item, "filesize")) == Some(e.size)
  {
    var ms := [Member("filename", Str(FilePath(fs, e.name))), Member("filesize", Number(e.size))];
    assert Find(ms, "filesize") == Find(ms[1..], "filesize");
    Object(ms)
  }

  /** The array items for the entries read, in readdir order. */
  function FileItems(fs: string, entries: seq<DirEntry>): (items: seq<Json>)
    requires fs != [] || entries == []
    ensures |items| == |entries|
    ensures forall i :: 0 <= i < |entries| ==> items[i] == FileItem(fs, entries[i])
  {
    if entries == [] then [] else FileItems(fs, entries[..|entries| - 1]) + [FileItem(fs, entries[|entries| - 1])]
  }

  /** The "filesystem" string of a request. */
  function FsName(req: Json): Option<string> {
    StringOf(Item(req, "filesystem"))
  }

  /**
   * json_file_list. `opens` is whether opendir of the named filesystem
   * succeeds and `entries` what readdir and stat give, in order. A missing
   * or non-string name and a directory that does not open give 400 with
   * nothing added; otherwise the reply gains "directory" with one
   * {filename, filesize} object per entry. An empty name with entries to
   * list reads before the string in the source, so it is excluded.
   */
  method FileList(req: Json, opens: bool, entries: seq<DirEntry>) returns (code: int, added: seq<Member>)
    requires FsName(req) == Some("") ==> !opens || entries == []
    ensures FsName(req).None? || !opens ==> code == 400 && added == []
    ensures FsName(req).Some? && opens ==>
      code == 0 && added == [Member("directory", Array(FileItems(FsName(req).value, entries)))]
  {
    var fsName := FsName(req);
    if fsName.None? {
      return 400, [];
    }
    if !opens {
      return 400, [];
    }
    var fs := fsName.value;
    var items: seq<Json> := [];
    var n := 0;
    while n < |entries|
      invariant 0 <= n <= |entries|
      invariant items == FileItems(fs, entries[..n])
    {
      var filePath := fs;
      if fs[|fs| - 1] != '/' {
        filePath := filePath + "/";
      }
      filePath := filePath + entries[n].name;
      assert entries[..n + 1][..n] == entries[..n];
      items := items + [Object([Member("filename", Str(filePath)), Member("filesize", Number(entries[n].size))])];
      n := n + 1;
    }
    assert entries[..n] == entries;
    code := 0;
    added := [Member("directory", Array(items))];
  }

  /**
   * json_file_delete: `removed` is whether remove succeeds on the named
   * file. The code is 0 only for a string "filename" that was removed, 500
   * otherwise; the second half is the file remove was called on.
   */
  function FileDelete(req: Json, removed: bool): (r: (int, Option<string>))
    ensures r.1 == StringOf(Item(req, "filename"))
    ensures r.0 == 0 <==> r.1.Some? && removed
    ensures r.0 != 0 ==> r.0 == 500
  {
    var name := StringOf(Item(req, "filename"));
    if name.Some? then (if removed then 0 else 500, name) else (500, None)
  }
}
