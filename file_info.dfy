/**
 * The file information the scan uploads (modules/common/XcalFileInfoCollector.py):
 * the parent path of an entry, the entry of a directory, the line count of a
 * source file, and the file and directory counts of the summary.
 *
 * The entries are records of strings as the collector builds them; the
 * `depth` of an entry comes from the depth map, so it may be missing
 * (`None`), and `str(None)` is `"None"`.
 */
module FileInfo {
  import opened Wrappers
  import Strs
  import Paths

  /** `_get_parent_path`: none at depth 0, the root separator at depth 1, otherwise the directory name of the relative path. */
  function ParentPath(relativePath: string, depth: Option<int>): (r: Option<string>)
    ensures r.None? <==> depth == Some(0)
    ensures depth == Some(1) ==> r == Some("/")
    ensures r.Some? && r != Some("/") ==> Strs.StartsWith(relativePath, r.value)
  {
    if depth == Some(0) then None
    else if depth == Some(1) then Some([Paths.Sep])
    else Some(Paths.DirName(relativePath))
  }

  /** The parent of a deeper entry is the directory part of its relative path: it is empty for a name without `/`. */
  lemma ParentOfDeeper(relativePath: string, depth: Option<int>)
    requires depth != Some(0) && depth != Some(1)
    ensures ParentPath(relativePath, depth) == Some(Paths.DirName(relativePath))
    ensures Paths.Sep !in relativePath ==> ParentPath(relativePath, depth) == Some("")
  {
  }

  /** `str(depth)` of a depth read from the depth map. */
  function DepthText(depth: Option<int>): (r: string)
    ensures depth.None? <==> r == "None"
  {
    if depth.Some? then
      var t := Strs.IntToString(depth.value);
      assert t[0] == '-' || Strs.IsDigit(t[0]);
      t
    else "None"
  }

  datatype EntryType = Directory | File

  /** One entry of the `files` list. */
  datatype FileEntry = FileEntry(
    fileId: string,
    fileName: string,
    entryType: EntryType,
    depth: string,
    parentPath: Option<string>,
    filePath: string,
    relativePath: string,
    version: string,
    checksum: string,
    fileSize: string,
    noOfLines: string)

  /** The relative path of a directory entry: the root separator for the project itself. */
  function DirectoryRelativePath(projectPath: string, directory: string): (r: string)
    ensures r != ""
    ensures directory == projectPath <==> r == "/"
  {
    if directory != projectPath then
      var rel := Paths.RelPath(directory, projectPath);
      RelPathNotRoot(directory, projectPath);
      rel
    else [Paths.Sep]
  }

  /** `os.path.relpath` never gives the root separator. */
  lemma RelPathNotRoot(path: string, start: string)
    ensures Paths.RelPath(path, start) != "/"
  {
    var s := Paths.Components(Paths.NormPath(start));
    var p := Paths.Components(Paths.NormPath(path));
    var i := Paths.CommonPrefix(s, p);
    var rel := Paths.Repeat("..", |s| - i) + p[i..];
    if |rel| == 1 {
      assert Paths.Sep !in rel[0] by {
        if |s| - i == 0 {
          assert rel[0] == p[i];
        }
      }
    } else if |rel| > 1 {
      assert |Strs.Join(rel, Paths.Sep)| >= 2;
    }
  }

  /**
   * `generate_directory_file_info`: a DIRECTORY entry whose depth comes from
   * the depth map, whose relative path is `/` for the project root, and
   * whose checksum, size and line count are all `"0"`.
   */
  function DirectoryFileInfo(projectPath: string, directory: string, depthMap: map<string, int>, fileNum: int, version: string): (r: FileEntry)
    ensures r.entryType == Directory && r.filePath == directory
    ensures r.checksum == "0" && r.fileSize == "0" && r.noOfLines == "0"
    ensures r.fileId == Strs.IntToString(fileNum)
    ensures r.fileName == Paths.BaseName(directory)
    ensures directory == projectPath <==> r.relativePath == "/"
    ensures r.depth == "None" <==> directory !in depthMap
    ensures r.parentPath.None? <==> directory in depthMap && depthMap[directory] == 0
  {
    var depth := if directory in depthMap then Some(depthMap[directory]) else None;
    var relativePath := DirectoryRelativePath(projectPath, directory);
    FileEntry(Strs.IntToString(fileNum), Paths.BaseName(directory), Directory, DepthText(depth),
      ParentPath(relativePath, depth), directory, relativePath, version,
      Strs.NatToString(0), Strs.NatToString(0), Strs.NatToString(0))
  }

  /**
   * The project root at depth 0 is the top of the tree (no parent, relative
   * path `/`); a directory at depth 1 hangs under `/`.
   */
  lemma DirectoryParents(projectPath: string, directory: string, depthMap: map<string, int>, fileNum: int, version: string)
    ensures directory == projectPath && directory in depthMap && depthMap[directory] == 0 ==>
      DirectoryFileInfo(projectPath, directory, depthMap, fileNum, version).parentPath.None?
      && DirectoryFileInfo(projectPath, directory, depthMap, fileNum, version).relativePath == "/"
    ensures directory in depthMap && depthMap[directory] == 1 ==>
      DirectoryFileInfo(projectPath, directory, depthMap, fileNum, version).parentPath == Some("/")
  {
  }

  // ---------------------------------------------------------------------
  // Line count
  // ---------------------------------------------------------------------

  const Newline: bv8 := 10

  /** The number of lines that start among the first `n` bytes: a line starts at 0 and after each newline. */
  function LineStarts(content: seq<bv8>, n: nat): nat
    requires n <= |content|
  {
    if n == 0 then 0
    else LineStarts(content, n - 1) + (if n == 1 || content[n - 2] == Newline then 1 else 0)
  }

  /** The lines `enumerate` yields over a file opened in binary mode. */
  function LineCount(content: seq<bv8>): nat {
    LineStarts(content, |content|)
  }

  /** The number of newline bytes. */
  function NewlineCount(s: seq<bv8>): nat
    decreases |s|
  {
    if s == [] then 0 else NewlineCount(s[..|s| - 1]) + (if s[|s| - 1] == Newline then 1 else 0)
  }

  lemma {:induction false} LineStartsNewlines(content: seq<bv8>, n: nat)
    requires 0 < n <= |content|
    ensures LineStarts(content, n) == 1 + NewlineCount(content[..n - 1])
  {
    if n > 1 {
      LineStartsNewlines(content, n - 1);
      assert content[..n - 1][..n - 2] == content[..n - 2];
    }
  }

  /**
   * A file has one line per newline, plus one for a last line without a
   * newline; it has none exactly when it is empty.
   */
  lemma LineCountSpec(content: seq<bv8>)
    ensures LineCount(content) ==
      NewlineCount(content) + (if content != [] && content[|content| - 1] != Newline then 1 else 0)
    ensures LineCount(content) == 0 <==> content == []
  {
    if content != [] {
      LineStartsNewlines(content, |content|);
      assert content[..|content|] == content;
    }
  }

  /**
   * `_file_lines`: 0 for a path that is not a file or cannot be read;
   * otherwise the index of the last line enumerated, plus one.
   */
  method FileLines(isFile: bool, readable: bool, content: seq<bv8>) returns (n: int)
    ensures !isFile || !readable ==> n == 0
    ensures isFile && readable ==> n == LineCount(content)
  {
    if !isFile {
      return 0;
    }
    if !readable {
      return 0;
    }
    var i := -1;
    var k := 0;
    while k < |content|
      invariant 0 <= k <= |content|
      invariant i == LineStarts(content, k) - 1
    {
      if k == 0 || content[k - 1] == Newline {
        i := i + 1;
      }
      k := k + 1;
    }
    n := i + 1;
  }

  // ---------------------------------------------------------------------
  // Counts
  // ---------------------------------------------------------------------

  /** `[f for f in files if f.get("type") == "DIRECTORY"]` */
  function Dirs(files: seq<FileEntry>): (r: seq<FileEntry>)
    ensures |r| <= |files|
    ensures forall k :: 0 <= k < |r| ==> r[k].entryType == Directory
    decreases |files|
  {
    if files == [] then []
    else (if files[0].entryType == Directory then [files[0]] else []) + Dirs(files[1..])
  }

  /** The number of FILE entries. */
  function FileCount(files: seq<FileEntry>): nat
    decreases |files|
  {
    if files == [] then 0
    else (if files[0].entryType == File then 1 else 0) + FileCount(files[1..])
  }

  lemma {:induction false} DirsAndFiles(files: seq<FileEntry>)
    ensures |Dirs(files)| + FileCount(files) == |files|
    decreases |files|
  {
    if files != [] {
      DirsAndFiles(files[1..]);
    }
  }

  /** The counts of the file information summary. */
  datatype Summary = Summary(numberOfFiles: string, numberOfDirs: string, totalLineNum: string,
    numberOfFilesWithoutPermission: string)

  /**
   * The counts `generate_file_info` reports: the number of files is the
   * number of entries less the number of directories, which is the number
   * of FILE entries.
   */
  function Counts(files: seq<FileEntry>, totalLineNum: nat, withoutPermission: nat): (r: Summary)
    ensures r.numberOfFiles == Strs.NatToString(FileCount(files))
    ensures r.numberOfDirs == Strs.NatToString(|Dirs(files)|)
    ensures |Dirs(files)| + FileCount(files) == |files|
    ensures r.totalLineNum == Strs.NatToString(totalLineNum)
    ensures r.numberOfFilesWithoutPermission == Strs.NatToString(withoutPermission)
  {
    var dirs := Dirs(files);
    DirsAndFiles(files);
    Summary(Strs.IntToString(|files| - |dirs|), Strs.IntToString(|dirs|), Strs.IntToString(totalLineNum),
      Strs.IntToString(withoutPermission))
  }
}
