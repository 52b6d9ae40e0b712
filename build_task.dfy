/**
 * Three pieces of the build task (modules/buildtask/xcal_build_task.py): the
 * clean command run before a scan-all build, the list of preprocessed source
 * files kept for the MISRA scan, and the check that the build produced
 * preprocessed `.i`/`.ii` files.
 */
module BuildTask {
  import opened Wrappers
  import Strs
  import Json
  import Paths

  /**
   * `build_scan_all_prebuild_command`: for a build command the tool list
   * knows, its clean command, followed by `" && "` and the prebuild command
   * when there is one; for an unknown build command, the empty string.
   */
  function ScanAllPrebuildCommand(prebuild: Option<string>, buildTools: map<string, string>, buildCommand: string): (r: string)
    ensures buildCommand !in buildTools ==> r == ""
    ensures buildCommand in buildTools ==> Strs.StartsWith(r, buildTools[buildCommand])
    ensures buildCommand in buildTools && prebuild.None? ==> r == buildTools[buildCommand]
    ensures buildCommand in buildTools && prebuild.Some? ==>
      |r| == |buildTools[buildCommand]| + 4 + |prebuild.value|
      && r[|buildTools[buildCommand]|..] == " && " + prebuild.value
  {
    if buildCommand in buildTools then
      var clean := buildTools[buildCommand];
      if prebuild.Some? then
        var r := clean + " && " + prebuild.value;
        assert r[..|clean|] == clean && r[|clean|..] == " && " + prebuild.value;
        r
      else clean
    else ""
  }

  /** The source files kept for the MISRA scan: each listed path normalised, kept when it starts with the project path. */
  function KeptFiles(projectPath: string, listed: seq<string>): (r: seq<string>)
    ensures |r| <= |listed|
    decreases |listed|
  {
    if listed == [] then []
    else
      var f := Paths.NormPath(listed[0]);
      if Strs.StartsWith(f, projectPath) then [f] + KeptFiles(projectPath, listed[1..])
      else KeptFiles(projectPath, listed[1..])
  }

  /** `r` keeps some of `s`, in the same order. */
  predicate Subsequence<T(==)>(r: seq<T>, s: seq<T>)
    decreases |s|
  {
    if r == [] then true
    else if s == [] then false
    else (r[0] == s[0] && Subsequence(r[1..], s[1..])) || Subsequence(r, s[1..])
  }

  /**
   * Every kept file starts with the project path, every normalised listed
   * path that starts with it is kept, and the kept files are the normalised
   * listed paths in their listed order.
   */
  lemma {:induction false} KeptFilesSpec(projectPath: string, listed: seq<string>)
    ensures forall f :: f in KeptFiles(projectPath, listed) ==> Strs.StartsWith(f, projectPath)
    ensures forall i :: 0 <= i < |listed| && Strs.StartsWith(Paths.NormPath(listed[i]), projectPath) ==>
      Paths.NormPath(listed[i]) in KeptFiles(projectPath, listed)
    ensures Subsequence(KeptFiles(projectPath, listed), Normalised(listed))
    decreases |listed|
  {
    if listed != [] {
      KeptFilesSpec(projectPath, listed[1..]);
      assert Normalised(listed)[1..] == Normalised(listed[1..]);
      forall i | 0 <= i < |listed| && Strs.StartsWith(Paths.NormPath(listed[i]), projectPath)
        ensures Paths.NormPath(listed[i]) in KeptFiles(projectPath, listed)
      {
        if i > 0 {
          assert listed[1..][i - 1] == listed[i];
        }
      }
    }
  }

  function Normalised(listed: seq<string>): (r: seq<string>)
    ensures |r| == |listed|
  {
    seq(|listed|, i requires 0 <= i < |listed| => Paths.NormPath(listed[i]))
  }

  /**
   * `_get_source_code_file_list` on the parsed JSON of the source list: a
   * value that is not a list, or an empty list, gives no files; a listed
   * entry that is not a string makes `normpath` raise (`None`).
   */
  method SourceCodeFileList(projectPath: string, content: Json.Value) returns (r: Option<seq<string>>)
    ensures !content.Arr? || content.items == [] ==> r == Some([])
    ensures content.Arr? && content.items != [] ==>
      (r.Some? <==> forall i :: 0 <= i < |content.items| ==> content.items[i].Str?)
    ensures content.Arr? && r.Some? && content.items != [] ==>
      r.value == KeptFiles(projectPath, Texts(content.items))
  {
    if !content.Arr? || content.items == [] {
      return Some([]);
    }
    var items := content.items;
    var files: seq<string> := [];
    var i := 0;
    while i < |items|
      invariant 0 <= i <= |items|
      invariant forall k :: 0 <= k < i ==> items[k].Str?
      invariant files == KeptFiles(projectPath, Texts(items[..i]))
    {
      if !items[i].Str? {
        return None;
      }
      var f := Paths.NormPath(items[i].s);
      KeptFilesAppend(projectPath, Texts(items[..i]), items[i].s);
      assert Texts(items[..i + 1]) == Texts(items[..i]) + [items[i].s];
      if Strs.StartsWith(f, projectPath) {
        files := files + [f];
      }
      i := i + 1;
    }
    assert items[..i] == items;
    r := Some(files);
  }

  /** The string entries of a list of JSON values (the others read as empty). */
  function Texts(items: seq<Json.Value>): (r: seq<string>)
    ensures |r| == |items|
    ensures forall k :: 0 <= k < |items| && items[k].Str? ==> r[k] == items[k].s
  {
    seq(|items|, k requires 0 <= k < |items| => if items[k].Str? then items[k].s else "")
  }

  lemma {:induction false} KeptFilesAppend(projectPath: string, listed: seq<string>, x: string)
    ensures KeptFiles(projectPath, listed + [x]) ==
      KeptFiles(projectPath, listed) + (if Strs.StartsWith(Paths.NormPath(x), projectPath) then [Paths.NormPath(x)] else [])
    decreases |listed|
  {
    if listed != [] {
      assert (listed + [x])[1..] == listed[1..] + [x];
      KeptFilesAppend(projectPath, listed[1..], x);
    } else {
      assert [x][1..] == [];
    }
  }

  /** `re.search(pattern + "$", name)`: `$` also matches just before a final newline. */
  predicate EndsWithAtEnd(name: string, suffix: string) {
    Strs.EndsWith(name, suffix) || Strs.EndsWith(name, suffix + "\n")
  }

  /** A preprocessed file: a name that ends in `.ii` or `.i`. */
  predicate IsPreprocessed(name: string) {
    EndsWithAtEnd(name, ".ii") || EndsWithAtEnd(name, ".i")
  }

  /** The number of preprocessed names. */
  function PreprocessedCount(names: seq<string>): nat
    decreases |names|
  {
    if names == [] then 0
    else PreprocessedCount(names[..|names| - 1]) + (if IsPreprocessed(names[|names| - 1]) then 1 else 0)
  }

  /** The count is at most the number of names, and it is zero iff no name is a preprocessed file. */
  lemma {:induction false} PreprocessedCountSpec(names: seq<string>)
    ensures PreprocessedCount(names) <= |names|
    ensures PreprocessedCount(names) == 0 <==> forall k :: 0 <= k < |names| ==> !IsPreprocessed(names[k])
    decreases |names|
  {
    if names != [] {
      var init := names[..|names| - 1];
      PreprocessedCountSpec(init);
      assert forall k :: 0 <= k < |init| ==> init[k] == names[k];
    }
  }

  /** How the check of the preprocessed archive ends. */
  datatype ArchiveCheck = ArchiveOk | AssertionFails | NoIFileGenerated

  /**
   * The check of the names in the preprocessed archive: an empty archive or
   * one without `xcalibyte.properties` fails an assertion; an archive without
   * any `.i`/`.ii` name raises ENoIFileGenerated.
   */
  method CheckArchiveNames(names: seq<string>) returns (r: ArchiveCheck, count: nat)
    ensures r == AssertionFails <==> names == [] || "xcalibyte.properties" !in names
    ensures r != AssertionFails ==> count == PreprocessedCount(names)
    ensures r == NoIFileGenerated <==>
      r != AssertionFails && forall k :: 0 <= k < |names| ==> !IsPreprocessed(names[k])
  {
    count := 0;
    if names == [] || "xcalibyte.properties" !in names {
      return AssertionFails, count;
    }
    count := CountPreprocessed(names);
    PreprocessedCountSpec(names);
    r := if count <= 0 then NoIFileGenerated else ArchiveOk;
  }

  /** The counting loop over the archive names. */
  method CountPreprocessed(names: seq<string>) returns (count: nat)
    ensures count == PreprocessedCount(names)
  {
    count := 0;
    var i := 0;
    while i < |names|
      invariant 0 <= i <= |names|
      invariant count == PreprocessedCount(names[..i])
    {
      assert names[..i + 1][..i] == names[..i];
      if IsPreprocessed(names[i]) {
        count := count + 1;
      }
      i := i + 1;
    }
    assert names[..i] == names;
  }
}
