/**
 * The upload-result list of a job configuration (modules/common/XcalConnect.py):
 * each upload step appends its result, tagged with the step's file name, and
 * later steps look a result up by that file name.
 *
 * Python dictionaries are ordered key/value lists as in `Json`; `None` is
 * `Json.Null`, and `d.get(k)` of a missing key is `None`.
 */
module Connect {
  import opened Wrappers
  import Json

  /** `d.get(k)`: the value under `k`, or `None`. */
  function PyGet(d: Json.Fields, k: string): Json.Value {
    Json.Lookup(d, k).GetOr(Json.Null)
  }

  /**
   * The entry `append_to_job_config` appends: the given upload result, or a
   * new dictionary holding only the file id, with `filename` set to the step's
   * file name.
   */
  function Entry(fileId: Json.Value, uploadResult: Option<Json.Fields>, filename: Json.Value): Json.Fields {
    Json.Set(if uploadResult.Some? then uploadResult.value else [("fileId", fileId)], "filename", filename)
  }

  /**
   * The entry carries the step's file name; built from a file id it holds
   * that id; built from an upload result it keeps every other key of it.
   */
  lemma EntryKeys(fileId: Json.Value, uploadResult: Option<Json.Fields>, filename: Json.Value)
    ensures PyGet(Entry(fileId, uploadResult, filename), "filename") == filename
    ensures uploadResult.None? ==> PyGet(Entry(fileId, uploadResult, filename), "fileId") == fileId
    ensures uploadResult.Some? ==> forall k :: k != "filename" ==>
      Json.Lookup(Entry(fileId, uploadResult, filename), k) == Json.Lookup(uploadResult.value, k)
  {
    var base := if uploadResult.Some? then uploadResult.value else [("fileId", fileId)];
    Json.LookupSetSame(base, "filename", filename);
    if uploadResult.None? {
      Json.LookupSetOther(base, "filename", filename, "fileId");
    } else {
      forall k | k != "filename"
        ensures Json.Lookup(Json.Set(base, "filename", filename), k) == Json.Lookup(base, k)
      {
        Json.LookupSetOther(base, "filename", filename, k);
      }
    }
  }

  /** The first result whose `filename` equals `filename`. */
  function FindByFilename(results: seq<Json.Fields>, filename: Json.Value): Option<Json.Fields>
    decreases |results|
  {
    if results == [] then None
    else if PyGet(results[0], "filename") == filename then Some(results[0])
    else FindByFilename(results[1..], filename)
  }

  /**
   * The search finds nothing iff no result has the file name; otherwise it
   * finds the first result that has it.
   */
  lemma {:induction false} FindByFilenameSpec(results: seq<Json.Fields>, filename: Json.Value)
    ensures FindByFilename(results, filename).None? <==>
      forall i :: 0 <= i < |results| ==> PyGet(results[i], "filename") != filename
    ensures FindByFilename(results, filename).Some? ==>
      exists i :: 0 <= i < |results| && results[i] == FindByFilename(results, filename).value
        && PyGet(results[i], "filename") == filename
        && forall j :: 0 <= j < i ==> PyGet(results[j], "filename") != filename
    decreases |results|
  {
    if results != [] && PyGet(results[0], "filename") != filename {
      var rest := results[1..];
      FindByFilenameSpec(rest, filename);
      assert forall i :: 1 <= i < |results| ==> results[i] == rest[i - 1];
      if FindByFilename(rest, filename).Some? {
        var i :| 0 <= i < |rest| && rest[i] == FindByFilename(rest, filename).value
          && PyGet(rest[i], "filename") == filename
          && forall j :: 0 <= j < i ==> PyGet(rest[j], "filename") != filename;
        assert results[i + 1] == rest[i];
      }
    }
  }

  /**
   * Appending an entry under a file name no earlier entry has makes a lookup
   * of that file name find the new entry; an earlier entry with that file
   * name still shadows it, and lookups of other file names are unchanged.
   */
  lemma {:induction false} FindAfterAppend(results: seq<Json.Fields>, entry: Json.Fields, filename: Json.Value)
    ensures PyGet(entry, "filename") == filename && FindByFilename(results, filename).None? ==>
      FindByFilename(results + [entry], filename) == Some(entry)
    ensures FindByFilename(results, filename).Some? ==>
      FindByFilename(results + [entry], filename) == FindByFilename(results, filename)
    ensures PyGet(entry, "filename") != filename ==>
      FindByFilename(results + [entry], filename) == FindByFilename(results, filename)
    decreases |results|
  {
    if results == [] {
      assert [entry][1..] == [];
    } else {
      assert (results + [entry])[1..] == results[1..] + [entry];
      FindAfterAppend(results[1..], entry, filename);
    }
  }

  /** A job configuration: its `uploadResults` list, `None` while the key is absent. */
  class JobConfig {
    var uploadResults: Option<seq<Json.Fields>>

    constructor (uploadResults: Option<seq<Json.Fields>>)
      ensures this.uploadResults == uploadResults
    {
      this.uploadResults := uploadResults;
    }

    /**
     * `append_to_job_config`: without an upload result and without a file id
     * it raises and changes nothing; otherwise the list is created when
     * absent and grows by exactly the tagged entry.
     */
    method Append(fileId: Option<Json.Value>, uploadResult: Option<Json.Fields>, filename: Json.Value)
      returns (raised: bool)
      modifies this
      ensures raised <==> uploadResult.None? && fileId.None?
      ensures raised ==> uploadResults == old(uploadResults)
      ensures !raised ==>
        uploadResults == Some(old(uploadResults).GetOr([]) + [Entry(fileId.GetOr(Json.Null), uploadResult, filename)])
    {
      if uploadResult.None? && fileId.None? {
        return true;
      }
      raised := false;
      if uploadResults.None? {
        uploadResults := Some([]);
      }
      uploadResults := Some(uploadResults.value + [Entry(fileId.GetOr(Json.Null), uploadResult, filename)]);
    }

    /** `extract_upload_result`: the first result with the step's file name, searched in list order. */
    method Extract(filename: Json.Value) returns (r: Option<Json.Fields>)
      ensures uploadResults.None? ==> r.None?
      ensures uploadResults.Some? ==> r == FindByFilename(uploadResults.value, filename)
    {
      if uploadResults.None? {
        return None;
      }
      var list := uploadResults.value;
      var i := 0;
      while i < |list|
        invariant 0 <= i <= |list|
        invariant FindByFilename(list, filename) == FindByFilename(list[i..], filename)
      {
        assert list[i..][0] == list[i] && list[i..][1..] == list[i + 1..];
        if PyGet(list[i], "filename") == filename {
          return Some(list[i]);
        }
        i := i + 1;
      }
      r := None;
    }
  }

  /**
   * Appending a result for a step and then extracting for the same step
   * returns that result when no earlier result has the step's file name.
   */
  method AppendThenExtract(job: JobConfig, fileId: Option<Json.Value>, uploadResult: Option<Json.Fields>, filename: Json.Value)
    returns (r: Option<Json.Fields>)
    requires job.uploadResults.None? || FindByFilename(job.uploadResults.value, filename).None?
    requires uploadResult.Some? || fileId.Some?
    modifies job
    ensures r == Some(Entry(fileId.GetOr(Json.Null), uploadResult, filename))
  {
    ghost var before := job.uploadResults.GetOr([]);
    var raised := job.Append(fileId, uploadResult, filename);
    EntryKeys(fileId.GetOr(Json.Null), uploadResult, filename);
    FindAfterAppend(before, Entry(fileId.GetOr(Json.Null), uploadResult, filename), filename);
    r := job.Extract(filename);
  }
}
