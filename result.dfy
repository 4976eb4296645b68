/** The value the uploader reports to its enclosing form
    (src/components/FileUploader.js, `computeFilesValue` and the two effects that
    hand it to `onSubmitDone` and `onChange`). */
module FilesResult {
  import opened Common
  import opened Entries

  /** `{ filename, id? }` for one entry. */
  datatype FileRecord = FileRecord(filename: string, id: Option<string>)

  /** The three shapes `computeFilesValue` produces: `{}` for no files, one record
      unwrapped for a single file, an array of records otherwise. */
  datatype FilesValue = EmptyRecord | Single(record: FileRecord) | List(records: seq<FileRecord>)

  /** The record of one entry: its display name, and its id only when the entry has one. */
  function RecordOf(e: Entry): (r: FileRecord)
    ensures r.filename == DisplayName(e)
    ensures r.id.Some? <==> HasId(e)
    ensures r.id.Some? ==> r.id == e.id
  {
    FileRecord(DisplayName(e), if HasId(e) then e.id else None)
  }

  /** `files.map(...)`: one record per entry. */
  function Records(fs: seq<Entry>): seq<FileRecord> {
    if fs == [] then [] else [RecordOf(fs[0])] + Records(fs[1..])
  }

  /** Records keeps the length and the order of the entries. */
  lemma {:induction false} RecordsAt(fs: seq<Entry>)
    ensures |Records(fs)| == |fs|
    ensures forall i :: 0 <= i < |fs| ==> Records(fs)[i] == RecordOf(fs[i])
  {
    if fs != [] {
      RecordsAt(fs[1..]);
      assert forall i :: 1 <= i < |fs| ==> Records(fs)[i] == Records(fs[1..])[i - 1];
    }
  }

  /** `computeFilesValue`. Every entry contributes, whatever its status. */
  function ComputeFilesValue(fs: seq<Entry>): (r: FilesValue)
    ensures r.EmptyRecord? <==> |fs| == 0
    ensures r.Single? <==> |fs| == 1
    ensures r.Single? ==> r.record == RecordOf(fs[0])
    ensures r.List? ==> |r.records| == |fs| >= 2
    ensures r.List? ==> forall i :: 0 <= i < |fs| ==> r.records[i] == RecordOf(fs[i])
  {
    if |fs| == 0 then EmptyRecord
    else if |fs| == 1 then Single(RecordOf(fs[0]))
    else
      RecordsAt(fs);
      List(Records(fs))
  }

  /** The records a value holds, in order, whatever its shape. */
  function Items(v: FilesValue): seq<FileRecord> {
    match v
    case EmptyRecord => []
    case Single(r) => [r]
    case List(rs) => rs
  }

  /** A value is in the shape computeFilesValue produces: a list holds at least two records. */
  predicate Canonical(v: FilesValue) {
    v.List? ==> |v.records| >= 2
  }

  /** Wrapping records in the canonical shape; the inverse of Items on canonical values. */
  function Wrap(rs: seq<FileRecord>): FilesValue {
    if |rs| == 0 then EmptyRecord else if |rs| == 1 then Single(rs[0]) else List(rs)
  }

  /** The computed value holds exactly one record per entry, in arrival order, and is canonical. */
  lemma ComputeFilesValueItems(fs: seq<Entry>)
    ensures Items(ComputeFilesValue(fs)) == Records(fs)
    ensures Canonical(ComputeFilesValue(fs))
    ensures ComputeFilesValue(fs) == Wrap(Records(fs))
  {
    RecordsAt(fs);
    if |fs| == 1 {
      assert Records(fs) == [RecordOf(fs[0])];
    }
  }

  /** Unwrapping a canonical value and wrapping its records again gives that value back. */
  lemma {:induction false} WrapItems(v: FilesValue)
    requires Canonical(v)
    ensures Wrap(Items(v)) == v
  {
    match v
    case EmptyRecord =>
    case Single(r) =>
    case List(rs) =>
  }

  /** Wrapping records and unwrapping them again gives the same records, and the
      wrapped value is canonical: with WrapItems, Wrap and Items are inverse on
      canonical values. */
  lemma ItemsWrap(rs: seq<FileRecord>)
    ensures Items(Wrap(rs)) == rs
    ensures Canonical(Wrap(rs))
  {
    if |rs| == 1 {
      assert rs == [rs[0]];
    }
  }

  /** Recomputing on an unchanged list gives an equal value: the result depends only on the entries. */
  lemma ComputeFilesValueDeterminedByRecords(fs: seq<Entry>, gs: seq<Entry>)
    requires Records(fs) == Records(gs)
    ensures ComputeFilesValue(fs) == ComputeFilesValue(gs)
  {
    RecordsAt(fs);
    RecordsAt(gs);
    ComputeFilesValueItems(fs);
    ComputeFilesValueItems(gs);
  }

  /** `files.find(file => file.status !== FileStatus.success)` found something. */
  predicate AnyUnsuccessful(fs: seq<Entry>) {
    exists i :: 0 <= i < |fs| && fs[i].status != Success
  }

  /** What the completion effect hands to `onSubmitDone` once the queue is done:
      None stands for `undefined` (some entry did not succeed; the error flag is raised),
      otherwise the computed value. */
  function SubmitDoneValue(fs: seq<Entry>): (r: Option<FilesValue>)
    ensures r.None? <==> exists i :: 0 <= i < |fs| && fs[i].status != Success
    ensures r.Some? ==> Items(r.value) == Records(fs) && Canonical(r.value)
    ensures r.Some? ==> forall i :: 0 <= i < |fs| ==> fs[i].status == Success
  {
    if AnyUnsuccessful(fs) then None
    else
      ComputeFilesValueItems(fs);
      Some(ComputeFilesValue(fs))
  }

  /** The change effect: when the list was touched (`filesUpdated` is a token, 0 for
      false), `onChange` receives the computed value unless it equals the bound value.
      `value == None` stands for a bound value that is no files value at all. */
  function ChangeNotice(filesUpdated: nat, fs: seq<Entry>, value: Option<FilesValue>): (r: Option<FilesValue>)
    ensures r.Some? <==> filesUpdated != 0 && value != Some(ComputeFilesValue(fs))
    ensures r.Some? ==> Items(r.value) == Records(fs) && Canonical(r.value)
  {
    if filesUpdated != 0 && value != Some(ComputeFilesValue(fs)) then
      ComputeFilesValueItems(fs);
      Some(ComputeFilesValue(fs))
    else None
  }

  /** Once the host has adopted the notified value, recomputing on the same list
      notifies nothing: onChange does not fire twice for one change. */
  lemma ChangeNoticeIdempotent(token: nat, again: nat, fs: seq<Entry>, value: Option<FilesValue>)
    requires ChangeNotice(token, fs, value).Some?
    ensures ChangeNotice(again, fs, ChangeNotice(token, fs, value)) == None
  {
  }
}
