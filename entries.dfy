/** The life-cycle statuses of one queued attachment and the record the uploader
    keeps for it (src/components/FileUploader.js, `FileStatus` and the fields the
    reducer, the driver effect and the item handlers set on each picked file). */
module Entries {
  import opened Common

  datatype FileStatus = Waiting | Uploading | Finishing | Success | Cancelled | Failed

  /** `FileStatus.isActive`: a transfer is in flight (bytes moving or awaiting the server). */
  predicate IsActive(s: FileStatus) {
    s == Uploading || s == Finishing
  }

  /** `FileStatus.isError`: the entry ended without success and may be resubmitted. */
  predicate IsError(s: FileStatus) {
    s == Cancelled || s == Failed
  }

  /** The string value of each status, shown as the helper text of an item. */
  function StatusName(s: FileStatus): string {
    match s
    case Waiting => "waiting"
    case Uploading => "uploading"
    case Finishing => "finishing"
    case Success => "success"
    case Cancelled => "cancelled"
    case Failed => "failed"
  }

  /** Every status is exactly one of: waiting, active, success, error. */
  lemma StatusClasses(s: FileStatus)
    ensures IsActive(s) ==> !IsError(s) && s != Waiting && s != Success
    ensures IsError(s) ==> s != Waiting && s != Success
    ensures s == Waiting || IsActive(s) || s == Success || IsError(s)
  {
  }

  /** Distinct statuses have distinct names. */
  lemma StatusNamesDistinct(s: FileStatus, t: FileStatus)
    ensures StatusName(s) == StatusName(t) <==> s == t
  {
  }

  /** One picked file. `customName == ""` stands for an unset override (the source
      reads it with `||`); `id` is what the upload response carried, if anything;
      `hasToken` records that a cancel token source was attached to the entry. */
  datatype Entry = Entry(
    name: string,
    customName: string,
    status: FileStatus,
    progress: int,
    id: Option<string>,
    message: Option<string>,
    hasToken: bool)

  /** A freshly dropped file: the reducer's `add` action marks it waiting. */
  function NewEntry(name: string): (e: Entry)
    ensures e.status == Waiting && e.name == name && e.customName == ""
    ensures e.id == None && e.message == None && !e.hasToken
  {
    Entry(name, "", Waiting, 0, None, None, false)
  }

  /** `file.customName || file.name`: the name shown and sent with the upload. */
  function DisplayName(e: Entry): string {
    if e.customName != "" then e.customName else e.name
  }

  /** `if (file.id)`: an id counts only when it is present and non-empty. */
  predicate HasId(e: Entry) {
    e.id.Some? && e.id.value != ""
  }
}
