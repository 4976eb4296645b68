/** The upload queue of src/components/FileUploader.js as one object: the reducer
    state (`files`, `current`, `done`, `error`, `dropOverflow`, `currentProgress`,
    `filesUpdated`), the picked-file records it aliases, and the upload driver effect.
    Each reducer action, item handler and driver callback is a method.

    Entries live in `store` (the objects) and `files` lists their keys (the array of
    references), so an entry deleted from the list while it is still `current` keeps
    existing, as the object does in the source. Timestamps from `Date().getTime()` are
    drawn from the counter `clock`; `filesUpdated == 0` stands for `false`. The driver
    effect's subscription belongs to `live`; the requests handed to the upload
    collaborator and the cancel-token cancellations are recorded in `uploads` and
    `aborts`. */
module UploadQueue {
  import opened Common
  import opened Entries
  import opened FilesResult
  import opened Admission
  import opened QueueSupport

  /** What the upload collaborator emits on success (`response`, possibly without id). */
  datatype Response = Response(id: Option<string>)

  /** What it emits on failure: an axios cancellation, or any other error with its message. */
  datatype UploadError = CancelError | TransferError(message: string)

  /** One call `dataType.upload(current, { filename, ... })`. */
  datatype UploadRequest = UploadRequest(key: Key, filename: string)

  const CancelledByUser: string := "Cancelled by user"

  /** The `forEach` of `add`: each incoming file becomes a waiting entry under a fresh
      key `base + j`; the entries already stored are kept as they are. */
  method Admit(store: map<Key, Entry>, base: nat, names: seq<string>) returns (s: map<Key, Entry>, added: seq<Key>)
    requires forall k :: k in store ==> k < base
    ensures |added| == |names|
    ensures forall j :: 0 <= j < |names| ==> added[j] == base + j
    ensures forall j :: 0 <= j < |names| ==> added[j] in s && s[added[j]] == NewEntry(names[j])
    ensures forall k :: k in store ==> k in s && s[k] == store[k]
    ensures forall k :: k in s && k !in store ==> base <= k < base + |names| && s[k].status == Waiting && s[k].id.None?
    ensures forall k :: k in s ==> k < base + |names|
  {
    s := store;
    added := [];
    var i := 0;
    while i < |names|
      invariant 0 <= i <= |names|
      invariant |added| == i
      invariant forall j :: 0 <= j < i ==> added[j] == base + j
      invariant forall j :: 0 <= j < i ==> added[j] in s && s[added[j]] == NewEntry(names[j])
      invariant forall k :: k in store ==> k in s && s[k] == store[k]
      invariant forall k :: k in s && k !in store ==> base <= k < base + i && s[k].status == Waiting && s[k].id.None?
      invariant forall k :: k in s ==> k < base + i
    {
      s := s[base + i := NewEntry(names[i])];
      added := added + [base + i];
      i := i + 1;
    }
  }

  class Queue {
    var store: map<Key, Entry>
    var files: seq<Key>
    var current: Option<Key>
    var live: Option<Key>
    var done: bool
    var error: bool
    var dropOverflow: bool
    var currentProgress: int
    var filesUpdated: nat
    var clock: nat
    var nextKey: nat
    var uploads: seq<UploadRequest>
    var aborts: seq<Key>

    /** At most one transfer is in flight: every active entry is the current one. */
    ghost predicate SingleTransfer()
      reads this
    {
      forall k :: k in store && IsActive(store[k].status) ==> current == Some(k)
    }

    /** The part of the invariant every reducer step keeps on its own. */
    ghost predicate Consistent()
      reads this
    {
      Stored(store, files) && Distinct(files) &&
      (forall k :: k in store ==> k < nextKey) &&
      (current.Some? ==> current.value in store) &&
      (live.Some? ==> live.value in store) &&
      SingleTransfer() &&
      // an active entry carries the cancel token its driver attached
      (forall k :: k in store && IsActive(store[k].status) ==> store[k].hasToken) &&
      // ids come only from a successful upload
      (forall k :: k in store && store[k].id.Some? ==> store[k].status == Success) &&
      (done ==> current.None?) &&
      filesUpdated <= clock
    }

    /** How the driver's subscription relates to the current entry. */
    ghost predicate Driving()
      reads this
      requires current.Some? ==> current.value in store
      requires live.Some? ==> live.value in store
    {
      // while the driver runs for the current entry, that entry is in flight
      (live.Some? && live == current ==> IsActive(store[live.value].status)) &&
      // a current entry the driver has not started yet is waiting (or was cancelled meanwhile)
      (current.Some? && live != current ==>
        store[current.value].status == Waiting || store[current.value].status == Cancelled)
    }

    /** The driver has just recorded the end of the current entry's upload. */
    ghost predicate Finished()
      reads this
      requires live.Some? ==> live.value in store
    {
      live.Some? && live == current &&
      var s := store[live.value].status; s == Success || IsError(s)
    }

    ghost predicate Valid()
      reads this
    {
      Consistent() && Driving()
    }

    /** The entries of the list, in arrival order. */
    function Entries(): seq<Entry>
      reads this
      requires Valid()
    {
      Resolve(store, files)
    }

    /** The reducer's initial state `{ files: [], done: false }`. */
    constructor ()
      ensures Valid()
      ensures store == map[] && files == [] && current == None && live == None
      ensures !done && !error && !dropOverflow && filesUpdated == 0
      ensures uploads == [] && aborts == []
    {
      store := map[];
      files := [];
      current := None;
      live := None;
      done := false;
      error := false;
      dropOverflow := false;
      currentProgress := 0;
      filesUpdated := 0;
      clock := 0;
      nextKey := 0;
      uploads := [];
      aborts := [];
    }

    /** A reducer step that touches the list: `error` is dropped and `filesUpdated`
        takes a fresh token. */
    method Stamp()
      requires Consistent()
      modifies this`filesUpdated, this`clock, this`error
      ensures Consistent()
      ensures old(Driving()) ==> Driving()
      ensures old(Finished()) ==> Finished()
      ensures clock == old(clock) + 1 && filesUpdated == clock && !error
    {
      clock := clock + 1;
      filesUpdated := clock;
      error := false;
    }

    /** Action `add`: every incoming file becomes a waiting entry; the batch is
        appended unless the list would then exceed `max`, in which case only
        `dropOverflow` is raised. */
    method Add(names: seq<string>, max: Limit) returns (added: seq<Key>)
      requires Valid()
      modifies this
      ensures Valid()
      ensures |added| == |names|
      ensures forall j :: 0 <= j < |names| ==> added[j] == old(nextKey) + j
      ensures forall j :: 0 <= j < |names| ==> added[j] in store && store[added[j]] == NewEntry(names[j])
      ensures forall k :: k in old(store) ==> k in store && store[k] == old(store)[k]
      ensures nextKey == old(nextKey) + |names|
      ensures forall k :: k in store && k !in old(store) ==> old(nextKey) <= k < nextKey
      ensures dropOverflow == Overflows(|old(files)|, |names|, max)
      ensures files == if dropOverflow then old(files) else old(files) + added
      ensures clock == old(clock) + 1 && filesUpdated == clock && !error
      ensures current == old(current) && live == old(live) && done == old(done)
      ensures currentProgress == old(currentProgress)
      ensures uploads == old(uploads) && aborts == old(aborts)
    {
      Stamp();
      ghost var before := store;
      var s;
      s, added := Admit(store, nextKey, names);
      var n := nextKey + |names|;
      store, nextKey := s, n;
      dropOverflow := Overflows(|files|, |names|, max);
      if !dropOverflow {
        AppendFreshDistinct(before, files, added, old(nextKey));
        assert Stored(s, files + added);
        files := files + added;
      }
      assert Stored(store, files);
      assert SingleTransfer();
      assert Consistent();
    }

    /** Action `next`: an active current entry is kept, otherwise the first waiting
        entry becomes current; the queue is done when nothing is current. */
    method Next()
      requires Consistent()
      requires live == current
      requires Driving() || Finished()
      modifies this
      ensures Valid()
      ensures current == NextCurrent(old(current), old(store), old(files))
      ensures done == current.None?
      ensures store == old(store) && files == old(files) && live == old(live)
      ensures clock == old(clock) + 1 && filesUpdated == clock && !error
      ensures dropOverflow == old(dropOverflow) && currentProgress == old(currentProgress)
      ensures nextKey == old(nextKey) && uploads == old(uploads) && aborts == old(aborts)
    {
      Stamp();
      if current.None? || !IsActive(store[current.value].status) {
        current := FirstWaiting(store, files);
      }
      done := current.None?;
    }

    /** Action `submit`: every listed cancelled or failed entry goes back to waiting,
        then the action falls through to `next`. */
    method Submit()
      requires Valid()
      requires live == current
      modifies this
      ensures Valid()
      ensures store == ResetErrors(old(store), old(files))
      ensures current == NextCurrent(old(current), store, files)
      ensures done == current.None?
      ensures files == old(files) && live == old(live)
      ensures clock == old(clock) + 1 && filesUpdated == clock && !error
      ensures dropOverflow == old(dropOverflow) && currentProgress == old(currentProgress)
      ensures nextKey == old(nextKey) && uploads == old(uploads) && aborts == old(aborts)
    {
      var s := store;
      var i := 0;
      while i < |files|
        invariant 0 <= i <= |files|
        invariant s == ResetErrors(store, files[..i])
      {
        var k := files[i];
        if IsError(s[k].status) {
          s := s[k := s[k].(status := Waiting)];
        }
        assert files[..i + 1] == files[..i] + [k];
        i := i + 1;
      }
      assert files[..i] == files;
      store := s;
      Next();
    }

    /** Action `delete`: the entry leaves the list at its first position; nothing is
        aborted and an absent entry leaves the list as it is. */
    method Delete(k: Key)
      requires Valid()
      modifies this
      ensures Valid()
      ensures files == DeleteKey(old(files), k)
      ensures store == old(store) && current == old(current) && live == old(live)
      ensures done == old(done) && clock == old(clock) + 1 && filesUpdated == clock && !error
      ensures dropOverflow == old(dropOverflow) && currentProgress == old(currentProgress)
      ensures nextKey == old(nextKey) && uploads == old(uploads) && aborts == old(aborts)
    {
      Stamp();
      DeleteKeyExactly(files, k);
      var i := IndexOf(files, k);
      if i != -1 {
        files := RemoveAt(files, i);
      }
    }

    /** Action `refresh`: only a fresh `filesUpdated` token. */
    method Refresh()
      requires Valid()
      modifies this
      ensures Valid()
      ensures store == old(store) && files == old(files) && current == old(current) && live == old(live)
      ensures done == old(done) && clock == old(clock) + 1 && filesUpdated == clock && !error
      ensures dropOverflow == old(dropOverflow) && currentProgress == old(currentProgress)
      ensures nextKey == old(nextKey) && uploads == old(uploads) && aborts == old(aborts)
    {
      Stamp();
    }

    /** Action `currentProgress`: records the value; `filesUpdated` goes back to false. */
    method SetCurrentProgress(value: int)
      requires Valid()
      modifies this
      ensures Valid()
      ensures currentProgress == value && filesUpdated == 0 && !error
      ensures store == old(store) && files == old(files) && current == old(current) && live == old(live)
      ensures done == old(done) && clock == old(clock) && dropOverflow == old(dropOverflow)
      ensures nextKey == old(nextKey) && uploads == old(uploads) && aborts == old(aborts)
    {
      filesUpdated := 0;
      error := false;
      currentProgress := value;
    }

    /** Action `error`: raises the error flag; `filesUpdated` goes back to false. */
    method RaiseError()
      requires Valid()
      modifies this
      ensures Valid()
      ensures error && filesUpdated == 0
      ensures store == old(store) && files == old(files) && current == old(current) && live == old(live)
      ensures done == old(done) && clock == old(clock) && dropOverflow == old(dropOverflow)
      ensures currentProgress == old(currentProgress)
      ensures nextKey == old(nextKey) && uploads == old(uploads) && aborts == old(aborts)
    {
      filesUpdated := 0;
      error := true;
    }

    /** The item's cancel button, offered for waiting and uploading entries only: an
        uploading entry's transfer is aborted through its token (its status changes
        when the driver reports the cancellation); a waiting entry is cancelled at once. */
    method Cancel(k: Key)
      requires Valid()
      requires k in files
      requires store[k].status == Waiting || store[k].status == Uploading
      modifies this
      ensures Valid()
      ensures old(store)[k].status == Uploading ==> store == old(store) && aborts == old(aborts) + [k]
      ensures old(store)[k].status == Waiting ==>
        store == old(store)[k := old(store)[k].(status := Cancelled)] && aborts == old(aborts)
      ensures files == old(files) && current == old(current) && live == old(live)
      ensures done == old(done) && clock == old(clock) + 1 && filesUpdated == clock && !error
      ensures nextKey == old(nextKey) && uploads == old(uploads)
      ensures dropOverflow == old(dropOverflow) && currentProgress == old(currentProgress)
    {
      if store[k].status == Uploading {
        aborts := aborts + [k];
      } else {
        store := store[k := store[k].(status := Cancelled)];
      }
      Refresh();
    }

    /** The item's name field: sets the custom name. */
    method Rename(k: Key, name: string)
      requires Valid()
      requires k in files
      modifies this
      ensures Valid()
      ensures store == old(store)[k := old(store)[k].(customName := name)]
      ensures files == old(files) && current == old(current) && live == old(live)
      ensures done == old(done) && clock == old(clock) + 1 && filesUpdated == clock && !error
      ensures nextKey == old(nextKey) && uploads == old(uploads) && aborts == old(aborts)
      ensures dropOverflow == old(dropOverflow) && currentProgress == old(currentProgress)
    {
      store := store[k := store[k].(customName := name)];
      Refresh();
    }

    /** The driver effect, re-run when `current` changes: the previous run's cleanup
        unsubscribes (aborting only an entry still in flight, which a change of
        `current` never leaves behind), then the new current entry is set uploading,
        given a cancel token and handed to the upload collaborator under its display name. */
    method Sync()
      requires Valid()
      modifies this
      ensures Valid()
      ensures live == current && current == old(current)
      ensures aborts == old(aborts)
      ensures old(live) == old(current) || current.None? ==> store == old(store) && uploads == old(uploads)
      ensures old(live) != old(current) && current.Some? ==>
        var c := current.value;
        store == old(store)[c := old(store)[c].(status := Uploading, hasToken := true)] &&
        uploads == old(uploads) + [UploadRequest(c, DisplayName(old(store)[c]))]
      ensures current.Some? ==> IsActive(store[current.value].status)
      ensures files == old(files) && done == old(done) && error == old(error)
      ensures filesUpdated == old(filesUpdated) && clock == old(clock) && nextKey == old(nextKey)
      ensures dropOverflow == old(dropOverflow) && currentProgress == old(currentProgress)
    {
      if live != current {
        if live.Some? && IsActive(store[live.value].status) {
          // the cleanup would abort here, but an entry in flight is always the current one
          assert false;
        }
        live := None;
        if current.Some? {
          var c := current.value;
          store := store[c := store[c].(status := Uploading, hasToken := true)];
          uploads := uploads + [UploadRequest(c, DisplayName(store[c]))];
          live := current;
        }
      }
    }

    /** Progress event of the running upload: the rounded percentage is stored, 100
        moves the entry to finishing, and `currentProgress` is dispatched. */
    method OnProgress(loaded: int, total: int)
      requires Valid()
      requires live.Some? && live == current
      requires loaded >= 0 && total > 0
      modifies this
      ensures Valid()
      ensures var c := old(live).value; var p := Percent(loaded, total);
        store == old(store)[c := old(store)[c].(progress := p,
                   status := if p == 100 then Finishing else old(store)[c].status)] &&
        currentProgress == p
      ensures files == old(files) && current == old(current) && live == old(live)
      ensures filesUpdated == 0 && !error && done == old(done) && clock == old(clock)
      ensures nextKey == old(nextKey) && uploads == old(uploads) && aborts == old(aborts)
      ensures dropOverflow == old(dropOverflow)
    {
      var c := live.value;
      var p := Percent(loaded, total);
      store := store[c := store[c].(progress := p, status := if p == 100 then Finishing else store[c].status)];
      SetCurrentProgress(p);
    }

    /** Success of the running upload: the response's id (when there is a response)
        and status success are stored, then `next` is dispatched. */
    method OnSuccess(response: Option<Response>)
      requires Valid()
      requires live.Some? && live == current
      modifies this
      ensures Valid()
      ensures var c := old(live).value;
        store == old(store)[c := old(store)[c].(
          id := if response.Some? then response.value.id else old(store)[c].id,
          status := Success)]
      ensures current == FirstWaiting(store, files) && done == current.None?
      ensures current != old(current)
      ensures files == old(files) && live == old(live)
      ensures clock == old(clock) + 1 && filesUpdated == clock && !error
      ensures nextKey == old(nextKey) && uploads == old(uploads) && aborts == old(aborts)
      ensures dropOverflow == old(dropOverflow) && currentProgress == old(currentProgress)
    {
      var c := live.value;
      var e := store[c];
      store := store[c := e.(id := if response.Some? then response.value.id else e.id, status := Success)];
      Next();
    }

    /** Failure of the running upload: a cancellation marks the entry cancelled
        "Cancelled by user", any other error marks it failed with the error's message;
        then `next` is dispatched. */
    method OnError(err: UploadError)
      requires Valid()
      requires live.Some? && live == current
      modifies this
      ensures Valid()
      ensures var c := old(live).value;
        store == old(store)[c := old(store)[c].(
          status := if err.CancelError? then Cancelled else Failed,
          message := Some(if err.CancelError? then CancelledByUser else err.message))]
      ensures current == FirstWaiting(store, files) && done == current.None?
      ensures current != old(current)
      ensures files == old(files) && live == old(live)
      ensures clock == old(clock) + 1 && filesUpdated == clock && !error
      ensures nextKey == old(nextKey) && uploads == old(uploads) && aborts == old(aborts)
      ensures dropOverflow == old(dropOverflow) && currentProgress == old(currentProgress)
    {
      var c := live.value;
      var e := store[c];
      if err.CancelError? {
        store := store[c := e.(status := Cancelled, message := Some(CancelledByUser))];
      } else {
        store := store[c := e.(status := Failed, message := Some(err.message))];
      }
      Next();
    }

    /** The driver's cleanup when the component goes away: unsubscribe, and abort the
        transfer if the entry is still in flight. The queue is not used afterwards. */
    method Unmount()
      requires Valid()
      modifies this
      ensures live == None
      ensures aborts == old(aborts) +
        if old(live).Some? && IsActive(old(store)[old(live).value].status) then [old(live).value] else []
      ensures store == old(store) && files == old(files) && current == old(current)
      ensures uploads == old(uploads) && done == old(done) && error == old(error)
      ensures filesUpdated == old(filesUpdated) && clock == old(clock) && nextKey == old(nextKey)
      ensures dropOverflow == old(dropOverflow) && currentProgress == old(currentProgress)
    {
      if live.Some? && IsActive(store[live.value].status) {
        aborts := aborts + [live.value];
      }
      live := None;
    }

    /** The completion effect: once `done`, a list with an unsuccessful entry raises
        the error flag and reports `undefined` (None inside); otherwise the computed
        value is reported. Nothing is reported while the queue is not done. */
    method SubmitDoneEffect() returns (reported: Option<Option<FilesValue>>)
      requires Valid()
      modifies this
      ensures Valid()
      ensures reported.Some? <==> old(done)
      ensures reported.Some? ==> reported.value == SubmitDoneValue(old(Entries()))
      ensures error == if old(done) && SubmitDoneValue(old(Entries())).None? then true else old(error)
      ensures filesUpdated == if old(done) && SubmitDoneValue(old(Entries())).None? then 0 else old(filesUpdated)
      ensures done == old(done) && clock == old(clock)
      ensures dropOverflow == old(dropOverflow) && currentProgress == old(currentProgress)
      ensures store == old(store) && files == old(files) && current == old(current) && live == old(live)
      ensures nextKey == old(nextKey) && uploads == old(uploads) && aborts == old(aborts)
    {
      if done {
        var v := SubmitDoneValue(Entries());
        if v.None? {
          RaiseError();
        }
        reported := Some(v);
      } else {
        reported := None;
      }
    }
  }
}
