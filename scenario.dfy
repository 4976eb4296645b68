/** A client of the upload queue: two files are picked, the form submits, the driver
    uploads both one after the other, and the completion effect reports both records. */
module Scenario {
  import opened Common
  import opened Entries
  import opened FilesResult
  import opened Admission
  import opened QueueSupport
  import opened UploadQueue

  /** Two files are picked into an empty queue and the form submits: the first file
      is being uploaded, the second waits. */
  method PickAndSubmit() returns (q: Queue, a: Key, b: Key)
    ensures fresh(q) && q.Valid()
    ensures q.files == [a, b] && a != b && a in q.store && b in q.store
    ensures q.current == Some(a) && q.live == q.current
    ensures q.store[a].status == Uploading && q.store[a].name == "a.txt" && q.store[a].customName == ""
    ensures q.store[b] == NewEntry("b.txt")
  {
    q := new Queue();
    var added := q.Add(["a.txt", "b.txt"], Infinite);
    a, b := added[0], added[1];
    assert q.files == [a, b];
    q.Submit();
    assert q.store[a].status == Waiting;
    assert q.current == Some(a);
    q.Sync();
  }

  /** The driver reports both uploads as successful, each with its id. */
  method UploadBoth(q: Queue, a: Key, b: Key)
    requires q.Valid()
    requires q.files == [a, b] && a != b && a in q.store && b in q.store
    requires q.current == Some(a) && q.live == q.current
    requires q.store[a].status == Uploading && q.store[a].name == "a.txt" && q.store[a].customName == ""
    requires q.store[b] == NewEntry("b.txt")
    modifies q
    ensures q.Valid() && q.done && q.files == [a, b] && a in q.store && b in q.store
    ensures q.store[a].status == Success && RecordOf(q.store[a]) == FileRecord("a.txt", Some("1"))
    ensures q.store[b].status == Success && RecordOf(q.store[b]) == FileRecord("b.txt", Some("2"))
  {
    q.OnSuccess(Some(Response(Some("1"))));
    assert q.store[a].status == Success && q.store[b].status == Waiting;
    assert [a, b][1..] == [b];
    assert FirstWaitingIndex(q.store, [b]) == 0;
    assert q.current == Some(b);
    q.Sync();
    q.OnSuccess(Some(Response(Some("2"))));
  }

  method TwoFileSubmission() returns (reported: Option<Option<FilesValue>>)
    ensures reported == Some(Some(List([FileRecord("a.txt", Some("1")), FileRecord("b.txt", Some("2"))])))
  {
    var q, a, b := PickAndSubmit();
    UploadBoth(q, a, b);
    ghost var es := q.Entries();
    assert es == [q.store[a], q.store[b]];
    assert !AnyUnsuccessful(es);
    ghost var v := ComputeFilesValue(es);
    assert v.List? && |v.records| == 2;
    assert v.records == [RecordOf(es[0]), RecordOf(es[1])];
    reported := q.SubmitDoneEffect();
  }
}
