/** Pure building blocks of the upload queue (src/components/FileUploader.js):
    the list searches the reducer performs (`find`, `indexOf`, `splice`), the reset
    that `submit` applies, the choice `next` makes, and the rounding of a progress
    event. Entries are identified by a surrogate key: the source compares picked
    files by object identity. */
module QueueSupport {
  import opened Common
  import opened Entries

  type Key = nat

  /** All keys of a list refer to stored entries. */
  predicate Stored(store: map<Key, Entry>, files: seq<Key>) {
    forall i :: 0 <= i < |files| ==> files[i] in store
  }

  /** No entry is listed twice. */
  predicate Distinct(files: seq<Key>) {
    forall i, j :: 0 <= i < j < |files| ==> files[i] != files[j]
  }

  /** The entries a list of keys refers to, in list order. */
  function Resolve(store: map<Key, Entry>, files: seq<Key>): (r: seq<Entry>)
    requires Stored(store, files)
    ensures |r| == |files|
    ensures forall i :: 0 <= i < |files| ==> r[i] == store[files[i]]
  {
    seq(|files|, i requires 0 <= i < |files| => store[files[i]])
  }

  /** Appending freshly allocated keys (all above the stored ones, consecutive) keeps a list without repeats. */
  lemma AppendFreshDistinct(store: map<Key, Entry>, files: seq<Key>, added: seq<Key>, base: nat)
    requires Stored(store, files) && Distinct(files)
    requires forall k :: k in store ==> k < base
    requires forall j :: 0 <= j < |added| ==> added[j] == base + j
    ensures Distinct(files + added)
  {
    forall a, b | 0 <= a < b < |files + added| ensures (files + added)[a] != (files + added)[b] {
      if b >= |files| && a < |files| {
        assert files[a] in store;
      }
    }
  }

  /** Position of the first waiting entry, -1 when there is none. */
  function FirstWaitingIndex(store: map<Key, Entry>, files: seq<Key>): (i: int)
    requires Stored(store, files)
    ensures -1 <= i < |files|
    ensures i >= 0 ==> store[files[i]].status == Waiting
    ensures forall j :: 0 <= j < |files| && (i < 0 || j < i) ==> store[files[j]].status != Waiting
  {
    if files == [] then -1
    else if store[files[0]].status == Waiting then 0
    else
      var i := FirstWaitingIndex(store, files[1..]);
      if i < 0 then -1 else i + 1
  }

  /** `files.find(file => file.status === FileStatus.waiting)`. */
  function FirstWaiting(store: map<Key, Entry>, files: seq<Key>): (r: Option<Key>)
    requires Stored(store, files)
    ensures r.Some? ==> r.value in files && store[r.value].status == Waiting
    ensures r.None? <==> forall j :: 0 <= j < |files| ==> store[files[j]].status != Waiting
  {
    var i := FirstWaitingIndex(store, files);
    if i < 0 then None else Some(files[i])
  }

  /** No entry listed before the one `find` returns is waiting: arrival order is upload order. */
  lemma FirstWaitingIsEarliest(store: map<Key, Entry>, files: seq<Key>, j: nat)
    requires Stored(store, files)
    requires FirstWaiting(store, files).Some?
    requires j < |files| && store[files[j]].status == Waiting
    ensures exists i :: 0 <= i <= j && files[i] == FirstWaiting(store, files).value
  {
    var i := FirstWaitingIndex(store, files);
    assert files[i] == FirstWaiting(store, files).value;
  }

  /** The choice of the `next` action: an active current entry is kept; otherwise the
      first waiting entry becomes current, or nothing does. */
  function NextCurrent(current: Option<Key>, store: map<Key, Entry>, files: seq<Key>): (r: Option<Key>)
    requires current.Some? ==> current.value in store
    requires Stored(store, files)
    ensures current.Some? && IsActive(store[current.value].status) ==> r == current
    ensures !(current.Some? && IsActive(store[current.value].status)) ==> r == FirstWaiting(store, files)
  {
    if current.None? || !IsActive(store[current.value].status) then FirstWaiting(store, files) else current
  }

  /** The `forEach` of `submit`: every listed cancelled or failed entry goes back to waiting. */
  function ResetErrors(store: map<Key, Entry>, files: seq<Key>): (r: map<Key, Entry>)
  {
    map k | k in store :: if k in files && IsError(store[k].status) then store[k].(status := Waiting) else store[k]
  }

  /** Only the status of listed error entries changes; every other entry and field is kept. */
  lemma ResetErrorsExactly(store: map<Key, Entry>, files: seq<Key>, k: Key)
    requires k in store
    ensures k in ResetErrors(store, files)
    ensures ResetErrors(store, files)[k].status ==
      (if k in files && IsError(store[k].status) then Waiting else store[k].status)
    ensures ResetErrors(store, files)[k] == store[k].(status := ResetErrors(store, files)[k].status)
  {
  }

  /** Resetting never touches an active entry, so `submit` keeps an active current like `next` does. */
  lemma ResetErrorsKeepsActive(store: map<Key, Entry>, files: seq<Key>, k: Key)
    requires k in store
    ensures IsActive(ResetErrors(store, files)[k].status) <==> IsActive(store[k].status)
  {
  }

  /** Position of `k` in the list, -1 when absent (`indexOf`). */
  function IndexOf(files: seq<Key>, k: Key): (i: int)
    ensures -1 <= i < |files|
    ensures i >= 0 ==> files[i] == k
    ensures forall j :: 0 <= j < |files| && (i < 0 || j < i) ==> files[j] != k
  {
    if files == [] then -1
    else if files[0] == k then 0
    else
      var i := IndexOf(files[1..], k);
      if i < 0 then -1 else i + 1
  }

  /** `splice(i, 1)` on a copy. */
  function RemoveAt(files: seq<Key>, i: nat): seq<Key>
    requires i < |files|
  {
    files[..i] + files[i + 1..]
  }

  /** The `delete` action on the list: the first occurrence goes, the rest keep their order. */
  function DeleteKey(files: seq<Key>, k: Key): (r: seq<Key>)
    ensures k !in files ==> r == files
    ensures k in files ==> |r| == |files| - 1
  {
    var i := IndexOf(files, k);
    if i < 0 then files else RemoveAt(files, i)
  }

  /** The list `splice` leaves: the keys before `i`, then the keys after it. */
  lemma RemoveAtIndex(files: seq<Key>, i: nat, j: nat)
    requires i < |files| && j < |files| - 1
    ensures RemoveAt(files, i)[j] == files[if j < i then j else j + 1]
  {
  }

  lemma {:induction false} RemoveAtDistinct(files: seq<Key>, i: nat)
    requires i < |files| && Distinct(files)
    ensures Distinct(RemoveAt(files, i))
    ensures files[i] !in RemoveAt(files, i)
  {
    var r := RemoveAt(files, i);
    forall a, b | 0 <= a < b < |r| ensures r[a] != r[b] {
      RemoveAtIndex(files, i, a);
      RemoveAtIndex(files, i, b);
    }
    forall j | 0 <= j < |r| ensures r[j] != files[i] {
      RemoveAtIndex(files, i, j);
    }
  }

  lemma {:induction false} RemoveAtKeepsOthers(files: seq<Key>, i: nat, x: Key)
    requires i < |files| && x != files[i]
    ensures x in RemoveAt(files, i) <==> x in files
  {
    var r := RemoveAt(files, i);
    if x in files {
      var j :| 0 <= j < |files| && files[j] == x;
      RemoveAtIndex(files, i, if j < i then j else j - 1);
      assert r[if j < i then j else j - 1] == x;
    }
    if x in r {
      var j :| 0 <= j < |r| && r[j] == x;
      RemoveAtIndex(files, i, j);
    }
  }

  /** Deleting from a list without repeats removes exactly the key: every other key stays,
      the result has no repeats, and as a multiset it is the old list minus that key. */
  lemma DeleteKeyExactly(files: seq<Key>, k: Key)
    requires Distinct(files)
    ensures k !in DeleteKey(files, k)
    ensures forall x :: x != k ==> (x in DeleteKey(files, k) <==> x in files)
    ensures Distinct(DeleteKey(files, k))
    ensures multiset(DeleteKey(files, k)) == multiset(files) - multiset{k}
  {
    var i := IndexOf(files, k);
    if i >= 0 {
      RemoveAtDistinct(files, i);
      forall x | x != k ensures x in DeleteKey(files, k) <==> x in files {
        RemoveAtKeepsOthers(files, i, x);
      }
      assert files == files[..i] + [k] + files[i + 1..];
      assert multiset(files) == multiset(files[..i]) + multiset{k} + multiset(files[i + 1..]);
    }
  }

  /** `Math.round(loaded * 100 / total)` for a progress event with a known total:
      the nearest integer percentage, halves rounded up. */
  function Percent(loaded: int, total: int): (p: int)
    requires loaded >= 0 && total > 0
    ensures 2 * total * p <= 200 * loaded + total < 2 * total * (p + 1)
  {
    PercentBounds(loaded, total);
    (200 * loaded + total) / (2 * total)
  }

  lemma PercentBounds(loaded: int, total: int)
    requires loaded >= 0 && total > 0
    ensures var p := (200 * loaded + total) / (2 * total);
      2 * total * p <= 200 * loaded + total < 2 * total * (p + 1)
  {
    var d := 2 * total;
    var n := 200 * loaded + total;
    assert n == d * (n / d) + n % d;
  }

  lemma MulMono(c: int, a: int, b: int)
    requires c > 0 && a <= b
    ensures c * a <= c * b
  {
  }

  /** A transfer is complete (100) exactly when at least 99.5% of the bytes are sent,
      and within the total the percentage stays within 0..100. */
  lemma PercentRange(loaded: int, total: int)
    requires 0 <= loaded <= total && total > 0
    ensures 0 <= Percent(loaded, total) <= 100
    ensures Percent(loaded, total) == 100 <==> 200 * loaded >= 199 * total
  {
    var p := Percent(loaded, total);
    var d := 2 * total;
    if p > 100 {
      MulMono(d, 101, p);
      assert false;
    }
    if p < 0 {
      MulMono(d, p + 1, 0);
      assert false;
    }
    if p < 100 {
      MulMono(d, p + 1, 100);
    }
  }
}
