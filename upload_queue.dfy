/**
 * The upload queue: a FIFO of pending uploads, a set of active uploads capped
 * by `maxConcurrentUploads`, and an insertion-ordered progress map that is
 * broadcast in full after every change.
 *
 * The network transfer is the only asynchronous part of the source. Here it
 * is split into events: `StartUpload` is the synchronous prefix of
 * `uploadFile` (it registers the abort handle, marks the entry `uploading`
 * and hands the request to the backend), and `OnUploadProgress`,
 * `OnUploadSuccess` and `OnUploadFailure` are the later callbacks of that
 * request. The requests handed to the backend are recorded in `requests`, the
 * ones that have not settled yet in `inFlight`.
 */
module UploadQueueModel {
  import opened Wrappers
  import opened BrowserFile

  /** Upload ids. The source builds them from the clock and a random number; here a counter supplies them. */
  type Id = nat

  /** The backend's response body, kept opaque. */
  type Response = string

  datatype Status = Pending | Uploading | Completed | Error

  /** One entry of the progress map. */
  datatype UploadProgress = UploadProgress(
    id: Id, file: File, status: Status, progress: int,
    error: Option<string>, result: Option<Response>)

  /** One item of the FIFO queue: what the request to the backend is built from. */
  datatype QueueItem = QueueItem(id: Id, file: File, folderName: Option<string>, folderId: Option<string>)

  /**
   * The `Partial<UploadProgress>` passed to `updateProgress`. Every call in the
   * source sets `status`; the other fields are set only when present.
   */
  datatype Updates = Updates(status: Status, progress: Option<int>, error: Option<string>, result: Option<Response>)

  datatype Stats = Stats(pending: nat, uploading: nat, completed: nat, error: nat, total: nat)

  const CancelledMessage: string := "Upload cancelled"
  const UnknownFailureMessage: string := "Upload failed"

  /** The update made when an upload starts. */
  const StartUpdate: Updates := Updates(Uploading, Some(0), None, None)
  /** The update made by `cancelUpload` and `cancelAllUploads`: the progress value is left as it was. */
  const CancelUpdate: Updates := Updates(Error, None, Some(CancelledMessage), None)

  function ProgressUpdate(percent: int): Updates { Updates(Uploading, Some(percent), None, None) }
  function SuccessUpdate(response: Response): Updates { Updates(Completed, Some(100), None, Some(response)) }

  /** The message recorded on failure: the thrown `Error`'s message, or a fixed text for anything else thrown. */
  function FailureUpdate(thrownMessage: Option<string>): Updates {
    Updates(Error, Some(0), Some(thrownMessage.GetOr(UnknownFailureMessage)), None)
  }

  /** `{ ...current, ...updates }`. */
  function Merge(p: UploadProgress, u: Updates): (r: UploadProgress)
    ensures r.id == p.id && r.file == p.file && r.status == u.status
    ensures r.progress == (if u.progress.Some? then u.progress.value else p.progress)
    ensures r.error == (if u.error.Some? then u.error else p.error)
    ensures r.result == (if u.result.Some? then u.result else p.result)
  {
    p.(status := u.status,
       progress := u.progress.GetOr(p.progress),
       error := if u.error.Some? then u.error else p.error,
       result := if u.result.Some? then u.result else p.result)
  }

  /** Applying the same update twice is applying it once. */
  lemma MergeTwice(p: UploadProgress, u: Updates)
    ensures Merge(Merge(p, u), u) == Merge(p, u)
  {
  }

  /** An update that sets every field hides whatever update came before it. */
  lemma MergeOverridden(p: UploadProgress, u: Updates, v: Updates)
    requires v.progress.Some? && v.error.Some? && v.result.Some?
    ensures Merge(Merge(p, u), v) == Merge(p, v)
  {
  }

  /** The entry `addFiles` creates for a new file. */
  function NewEntry(id: Id, file: File): UploadProgress {
    UploadProgress(id, file, Pending, 0, None, None)
  }

  /** The queue items `addFiles` builds, one per file, in input order. */
  function NewItems(ids: seq<Id>, files: seq<File>, folderName: Option<string>, folderId: Option<string>): (r: seq<QueueItem>)
    requires |ids| == |files|
    ensures |r| == |ids|
    ensures forall i :: 0 <= i < |r| ==> r[i] == QueueItem(ids[i], files[i], folderName, folderId)
  {
    seq(|ids|, i requires 0 <= i < |ids| => QueueItem(ids[i], files[i], folderName, folderId))
  }

  predicate Settled(st: Status) {
    st == Completed || st == Error
  }

  predicate Distinct(s: seq<Id>) {
    forall i, j :: 0 <= i < j < |s| ==> s[i] != s[j]
  }

  // ---------------------------------------------------------------------
  // The ids of a sequence of queue items
  // ---------------------------------------------------------------------

  function IdsOf(items: seq<QueueItem>): set<Id> {
    if items == [] then {} else IdsOf(items[..|items| - 1]) + {items[|items| - 1].id}
  }

  predicate DistinctIds(items: seq<QueueItem>) {
    forall i, j :: 0 <= i < j < |items| ==> items[i].id != items[j].id
  }

  /** `IdsOf` holds exactly the ids that occur in the sequence. */
  lemma {:induction false} IdsOfSpec(items: seq<QueueItem>)
    ensures forall i :: 0 <= i < |items| ==> items[i].id in IdsOf(items)
    ensures forall x :: x in IdsOf(items) ==> exists i :: 0 <= i < |items| && items[i].id == x
  {
    if items != [] {
      var n := |items| - 1;
      var pre := items[..n];
      IdsOfSpec(pre);
      forall i | 0 <= i < n ensures items[i].id in IdsOf(items) {
        assert pre[i] == items[i];
      }
      forall x | x in IdsOf(items) ensures exists i :: 0 <= i < |items| && items[i].id == x {
        if x != items[n].id {
          var i :| 0 <= i < |pre| && pre[i].id == x;
          assert items[i] == pre[i];
        }
      }
    }
  }

  lemma {:induction false} IdsOfConcat(a: seq<QueueItem>, b: seq<QueueItem>)
    ensures IdsOf(a + b) == IdsOf(a) + IdsOf(b)
  {
    if b == [] {
      assert a + b == a;
    } else {
      var n := |b| - 1;
      IdsOfConcat(a, b[..n]);
      assert (a + b)[..|a + b| - 1] == a + b[..n];
    }
  }

  lemma IdsOfAppend(items: seq<QueueItem>, x: QueueItem)
    ensures IdsOf(items + [x]) == IdsOf(items) + {x.id}
  {
    assert (items + [x])[..|items|] == items;
  }

  lemma IdsOfCons(x: QueueItem, q: seq<QueueItem>)
    ensures IdsOf([x] + q) == {x.id} + IdsOf(q)
  {
    IdsOfConcat([x], q);
    assert [x][..0] == [];
  }

  lemma IdsOfSplit(items: seq<QueueItem>, k: nat)
    requires k <= |items|
    ensures IdsOf(items) == IdsOf(items[..k]) + IdsOf(items[k..])
  {
    IdsOfConcat(items[..k], items[k..]);
    assert items[..k] + items[k..] == items;
  }

  /** A sequence starting with `x` has distinct ids exactly when its tail does and does not carry `x.id`. */
  lemma DistinctIdsCons(x: QueueItem, q: seq<QueueItem>)
    ensures DistinctIds([x] + q) <==> DistinctIds(q) && x.id !in IdsOf(q)
  {
    if DistinctIds([x] + q) {
      DistinctIdsTail(x, q);
    }
    if DistinctIds(q) && x.id !in IdsOf(q) {
      DistinctIdsPush(x, q);
    }
  }

  lemma DistinctIdsTail(x: QueueItem, q: seq<QueueItem>)
    requires DistinctIds([x] + q)
    ensures DistinctIds(q) && x.id !in IdsOf(q)
  {
    var s := [x] + q;
    forall i, j | 0 <= i < j < |q| ensures q[i].id != q[j].id {
      assert s[i + 1] == q[i] && s[j + 1] == q[j];
    }
    IdsOfSpec(q);
    forall i | 0 <= i < |q| ensures q[i].id != x.id {
      assert s[0] == x && s[i + 1] == q[i];
    }
  }

  lemma DistinctIdsPush(x: QueueItem, q: seq<QueueItem>)
    requires DistinctIds(q) && x.id !in IdsOf(q)
    ensures DistinctIds([x] + q)
  {
    var s := [x] + q;
    IdsOfSpec(q);
    forall i, j | 0 <= i < j < |s| ensures s[i].id != s[j].id {
      if i == 0 {
        assert s[j] == q[j - 1];
      } else {
        assert s[i] == q[i - 1] && s[j] == q[j - 1];
      }
    }
  }

  /** In a sequence with distinct ids, no item's id occurs before it. */
  lemma DistinctIdsPrefix(q: seq<QueueItem>, k: nat)
    requires DistinctIds(q) && k < |q|
    ensures q[k].id !in IdsOf(q[..k])
  {
    IdsOfSpec(q[..k]);
    forall i | 0 <= i < k ensures q[..k][i].id != q[k].id {
      assert q[..k][i] == q[i];
    }
  }

  lemma {:induction false} DistinctIdsCardinality(items: seq<QueueItem>)
    requires DistinctIds(items)
    ensures |IdsOf(items)| == |items|
  {
    if items != [] {
      var n := |items| - 1;
      DistinctIdsCardinality(items[..n]);
      DistinctIdsPrefix(items, n);
    }
  }

  // ---------------------------------------------------------------------
  // Counting, as getStats does it
  // ---------------------------------------------------------------------

  function WithStatus(m: map<Id, UploadProgress>, st: Status): set<Id> {
    set id | id in m && m[id].status == st
  }

  /** How the ids with status `st` change when the entry for `id` is replaced by `p`. */
  lemma WithStatusAfterUpdate(m: map<Id, UploadProgress>, id: Id, p: UploadProgress, st: Status)
    ensures WithStatus(m[id := p], st) == (WithStatus(m, st) - {id}) + (if p.status == st then {id} else {})
  {
  }

  /** The statuses of the entries of `m`, in the order `order` gives. */
  function StatusesOf(order: seq<Id>, m: map<Id, UploadProgress>): (r: seq<Status>)
    requires forall id :: id in order ==> id in m
    ensures |r| == |order| && forall i :: 0 <= i < |order| ==> r[i] == m[order[i]].status
  {
    seq(|order|, i requires 0 <= i < |order| => m[order[i]].status)
  }

  /**
   * The entries of `m`, in the order `order` gives: `Array.from(map.values())`
   * when `order` is the Map's insertion order. Ids without an entry yield nothing.
   */
  function ValuesOf(order: seq<Id>, m: map<Id, UploadProgress>): seq<UploadProgress> {
    if order == [] then []
    else
      var last := order[|order| - 1];
      ValuesOf(order[..|order| - 1], m) + (if last in m then [m[last]] else [])
  }

  /** When every id of `order` has an entry, the values come out one per id, in order. */
  lemma {:induction false} ValuesOfCovered(order: seq<Id>, m: map<Id, UploadProgress>)
    requires forall id :: id in order ==> id in m
    ensures |ValuesOf(order, m)| == |order|
    ensures forall i :: 0 <= i < |order| ==> ValuesOf(order, m)[i] == m[order[i]]
  {
    if order != [] {
      var n := |order| - 1;
      assert forall id :: id in order[..n] ==> id in order;
      ValuesOfCovered(order[..n], m);
      assert order[n] in order;
    }
  }

  function Count(s: seq<Status>, st: Status): (n: nat)
    ensures n <= |s|
  {
    if s == [] then 0 else Count(s[..|s| - 1], st) + (if s[|s| - 1] == st then 1 else 0)
  }

  /** Every entry has exactly one of the four statuses, so the four counts add up to the total. */
  lemma {:induction false} CountsAddUp(s: seq<Status>)
    ensures Count(s, Pending) + Count(s, Uploading) + Count(s, Completed) + Count(s, Error) == |s|
  {
    if s != [] {
      CountsAddUp(s[..|s| - 1]);
    }
  }

  /** A status is counted at least once exactly when some entry has it. */
  lemma {:induction false} CountPositiveIff(s: seq<Status>, st: Status)
    ensures Count(s, st) > 0 <==> st in s
  {
    if s != [] {
      CountPositiveIff(s[..|s| - 1], st);
      assert s == s[..|s| - 1] + [s[|s| - 1]];
    }
  }

  /** The ids of `order` whose entry in `m` has status `st`. */
  function OrderedWithStatus(order: seq<Id>, m: map<Id, UploadProgress>, st: Status): set<Id>
    requires forall id :: id in order ==> id in m
  {
    set id | id in order && m[id].status == st
  }

  /** Over distinct ids, the count of a status is the number of ids that have it. */
  lemma {:induction false} CountIsCardinality(order: seq<Id>, m: map<Id, UploadProgress>, st: Status)
    requires Distinct(order)
    requires forall id :: id in order ==> id in m
    ensures Count(StatusesOf(order, m), st) == |OrderedWithStatus(order, m, st)|
  {
    if order != [] {
      var n := |order| - 1;
      var pre := order[..n];
      assert order == pre + [order[n]];
      assert Distinct(pre);
      CountIsCardinality(pre, m, st);
      StatusesOfSnoc(pre, order[n], m, st);
      OrderedWithStatusSnoc(pre, order[n], m, st);
    }
  }

  /** Counting over one more id adds one when its entry has the status. */
  lemma StatusesOfSnoc(pre: seq<Id>, x: Id, m: map<Id, UploadProgress>, st: Status)
    requires forall id :: id in pre + [x] ==> id in m
    ensures Count(StatusesOf(pre + [x], m), st) == Count(StatusesOf(pre, m), st) + (if m[x].status == st then 1 else 0)
  {
    var all := StatusesOf(pre + [x], m);
    assert all[..|pre|] == StatusesOf(pre, m);
  }

  /** One more id, not listed before, joins the set of ids with the status exactly when its entry has it. */
  lemma OrderedWithStatusSnoc(pre: seq<Id>, x: Id, m: map<Id, UploadProgress>, st: Status)
    requires forall id :: id in pre + [x] ==> id in m
    requires x !in pre
    ensures |OrderedWithStatus(pre + [x], m, st)| == |OrderedWithStatus(pre, m, st)| + (if m[x].status == st then 1 else 0)
  {
    if m[x].status == st {
      assert x !in OrderedWithStatus(pre, m, st);
      assert OrderedWithStatus(pre + [x], m, st) == OrderedWithStatus(pre, m, st) + {x};
    } else {
      assert OrderedWithStatus(pre + [x], m, st) == OrderedWithStatus(pre, m, st);
    }
  }

  function Elements(s: seq<Id>): set<Id> {
    set x | x in s
  }

  lemma {:induction false} DistinctCardinality(s: seq<Id>)
    requires Distinct(s)
    ensures |Elements(s)| == |s|
  {
    if s != [] {
      var n := |s| - 1;
      var pre := s[..n];
      assert Distinct(pre);
      DistinctCardinality(pre);
      assert s == pre + [s[n]];
      assert s[n] !in Elements(pre);
      assert Elements(s) == Elements(pre) + {s[n]};
    }
  }

  // ---------------------------------------------------------------------
  // Queue search and removal, as cancelUpload does it
  // ---------------------------------------------------------------------

  /** `queue.findIndex(item => item.id === id)`. */
  function FindIndex(q: seq<QueueItem>, id: Id): (r: int)
    ensures -1 <= r < |q|
    ensures r == -1 ==> forall j :: 0 <= j < |q| ==> q[j].id != id
    ensures r >= 0 ==> q[r].id == id && forall j :: 0 <= j < r ==> q[j].id != id
  {
    if q == [] then -1
    else if q[0].id == id then 0
    else
      var r := FindIndex(q[1..], id);
      assert forall j :: 1 <= j < |q| ==> q[j] == q[1..][j - 1];
      if r == -1 then -1 else r + 1
  }

  /** `findIndex` finds nothing exactly when no queued item carries the id. */
  lemma FindIndexAbsent(q: seq<QueueItem>, id: Id)
    ensures FindIndex(q, id) == -1 <==> id !in IdsOf(q)
  {
    IdsOfSpec(q);
  }

  /** `findIndex` followed by `splice(index, 1)` when an item was found. */
  function RemoveFirst(q: seq<QueueItem>, id: Id): seq<QueueItem> {
    var k := FindIndex(q, id);
    if k == -1 then q else q[..k] + q[k + 1..]
  }

  /** The queue without the items carrying `id`, every other item in its place. */
  function RemoveId(q: seq<QueueItem>, id: Id): (r: seq<QueueItem>)
    ensures |r| <= |q|
  {
    if q == [] then []
    else if q[0].id == id then RemoveId(q[1..], id)
    else [q[0]] + RemoveId(q[1..], id)
  }

  lemma {:induction false} RemoveIdAbsent(q: seq<QueueItem>, id: Id)
    requires forall i :: 0 <= i < |q| ==> q[i].id != id
    ensures RemoveId(q, id) == q
  {
    if q != [] {
      RemoveIdAbsent(q[1..], id);
      assert q == [q[0]] + q[1..];
    }
  }

  /** Splicing out the first match is removing the id when ids are distinct. */
  lemma {:induction false} SpliceIsRemoveId(q: seq<QueueItem>, id: Id, k: nat)
    requires DistinctIds(q)
    requires k < |q| && q[k].id == id
    ensures RemoveId(q, id) == q[..k] + q[k + 1..]
  {
    if k == 0 {
      RemoveIdAbsent(q[1..], id);
    } else {
      SpliceIsRemoveId(q[1..], id, k - 1);
      assert q[1..][..k - 1] + q[1..][k..] == q[1..k] + q[k + 1..];
      assert q[..k] == [q[0]] + q[1..k];
    }
  }

  /** Removing an id removes exactly that id and keeps the ids distinct. */
  lemma {:induction false} RemoveIdIds(q: seq<QueueItem>, id: Id)
    ensures IdsOf(RemoveId(q, id)) == IdsOf(q) - {id}
    ensures DistinctIds(q) ==> DistinctIds(RemoveId(q, id))
  {
    if q != [] {
      var rest := q[1..];
      RemoveIdIds(rest, id);
      assert q == [q[0]] + rest;
      IdsOfCons(q[0], rest);
      DistinctIdsCons(q[0], rest);
      if q[0].id != id {
        IdsOfCons(q[0], RemoveId(rest, id));
        DistinctIdsCons(q[0], RemoveId(rest, id));
      }
    }
  }

  /** On a queue with distinct ids, splicing out the first match removes the id entirely and keeps the rest in order. */
  lemma RemoveFirstSpec(q: seq<QueueItem>, id: Id)
    requires DistinctIds(q)
    ensures RemoveFirst(q, id) == RemoveId(q, id)
    ensures IdsOf(RemoveFirst(q, id)) == IdsOf(q) - {id}
    ensures DistinctIds(RemoveFirst(q, id))
  {
    var k := FindIndex(q, id);
    if k == -1 {
      RemoveIdAbsent(q, id);
    } else {
      SpliceIsRemoveId(q, id, k);
    }
    RemoveIdIds(q, id);
  }

  // ---------------------------------------------------------------------
  // Clearing settled entries
  // ---------------------------------------------------------------------

  /** The ids of `order` whose entries are still pending or uploading, in order: the Map's order after the deletions. */
  function Unsettled(order: seq<Id>, m: map<Id, UploadProgress>): (r: seq<Id>)
    ensures |r| <= |order|
  {
    if order == [] then []
    else
      var last := order[|order| - 1];
      Unsettled(order[..|order| - 1], m) + (if last in m && !Settled(m[last].status) then [last] else [])
  }

  /** `Unsettled` keeps exactly the unsettled ids, each once and in the original order. */
  lemma {:induction false} UnsettledSpec(order: seq<Id>, m: map<Id, UploadProgress>)
    ensures forall id :: id in Unsettled(order, m) <==> id in order && id in m && !Settled(m[id].status)
    ensures Distinct(order) ==> Distinct(Unsettled(order, m))
  {
    if order != [] {
      var n := |order| - 1;
      UnsettledSpec(order[..n], m);
      assert order == order[..n] + [order[n]];
      if Distinct(order) {
        assert Distinct(order[..n]);
        assert order[n] !in order[..n];
      }
    }
  }

  /** The settled ids of `order`, in order: the `toRemove` list of `clearCompleted`. */
  function SettledIds(order: seq<Id>, m: map<Id, UploadProgress>): (r: seq<Id>)
    ensures |r| <= |order|
  {
    if order == [] then []
    else
      var last := order[|order| - 1];
      SettledIds(order[..|order| - 1], m) + (if last in m && Settled(m[last].status) then [last] else [])
  }

  lemma {:induction false} SettledIdsSpec(order: seq<Id>, m: map<Id, UploadProgress>)
    ensures forall id :: id in SettledIds(order, m) <==> id in order && id in m && Settled(m[id].status)
  {
    if order != [] {
      SettledIdsSpec(order[..|order| - 1], m);
      assert order == order[..|order| - 1] + [order[|order| - 1]];
    }
  }

  lemma SettledIdsNext(order: seq<Id>, m: map<Id, UploadProgress>, i: nat)
    requires i < |order|
    ensures SettledIds(order[..i + 1], m)
            == SettledIds(order[..i], m) + (if order[i] in m && Settled(m[order[i]].status) then [order[i]] else [])
  {
    assert order[..i + 1][..i] == order[..i];
  }

  /** Deleting the ids of `s` one by one: after `j + 1` of them the map has lost `Elements(s[..j + 1])`. */
  lemma DeleteNext(m: map<Id, UploadProgress>, s: seq<Id>, j: nat)
    requires j < |s|
    ensures (m - Elements(s[..j])) - {s[j]} == m - Elements(s[..j + 1])
  {
    assert s[..j + 1] == s[..j] + [s[j]];
    assert Elements(s[..j + 1]) == Elements(s[..j]) + {s[j]};
  }

  /** Deleting the settled ids `clearCompleted` collected leaves exactly the unsettled entries. */
  lemma ClearRemovesSettled(order: seq<Id>, m: map<Id, UploadProgress>)
    requires forall id :: id in m ==> id in order
    ensures m - Elements(SettledIds(order, m)) == WithoutSettled(m)
  {
    SettledIdsSpec(order, m);
  }

  /** The first `forEach` of `clearCompleted`: the settled ids, in insertion order. */
  method CollectSettled(order: seq<Id>, m: map<Id, UploadProgress>) returns (toRemove: seq<Id>)
    requires forall id :: id in order ==> id in m
    ensures toRemove == SettledIds(order, m)
  {
    toRemove := [];
    var i := 0;
    while i < |order|
      invariant 0 <= i <= |order|
      invariant toRemove == SettledIds(order[..i], m)
    {
      var id := order[i];
      SettledIdsNext(order, m, i);
      var st := m[id].status;
      if st == Completed || st == Error {
        toRemove := toRemove + [id];
      }
      i := i + 1;
    }
    assert order[..i] == order;
  }

  /** The second `forEach` of `clearCompleted`: `delete` each id in turn. */
  method DeleteAll(m: map<Id, UploadProgress>, ids: seq<Id>) returns (kept: map<Id, UploadProgress>)
    ensures kept == m - Elements(ids)
  {
    kept := m;
    var j := 0;
    while j < |ids|
      invariant 0 <= j <= |ids|
      invariant kept == m - Elements(ids[..j])
    {
      DeleteNext(m, ids, j);
      kept := kept - {ids[j]};
      j := j + 1;
    }
    assert ids[..j] == ids;
  }

  /** The entries of `m` without the settled ones. */
  function WithoutSettled(m: map<Id, UploadProgress>): (r: map<Id, UploadProgress>)
    ensures forall id :: id in r <==> id in m && !Settled(m[id].status)
    ensures forall id :: id in r ==> r[id] == m[id]
  {
    map id | id in m && !Settled(m[id].status) :: m[id]
  }

  // ---------------------------------------------------------------------
  // The invariant, over plain values
  // ---------------------------------------------------------------------

  /** `order` lists the keys of `m` once each (a JavaScript `Map`'s insertion order), and every entry sits under its own id. */
  ghost predicate OrderedMap(order: seq<Id>, m: map<Id, UploadProgress>) {
    && Distinct(order)
    && (forall id :: id in m <==> id in order)
    && (forall id :: id in m ==> m[id].id == id)
  }

  /**
   * The scheduling invariant, with `started` standing for ids just taken off
   * the queue whose start is not yet recorded: the queued ids (with `started`)
   * are exactly the `pending` entries, the active ids exactly the `uploading`
   * ones, an active upload has a request in flight, a queued item has never
   * been sent, and every id used so far is below `nextId`.
   */
  ghost predicate SchedInv(queue: seq<QueueItem>, active: set<Id>, m: map<Id, UploadProgress>,
                           inFlight: set<Id>, requests: seq<QueueItem>, nextId: nat, started: set<Id>)
  {
    && DistinctIds(queue)
    && IdsOf(queue) !! started
    && IdsOf(queue) + started == WithStatus(m, Pending)
    && active == WithStatus(m, Uploading)
    && active <= inFlight
    && inFlight <= IdsOf(requests)
    && (IdsOf(queue) + started) !! IdsOf(requests)
    && (forall id :: id in m ==> id < nextId)
    && (forall id :: id in IdsOf(requests) ==> id < nextId)
  }

  /** Adding a fresh id at the end keeps the insertion order. */
  lemma OrderedMapAdd(order: seq<Id>, m: map<Id, UploadProgress>, p: UploadProgress)
    requires OrderedMap(order, m) && p.id !in m
    ensures OrderedMap(order + [p.id], m[p.id := p])
  {
  }

  /** Updating an existing entry in place keeps the insertion order. */
  lemma OrderedMapMerge(order: seq<Id>, m: map<Id, UploadProgress>, id: Id, u: Updates)
    requires OrderedMap(order, m) && id in m
    ensures OrderedMap(order, m[id := Merge(m[id], u)])
  {
  }

  /** Dropping the settled entries keeps the insertion order of the others. */
  lemma ClearKeepsOrder(order: seq<Id>, m: map<Id, UploadProgress>)
    requires OrderedMap(order, m)
    ensures OrderedMap(Unsettled(order, m), WithoutSettled(m))
  {
    UnsettledSpec(order, m);
  }

  /** Taking the head off the queue: its id moves to `started`. */
  lemma DequeueStep(queue: seq<QueueItem>, active: set<Id>, m: map<Id, UploadProgress>,
                    inFlight: set<Id>, requests: seq<QueueItem>, nextId: nat)
    requires SchedInv(queue, active, m, inFlight, requests, nextId, {})
    requires queue != []
    ensures SchedInv(queue[1..], active, m, inFlight, requests, nextId, {queue[0].id})
  {
    assert queue == [queue[0]] + queue[1..];
    IdsOfCons(queue[0], queue[1..]);
    DistinctIdsCons(queue[0], queue[1..]);
  }

  /** An id taken off the queue still has its `pending` entry. */
  lemma StartedIsPending(queue: seq<QueueItem>, active: set<Id>, m: map<Id, UploadProgress>,
                         inFlight: set<Id>, requests: seq<QueueItem>, nextId: nat, id: Id)
    requires SchedInv(queue, active, m, inFlight, requests, nextId, {id})
    ensures id in m && m[id].status == Pending && id !in active
  {
    assert id in WithStatus(m, Pending);
  }

  /** Starting a dequeued item (mark it `uploading`, make it active, send its request) restores the invariant. */
  lemma StartStep(queue: seq<QueueItem>, active: set<Id>, m: map<Id, UploadProgress>,
                  inFlight: set<Id>, requests: seq<QueueItem>, nextId: nat, item: QueueItem)
    requires SchedInv(queue, active, m, inFlight, requests, nextId, {item.id})
    requires item.id in m
    ensures SchedInv(queue, active + {item.id}, m[item.id := Merge(m[item.id], StartUpdate)],
                     inFlight + {item.id}, requests + [item], nextId, {})
  {
    IdsOfAppend(requests, item);
    WithStatusAfterUpdate(m, item.id, Merge(m[item.id], StartUpdate), Pending);
    WithStatusAfterUpdate(m, item.id, Merge(m[item.id], StartUpdate), Uploading);
  }

  /** Queueing a new file under the next id, with a fresh `pending` entry, keeps the invariant. */
  lemma EnqueueStep(queue: seq<QueueItem>, active: set<Id>, m: map<Id, UploadProgress>,
                    inFlight: set<Id>, requests: seq<QueueItem>, nextId: nat, item: QueueItem)
    requires SchedInv(queue, active, m, inFlight, requests, nextId, {})
    requires item.id == nextId
    ensures nextId !in m
    ensures SchedInv(queue + [item], active, m[nextId := NewEntry(nextId, item.file)],
                     inFlight, requests, nextId + 1, {})
  {
    IdsOfAppend(queue, item);
    assert nextId !in IdsOf(queue);
    DistinctIdsAppend(queue, item);
    WithStatusAfterUpdate(m, nextId, NewEntry(nextId, item.file), Pending);
    WithStatusAfterUpdate(m, nextId, NewEntry(nextId, item.file), Uploading);
  }

  lemma DistinctIdsAppend(queue: seq<QueueItem>, item: QueueItem)
    requires DistinctIds(queue) && item.id !in IdsOf(queue)
    ensures DistinctIds(queue + [item])
  {
    IdsOfSpec(queue);
    var q := queue + [item];
    forall i, j | 0 <= i < j < |q| ensures q[i].id != q[j].id {
      if j == |queue| {
        assert q[i] == queue[i];
      } else {
        assert q[i] == queue[i] && q[j] == queue[j];
      }
    }
  }

  /** A progress event of an active upload keeps it `uploading`, so the invariant holds. */
  lemma ProgressStep(queue: seq<QueueItem>, active: set<Id>, m: map<Id, UploadProgress>,
                     inFlight: set<Id>, requests: seq<QueueItem>, nextId: nat, id: Id, u: Updates)
    requires SchedInv(queue, active, m, inFlight, requests, nextId, {})
    requires id in active && u.status == Uploading
    ensures id in m
    ensures SchedInv(queue, active, m[id := Merge(m[id], u)], inFlight, requests, nextId, {})
  {
    assert id in WithStatus(m, Uploading);
    WithStatusAfterUpdate(m, id, Merge(m[id], u), Pending);
    WithStatusAfterUpdate(m, id, Merge(m[id], u), Uploading);
  }

  /** A request settling: its entry (if still there) gets the settled update, and it is no longer active nor in flight. */
  lemma SettleStep(queue: seq<QueueItem>, active: set<Id>, m: map<Id, UploadProgress>,
                   inFlight: set<Id>, requests: seq<QueueItem>, nextId: nat, id: Id, u: Updates)
    requires SchedInv(queue, active, m, inFlight, requests, nextId, {})
    requires id in inFlight && Settled(u.status)
    ensures id !in IdsOf(queue)
    ensures SchedInv(queue, active - {id}, if id in m then m[id := Merge(m[id], u)] else m,
                     inFlight - {id}, requests, nextId, {})
  {
    if id in m {
      WithStatusAfterUpdate(m, id, Merge(m[id], u), Pending);
      WithStatusAfterUpdate(m, id, Merge(m[id], u), Uploading);
    }
  }

  /** Cancelling one id: it leaves the queue and the active set, and its entry (if any) becomes an error. */
  lemma CancelStep(queue: seq<QueueItem>, active: set<Id>, m: map<Id, UploadProgress>,
                   inFlight: set<Id>, requests: seq<QueueItem>, nextId: nat, id: Id)
    requires SchedInv(queue, active, m, inFlight, requests, nextId, {})
    ensures SchedInv(RemoveFirst(queue, id), active - {id},
                     if id in m then m[id := Merge(m[id], CancelUpdate)] else m,
                     inFlight, requests, nextId, {})
  {
    var q := RemoveFirst(queue, id);
    RemoveFirstSpec(queue, id);
    assert IdsOf(q) == IdsOf(queue) - {id} && DistinctIds(q);
    if id in m {
      CancelEntryStep(m, id, IdsOf(queue), active);
    } else {
      assert id !in WithStatus(m, Pending) && id !in WithStatus(m, Uploading);
    }
  }

  /** The entry side of cancelling one id: pending and uploading lose exactly that id. */
  lemma CancelEntryStep(m: map<Id, UploadProgress>, id: Id, queued: set<Id>, active: set<Id>)
    requires id in m && queued == WithStatus(m, Pending) && active == WithStatus(m, Uploading)
    ensures queued - {id} == WithStatus(m[id := Merge(m[id], CancelUpdate)], Pending)
    ensures active - {id} == WithStatus(m[id := Merge(m[id], CancelUpdate)], Uploading)
  {
    WithStatusAfterUpdate(m, id, Merge(m[id], CancelUpdate), Pending);
    WithStatusAfterUpdate(m, id, Merge(m[id], CancelUpdate), Uploading);
  }

  /** The map after `cancelAllUploads`: every unsettled entry becomes a cancelled error. */
  ghost predicate AllCancelled(m: map<Id, UploadProgress>, m1: map<Id, UploadProgress>) {
    && m1.Keys == m.Keys
    && forall id :: id in m1 ==>
         m1[id] == if Settled(m[id].status) then m[id] else Merge(m[id], CancelUpdate)
  }

  /** Cancelling everything empties the queue and the active set and leaves nothing pending or uploading. */
  lemma CancelAllStep(queue: seq<QueueItem>, active: set<Id>, m: map<Id, UploadProgress>,
                      inFlight: set<Id>, requests: seq<QueueItem>, nextId: nat, m1: map<Id, UploadProgress>)
    requires SchedInv(queue, active, m, inFlight, requests, nextId, {})
    requires AllCancelled(m, m1)
    ensures WithStatus(m1, Pending) == {} && WithStatus(m1, Uploading) == {}
    ensures SchedInv([], {}, m1, inFlight, requests, nextId, {})
  {
    assert forall id :: id in m1 ==> Settled(m1[id].status);
  }

  /** Dropping the settled entries touches neither the queue nor the active uploads. */
  lemma ClearStep(queue: seq<QueueItem>, active: set<Id>, m: map<Id, UploadProgress>,
                  inFlight: set<Id>, requests: seq<QueueItem>, nextId: nat)
    requires SchedInv(queue, active, m, inFlight, requests, nextId, {})
    ensures SchedInv(queue, active, WithoutSettled(m), inFlight, requests, nextId, {})
  {
    assert WithStatus(WithoutSettled(m), Pending) == WithStatus(m, Pending);
    assert WithStatus(WithoutSettled(m), Uploading) == WithStatus(m, Uploading);
  }

  // ---------------------------------------------------------------------
  // The queue's state and its transitions, as values
  // ---------------------------------------------------------------------

  /**
   * What an `UploadQueue` holds apart from its callback: the fields of the
   * source object (the abort handles of `activeUploads` reduced to their
   * ids), the counter that supplies ids, and the requests handed to the
   * backend and those not settled yet.
   */
  datatype State = State(
    queue: seq<QueueItem>, active: set<Id>,
    m: map<Id, UploadProgress>, order: seq<Id>,
    nextId: nat, requests: seq<QueueItem>, inFlight: set<Id>, max: int)

  /** A freshly constructed queue. */
  function Init(max: int): State {
    State([], {}, map[], [], 0, [], {}, max)
  }

  /** `Array.from(this.progressMap.values())`. */
  function Snapshot(s: State): seq<UploadProgress> {
    ValuesOf(s.order, s.m)
  }

  /** The object invariant: `SchedInv` with nothing half-started, and no more active uploads than the ceiling allows. */
  ghost predicate Inv(s: State) {
    && OrderedMap(s.order, s.m)
    && SchedInv(s.queue, s.active, s.m, s.inFlight, s.requests, s.nextId, {})
    && (s.active == {} || |s.active| <= s.max)
  }

  /** `updateProgress`: merge `u` into the entry for `id`; an unknown id changes nothing. */
  function UpdateF(s: State, id: Id, u: Updates): (r: State)
    ensures r.(m := s.m) == s
    ensures r.m == if id in s.m then s.m[id := Merge(s.m[id], u)] else s.m
  {
    if id in s.m then s.(m := s.m[id := Merge(s.m[id], u)]) else s
  }

  /** The snapshots `updateProgress` broadcasts: one after a change, none for an unknown id. */
  function UpdateLog(s: State, id: Id, u: Updates): seq<seq<UploadProgress>> {
    if id in s.m then [Snapshot(UpdateF(s, id, u))] else []
  }

  /** The synchronous part of `uploadFile`: register the upload as active, mark it `uploading`, send the request. */
  function StartF(s: State, item: QueueItem): (r: State)
    ensures r.queue == s.queue && r.order == s.order && r.nextId == s.nextId && r.max == s.max
    ensures r.active == s.active + {item.id} && r.inFlight == s.inFlight + {item.id}
    ensures r.requests == s.requests + [item]
    ensures r.m == if item.id in s.m then s.m[item.id := Merge(s.m[item.id], StartUpdate)] else s.m
  {
    var s1 := UpdateF(s.(active := s.active + {item.id}), item.id, StartUpdate);
    s1.(requests := s1.requests + [item], inFlight := s1.inFlight + {item.id})
  }

  function StartLog(s: State, item: QueueItem): seq<seq<UploadProgress>> {
    UpdateLog(s.(active := s.active + {item.id}), item.id, StartUpdate)
  }

  /** `processQueue`: start uploads from the head of the queue while it is non-empty and a slot is free. */
  function ProcessF(s: State): State
    decreases |s.queue|
  {
    if s.queue != [] && |s.active| < s.max then ProcessF(StartF(s.(queue := s.queue[1..]), s.queue[0])) else s
  }

  function ProcessLog(s: State): seq<seq<UploadProgress>>
    decreases |s.queue|
  {
    if s.queue != [] && |s.active| < s.max then
      var s1 := s.(queue := s.queue[1..]);
      StartLog(s1, s.queue[0]) + ProcessLog(StartF(s1, s.queue[0]))
    else []
  }

  /** One iteration of the loop in `addFiles`: queue the file under the next id and give it a `pending` entry. */
  function EnqueueF(s: State, file: File, folderName: Option<string>, folderId: Option<string>): State {
    var id := s.nextId;
    s.(queue := s.queue + [QueueItem(id, file, folderName, folderId)],
       m := s.m[id := NewEntry(id, file)],
       order := if id in s.m then s.order else s.order + [id],
       nextId := id + 1)
  }

  /** The whole loop of `addFiles`. */
  function EnqueueAll(s: State, files: seq<File>, folderName: Option<string>, folderId: Option<string>): State
    decreases |files|
  {
    if files == [] then s
    else EnqueueF(EnqueueAll(s, files[..|files| - 1], folderName, folderId), files[|files| - 1], folderName, folderId)
  }

  /** One more turn of the loop in `addFiles`. */
  lemma EnqueueAllNext(s: State, files: seq<File>, folderName: Option<string>, folderId: Option<string>, i: nat)
    requires i < |files|
    ensures EnqueueAll(s, files[..i + 1], folderName, folderId)
            == EnqueueF(EnqueueAll(s, files[..i], folderName, folderId), files[i], folderName, folderId)
  {
    assert files[..i + 1][..i] == files[..i];
  }

  /** `addFiles`: queue every file, then start what the ceiling allows. */
  function AddF(s: State, files: seq<File>, folderName: Option<string>, folderId: Option<string>): State {
    ProcessF(EnqueueAll(s, files, folderName, folderId))
  }

  /** `addFiles` broadcasts once after queueing, then once per upload it starts. */
  function AddLog(s: State, files: seq<File>, folderName: Option<string>, folderId: Option<string>): seq<seq<UploadProgress>> {
    var e := EnqueueAll(s, files, folderName, folderId);
    [Snapshot(e)] + ProcessLog(e)
  }

  /** The ids `addFiles` hands out for `n` files. */
  function NewIds(first: nat, n: nat): (r: seq<Id>)
    ensures |r| == n
  {
    seq(n, i requires 0 <= i < n => first + i)
  }

  lemma NewIdsNext(first: nat, n: nat)
    ensures NewIds(first, n + 1) == NewIds(first, n) + [first + n]
  {
  }

  /** The `onUploadProgress` callback: only an event that knows the total size updates the entry. */
  function ProgressF(s: State, id: Id, hasTotal: bool, percent: int): State {
    if hasTotal then UpdateF(s, id, ProgressUpdate(percent)) else s
  }

  function ProgressLog(s: State, id: Id, hasTotal: bool, percent: int): seq<seq<UploadProgress>> {
    if hasTotal then UpdateLog(s, id, ProgressUpdate(percent)) else []
  }

  /** The update of the `try` or `catch` block, then the `finally` block: forget the upload and start queued ones. */
  function Released(s: State, id: Id, u: Updates): State {
    var s1 := UpdateF(s, id, u);
    s1.(active := s1.active - {id}, inFlight := s1.inFlight - {id})
  }

  /** The end of `uploadFile`. */
  function SettleF(s: State, id: Id, u: Updates): State {
    ProcessF(Released(s, id, u))
  }

  function SettleLog(s: State, id: Id, u: Updates): seq<seq<UploadProgress>> {
    UpdateLog(s, id, u) + ProcessLog(Released(s, id, u))
  }

  /** `cancelUpload`, before its `updateProgress`. */
  function Withdrawn(s: State, id: Id): State {
    s.(active := s.active - {id}, queue := RemoveFirst(s.queue, id))
  }

  /** `cancelUpload`. */
  function CancelF(s: State, id: Id): State {
    UpdateF(Withdrawn(s, id), id, CancelUpdate)
  }

  function CancelLog(s: State, id: Id): seq<seq<UploadProgress>> {
    UpdateLog(Withdrawn(s, id), id, CancelUpdate)
  }

  /** Whether the `forEach` of `cancelAllUploads` cancels the entry for `id`. */
  predicate Cancellable(s: State, id: Id) {
    id in s.m && (s.m[id].status == Pending || s.m[id].status == Uploading)
  }

  /** One visit of the `forEach` in `cancelAllUploads`. */
  function CancelOne(s: State, id: Id): State {
    if Cancellable(s, id) then UpdateF(s, id, CancelUpdate) else s
  }

  /** The `forEach` of `cancelAllUploads` over the ids `ids`, in order. */
  function CancelEach(s: State, ids: seq<Id>): State
    decreases |ids|
  {
    if ids == [] then s else CancelOne(CancelEach(s, ids[..|ids| - 1]), ids[|ids| - 1])
  }

  function CancelEachLog(s: State, ids: seq<Id>): seq<seq<UploadProgress>>
    decreases |ids|
  {
    if ids == [] then []
    else
      var p := CancelEach(s, ids[..|ids| - 1]);
      CancelEachLog(s, ids[..|ids| - 1]) + (if Cancellable(p, ids[|ids| - 1]) then UpdateLog(p, ids[|ids| - 1], CancelUpdate) else [])
  }

  /** One more visit of the `forEach`: the state and the broadcasts grow by that visit. */
  lemma CancelEachNext(s: State, ids: seq<Id>, i: nat)
    requires i < |ids|
    ensures CancelEach(s, ids[..i + 1]) == CancelOne(CancelEach(s, ids[..i]), ids[i])
    ensures CancelEachLog(s, ids[..i + 1])
            == CancelEachLog(s, ids[..i]) + (if Cancellable(CancelEach(s, ids[..i]), ids[i]) then UpdateLog(CancelEach(s, ids[..i]), ids[i], CancelUpdate) else [])
  {
    assert ids[..i + 1][..i] == ids[..i];
  }

  /** `cancelAllUploads`, before its `forEach`. */
  function Emptied(s: State): State {
    s.(active := {}, queue := [])
  }

  /** `cancelAllUploads`. */
  function CancelAllF(s: State): State {
    CancelEach(Emptied(s), s.order)
  }

  function CancelAllLog(s: State): seq<seq<UploadProgress>> {
    CancelEachLog(Emptied(s), s.order)
  }

  /** `clearCompleted`; it broadcasts `Snapshot(ClearF(s))` once. */
  function ClearF(s: State): State {
    s.(order := Unsettled(s.order, s.m), m := WithoutSettled(s.m))
  }

  // ---------------------------------------------------------------------
  // What the transitions keep and what they achieve
  // ---------------------------------------------------------------------

  lemma InitInv(max: int)
    ensures Inv(Init(max))
    ensures Snapshot(Init(max)) == []
  {
    assert IdsOf([]) == {};
  }

  /** Starting an item just taken off the queue, with a slot free, restores the invariant. */
  lemma StartInv(s: State, item: QueueItem)
    requires OrderedMap(s.order, s.m)
    requires SchedInv(s.queue, s.active, s.m, s.inFlight, s.requests, s.nextId, {item.id})
    requires |s.active| < s.max
    ensures Inv(StartF(s, item))
  {
    StartedIsPending(s.queue, s.active, s.m, s.inFlight, s.requests, s.nextId, item.id);
    StartStep(s.queue, s.active, s.m, s.inFlight, s.requests, s.nextId, item);
    OrderedMapMerge(s.order, s.m, item.id, StartUpdate);
    var r := StartF(s, item);
    assert r.m == s.m[item.id := Merge(s.m[item.id], StartUpdate)];
    assert |r.active| <= |s.active| + 1;
  }

  lemma {:induction false} ProcessInv(s: State)
    requires Inv(s)
    ensures Inv(ProcessF(s))
    decreases |s.queue|
  {
    if s.queue != [] && |s.active| < s.max {
      DequeueStep(s.queue, s.active, s.m, s.inFlight, s.requests, s.nextId);
      var s1 := s.(queue := s.queue[1..]);
      StartInv(s1, s.queue[0]);
      ProcessInv(StartF(s1, s.queue[0]));
    }
  }

  /** `processQueue` stops only when the queue is empty or every slot is taken. */
  lemma {:induction false} ProcessStops(s: State)
    ensures ProcessF(s).queue == [] || |ProcessF(s).active| >= s.max
    ensures ProcessF(s).max == s.max
    decreases |s.queue|
  {
    if s.queue != [] && |s.active| < s.max {
      ProcessStops(StartF(s.(queue := s.queue[1..]), s.queue[0]));
    }
  }

  /** `processQueue` only takes items off the head of the queue; the order, the counter and the keys stay. */
  lemma {:induction false} ProcessFrame(s: State)
    ensures |ProcessF(s).queue| <= |s.queue|
    ensures ProcessF(s).queue == s.queue[|s.queue| - |ProcessF(s).queue|..]
    ensures ProcessF(s).order == s.order && ProcessF(s).nextId == s.nextId
    ensures ProcessF(s).m.Keys == s.m.Keys
    decreases |s.queue|
  {
    if s.queue != [] && |s.active| < s.max {
      var t := StartF(s.(queue := s.queue[1..]), s.queue[0]);
      ProcessFrame(t);
    }
  }

  /** `processQueue` sends the items it takes off the queue, in queue order. */
  lemma {:induction false} ProcessSends(s: State)
    ensures |ProcessF(s).queue| <= |s.queue|
    ensures ProcessF(s).requests == s.requests + s.queue[..|s.queue| - |ProcessF(s).queue|]
    decreases |s.queue|
  {
    ProcessFrame(s);
    if s.queue != [] && |s.active| < s.max {
      var x := s.queue[0];
      var t := StartF(s.(queue := s.queue[1..]), x);
      ProcessSends(t);
      var j := |t.queue| - |ProcessF(t).queue|;
      assert ProcessF(s) == ProcessF(t) && |s.queue| - |ProcessF(s).queue| == j + 1;
      PrefixCons(s.queue, j);
      assert t.requests == s.requests + [x] && t.queue == s.queue[1..];
      AppendAssoc(s.requests, [x], t.queue[..j]);
    }
  }

  /** The ids of the items `processQueue` sends become active and in flight. */
  lemma {:induction false} ProcessActivates(s: State)
    ensures |ProcessF(s).queue| <= |s.queue|
    ensures ProcessF(s).active == s.active + IdsOf(s.queue[..|s.queue| - |ProcessF(s).queue|])
    ensures ProcessF(s).inFlight == s.inFlight + IdsOf(s.queue[..|s.queue| - |ProcessF(s).queue|])
    decreases |s.queue|
  {
    ProcessFrame(s);
    if s.queue != [] && |s.active| < s.max {
      var x := s.queue[0];
      var t := StartF(s.(queue := s.queue[1..]), x);
      ProcessActivates(t);
      var j := |t.queue| - |ProcessF(t).queue|;
      assert ProcessF(s) == ProcessF(t) && |s.queue| - |ProcessF(s).queue| == j + 1;
      PrefixCons(s.queue, j);
      IdsOfCons(x, t.queue[..j]);
      assert t.active == s.active + {x.id} && t.inFlight == s.inFlight + {x.id} && t.queue == s.queue[1..];
      assert IdsOf(s.queue[..j + 1]) == {x.id} + IdsOf(t.queue[..j]);
    } else {
      assert s.queue[..0] == [];
    }
  }

  /** `processQueue` marks exactly the sent items `uploading` and leaves every other entry as it was. */
  lemma {:induction false} ProcessEntries(s: State, id: Id)
    requires id in s.m
    ensures |ProcessF(s).queue| <= |s.queue| && id in ProcessF(s).m
    ensures id in IdsOf(s.queue[..|s.queue| - |ProcessF(s).queue|]) ==> ProcessF(s).m[id] == Merge(s.m[id], StartUpdate)
    ensures id !in IdsOf(s.queue[..|s.queue| - |ProcessF(s).queue|]) ==> ProcessF(s).m[id] == s.m[id]
    decreases |s.queue|
  {
    ProcessFrame(s);
    if s.queue != [] && |s.active| < s.max {
      var x := s.queue[0];
      var t := StartF(s.(queue := s.queue[1..]), x);
      ProcessEntries(t, id);
      var j := |t.queue| - |ProcessF(t).queue|;
      assert ProcessF(s) == ProcessF(t) && |s.queue| - |ProcessF(s).queue| == j + 1;
      PrefixCons(s.queue, j);
      IdsOfCons(x, t.queue[..j]);
      assert IdsOf(s.queue[..j + 1]) == {x.id} + IdsOf(t.queue[..j]);
      if id == x.id {
        assert t.m[id] == Merge(s.m[id], StartUpdate);
        MergeTwice(s.m[id], StartUpdate);
      } else {
        assert t.m[id] == s.m[id];
      }
    } else {
      assert s.queue[..0] == [];
    }
  }

  lemma EnqueueInv(s: State, file: File, folderName: Option<string>, folderId: Option<string>)
    requires Inv(s)
    ensures Inv(EnqueueF(s, file, folderName, folderId))
  {
    var item := QueueItem(s.nextId, file, folderName, folderId);
    EnqueueStep(s.queue, s.active, s.m, s.inFlight, s.requests, s.nextId, item);
    OrderedMapAdd(s.order, s.m, NewEntry(s.nextId, file));
  }

  lemma {:induction false} EnqueueAllInv(s: State, files: seq<File>, folderName: Option<string>, folderId: Option<string>)
    requires Inv(s)
    ensures Inv(EnqueueAll(s, files, folderName, folderId))
    decreases |files|
  {
    if files != [] {
      var n := |files| - 1;
      EnqueueAllInv(s, files[..n], folderName, folderId);
      EnqueueInv(EnqueueAll(s, files[..n], folderName, folderId), files[n], folderName, folderId);
    }
  }

  /**
   * The loop of `addFiles` hands out the next `|files|` ids in order and
   * appends one item per file to the queue; only the queue, the entries, the
   * order and the counter change.
   */
  lemma {:induction false} EnqueueAllQueue(s: State, files: seq<File>, folderName: Option<string>, folderId: Option<string>)
    ensures EnqueueAll(s, files, folderName, folderId).nextId == s.nextId + |files|
    ensures EnqueueAll(s, files, folderName, folderId).queue
              == s.queue + NewItems(NewIds(s.nextId, |files|), files, folderName, folderId)
    ensures EnqueueAll(s, files, folderName, folderId).(queue := s.queue, m := s.m, order := s.order, nextId := s.nextId) == s
    decreases |files|
  {
    if files != [] {
      var n := |files| - 1;
      EnqueueAllQueue(s, files[..n], folderName, folderId);
      var ids := NewIds(s.nextId, |files|);
      assert ids[..n] == NewIds(s.nextId, n);
      assert NewItems(ids, files, folderName, folderId)
          == NewItems(ids[..n], files[..n], folderName, folderId) + [QueueItem(s.nextId + n, files[n], folderName, folderId)];
    }
  }

  /**
   * With every id in use below the counter, the loop of `addFiles` appends
   * the new ids to the insertion order and adds exactly their keys.
   */
  lemma {:induction false} EnqueueAllKeys(s: State, files: seq<File>, folderName: Option<string>, folderId: Option<string>)
    requires forall id :: id in s.m ==> id < s.nextId
    ensures EnqueueAll(s, files, folderName, folderId).order == s.order + NewIds(s.nextId, |files|)
    ensures forall id :: id in EnqueueAll(s, files, folderName, folderId).m <==> id in s.m || s.nextId <= id < s.nextId + |files|
    decreases |files|
  {
    if files != [] {
      var n := |files| - 1;
      var p := EnqueueAll(s, files[..n], folderName, folderId);
      EnqueueAllKeys(s, files[..n], folderName, folderId);
      EnqueueAllQueue(s, files[..n], folderName, folderId);
      assert p.nextId == s.nextId + n && p.nextId !in p.m;
      assert EnqueueAll(s, files, folderName, folderId) == EnqueueF(p, files[n], folderName, folderId);
      NewIdsNext(s.nextId, n);
    }
  }

  /**
   * The loop of `addFiles` gives each new id a `pending` entry for its file;
   * the entries already there stay.
   */
  lemma {:induction false} EnqueueAllEntries(s: State, files: seq<File>, folderName: Option<string>, folderId: Option<string>)
    requires forall id :: id in s.m ==> id < s.nextId
    ensures forall id :: id in s.m ==>
              id in EnqueueAll(s, files, folderName, folderId).m && EnqueueAll(s, files, folderName, folderId).m[id] == s.m[id]
    ensures forall i :: 0 <= i < |files| ==>
              s.nextId + i in EnqueueAll(s, files, folderName, folderId).m &&
              EnqueueAll(s, files, folderName, folderId).m[s.nextId + i] == NewEntry(s.nextId + i, files[i])
    decreases |files|
  {
    if files != [] {
      var n := |files| - 1;
      var p := EnqueueAll(s, files[..n], folderName, folderId);
      EnqueueAllEntries(s, files[..n], folderName, folderId);
      EnqueueAllQueue(s, files[..n], folderName, folderId);
      EnqueueAllKeys(s, files[..n], folderName, folderId);
      assert p.nextId == s.nextId + n;
      var m1 := EnqueueAll(s, files, folderName, folderId).m;
      assert m1 == p.m[p.nextId := NewEntry(p.nextId, files[n])];
      forall id | id in s.m ensures id in m1 && m1[id] == s.m[id] {
        assert id < p.nextId;
      }
      forall i | 0 <= i < |files| ensures s.nextId + i in m1 && m1[s.nextId + i] == NewEntry(s.nextId + i, files[i]) {
        if i < n {
          assert files[..n][i] == files[i];
        }
      }
    }
  }

  lemma AddInv(s: State, files: seq<File>, folderName: Option<string>, folderId: Option<string>)
    requires Inv(s)
    ensures Inv(AddF(s, files, folderName, folderId))
  {
    EnqueueAllInv(s, files, folderName, folderId);
    ProcessInv(EnqueueAll(s, files, folderName, folderId));
  }

  /**
   * The ids `addFiles` returns are new: distinct, never used by an entry or
   * a request before, appended to the insertion order in file order, and
   * each names an entry for its file that is `pending`, or `uploading` when
   * it was started at once.
   */
  lemma AddFresh(s: State, files: seq<File>, folderName: Option<string>, folderId: Option<string>, i: nat)
    requires Inv(s)
    requires i < |files|
    ensures Distinct(NewIds(s.nextId, |files|))
    ensures s.nextId + i !in s.m && s.nextId + i !in IdsOf(s.requests)
    ensures AddF(s, files, folderName, folderId).order == s.order + NewIds(s.nextId, |files|)
    ensures s.nextId + i in AddF(s, files, folderName, folderId).m
    ensures AddF(s, files, folderName, folderId).m[s.nextId + i].file == files[i]
    ensures AddF(s, files, folderName, folderId).m[s.nextId + i].status in {Pending, Uploading}
  {
    assert forall id :: id in s.m ==> id < s.nextId;
    assert forall id :: id in IdsOf(s.requests) ==> id < s.nextId;
    AddFreshBelow(s, files, folderName, folderId, i);
  }

  /** `AddFresh` for any state whose entries and requests all use ids below the counter. */
  lemma AddFreshBelow(s: State, files: seq<File>, folderName: Option<string>, folderId: Option<string>, i: nat)
    requires forall id :: id in s.m ==> id < s.nextId
    requires forall id :: id in IdsOf(s.requests) ==> id < s.nextId
    requires i < |files|
    ensures Distinct(NewIds(s.nextId, |files|))
    ensures s.nextId + i !in s.m && s.nextId + i !in IdsOf(s.requests)
    ensures AddF(s, files, folderName, folderId).order == s.order + NewIds(s.nextId, |files|)
    ensures s.nextId + i in AddF(s, files, folderName, folderId).m
    ensures AddF(s, files, folderName, folderId).m[s.nextId + i].file == files[i]
    ensures AddF(s, files, folderName, folderId).m[s.nextId + i].status in {Pending, Uploading}
  {
    var e := EnqueueAll(s, files, folderName, folderId);
    EnqueueAllQueue(s, files, folderName, folderId);
    EnqueueAllKeys(s, files, folderName, folderId);
    EnqueueAllEntries(s, files, folderName, folderId);
    ProcessFrame(e);
    ProcessEntries(e, s.nextId + i);
  }

  /** `addFiles` leaves earlier entries alone except for starting queued ones, and appends its items after the queue. */
  lemma AddKeeps(s: State, files: seq<File>, folderName: Option<string>, folderId: Option<string>)
    ensures AddF(s, files, folderName, folderId).requests + AddF(s, files, folderName, folderId).queue
            == s.requests + s.queue + NewItems(NewIds(s.nextId, |files|), files, folderName, folderId)
    ensures AddF(s, files, folderName, folderId).nextId == s.nextId + |files|
  {
    var n := EnqueueAll(s, files, folderName, folderId);
    var items := NewItems(NewIds(s.nextId, |files|), files, folderName, folderId);
    EnqueueAllQueue(s, files, folderName, folderId);
    assert n.requests == s.requests && n.queue == s.queue + items;
    ProcessFrame(n);
    ProcessSends(n);
    var p := ProcessF(n);
    var k := |n.queue| - |p.queue|;
    assert p.requests == s.requests + n.queue[..k] && p.queue == n.queue[k..];
    AppendAssoc(s.requests, n.queue[..k], n.queue[k..]);
    assert n.queue[..k] + n.queue[k..] == n.queue;
    AppendAssoc(s.requests, s.queue, items);
  }

  /** A progress event of an active upload keeps the invariant. */
  lemma ProgressInv(s: State, id: Id, hasTotal: bool, percent: int)
    requires Inv(s) && id in s.active
    ensures Inv(ProgressF(s, id, hasTotal, percent))
  {
    ProgressStep(s.queue, s.active, s.m, s.inFlight, s.requests, s.nextId, id, ProgressUpdate(percent));
    OrderedMapMerge(s.order, s.m, id, ProgressUpdate(percent));
  }

  /** A request that settles keeps the invariant, whatever happened to its entry meanwhile. */
  lemma SettleInv(s: State, id: Id, u: Updates)
    requires Inv(s) && id in s.inFlight && Settled(u.status)
    ensures Inv(SettleF(s, id, u))
  {
    SettleStep(s.queue, s.active, s.m, s.inFlight, s.requests, s.nextId, id, u);
    if id in s.m {
      OrderedMapMerge(s.order, s.m, id, u);
    }
    assert |(s.active - {id})| <= |s.active|;
    ProcessInv(Released(s, id, u));
  }

  /**
   * A settled request records its outcome in its entry (if the entry is still
   * there), stops being active and in flight, and frees its slot for the
   * next queued item.
   */
  lemma SettleOutcome(s: State, id: Id, u: Updates)
    requires Inv(s) && id in s.inFlight && Settled(u.status)
    ensures SettleF(s, id, u).m.Keys == s.m.Keys
    ensures id in s.m ==> SettleF(s, id, u).m[id] == Merge(s.m[id], u)
    ensures id !in SettleF(s, id, u).active && id !in SettleF(s, id, u).inFlight
    ensures SettleF(s, id, u).queue == [] || |SettleF(s, id, u).active| >= s.max
  {
    SettleStep(s.queue, s.active, s.m, s.inFlight, s.requests, s.nextId, id, u);
    ReleaseOutcome(s, id, u);
  }

  /** Releasing an id that is not queued, then draining the queue, leaves it settled and inactive. */
  lemma ReleaseOutcome(s: State, id: Id, u: Updates)
    requires id !in IdsOf(s.queue)
    ensures SettleF(s, id, u).m.Keys == s.m.Keys
    ensures id in s.m ==> SettleF(s, id, u).m[id] == Merge(s.m[id], u)
    ensures id !in SettleF(s, id, u).active && id !in SettleF(s, id, u).inFlight
    ensures SettleF(s, id, u).queue == [] || |SettleF(s, id, u).active| >= s.max
  {
    var s2 := Released(s, id, u);
    assert s2.queue == s.queue && s2.max == s.max && s2.m.Keys == s.m.Keys;
    assert id !in s2.active && id !in s2.inFlight;
    assert id in s.m ==> s2.m[id] == Merge(s.m[id], u);
    ProcessKeepsOut(s2, id);
    ProcessStops(s2);
  }

  /** Draining the queue neither starts nor changes an id that is not queued. */
  lemma ProcessKeepsOut(s: State, id: Id)
    requires id !in IdsOf(s.queue) && id !in s.active && id !in s.inFlight
    ensures ProcessF(s).m.Keys == s.m.Keys
    ensures id in s.m ==> ProcessF(s).m[id] == s.m[id]
    ensures id !in ProcessF(s).active && id !in ProcessF(s).inFlight
  {
    ProcessFrame(s);
    ProcessActivates(s);
    var k := |s.queue| - |ProcessF(s).queue|;
    IdsOfSplit(s.queue, k);
    assert id !in IdsOf(s.queue[..k]);
    if id in s.m {
      ProcessEntries(s, id);
    }
  }

  /** `cancelUpload` keeps the invariant. */
  lemma CancelInv(s: State, id: Id)
    requires Inv(s)
    ensures Inv(CancelF(s, id))
  {
    CancelStep(s.queue, s.active, s.m, s.inFlight, s.requests, s.nextId, id);
    if id in s.m {
      OrderedMapMerge(s.order, s.m, id, CancelUpdate);
    }
    assert |s.active - {id}| <= |s.active|;
  }

  /**
   * After `cancelUpload(id)` the id is neither queued nor active, the other
   * queued items keep their order, and its entry (whatever its status was)
   * is an error saying the upload was cancelled.
   */
  lemma CancelOutcome(s: State, id: Id)
    requires Inv(s)
    ensures id !in IdsOf(CancelF(s, id).queue) && id !in CancelF(s, id).active
    ensures CancelF(s, id).queue == RemoveId(s.queue, id)
    ensures CancelF(s, id).m.Keys == s.m.Keys
    ensures id in s.m ==> CancelF(s, id).m[id].status == Error && CancelF(s, id).m[id].error == Some(CancelledMessage)
    ensures id in s.m ==> CancelF(s, id).m[id].progress == s.m[id].progress && CancelF(s, id).m[id].result == s.m[id].result
    ensures forall other :: other in s.m && other != id ==> CancelF(s, id).m[other] == s.m[other]
    ensures CancelF(s, id).active == s.active - {id}
    ensures CancelF(s, id).requests == s.requests && CancelF(s, id).inFlight == s.inFlight
    ensures CancelF(s, id).nextId == s.nextId && CancelF(s, id).order == s.order && CancelF(s, id).max == s.max
  {
    CancelFrame(s, id);
    RemoveFirstSpec(s.queue, id);
  }

  /** What cancelling leaves alone: every other entry and every field but the queue, the active set and the entry. */
  lemma CancelFrame(s: State, id: Id)
    ensures CancelF(s, id).m.Keys == s.m.Keys
    ensures id in s.m ==> CancelF(s, id).m[id] == Merge(s.m[id], CancelUpdate)
    ensures forall other :: other in s.m && other != id ==> CancelF(s, id).m[other] == s.m[other]
    ensures CancelF(s, id).(m := s.m, queue := s.queue, active := s.active) == s
    ensures CancelF(s, id).active == s.active - {id}
  {
  }

  /** The `forEach` of `cancelAllUploads` cancels exactly the unsettled entries it visits. */
  lemma {:induction false} CancelEachSpec(s: State, ids: seq<Id>)
    ensures CancelEach(s, ids).m.Keys == s.m.Keys
    ensures forall id :: id in s.m ==>
              CancelEach(s, ids).m[id] == if id in ids && !Settled(s.m[id].status) then Merge(s.m[id], CancelUpdate) else s.m[id]
    ensures CancelEach(s, ids).(m := s.m) == s
    decreases |ids|
  {
    if ids != [] {
      var n := |ids| - 1;
      CancelEachSpec(s, ids[..n]);
      assert ids == ids[..n] + [ids[n]];
    }
  }

  /**
   * `cancelAllUploads` empties the queue and the active set, turns every
   * `pending` or `uploading` entry into a cancelled error and leaves settled
   * entries alone, so no entry is left pending or uploading, and keeps the invariant.
   */
  lemma CancelAllSpec(s: State)
    requires Inv(s)
    ensures CancelAllF(s).queue == [] && CancelAllF(s).active == {}
    ensures AllCancelled(s.m, CancelAllF(s).m)
    ensures forall id :: id in CancelAllF(s).m ==> Settled(CancelAllF(s).m[id].status)
    ensures Inv(CancelAllF(s))
  {
    CancelAllCovers(s);
    var r := CancelAllF(s);
    CancelAllStep(s.queue, s.active, s.m, s.inFlight, s.requests, s.nextId, r.m);
    assert OrderedMap(r.order, r.m);
  }

  /** When the insertion order covers every entry, the `forEach` reaches all of them. */
  lemma CancelAllCovers(s: State)
    requires forall id :: id in s.m ==> id in s.order
    ensures CancelAllF(s).queue == [] && CancelAllF(s).active == {}
    ensures CancelAllF(s).(m := s.m, queue := s.queue, active := s.active) == s
    ensures AllCancelled(s.m, CancelAllF(s).m)
  {
    CancelEachSpec(Emptied(s), s.order);
  }

  /** `clearCompleted` removes exactly the settled entries, keeps the others with their values and order, and keeps the invariant. */
  lemma ClearSpec(s: State)
    requires Inv(s)
    ensures forall id :: id in ClearF(s).m <==> id in s.m && !Settled(s.m[id].status)
    ensures forall id :: id in ClearF(s).m ==> ClearF(s).m[id] == s.m[id]
    ensures ClearF(s).queue == s.queue && ClearF(s).active == s.active
    ensures Inv(ClearF(s))
  {
    ClearStep(s.queue, s.active, s.m, s.inFlight, s.requests, s.nextId);
    ClearKeepsOrder(s.order, s.m);
  }

  /** Under the invariant, there is work left exactly when some entry is `pending` or `uploading`. */
  lemma ActiveIff(s: State)
    requires Inv(s)
    ensures (s.queue != [] || s.active != {}) <==> exists id :: id in s.m && !Settled(s.m[id].status)
  {
    if s.queue != [] {
      IdsOfSpec(s.queue);
      assert s.queue[0].id in WithStatus(s.m, Pending);
    } else if s.active != {} {
      var x :| x in s.active;
      assert x in WithStatus(s.m, Uploading);
    } else {
      forall id | id in s.m ensures Settled(s.m[id].status) {
        assert id !in WithStatus(s.m, Pending) && id !in WithStatus(s.m, Uploading);
      }
    }
  }

  /** The `forEach` with its `switch` in `getStats`: count each status, and report `total` alongside. */
  method Tally(statuses: seq<Status>, total: nat) returns (s: Stats)
    ensures s.pending == Count(statuses, Pending) && s.uploading == Count(statuses, Uploading)
    ensures s.completed == Count(statuses, Completed) && s.error == Count(statuses, Error)
    ensures s.total == total
  {
    var pending, uploading, completed, error := 0, 0, 0, 0;
    var i := 0;
    while i < |statuses|
      invariant 0 <= i <= |statuses|
      invariant pending == Count(statuses[..i], Pending) && uploading == Count(statuses[..i], Uploading)
      invariant completed == Count(statuses[..i], Completed) && error == Count(statuses[..i], Error)
    {
      assert statuses[..i + 1][..i] == statuses[..i];
      match statuses[i] {
        case Pending => pending := pending + 1;
        case Uploading => uploading := uploading + 1;
        case Completed => completed := completed + 1;
        case Error => error := error + 1;
      }
      i := i + 1;
    }
    assert statuses[..i] == statuses;
    s := Stats(pending, uploading, completed, error, total);
  }

  /**
   * Under the invariant the counts `getStats` reports add up to the number of
   * entries, the pending ones are exactly the queued items and the uploading
   * ones exactly the active uploads, at most the ceiling of them.
   */
  lemma StatsSpec(s: State)
    requires Inv(s)
    ensures Count(StatusesOf(s.order, s.m), Pending) + Count(StatusesOf(s.order, s.m), Uploading)
            + Count(StatusesOf(s.order, s.m), Completed) + Count(StatusesOf(s.order, s.m), Error) == |s.m|
    ensures Count(StatusesOf(s.order, s.m), Pending) == |s.queue|
    ensures Count(StatusesOf(s.order, s.m), Uploading) == |s.active|
    ensures |s.active| == 0 || |s.active| <= s.max
  {
    StatusCounts(s.order, s.m);
    DistinctIdsCardinality(s.queue);
  }

  /** Over a `Map`'s insertion order, the status counts add up to its size, and count the ids with each status. */
  lemma StatusCounts(order: seq<Id>, m: map<Id, UploadProgress>)
    requires OrderedMap(order, m)
    ensures Count(StatusesOf(order, m), Pending) + Count(StatusesOf(order, m), Uploading)
            + Count(StatusesOf(order, m), Completed) + Count(StatusesOf(order, m), Error) == |m|
    ensures Count(StatusesOf(order, m), Pending) == |WithStatus(m, Pending)|
    ensures Count(StatusesOf(order, m), Uploading) == |WithStatus(m, Uploading)|
  {
    CountsAddUp(StatusesOf(order, m));
    assert Elements(order) == m.Keys;
    DistinctCardinality(order);
    CountIsCardinality(order, m, Pending);
    CountIsCardinality(order, m, Uploading);
    assert OrderedWithStatus(order, m, Pending) == WithStatus(m, Pending);
    assert OrderedWithStatus(order, m, Uploading) == WithStatus(m, Uploading);
  }

  /** Under the invariant, the snapshot lists every entry once, in insertion order. */
  lemma SnapshotSpec(s: State)
    requires Inv(s)
    ensures |Snapshot(s)| == |s.m| == |s.order|
    ensures forall i :: 0 <= i < |s.order| ==> Snapshot(s)[i] == s.m[s.order[i]]
    ensures forall id :: id in s.m ==> s.m[id] in Snapshot(s)
  {
    ValuesOfCovered(s.order, s.m);
    assert Elements(s.order) == s.m.Keys;
    DistinctCardinality(s.order);
    forall id | id in s.m ensures s.m[id] in Snapshot(s) {
      var i :| 0 <= i < |s.order| && s.order[i] == id;
      assert Snapshot(s)[i] == s.m[id];
    }
  }

  /** Broadcast logs concatenate associatively. */
  lemma PrefixCons<T>(q: seq<T>, j: nat)
    requires j < |q|
    ensures q[..j + 1] == [q[0]] + q[1..][..j]
  {
  }

  lemma AppendAssoc<T>(a: seq<T>, b: seq<T>, c: seq<T>)
    ensures a + b + c == a + (b + c)
  {
  }

  // ---------------------------------------------------------------------
  // The scheduler object
  // ---------------------------------------------------------------------

  /**
   * The loop of `addFiles` over the queue, the entries, their insertion order
   * and the id counter of `s0`: each file is queued under the next id with a
   * `pending` entry.
   */
  method EnqueueLoop(s0: State, files: seq<File>, folderName: Option<string>, folderId: Option<string>)
    returns (q: seq<QueueItem>, pm: map<Id, UploadProgress>, po: seq<Id>, next: nat, ids: seq<Id>)
    ensures s0.(queue := q, m := pm, order := po, nextId := next) == EnqueueAll(s0, files, folderName, folderId)
    ensures ids == NewIds(s0.nextId, |files|)
  {
    q, pm, po, next := s0.queue, s0.m, s0.order, s0.nextId;
    ids := [];
    var i := 0;
    while i < |files|
      invariant 0 <= i <= |files|
      invariant s0.(queue := q, m := pm, order := po, nextId := next) == EnqueueAll(s0, files[..i], folderName, folderId)
      invariant next == s0.nextId + i && ids == NewIds(s0.nextId, i)
    {
      EnqueueAllNext(s0, files, folderName, folderId, i);
      var id := next;
      q := q + [QueueItem(id, files[i], folderName, folderId)];
      // Setting a key a Map already holds keeps its place in the insertion order.
      if id !in pm {
        po := po + [id];
      }
      pm := pm[id := NewEntry(id, files[i])];
      ids := ids + [id];
      next := next + 1;
      NewIdsNext(s0.nextId, i);
      i := i + 1;
    }
    assert files[..i] == files;
  }

  class UploadQueue {
    var queue: seq<QueueItem>
    /** The ids of `activeUploads`; the abort handles themselves are not modelled. */
    var activeUploads: set<Id>
    const maxConcurrentUploads: int
    /** Whether an `onProgressUpdate` callback was supplied. */
    const listening: bool
    /** The `progressMap` entries, by id ... */
    var progressMap: map<Id, UploadProgress>
    /** ... and the insertion order in which the Map yields them. */
    var progressOrder: seq<Id>
    /** The counter that supplies fresh ids. */
    var nextId: nat
    /** The requests handed to the backend, in the order they were started. */
    var requests: seq<QueueItem>
    /** The requests whose promise has not settled yet (aborted ones included). */
    var inFlight: set<Id>
    /** Every snapshot passed to `onProgressUpdate`, in order. */
    var broadcasts: seq<seq<UploadProgress>>

    /** The object's state as a value. */
    function Model(): State
      reads this
    {
      State(queue, activeUploads, progressMap, progressOrder, nextId, requests, inFlight, maxConcurrentUploads)
    }

    /** The representation invariant: `Inv` of the state. */
    ghost predicate Valid()
      reads this
    {
      Inv(Model())
    }

    /** What the callback receives of the snapshots `log`: all of them, or nothing when there is no callback. */
    function Heard(log: seq<seq<UploadProgress>>): seq<seq<UploadProgress>> {
      if listening then log else []
    }

    /** The callback hears a concatenation of logs as the concatenation of what it hears of each. */
    lemma HeardAppend(a: seq<seq<UploadProgress>>, b: seq<seq<UploadProgress>>)
      ensures Heard(a + b) == Heard(a) + Heard(b)
    {
    }

    /** An empty queue with the given ceiling, with or without a progress callback. */
    constructor (maxConcurrentUploads: int, listening: bool)
      ensures Model() == Init(maxConcurrentUploads) && this.listening == listening && broadcasts == []
      ensures Valid()
    {
      this.maxConcurrentUploads := maxConcurrentUploads;
      this.listening := listening;
      queue := [];
      activeUploads := {};
      progressMap := map[];
      progressOrder := [];
      nextId := 0;
      requests := [];
      inFlight := {};
      broadcasts := [];
      InitInv(maxConcurrentUploads);
    }

    /** `notifyProgressUpdate`: hand the callback (if any) the current snapshot. */
    method NotifyProgressUpdate()
      modifies this`broadcasts
      ensures broadcasts == old(broadcasts) + Heard([Snapshot(Model())])
    {
      if listening {
        broadcasts := broadcasts + [ValuesOf(progressOrder, progressMap)];
      }
    }

    /** `updateProgress`: merge the updates into an existing entry and notify; an unknown id is ignored. */
    method UpdateProgress(id: Id, u: Updates)
      modifies this`progressMap, this`broadcasts
      ensures Model() == UpdateF(old(Model()), id, u)
      ensures broadcasts == old(broadcasts) + Heard(UpdateLog(old(Model()), id, u))
    {
      if id in progressMap {
        progressMap := progressMap[id := Merge(progressMap[id], u)];
        NotifyProgressUpdate();
      }
    }

    /** The synchronous part of `uploadFile`, up to handing the request to the backend. */
    method StartUpload(item: QueueItem)
      modifies this
      ensures Model() == StartF(old(Model()), item)
      ensures broadcasts == old(broadcasts) + Heard(StartLog(old(Model()), item))
    {
      activeUploads := activeUploads + {item.id};
      UpdateProgress(item.id, StartUpdate);
      requests := requests + [item];
      inFlight := inFlight + {item.id};
    }

    /** `processQueue`: start queued items from the head while a slot is free. */
    method ProcessQueue()
      modifies this
      ensures Model() == ProcessF(old(Model()))
      ensures broadcasts == old(broadcasts) + Heard(ProcessLog(old(Model())))
    {
      while queue != [] && |activeUploads| < maxConcurrentUploads
        invariant ProcessF(Model()) == ProcessF(old(Model()))
        invariant old(broadcasts) + Heard(ProcessLog(old(Model()))) == broadcasts + Heard(ProcessLog(Model()))
        decreases |queue|
      {
        ghost var s, b := Model(), broadcasts;
        var item := queue[0];
        queue := queue[1..];
        StartUpload(item);
        ghost var s1 := s.(queue := s.queue[1..]);
        assert Model() == StartF(s1, item) && ProcessF(s) == ProcessF(Model());
        assert ProcessLog(s) == StartLog(s1, item) + ProcessLog(Model());
        AppendAssoc(b, Heard(StartLog(s1, item)), Heard(ProcessLog(Model())));
      }
    }

    /** The loop of `addFiles`: queue each file under the next id with a `pending` entry. */
    method EnqueueFiles(files: seq<File>, folderName: Option<string>, folderId: Option<string>) returns (ids: seq<Id>)
      modifies this`queue, this`progressOrder, this`progressMap, this`nextId
      ensures ids == NewIds(old(nextId), |files|)
      ensures Model() == EnqueueAll(old(Model()), files, folderName, folderId)
    {
      var q, pm, po, next;
      q, pm, po, next, ids := EnqueueLoop(Model(), files, folderName, folderId);
      queue, progressMap, progressOrder, nextId := q, pm, po, next;
    }

    /** Queues the files, returns their new ids in file order, notifies, and starts what the ceiling allows. */
    method AddFiles(files: seq<File>, folderName: Option<string>, folderId: Option<string>) returns (ids: seq<Id>)
      modifies this
      ensures ids == NewIds(old(nextId), |files|)
      ensures Model() == AddF(old(Model()), files, folderName, folderId)
      ensures broadcasts == old(broadcasts) + Heard(AddLog(old(Model()), files, folderName, folderId))
    {
      ids := EnqueueFiles(files, folderName, folderId);
      ghost var e, b0 := Model(), broadcasts;
      NotifyProgressUpdate();
      ProcessQueue();
      AppendAssoc(b0, Heard([Snapshot(e)]), Heard(ProcessLog(e)));
    }

    /** An `onUploadProgress` event: only one that knows the total size updates the entry. */
    method OnUploadProgress(id: Id, hasTotal: bool, percent: int)
      modifies this`progressMap, this`broadcasts
      ensures Model() == ProgressF(old(Model()), id, hasTotal, percent)
      ensures broadcasts == old(broadcasts) + Heard(ProgressLog(old(Model()), id, hasTotal, percent))
    {
      if hasTotal {
        UpdateProgress(id, ProgressUpdate(percent));
      }
    }

    /** The update of the `try` or `catch` block, then the `finally` block. */
    method Settle(id: Id, u: Updates)
      modifies this
      ensures Model() == SettleF(old(Model()), id, u)
      ensures broadcasts == old(broadcasts) + Heard(SettleLog(old(Model()), id, u))
    {
      ghost var s0, b0 := Model(), broadcasts;
      UpdateProgress(id, u);
      activeUploads := activeUploads - {id};
      inFlight := inFlight - {id};
      assert Model() == Released(s0, id, u);
      ProcessQueue();
      AppendAssoc(b0, Heard(UpdateLog(s0, id, u)), Heard(ProcessLog(Released(s0, id, u))));
    }

    /** The request for `id` resolved with `response`. */
    method OnUploadSuccess(id: Id, response: Response)
      modifies this
      ensures Model() == SettleF(old(Model()), id, SuccessUpdate(response))
      ensures broadcasts == old(broadcasts) + Heard(SettleLog(old(Model()), id, SuccessUpdate(response)))
    {
      Settle(id, SuccessUpdate(response));
    }

    /** The request for `id` rejected; `thrownMessage` is the message when an `Error` was thrown. */
    method OnUploadFailure(id: Id, thrownMessage: Option<string>)
      modifies this
      ensures Model() == SettleF(old(Model()), id, FailureUpdate(thrownMessage))
      ensures broadcasts == old(broadcasts) + Heard(SettleLog(old(Model()), id, FailureUpdate(thrownMessage)))
    {
      Settle(id, FailureUpdate(thrownMessage));
    }

    /** `cancelUpload`: abort and forget the active upload, drop the queued item, and mark the entry cancelled. */
    method CancelUpload(id: Id)
      modifies this
      ensures Model() == CancelF(old(Model()), id)
      ensures broadcasts == old(broadcasts) + Heard(CancelLog(old(Model()), id))
    {
      ghost var s0 := Model();
      if id in activeUploads {
        activeUploads := activeUploads - {id};
      }
      var queueIndex := FindIndex(queue, id);
      if queueIndex != -1 {
        queue := queue[..queueIndex] + queue[queueIndex + 1..];
      }
      assert Model() == Withdrawn(s0, id);
      UpdateProgress(id, CancelUpdate);
    }

    /** Drops the queue and the active uploads, then marks every unsettled entry cancelled. */
    method CancelAllUploads()
      requires Valid()
      modifies this`activeUploads, this`queue, this`progressMap, this`broadcasts
      ensures Model() == CancelAllF(old(Model()))
      ensures broadcasts == old(broadcasts) + Heard(CancelAllLog(old(Model())))
    {
      assert forall id :: id in progressOrder ==> id in progressMap;
      activeUploads := {};
      queue := [];
      CancelEntries();
    }

    /** The `forEach` of `cancelAllUploads`: cancel each `pending` or `uploading` entry, in insertion order. */
    method CancelEntries()
      requires forall id :: id in progressOrder ==> id in progressMap
      modifies this`progressMap, this`broadcasts
      ensures Model() == CancelEach(old(Model()), progressOrder)
      ensures broadcasts == old(broadcasts) + Heard(CancelEachLog(old(Model()), progressOrder))
    {
      ghost var s1 := Model();
      var i := 0;
      while i < |progressOrder|
        invariant 0 <= i <= |progressOrder|
        invariant progressMap.Keys == s1.m.Keys
        invariant Model() == CancelEach(s1, progressOrder[..i])
        invariant broadcasts == old(broadcasts) + Heard(CancelEachLog(s1, progressOrder[..i]))
      {
        var id := progressOrder[i];
        ghost var c := CancelEach(s1, progressOrder[..i]);
        ghost var done := CancelEachLog(s1, progressOrder[..i]);
        CancelEachNext(s1, progressOrder, i);
        var p := progressMap[id];
        if p.status == Pending || p.status == Uploading {
          assert Cancellable(c, id);
          UpdateProgress(id, CancelUpdate);
          AppendAssoc(old(broadcasts), Heard(done), Heard(UpdateLog(c, id, CancelUpdate)));
          HeardAppend(done, UpdateLog(c, id, CancelUpdate));
        } else {
          assert !Cancellable(c, id);
          assert done + [] == done;
        }
        i := i + 1;
      }
      assert progressOrder[..i] == progressOrder;
    }

    /** Drops the settled entries and notifies once. */
    method ClearCompleted()
      requires Valid()
      modifies this`progressMap, this`progressOrder, this`broadcasts
      ensures Model() == ClearF(old(Model()))
      ensures broadcasts == old(broadcasts) + Heard([Snapshot(ClearF(old(Model())))])
    {
      ghost var c := ClearF(Model());
      var toRemove := CollectSettled(progressOrder, progressMap);
      ClearRemovesSettled(progressOrder, progressMap);
      var kept := DeleteAll(progressMap, toRemove);
      // Deleting keys from a Map also drops them from its insertion order.
      progressOrder, progressMap := Unsettled(progressOrder, progressMap), kept;
      assert Model() == c;
      NotifyProgressUpdate();
    }

    /** `getProgress`: every entry, in insertion order. */
    method GetProgress() returns (r: seq<UploadProgress>)
      requires Valid()
      ensures r == Snapshot(Model())
      ensures |r| == |progressMap|
      ensures forall id :: id in progressMap ==> progressMap[id] in r
    {
      r := ValuesOf(progressOrder, progressMap);
      SnapshotSpec(Model());
    }

    /** There is work left exactly when something is queued or active, that is, when some entry is unsettled. */
    method IsActive() returns (b: bool)
      requires Valid()
      ensures b <==> queue != [] || activeUploads != {}
      ensures b <==> exists id :: id in progressMap && !Settled(progressMap[id].status)
    {
      b := |queue| > 0 || |activeUploads| > 0;
      ActiveIff(Model());
    }

    /** The statuses of the entries, in insertion order. */
    function Statuses(): seq<Status>
      reads this
      requires Valid()
    {
      StatusesOf(progressOrder, progressMap)
    }

    /** Counts the entries by status. */
    method GetStats() returns (s: Stats)
      requires Valid()
      ensures s.pending == Count(Statuses(), Pending) && s.uploading == Count(Statuses(), Uploading)
      ensures s.completed == Count(Statuses(), Completed) && s.error == Count(Statuses(), Error)
      ensures s.total == |progressMap|
      ensures s.pending + s.uploading + s.completed + s.error == s.total
      ensures s.pending == |queue| && s.uploading == |activeUploads|
      ensures s.uploading == 0 || s.uploading <= maxConcurrentUploads
    {
      s := Tally(Statuses(), |progressMap|);
      StatsSpec(Model());
    }
  }
}
