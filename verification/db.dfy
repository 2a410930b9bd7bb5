/** The offline-first store and its sync queue (lib/db.ts). The local
    `progress` table, the `syncQueue` table and the server's `item_progress`
    table are fields of one object; whether the device is online, whether the
    server accepts an upsert and which queue deletes fail are parameters. */
module Db {
  import opened Types

  datatype JobKind = ProgressUpdate | PhotoUpload
  datatype JobStatus = Pending | Processing | Failed

  /** A queued sync job. Its id is the key under which the queue holds it. */
  datatype SyncJob = SyncJob(kind: JobKind, payload: seq<ItemProgress>, status: JobStatus, createdAt: int)

  /** Every record sits under its own (childId, itemId) key. */
  predicate KeyConsistent(table: map<Key, ItemProgress>)
  {
    forall k :: k in table ==> KeyOf(table[k]) == k
  }

  /** `bulkPut` / `upsert` of `records` into `table`, one record after another. */
  function Upserted(table: map<Key, ItemProgress>, records: seq<ItemProgress>): (r: map<Key, ItemProgress>)
    ensures KeyConsistent(table) ==> KeyConsistent(r)
  {
    if |records| == 0 then table
    else
      var last := records[|records| - 1];
      Upserted(table, records[..|records| - 1])[KeyOf(last) := last]
  }

  function Lookup(table: map<Key, ItemProgress>, k: Key): Option<ItemProgress>
  {
    if k in table then Some(table[k]) else None
  }

  /** The last record of `records` with key k, if any. */
  function LastWith(records: seq<ItemProgress>, k: Key): (r: Option<ItemProgress>)
    ensures r.Some? ==> KeyOf(r.value) == k
    ensures r.None? ==> forall i :: 0 <= i < |records| ==> KeyOf(records[i]) != k
  {
    if |records| == 0 then None
    else if KeyOf(records[|records| - 1]) == k then Some(records[|records| - 1])
    else LastWith(records[..|records| - 1], k)
  }

  /** After a bulk put, a key holds the last record written under it, and a key
      no record has keeps what it held before. */
  lemma {:induction false} UpsertedLookup(table: map<Key, ItemProgress>, records: seq<ItemProgress>, k: Key)
    ensures Lookup(Upserted(table, records), k) ==
      if LastWith(records, k).Some? then LastWith(records, k) else Lookup(table, k)
  {
    if |records| > 0 {
      UpsertedLookup(table, records[..|records| - 1], k);
    }
  }

  /** Putting `a` and then `b` is putting `a + b`. */
  lemma {:induction false} UpsertedAppend(table: map<Key, ItemProgress>, a: seq<ItemProgress>, b: seq<ItemProgress>)
    ensures Upserted(table, a + b) == Upserted(Upserted(table, a), b)
  {
    if |b| == 0 {
      assert a + b == a;
    } else {
      UpsertedAppend(table, a, b[..|b| - 1]);
      assert (a + b)[..|a + b| - 1] == a + b[..|b| - 1];
    }
  }

  /** Upserting a batch is overlaying the batch with its duplicates removed,
      later records winning. */
  lemma {:induction false} UpsertedOverlay(table: map<Key, ItemProgress>, records: seq<ItemProgress>)
    ensures Upserted(table, records) == table + Upserted(map[], records)
  {
    if |records| > 0 {
      UpsertedOverlay(table, records[..|records| - 1]);
    }
  }

  /** Upserting the same records twice changes nothing the second time: a
      retried batch is harmless. */
  lemma UpsertIdempotent(table: map<Key, ItemProgress>, records: seq<ItemProgress>)
    ensures Upserted(Upserted(table, records), records) == Upserted(table, records)
  {
    UpsertedOverlay(table, records);
    UpsertedOverlay(Upserted(table, records), records);
  }

  // ---------------------------------------------------------------------
  // The queue drain, as a function of the queue before it

  /** Job `id` is claimed by a drain: it is pending and below the next id. */
  predicate Claimed(jobs: map<nat, SyncJob>, n: nat, id: nat)
  {
    id in jobs && id < n && jobs[id].status == Pending
  }

  /** Ids of the pending jobs below n, in ascending order (the status query). */
  function PendingIds(jobs: map<nat, SyncJob>, n: nat): (ids: seq<nat>)
    ensures forall id :: id in ids <==> Claimed(jobs, n, id)
    ensures forall i :: 0 <= i < |ids| ==> ids[i] < n
    ensures forall i, j :: 0 <= i < j < |ids| ==> ids[i] < ids[j]
  {
    if n == 0 then []
    else PendingIds(jobs, n - 1) + (if n - 1 in jobs && jobs[n - 1].status == Pending then [n - 1] else [])
  }

  predicate HasKind(jobs: map<nat, SyncJob>, id: nat, kind: JobKind)
  {
    id in jobs && jobs[id].kind == kind
  }

  /** The ids of `ids` whose job has kind `kind`, in order. */
  function KindIds(jobs: map<nat, SyncJob>, ids: seq<nat>, kind: JobKind): (r: seq<nat>)
    ensures forall id :: id in r <==> id in ids && HasKind(jobs, id, kind)
  {
    if |ids| == 0 then []
    else
      var id := ids[|ids| - 1];
      KindIds(jobs, ids[..|ids| - 1], kind) + (if id in jobs && jobs[id].kind == kind then [id] else [])
  }

  /** The payloads of the jobs `ids`, concatenated in order. */
  function Payloads(jobs: map<nat, SyncJob>, ids: seq<nat>): seq<ItemProgress>
  {
    if |ids| == 0 then []
    else
      var id := ids[|ids| - 1];
      Payloads(jobs, ids[..|ids| - 1]) + (if id in jobs then jobs[id].payload else [])
  }

  /** The records a drain sends in its single batch: the payloads of the pending
      progress jobs in id order. */
  function Batch(jobs: map<nat, SyncJob>, n: nat): seq<ItemProgress>
  {
    Payloads(jobs, KindIds(jobs, PendingIds(jobs, n), ProgressUpdate))
  }

  /** Whether a drain removes job `id`: a claimed progress job goes when its batch
      was stored, any other claimed job when its delete succeeds. */
  predicate Removed(jobs: map<nat, SyncJob>, n: nat, id: nat, stored: bool, deleteFails: set<nat>)
  {
    Claimed(jobs, n, id) && if jobs[id].kind == ProgressUpdate then stored else id !in deleteFails
  }

  /** The queue after a drain. Removed jobs are gone; the claimed progress jobs of
      an empty batch stay marked processing; every other job is as it was, those
      whose sending failed back to pending. */
  function DrainedJobs(jobs: map<nat, SyncJob>, n: nat, upsertOk: bool, deleteFails: set<nat>): (r: map<nat, SyncJob>)
    ensures forall id :: id in r ==> id in jobs && (r[id] == jobs[id] || r[id] == jobs[id].(status := Processing))
  {
    var sent := |Batch(jobs, n)| > 0;
    map id | id in jobs && !Removed(jobs, n, id, sent && upsertOk, deleteFails) ::
      if Claimed(jobs, n, id) && jobs[id].kind == ProgressUpdate && !sent
      then jobs[id].(status := Processing)
      else jobs[id]
  }

  /** The server table after a drain: the batch upserted when it was sent and
      accepted. */
  function DrainedRemote(jobs: map<nat, SyncJob>, n: nat, remote: map<Key, ItemProgress>, upsertOk: bool)
    : map<Key, ItemProgress>
  {
    var batch := Batch(jobs, n);
    if |batch| > 0 && upsertOk then Upserted(remote, batch) else remote
  }

  /** The queue once the claimed jobs are marked processing. */
  function Marked(jobs: map<nat, SyncJob>, claimed: seq<nat>): map<nat, SyncJob>
  {
    map id | id in jobs :: if id in claimed then jobs[id].(status := Processing) else jobs[id]
  }

  /** The queue after the batch: unchanged when nothing was sent, the progress
      jobs deleted when the server accepted it, and reverted to their pending
      selves when it did not. */
  function AfterBatch(marked: map<nat, SyncJob>, snapshot: map<nat, SyncJob>, progressIds: seq<nat>,
                      sent: bool, upsertOk: bool): map<nat, SyncJob>
  {
    if !sent then marked
    else if upsertOk then map id | id in marked && id !in progressIds :: marked[id]
    else map id | id in marked :: if id in progressIds && id in snapshot then snapshot[id] else marked[id]
  }

  /** The queue after the other jobs: each deleted, or back to its pending self
      when its delete failed. */
  function AfterOthers(jobs: map<nat, SyncJob>, snapshot: map<nat, SyncJob>, others: seq<nat>,
                       deleteFails: set<nat>): map<nat, SyncJob>
  {
    map id | id in jobs && !(id in others && id !in deleteFails) ::
      if id in others && id in snapshot then snapshot[id] else jobs[id]
  }

  /** Before the last step of a drain, every other claimed job is still queued,
      marked processing. */
  lemma OthersStillQueued(jobs: map<nat, SyncJob>, n: nat, upsertOk: bool)
    ensures var claimed := PendingIds(jobs, n);
      var progressIds := KindIds(jobs, claimed, ProgressUpdate);
      var others := KindIds(jobs, claimed, PhotoUpload);
      var batched := AfterBatch(Marked(jobs, claimed), jobs, progressIds, |Batch(jobs, n)| > 0, upsertOk);
      forall id :: id in others ==> id in batched && id in jobs && batched[id].(status := Pending) == jobs[id]
  {
    var claimed := PendingIds(jobs, n);
    var progressIds := KindIds(jobs, claimed, ProgressUpdate);
    var others := KindIds(jobs, claimed, PhotoUpload);
    forall id | id in others
      ensures id in claimed && id !in progressIds && jobs[id].status == Pending
    {
      assert HasKind(jobs, id, PhotoUpload);
    }
  }

  /** The steps of a drain compose to `DrainedJobs`. */
  lemma DrainSteps(jobs: map<nat, SyncJob>, n: nat, upsertOk: bool, deleteFails: set<nat>)
    ensures var claimed := PendingIds(jobs, n);
      var progressIds := KindIds(jobs, claimed, ProgressUpdate);
      var others := KindIds(jobs, claimed, PhotoUpload);
      var batched := AfterBatch(Marked(jobs, claimed), jobs, progressIds, |Batch(jobs, n)| > 0, upsertOk);
      AfterOthers(batched, jobs, others, deleteFails) == DrainedJobs(jobs, n, upsertOk, deleteFails)
  {
    var claimed := PendingIds(jobs, n);
    var progressIds := KindIds(jobs, claimed, ProgressUpdate);
    var others := KindIds(jobs, claimed, PhotoUpload);
    var batched := AfterBatch(Marked(jobs, claimed), jobs, progressIds, |Batch(jobs, n)| > 0, upsertOk);
    var after := AfterOthers(batched, jobs, others, deleteFails);
    var drained := DrainedJobs(jobs, n, upsertOk, deleteFails);
    forall id
      ensures id in after <==> id in drained
      ensures id in after ==> after[id] == drained[id]
    {
      DrainStepsAt(jobs, n, upsertOk, deleteFails, id);
    }
    assert after == drained;
  }

  /** `DrainSteps` for one job id. */
  lemma DrainStepsAt(jobs: map<nat, SyncJob>, n: nat, upsertOk: bool, deleteFails: set<nat>, id: nat)
    ensures var claimed := PendingIds(jobs, n);
      var progressIds := KindIds(jobs, claimed, ProgressUpdate);
      var others := KindIds(jobs, claimed, PhotoUpload);
      var batched := AfterBatch(Marked(jobs, claimed), jobs, progressIds, |Batch(jobs, n)| > 0, upsertOk);
      var after := AfterOthers(batched, jobs, others, deleteFails);
      var drained := DrainedJobs(jobs, n, upsertOk, deleteFails);
      && (id in after <==> id in drained)
      && (id in after ==> after[id] == drained[id])
  {
    var claimed := PendingIds(jobs, n);
    if id in jobs && Claimed(jobs, n, id) {
      assert id in claimed;
      assert jobs[id].kind == ProgressUpdate ==> id in KindIds(jobs, claimed, ProgressUpdate);
      assert jobs[id].kind == PhotoUpload ==> id in KindIds(jobs, claimed, PhotoUpload);
    }
  }

  /** With no pending job below n, a drain changes nothing. */
  lemma NothingClaimed(jobs: map<nat, SyncJob>, n: nat, remote: map<Key, ItemProgress>, upsertOk: bool, deleteFails: set<nat>)
    requires |PendingIds(jobs, n)| == 0
    ensures DrainedJobs(jobs, n, upsertOk, deleteFails) == jobs
    ensures DrainedRemote(jobs, n, remote, upsertOk) == remote
  {
    assert forall id :: Claimed(jobs, n, id) ==> id in PendingIds(jobs, n);
  }

  /** A drain keeps every queued id and never marks a job failed; the server
      keeps its records under their keys. */
  lemma DrainKeepsIds(jobs: map<nat, SyncJob>, n: nat, remote: map<Key, ItemProgress>, upsertOk: bool, deleteFails: set<nat>)
    requires forall id :: id in jobs ==> 1 <= id < n && jobs[id].status != Failed
    requires KeyConsistent(remote)
    ensures var after := DrainedJobs(jobs, n, upsertOk, deleteFails);
      forall id :: id in after ==> 1 <= id < n && after[id].status != Failed
    ensures KeyConsistent(DrainedRemote(jobs, n, remote, upsertOk))
  {
  }

  /** Overlaying one key-consistent table with another keeps every record under
      its key. */
  lemma MergeKeyConsistent(a: map<Key, ItemProgress>, b: map<Key, ItemProgress>)
    requires KeyConsistent(a) && KeyConsistent(b)
    ensures KeyConsistent(a + b)
  {
    forall k | k in a + b ensures KeyOf((a + b)[k]) == k {
      if k in b {
        assert (a + b)[k] == b[k];
      } else {
        assert (a + b)[k] == a[k];
      }
    }
  }

  /** A rejected batch loses nothing: when the server refuses the upsert and no
      other job is deleted, the queue is exactly as before and the server
      unchanged, so the next drain retries the same jobs. */
  lemma FailedBatchRetries(jobs: map<nat, SyncJob>, n: nat, remote: map<Key, ItemProgress>, deleteFails: set<nat>)
    requires |Batch(jobs, n)| > 0
    requires forall id :: Claimed(jobs, n, id) && jobs[id].kind != ProgressUpdate ==> id in deleteFails
    ensures DrainedJobs(jobs, n, false, deleteFails) == jobs
    ensures DrainedRemote(jobs, n, remote, false) == remote
  {
  }

  /** A refused upsert loses no progress job: every progress job stays queued,
      as it was (or marked processing when the batch it belonged to was empty);
      each other claimed job is deleted unless its delete fails, and every
      unclaimed job is untouched. The server is unchanged. */
  lemma RefusedBatchKeepsJobs(jobs: map<nat, SyncJob>, n: nat, remote: map<Key, ItemProgress>,
                              deleteFails: set<nat>, id: nat)
    requires id in jobs
    ensures var after := DrainedJobs(jobs, n, false, deleteFails);
      && (jobs[id].kind == ProgressUpdate ==>
            && id in after
            && after[id] == if |Batch(jobs, n)| == 0 && Claimed(jobs, n, id)
                            then jobs[id].(status := Processing) else jobs[id])
      && (jobs[id].kind != ProgressUpdate && Claimed(jobs, n, id) ==>
            (id in after <==> id in deleteFails) && (id in after ==> after[id] == jobs[id]))
      && (!Claimed(jobs, n, id) ==> id in after && after[id] == jobs[id])
    ensures DrainedRemote(jobs, n, remote, false) == remote
  {
  }

  /** One more id extends the ids of a kind by that id exactly when it has the kind. */
  lemma KindIdsSnoc(jobs: map<nat, SyncJob>, ids: seq<nat>, id: nat, kind: JobKind)
    ensures KindIds(jobs, ids + [id], kind) == KindIds(jobs, ids, kind) + if HasKind(jobs, id, kind) then [id] else []
  {
    assert (ids + [id])[..|ids|] == ids;
  }

  /** The pending progress jobs below n + 1 are those below n, then job n when it
      is a pending progress job. */
  lemma ProgressIdsStep(jobs: map<nat, SyncJob>, n: nat)
    ensures KindIds(jobs, PendingIds(jobs, n + 1), ProgressUpdate)
         == KindIds(jobs, PendingIds(jobs, n), ProgressUpdate)
            + if n in jobs && jobs[n].status == Pending && jobs[n].kind == ProgressUpdate then [n] else []
  {
    var pend := PendingIds(jobs, n);
    if n in jobs && jobs[n].status == Pending {
      KindIdsSnoc(jobs, pend, n, ProgressUpdate);
    } else {
      assert PendingIds(jobs, n + 1) == pend + [] == pend;
    }
  }

  /** Removing jobs that are not pending progress jobs keeps the pending progress
      ids below n. */
  lemma {:induction false} ProgressIdsKept(a: map<nat, SyncJob>, b: map<nat, SyncJob>, n: nat)
    requires forall id :: id in b ==> id in a && b[id] == a[id]
    requires forall id :: id in a && id !in b && id < n ==> !(a[id].status == Pending && a[id].kind == ProgressUpdate)
    ensures KindIds(b, PendingIds(b, n), ProgressUpdate) == KindIds(a, PendingIds(a, n), ProgressUpdate)
  {
    if n > 0 {
      ProgressIdsKept(a, b, n - 1);
      ProgressIdsStep(a, n - 1);
      ProgressIdsStep(b, n - 1);
    }
  }

  /** Payloads read only the jobs they list. */
  lemma {:induction false} PayloadsKept(a: map<nat, SyncJob>, b: map<nat, SyncJob>, ids: seq<nat>)
    requires forall id :: id in ids ==> id in a && id in b && b[id] == a[id]
    ensures Payloads(b, ids) == Payloads(a, ids)
  {
    if |ids| > 0 {
      assert ids[|ids| - 1] in ids;
      assert forall id :: id in ids[..|ids| - 1] ==> id in ids;
      PayloadsKept(a, b, ids[..|ids| - 1]);
    }
  }

  /** Retrying after a refused upsert: whatever deletes of other jobs succeed or
      fail, the next drain sends the same batch, so a refused drain followed by an
      accepted one leaves the server as one accepted drain would. */
  lemma RefusedBatchReplays(jobs: map<nat, SyncJob>, n: nat, remote: map<Key, ItemProgress>, deleteFails: set<nat>)
    requires |Batch(jobs, n)| > 0
    ensures Batch(DrainedJobs(jobs, n, false, deleteFails), n) == Batch(jobs, n)
    ensures DrainedRemote(DrainedJobs(jobs, n, false, deleteFails), n, remote, true)
         == DrainedRemote(jobs, n, remote, true)
  {
    var after := DrainedJobs(jobs, n, false, deleteFails);
    assert forall id :: id in after ==> id in jobs && after[id] == jobs[id];
    assert forall id :: id in jobs && id !in after && id < n ==> Removed(jobs, n, id, false, deleteFails);
    ProgressIdsKept(jobs, after, n);
    var ids := KindIds(jobs, PendingIds(jobs, n), ProgressUpdate);
    forall id | id in ids
      ensures id in jobs && id in after && after[id] == jobs[id]
    {
      assert Claimed(jobs, n, id) && HasKind(jobs, id, ProgressUpdate);
    }
    PayloadsKept(jobs, after, ids);
  }

  /** An accepted batch empties the queue of pending progress jobs, and the server
      then holds, under each key of the batch, the record of the job with the
      highest id that wrote that key. Jobs that were not pending are untouched. */
  lemma StoredBatchClearsQueue(jobs: map<nat, SyncJob>, n: nat, remote: map<Key, ItemProgress>, deleteFails: set<nat>, k: Key)
    requires |Batch(jobs, n)| > 0
    ensures var after := DrainedJobs(jobs, n, true, deleteFails);
      && (forall id :: id in after ==> !(Claimed(jobs, n, id) && jobs[id].kind == ProgressUpdate))
      && (forall id :: id in jobs && !Claimed(jobs, n, id) ==> id in after && after[id] == jobs[id])
    ensures LastWith(Batch(jobs, n), k).Some? ==>
      Lookup(DrainedRemote(jobs, n, remote, true), k) == LastWith(Batch(jobs, n), k)
  {
    UpsertedLookup(remote, Batch(jobs, n), k);
  }

  /** The queue ids below n of `a` and `b` hold the same jobs. */
  ghost predicate AgreeBelow(a: map<nat, SyncJob>, b: map<nat, SyncJob>, n: nat)
  {
    forall id :: id < n ==> (id in a <==> id in b) && (id in a ==> a[id] == b[id])
  }

  lemma {:induction false} PendingIdsAgree(a: map<nat, SyncJob>, b: map<nat, SyncJob>, n: nat)
    requires AgreeBelow(a, b, n)
    ensures PendingIds(a, n) == PendingIds(b, n)
  {
    if n > 0 {
      PendingIdsAgree(a, b, n - 1);
    }
  }

  lemma {:induction false} KindIdsAgree(a: map<nat, SyncJob>, b: map<nat, SyncJob>, n: nat, ids: seq<nat>, kind: JobKind)
    requires AgreeBelow(a, b, n) && forall id :: id in ids ==> id < n
    ensures KindIds(a, ids, kind) == KindIds(b, ids, kind)
    ensures Payloads(a, ids) == Payloads(b, ids)
  {
    if |ids| > 0 {
      var init := ids[..|ids| - 1];
      assert forall id :: id in init ==> id in ids;
      assert ids[|ids| - 1] in ids;
      KindIdsAgree(a, b, n, init, kind);
    }
  }

  /** Queuing job n above every existing id puts its payload at the end of the
      next batch. */
  lemma QueuedLast(jobs: map<nat, SyncJob>, n: nat, job: SyncJob)
    requires forall id :: id in jobs ==> id < n
    requires job.kind == ProgressUpdate && job.status == Pending
    ensures Batch(jobs[n := job], n + 1) == Batch(jobs, n) + job.payload
  {
    var q := jobs[n := job];
    PendingIdsAgree(q, jobs, n);
    var pend := PendingIds(jobs, n);
    assert PendingIds(q, n + 1) == pend + [n];
    assert (pend + [n])[..|pend|] == pend;
    KindIdsAgree(q, jobs, n, pend, ProgressUpdate);
    var ks := KindIds(jobs, pend, ProgressUpdate);
    assert KindIds(q, pend + [n], ProgressUpdate) == ks + [n];
    KindIdsAgree(q, jobs, n, ks, ProgressUpdate);
    assert (ks + [n])[..|ks|] == ks;
  }

  /** The records of one child in a table, by key. */
  function ChildRecords(table: map<Key, ItemProgress>, childId: string): map<Key, ItemProgress>
  {
    map k | k in table && k.childId == childId :: table[k]
  }

  /** Fetched rows of a child: all of its server records, or only those updated
      after `since` when `since` is not 0. */
  function Fetched(remote: map<Key, ItemProgress>, childId: string, since: int): (r: map<Key, ItemProgress>)
    ensures KeyConsistent(remote) ==> KeyConsistent(r)
  {
    map k | k in remote && remote[k].childId == childId && (since == 0 || remote[k].updatedAt > since) :: remote[k]
  }

  /** The first loop of `processSyncQueue`: the progress jobs' payloads and ids,
      and the other jobs' ids, in the order claimed. */
  method SeparateJobs(snapshot: map<nat, SyncJob>, claimed: seq<nat>)
    returns (progressUpdates: seq<ItemProgress>, progressJobIds: seq<nat>, otherJobs: seq<nat>)
    requires forall id :: id in claimed ==> id in snapshot
    ensures progressJobIds == KindIds(snapshot, claimed, ProgressUpdate)
    ensures otherJobs == KindIds(snapshot, claimed, PhotoUpload)
    ensures progressUpdates == Payloads(snapshot, progressJobIds)
  {
    progressUpdates, progressJobIds, otherJobs := [], [], [];
    var i := 0;
    while i < |claimed|
      invariant 0 <= i <= |claimed|
      invariant progressJobIds == KindIds(snapshot, claimed[..i], ProgressUpdate)
      invariant otherJobs == KindIds(snapshot, claimed[..i], PhotoUpload)
      invariant progressUpdates == Payloads(snapshot, progressJobIds)
    {
      var job := snapshot[claimed[i]];
      assert claimed[..i + 1][..i] == claimed[..i];
      if job.kind == ProgressUpdate {
        assert (progressJobIds + [claimed[i]])[..|progressJobIds|] == progressJobIds;
        progressUpdates := progressUpdates + job.payload;
        progressJobIds := progressJobIds + [claimed[i]];
      } else {
        otherJobs := otherJobs + [claimed[i]];
      }
      i := i + 1;
    }
    assert claimed[..i] == claimed;
  }

  /** The deduplication loop: one record per key, the last one given. */
  method Dedupe(updates: seq<ItemProgress>) returns (unique: map<Key, ItemProgress>)
    ensures unique == Upserted(map[], updates)
  {
    unique := map[];
    var j := 0;
    while j < |updates|
      invariant 0 <= j <= |updates|
      invariant unique == Upserted(map[], updates[..j])
    {
      assert updates[..j + 1][..j] == updates[..j];
      unique := unique[KeyOf(updates[j]) := updates[j]];
      j := j + 1;
    }
    assert updates[..j] == updates;
  }

  // ---------------------------------------------------------------------
  // The database

  class Outbox {
    /** The local `progress` table. */
    var progress: map<Key, ItemProgress>
    /** The `syncQueue` table, by auto-incremented id. */
    var jobs: map<nat, SyncJob>
    /** The id the queue gives the next job it stores. */
    var nextId: nat
    /** The server's `item_progress` table. */
    var remote: map<Key, ItemProgress>

    /** Every job id was handed out already; both tables store records under
        their keys; no job is ever marked failed. */
    predicate Valid()
      reads this
    {
      && nextId >= 1
      && (forall id :: id in jobs ==> 1 <= id < nextId)
      && (forall id :: id in jobs ==> jobs[id].status != Failed)
      && KeyConsistent(progress) && KeyConsistent(remote)
    }

    /** An empty database; auto-increment ids start at 1. */
    constructor(server: map<Key, ItemProgress>)
      requires KeyConsistent(server)
      ensures Valid()
      ensures progress == map[] && jobs == map[] && nextId == 1 && remote == server
    {
      progress := map[];
      jobs := map[];
      nextId := 1;
      remote := server;
    }

    /** `processSyncQueue`: claims the pending jobs, sends the progress updates of
        all of them as one deduplicated upsert, deletes those jobs when it is
        accepted and sets them back to pending when not, then deletes the other
        claimed jobs one by one. Offline, nothing happens. */
    method ProcessSyncQueue(online: bool, upsertOk: bool, deleteFails: set<nat>)
      requires Valid()
      modifies this
      ensures Valid()
      ensures progress == old(progress) && nextId == old(nextId)
      ensures jobs == if online then DrainedJobs(old(jobs), old(nextId), upsertOk, deleteFails) else old(jobs)
      ensures remote == if online then DrainedRemote(old(jobs), old(nextId), old(remote), upsertOk) else old(remote)
    {
      if !online {
        return;
      }
      var claimed := PendingIds(jobs, nextId);
      if |claimed| == 0 {
        NothingClaimed(jobs, nextId, remote, upsertOk, deleteFails);
        return;
      }
      var snapshot := jobs;
      var n := nextId;
      ghost var server := remote;
      jobs := Marked(snapshot, claimed);

      var progressUpdates, progressJobIds, otherJobs := SeparateJobs(snapshot, claimed);
      assert progressUpdates == Batch(snapshot, n);
      OthersStillQueued(snapshot, n, upsertOk);
      DrainSteps(snapshot, n, upsertOk, deleteFails);

      SendBatch(progressUpdates, progressJobIds, snapshot, upsertOk);
      assert remote == DrainedRemote(snapshot, n, server, upsertOk);
      assert jobs == AfterBatch(Marked(snapshot, claimed), snapshot, progressJobIds, |progressUpdates| > 0, upsertOk);
      DeleteOtherJobs(otherJobs, snapshot, deleteFails);
      assert jobs == DrainedJobs(snapshot, n, upsertOk, deleteFails);
      DrainKeepsIds(snapshot, n, server, upsertOk, deleteFails);
    }

    /** The batch step of `processSyncQueue`: when there are updates, upserts them
        deduplicated and deletes their jobs, or on a refusal puts those jobs back
        as they were before being claimed. */
    method SendBatch(updates: seq<ItemProgress>, progressIds: seq<nat>, snapshot: map<nat, SyncJob>, upsertOk: bool)
      modifies this
      ensures progress == old(progress) && nextId == old(nextId)
      ensures jobs == AfterBatch(old(jobs), snapshot, progressIds, |updates| > 0, upsertOk)
      ensures remote == if |updates| > 0 && upsertOk then Upserted(old(remote), updates) else old(remote)
    {
      if |updates| > 0 {
        var unique := Dedupe(updates);
        if upsertOk {
          UpsertedOverlay(remote, updates);
          remote := remote + unique;
          jobs := map id | id in jobs && id !in progressIds :: jobs[id];
        } else {
          jobs := map id | id in jobs :: if id in progressIds && id in snapshot then snapshot[id] else jobs[id];
        }
      }
    }

    /** The second loop of `processSyncQueue`: deletes each job of `others` in
        turn, setting it back to pending when its delete fails. */
    method DeleteOtherJobs(others: seq<nat>, snapshot: map<nat, SyncJob>, deleteFails: set<nat>)
      requires forall id :: id in others ==> id in jobs && id in snapshot && jobs[id].(status := Pending) == snapshot[id]
      modifies this
      ensures progress == old(progress) && remote == old(remote) && nextId == old(nextId)
      ensures jobs == AfterOthers(old(jobs), snapshot, others, deleteFails)
    {
      var k := 0;
      while k < |others|
        invariant 0 <= k <= |others|
        invariant progress == old(progress) && remote == old(remote) && nextId == old(nextId)
        invariant forall id :: id in jobs <==> id in old(jobs) && !(id in others[..k] && id !in deleteFails)
        invariant forall id :: id in jobs ==> jobs[id] == if id in others[..k] then snapshot[id] else old(jobs)[id]
      {
        var id := others[k];
        assert others[..k + 1] == others[..k] + [id];
        if id in deleteFails {
          if id in jobs {
            jobs := jobs[id := jobs[id].(status := Pending)];
          }
        } else {
          jobs := map x | x in jobs && x != id :: jobs[x];
        }
        k := k + 1;
      }
      assert others[..k] == others;
      assert jobs == AfterOthers(old(jobs), snapshot, others, deleteFails);
    }

    /** `saveProgressLocal`: writes the records to the local table, queues one
        pending progress job holding them under the next id, and drains the
        queue when online. */
    method SaveProgressLocal(items: seq<ItemProgress>, now: int, online: bool, upsertOk: bool, deleteFails: set<nat>)
      requires Valid()
      modifies this
      ensures Valid()
      ensures progress == Upserted(old(progress), items)
      ensures nextId == old(nextId) + 1
      ensures var queued := old(jobs)[old(nextId) := SyncJob(ProgressUpdate, items, Pending, now)];
        && jobs == (if online then DrainedJobs(queued, nextId, upsertOk, deleteFails) else queued)
        && remote == (if online then DrainedRemote(queued, nextId, old(remote), upsertOk) else old(remote))
    {
      progress := Upserted(progress, items);
      jobs := jobs[nextId := SyncJob(ProgressUpdate, items, Pending, now)];
      nextId := nextId + 1;
      if online {
        ProcessSyncQueue(online, upsertOk, deleteFails);
      }
    }

    /** `syncDown`: offline it returns nothing; online it fetches the child's
        server records (only the newer ones when `since` is not 0), writes them
        to the local table when the fetch succeeded with at least one row, and
        returns the clock reading either way. */
    method SyncDown(childId: string, since: int, online: bool, fetchOk: bool, now: int) returns (stamp: Option<int>)
      requires Valid()
      modifies this
      ensures Valid()
      ensures jobs == old(jobs) && nextId == old(nextId) && remote == old(remote)
      ensures stamp == if online then Some(now) else None
      ensures var data := Fetched(remote, childId, since);
        progress == if online && fetchOk && |data| > 0 then old(progress) + data else old(progress)
    {
      if !online {
        return None;
      }
      var data := Fetched(remote, childId, since);
      if fetchOk && |data| > 0 {
        MergeKeyConsistent(progress, data);
        progress := progress + data;
      }
      return Some(now);
    }

    /** `getLocalProgressMap`: the local records of one child, by key. */
    method GetLocalProgressMap(childId: string) returns (m: map<Key, ItemProgress>)
      requires Valid()
      ensures KeyConsistent(m)
      ensures forall k :: k in m <==> k in progress && k.childId == childId
      ensures forall k :: k in m ==> m[k] == progress[k]
      ensures m == ChildRecords(progress, childId)
    {
      m := map[];
      var rest := progress.Keys;
      while rest != {}
        invariant rest <= progress.Keys
        invariant forall k :: k in m <==> k in progress && k !in rest && k.childId == childId
        invariant forall k :: k in m ==> m[k] == progress[k]
        decreases |rest|
      {
        var k :| k in rest;
        if progress[k].childId == childId {
          m := m[k := progress[k]];
        }
        rest := rest - {k};
      }
      assert m.Keys == ChildRecords(progress, childId).Keys;
    }
  }

  /** Saving records online with the server accepting the batch leaves the server
      holding, for every key saved, exactly the record the local table holds. */
  lemma SavedRecordsReachServer(jobs: map<nat, SyncJob>, n: nat, progress: map<Key, ItemProgress>,
                                remote: map<Key, ItemProgress>, items: seq<ItemProgress>, now: int,
                                deleteFails: set<nat>, r: ItemProgress)
    requires forall id :: id in jobs ==> id < n
    requires r in items
    ensures var queued := jobs[n := SyncJob(ProgressUpdate, items, Pending, now)];
      var server := DrainedRemote(queued, n + 1, remote, true);
      var local := Upserted(progress, items);
      KeyOf(r) in server && KeyOf(r) in local && server[KeyOf(r)] == local[KeyOf(r)]
  {
    var job := SyncJob(ProgressUpdate, items, Pending, now);
    QueuedLast(jobs, n, job);
    var before := Batch(jobs, n);
    UpsertedAppend(remote, before, items);
    var k := KeyOf(r);
    var i :| 0 <= i < |items| && items[i] == r;
    UpsertedLookup(Upserted(remote, before), items, k);
    UpsertedLookup(progress, items, k);
  }

  /** A full sync-down that succeeds leaves the local table holding the server's
      record under every key of the child. */
  lemma FullSyncDownMirrors(progress: map<Key, ItemProgress>, remote: map<Key, ItemProgress>, childId: string, k: Key)
    requires k in remote && remote[k].childId == childId
    ensures var local := progress + Fetched(remote, childId, 0);
      k in local && local[k] == remote[k]
  {
  }
}
