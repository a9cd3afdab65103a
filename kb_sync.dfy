/**
 * sync_base_to_qdrant: the unsynced points of a base, oldest first, are
 * embedded and written to the vector index in batches of 50, inside one
 * database transaction that marks each written batch as synced and stamps
 * the base's last_synced_at before it commits.
 *
 * The run over the batches is the pure function `RunUpTo`, defined batch by
 * batch from the last one back so that the handler's loop can be proved to
 * compute it; `Sync` is the whole handler as a transition of the two tables
 * and the index. The vector service's reachability is the oracle `reach`:
 * `reach(0)` for the collection check and creation, `reach(n)` for the
 * upsert of batch n.
 */
module KnowledgeSync {
  import opened Common
  import opened Embedding
  import opened KnowledgeBases
  import VectorIndex

  type Index = VectorIndex.Index
  type Reach = nat -> bool

  /** One embedding request for a batch's texts, as generate_embeddings_batch answers it. */
  type Embedder = seq<string> -> Result<Batch, EmbedError>

  const BatchSize: nat := 50

  /** One upsert_points_batch request: the answer and the index after it. */
  type Upserter = (Index, string, seq<VectorIndex.PointInput>, bool) -> VectorIndex.Step<Result<nat, VectorIndex.IndexError>>

  /** upsert_points_batch of the index manager as the upserter of the sync. */
  function IndexUpsert(): Upserter
  {
    (ix: Index, name: string, pts: seq<VectorIndex.PointInput>, reachable: bool) => VectorIndex.UpsertBatch(ix, name, pts, reachable)
  }

  /**
   * What the sync relies on from one upsert: on success every entry with a
   * vector whose id does not recur later in the request is stored with its
   * payload, and every other entry of the collection is kept; on failure an
   * existing collection is left as it was.
   */
  predicate WritesBatch(ix: Index, name: string, pts: seq<VectorIndex.PointInput>,
                        s: VectorIndex.Step<Result<nat, VectorIndex.IndexError>>)
  {
    && (s.result.Ok? ==>
          && name in s.index
          && (forall k :: 0 <= k < |pts| && pts[k].vector.Some? && (forall j :: k < j < |pts| ==> pts[j].id != pts[k].id) ==>
                pts[k].id in s.index[name].points && s.index[name].points[pts[k].id].payload == pts[k].payload)
          && (forall id :: name in ix && id in ix[name].points && (forall k :: 0 <= k < |pts| ==> pts[k].id != id) ==>
                id in s.index[name].points && s.index[name].points[id] == ix[name].points[id]))
    && (s.result.Err? && name in ix ==> name in s.index && s.index[name] == ix[name])
  }

  ghost predicate Upholds(upsert: Upserter)
  {
    forall ix, name, pts, reachable :: WritesBatch(ix, name, pts, upsert(ix, name, pts, reachable))
  }

  lemma UpholdsAt(upsert: Upserter, ix: Index, name: string, pts: seq<VectorIndex.PointInput>, reachable: bool)
    requires Upholds(upsert)
    ensures WritesBatch(ix, name, pts, upsert(ix, name, pts, reachable))
  {
  }

  /** upsert_points_batch does what the sync relies on. */
  lemma UpsertBatchWrites(ix: Index, name: string, pts: seq<VectorIndex.PointInput>, reachable: bool)
    ensures WritesBatch(ix, name, pts, VectorIndex.UpsertBatch(ix, name, pts, reachable))
  {
    var s := VectorIndex.UpsertBatch(ix, name, pts, reachable);
    if s.result.Ok? {
      var structs := VectorIndex.Structs(pts).value;
      var before := if name in ix then ix[name].points else map[];
      forall k | 0 <= k < |pts| && pts[k].vector.Some? && (forall j :: k < j < |pts| ==> pts[j].id != pts[k].id)
        ensures pts[k].id in s.index[name].points && s.index[name].points[pts[k].id].payload == pts[k].payload
      {
        VectorIndex.UpsertAllLast(before, structs, k);
      }
    }
  }

  lemma IndexUpsertUpholds()
    ensures Upholds(IndexUpsert())
  {
    forall ix, name, pts, reachable
      ensures WritesBatch(ix, name, pts, IndexUpsert()(ix, name, pts, reachable))
    {
      UpsertBatchWrites(ix, name, pts, reachable);
    }
  }

  /** generate_embeddings_batch as the embedder of the sync. */
  function BatchEmbedder(encode: Encoder, embed: EmbedService): Embedder
  {
    (texts: seq<string>) => EmbedBatch(texts, encode, embed)
  }

  /** One line of errors_detail: the 1-based batch number and the failure. */
  datatype BatchFailure =
    | EmbedFailed(batchNo: nat, embedError: EmbedError)
    | UpsertFailed(batchNo: nat, indexError: VectorIndex.IndexError)

  /**
   * The handler's running totals: points synced and failed, the failure
   * lines, the ids marked synced in the transaction, the tokens of every
   * embedding request that succeeded (`billed`), the token total of the last
   * embedding result (`lastTokens`, 0 when the last request failed), and the
   * index as it stands.
   */
  datatype Progress = Progress(
    synced: nat,
    errors: nat,
    details: seq<BatchFailure>,
    marked: seq<PointId>,
    billed: nat,
    lastTokens: nat,
    index: Index)

  /** A run either goes on, or stops because the service answered fewer vectors than texts (an IndexError). */
  datatype Run = Running(progress: Progress) | Aborted(index: Index)

  datatype Report = Report(
    message: string,
    synced: nat,
    errors: nat,
    details: Option<seq<BatchFailure>>,
    totalPoints: nat,
    cost: Option<Cost>)

  datatype SyncOutcome = NothingPending | Done(report: Report)

  datatype SyncError = NoSuchBase | CollectionFailed(error: VectorIndex.IndexError) | BatchCrashed

  /** The handler's result and the state it leaves: the two tables, the clock, and the index. */
  datatype SyncState = SyncState(
    result: Result<SyncOutcome, SyncError>,
    bases: map<BaseId, Base>,
    points: seq<Point>,
    clock: nat,
    index: Index)

  // ---------------------------------------------------------------------
  // Batches
  // ---------------------------------------------------------------------

  /** `range(0, n, 50)` has this many steps. */
  function NumBatches(n: nat): nat
  {
    (n + BatchSize - 1) / BatchSize
  }

  /** The batches cover the list and the last one is not empty. */
  lemma NumBatchesCovers(n: nat)
    ensures BatchSize * NumBatches(n) >= n
    ensures n > 0 ==> BatchSize * (NumBatches(n) - 1) < n
    ensures n == 0 <==> NumBatches(n) == 0
  {
  }

  /** At the cursor i = 50 * n of a loop that has not finished, the batch number is n + 1 and the slice is batch n. */
  lemma BatchCursor(ps: seq<Point>, n: nat)
    requires BatchSize * n < |ps|
    ensures (BatchSize * n) / BatchSize + 1 == n + 1
    ensures n + 1 <= NumBatches(|ps|)
    ensures ps[BatchSize * n..Min(BatchSize * n + BatchSize, |ps|)] == BatchAt(ps, n)
  {
    NumBatchesCovers(|ps|);
  }

  /** `pending[i:i + 50]` for i = 50 * j. */
  function BatchAt(ps: seq<Point>, j: nat): (b: seq<Point>)
    ensures |b| == Min(BatchSize * j + BatchSize, |ps|) - Min(BatchSize * j, |ps|)
  {
    ps[Min(BatchSize * j, |ps|)..Min(BatchSize * j + BatchSize, |ps|)]
  }

  function Contents(batch: seq<Point>): (r: seq<string>)
    ensures |r| == |batch|
    ensures forall k :: 0 <= k < |batch| ==> r[k] == batch[k].content
  {
    seq(|batch|, k requires 0 <= k < |batch| => batch[k].content)
  }

  function Ids(batch: seq<Point>): (r: seq<PointId>)
    ensures |r| == |batch|
    ensures forall k :: 0 <= k < |batch| ==> r[k] == batch[k].id
  {
    seq(|batch|, k requires 0 <= k < |batch| => batch[k].id)
  }

  /** The entries sent to the index: each point's id, the vector at its position, its content and metadata. */
  function Inputs(batch: seq<Point>, vectors: seq<Vector>): (r: seq<VectorIndex.PointInput>)
    requires |batch| <= |vectors|
    ensures |r| == |batch|
    ensures forall k :: 0 <= k < |batch| ==>
              r[k] == VectorIndex.PointInput(batch[k].id, Some(vectors[k]),
                                             VectorIndex.Payload(batch[k].content, batch[k].metadata))
  {
    seq(|batch|, k requires 0 <= k < |batch| =>
          VectorIndex.PointInput(batch[k].id, Some(vectors[k]), VectorIndex.Payload(batch[k].content, batch[k].metadata)))
  }

  /** The UPDATE of a batch: the points with these ids become synced, with their own id as index id. */
  function MarkSynced(ps: seq<Point>, ids: seq<PointId>): (r: seq<Point>)
    ensures |r| == |ps|
    ensures forall k :: 0 <= k < |ps| ==>
              r[k] == if ps[k].id in ids then ps[k].(synced := true, indexId := Some(ps[k].id)) else ps[k]
  {
    seq(|ps|, k requires 0 <= k < |ps| =>
          if ps[k].id in ids then ps[k].(synced := true, indexId := Some(ps[k].id)) else ps[k])
  }

  /** Two UPDATEs in one transaction amount to one over both id lists. */
  lemma MarkSyncedTwice(ps: seq<Point>, a: seq<PointId>, b: seq<PointId>)
    ensures MarkSynced(MarkSynced(ps, a), b) == MarkSynced(ps, a + b)
  {
    var once := MarkSynced(ps, a);
    forall k | 0 <= k < |ps|
      ensures MarkSynced(once, b)[k] == MarkSynced(ps, a + b)[k]
    {
      assert once[k].id == ps[k].id;
    }
  }

  // ---------------------------------------------------------------------
  // The batch loop
  // ---------------------------------------------------------------------

  /**
   * One iteration: embed the batch's contents; on failure count the whole
   * batch as failed; otherwise send one entry per point and, if the index
   * accepts them, mark the batch synced. The loop stops only when the service
   * answers with fewer vectors than texts; otherwise the batch is synced and
   * marked whole, or fails whole with one failure entry.
   */
  function RunBatch(p: Progress, batch: seq<Point>, no: nat, name: string,
                    embedder: Embedder, upsert: Upserter, reach: Reach): (r: Run)
    ensures r.Aborted? <==> embedder(Contents(batch)).Ok? && |embedder(Contents(batch)).value.embeddings| < |batch|
    ensures r.Running? ==>
              || (r.progress.marked == p.marked + Ids(batch) && r.progress.synced == p.synced + |batch|
                  && r.progress.errors == p.errors && r.progress.details == p.details)
              || (r.progress.marked == p.marked && r.progress.synced == p.synced
                  && r.progress.errors == p.errors + |batch| && |r.progress.details| == |p.details| + 1)
  {
    match embedder(Contents(batch))
    case Err(e) =>
      Running(p.(errors := p.errors + |batch|, details := p.details + [EmbedFailed(no, e)], lastTokens := 0))
    case Ok(b) =>
      if |b.embeddings| < |batch| then Aborted(p.index)
      else
        var s := upsert(p.index, name, Inputs(batch, b.embeddings), reach(no));
        var p1 := p.(index := s.index, billed := p.billed + b.totalTokens, lastTokens := b.totalTokens);
        match s.result
        case Ok(_) => Running(p1.(synced := p.synced + |batch|, marked := p.marked + Ids(batch)))
        case Err(e) => Running(p1.(errors := p.errors + |batch|, details := p.details + [UpsertFailed(no, e)]))
  }

  function Start(ix: Index): Progress
  {
    Progress(0, 0, [], [], 0, 0, ix)
  }

  /**
   * The first n iterations of the loop, from an empty tally and the index `ix`:
   * while it runs, the synced count is the number of marked ids and there is
   * at most one failure entry per batch.
   */
  function RunUpTo(ps: seq<Point>, n: nat, ix: Index, name: string,
                   embedder: Embedder, upsert: Upserter, reach: Reach): (r: Run)
    ensures r.Running? ==> r.progress.synced == |r.progress.marked| && |r.progress.details| <= n
  {
    if n == 0 then Running(Start(ix))
    else match RunUpTo(ps, n - 1, ix, name, embedder, upsert, reach)
      case Aborted(ix') => Aborted(ix')
      case Running(p) => RunBatch(p, BatchAt(ps, n - 1), n, name, embedder, upsert, reach)
  }

  /** One more iteration of the loop. */
  lemma RunUpToNext(ps: seq<Point>, n: nat, ix: Index, name: string,
                    embedder: Embedder, upsert: Upserter, reach: Reach, p: Progress)
    requires RunUpTo(ps, n, ix, name, embedder, upsert, reach) == Running(p)
    ensures RunUpTo(ps, n + 1, ix, name, embedder, upsert, reach) == RunBatch(p, BatchAt(ps, n), n + 1, name, embedder, upsert, reach)
  {
  }

  /** Once the loop has stopped on an IndexError, later batches change nothing. */
  lemma {:induction false} AbortSticks(ps: seq<Point>, m: nat, n: nat, ix: Index, name: string,
                                       embedder: Embedder, upsert: Upserter, reach: Reach)
    requires m <= n
    requires RunUpTo(ps, m, ix, name, embedder, upsert, reach).Aborted?
    ensures RunUpTo(ps, n, ix, name, embedder, upsert, reach) == RunUpTo(ps, m, ix, name, embedder, upsert, reach)
    decreases n
  {
    if m < n {
      AbortSticks(ps, m, n - 1, ix, name, embedder, upsert, reach);
    }
  }

  /** A run that goes on after n batches went on after every earlier one. */
  lemma {:induction false} RunningBefore(ps: seq<Point>, n: nat, ix: Index, name: string,
                                         embedder: Embedder, upsert: Upserter, reach: Reach)
    requires n > 0
    requires RunUpTo(ps, n, ix, name, embedder, upsert, reach).Running?
    ensures RunUpTo(ps, n - 1, ix, name, embedder, upsert, reach).Running?
  {
  }

  /** Every point of the first n batches is counted exactly once, as synced or as failed. */
  lemma {:induction false} RunCounts(ps: seq<Point>, n: nat, ix: Index, name: string,
                                     embedder: Embedder, upsert: Upserter, reach: Reach)
    requires RunUpTo(ps, n, ix, name, embedder, upsert, reach).Running?
    ensures var p := RunUpTo(ps, n, ix, name, embedder, upsert, reach).progress;
            p.synced + p.errors == Min(BatchSize * n, |ps|) && p.synced == |p.marked|
  {
    if n > 0 {
      RunningBefore(ps, n, ix, name, embedder, upsert, reach);
      RunCounts(ps, n - 1, ix, name, embedder, upsert, reach);
    }
  }

  /** The index holds a point under the collection, with its content and metadata as payload. */
  predicate Indexed(pt: Point, ix: Index, name: string)
  {
    && name in ix
    && pt.id in ix[name].points
    && ix[name].points[pt.id].payload == VectorIndex.Payload(pt.content, pt.metadata)
  }

  /**
   * One batch keeps every marked point indexed: a written batch is stored
   * under its own ids, and points outside the batch, whose ids differ, keep
   * their entries.
   */
  lemma BatchKeepsIndexed(q: Progress, batch: seq<Point>, no: nat, name: string,
                          embedder: Embedder, upsert: Upserter, reach: Reach, others: seq<Point>)
    requires Upholds(upsert)
    requires RunBatch(q, batch, no, name, embedder, upsert, reach).Running?
    requires forall i, j :: 0 <= i < j < |batch| ==> batch[i].id != batch[j].id
    requires forall i, m :: 0 <= i < |others| && 0 <= m < |batch| ==> others[i].id != batch[m].id
    requires forall m :: 0 <= m < |batch| ==> batch[m].id !in q.marked
    requires forall i :: 0 <= i < |others| && others[i].id in q.marked ==> Indexed(others[i], q.index, name)
    ensures var p := RunBatch(q, batch, no, name, embedder, upsert, reach).progress;
            && (forall i :: 0 <= i < |others| && others[i].id in p.marked ==> Indexed(others[i], p.index, name))
            && (forall m :: 0 <= m < |batch| && batch[m].id in p.marked ==> Indexed(batch[m], p.index, name))
  {
    var p := RunBatch(q, batch, no, name, embedder, upsert, reach).progress;
    match embedder(Contents(batch))
    case Err(_) =>
    case Ok(b) =>
      var inputs := Inputs(batch, b.embeddings);
      var s := upsert(q.index, name, inputs, reach(no));
      UpholdsAt(upsert, q.index, name, inputs, reach(no));
      if s.result.Ok? {
        forall i | 0 <= i < |others| && others[i].id in p.marked
          ensures Indexed(others[i], p.index, name)
        {
          assert others[i].id !in Ids(batch);
          assert forall k :: 0 <= k < |inputs| ==> inputs[k].id != others[i].id;
        }
        forall m | 0 <= m < |batch|
          ensures Indexed(batch[m], p.index, name)
        {
          assert forall j :: m < j < |inputs| ==> inputs[j].id != inputs[m].id;
        }
      } else {
        forall i | 0 <= i < |others| && others[i].id in p.marked
          ensures Indexed(others[i], p.index, name)
        {
          assert name in q.index;
        }
      }
  }

  /** Only ids of points of the first n batches are marked. */
  lemma {:induction false} MarkedFromPrefix(ps: seq<Point>, n: nat, ix: Index, name: string,
                                            embedder: Embedder, upsert: Upserter, reach: Reach)
    requires RunUpTo(ps, n, ix, name, embedder, upsert, reach).Running?
    ensures forall id :: id in RunUpTo(ps, n, ix, name, embedder, upsert, reach).progress.marked ==>
              exists k :: 0 <= k < Min(BatchSize * n, |ps|) && ps[k].id == id
  {
    if n > 0 {
      RunningBefore(ps, n, ix, name, embedder, upsert, reach);
      MarkedFromPrefix(ps, n - 1, ix, name, embedder, upsert, reach);
      var q := RunUpTo(ps, n - 1, ix, name, embedder, upsert, reach).progress;
      var p := RunUpTo(ps, n, ix, name, embedder, upsert, reach).progress;
      var lo := Min(BatchSize * (n - 1), |ps|);
      var batch := BatchAt(ps, n - 1);
      assert RunUpTo(ps, n, ix, name, embedder, upsert, reach) == RunBatch(q, batch, n, name, embedder, upsert, reach);
      MarkedGrow(ps, n, q.marked, p.marked);
    }
  }

  /** The marked ids after batch n come from the first n batches when those before it came from the first n - 1. */
  lemma MarkedGrow(ps: seq<Point>, n: nat, before: seq<PointId>, after: seq<PointId>)
    requires n > 0
    requires forall id :: id in before ==> exists k :: 0 <= k < Min(BatchSize * (n - 1), |ps|) && ps[k].id == id
    requires after == before || after == before + Ids(BatchAt(ps, n - 1))
    ensures forall id :: id in after ==> exists k :: 0 <= k < Min(BatchSize * n, |ps|) && ps[k].id == id
  {
    var lo := Min(BatchSize * (n - 1), |ps|);
    var batch := BatchAt(ps, n - 1);
    forall id | id in after
      ensures exists k :: 0 <= k < Min(BatchSize * n, |ps|) && ps[k].id == id
    {
      if id !in before {
        var m :| 0 <= m < |batch| && Ids(batch)[m] == id;
        assert ps[lo + m] == batch[m];
      }
    }
  }

  /** Ids are unique, so a point whose id is marked lies in the first n batches. */
  lemma MarkedPosition(ps: seq<Point>, n: nat, ix: Index, name: string,
                       embedder: Embedder, upsert: Upserter, reach: Reach, k: nat)
    requires forall i, j :: 0 <= i < j < |ps| ==> ps[i].id != ps[j].id
    requires RunUpTo(ps, n, ix, name, embedder, upsert, reach).Running?
    requires k < |ps| && ps[k].id in RunUpTo(ps, n, ix, name, embedder, upsert, reach).progress.marked
    ensures k < Min(BatchSize * n, |ps|)
  {
    MarkedFromPrefix(ps, n, ix, name, embedder, upsert, reach);
    var j :| 0 <= j < Min(BatchSize * n, |ps|) && ps[j].id == ps[k].id;
    assert j == k;
  }

  /**
   * Every point marked synced is in the index, under the base's collection,
   * with its own content and metadata as payload: later batches never
   * overwrite it, because point ids are unique.
   */
  lemma {:induction false} MarkedAreIndexed(ps: seq<Point>, n: nat, ix: Index, name: string,
                                            embedder: Embedder, upsert: Upserter, reach: Reach)
    requires Upholds(upsert)
    requires forall i, j :: 0 <= i < j < |ps| ==> ps[i].id != ps[j].id
    requires RunUpTo(ps, n, ix, name, embedder, upsert, reach).Running?
    ensures var p := RunUpTo(ps, n, ix, name, embedder, upsert, reach).progress;
            forall k :: 0 <= k < |ps| && ps[k].id in p.marked ==> Indexed(ps[k], p.index, name)
  {
    if n > 0 {
      RunningBefore(ps, n, ix, name, embedder, upsert, reach);
      MarkedAreIndexed(ps, n - 1, ix, name, embedder, upsert, reach);
      var q := RunUpTo(ps, n - 1, ix, name, embedder, upsert, reach).progress;
      var p := RunUpTo(ps, n, ix, name, embedder, upsert, reach).progress;
      var batch := BatchAt(ps, n - 1);
      var lo := Min(BatchSize * (n - 1), |ps|);
      var others := ps[..lo];
      assert RunUpTo(ps, n, ix, name, embedder, upsert, reach) == RunBatch(q, batch, n, name, embedder, upsert, reach);
      MarkedFromPrefix(ps, n - 1, ix, name, embedder, upsert, reach);
      MarkedFromPrefix(ps, n, ix, name, embedder, upsert, reach);
      BatchIsFresh(ps, n, batch, q.marked);
      assert forall i :: 0 <= i < |others| ==> others[i] == ps[i];
      BatchKeepsIndexed(q, batch, n, name, embedder, upsert, reach, others);
      IndexedFromParts(ps, n, p.marked, p.index, name);
    }
  }

  /** With unique ids, no point of batch n - 1 is among ids that come from the batches before it. */
  lemma BatchIsFresh(ps: seq<Point>, n: nat, batch: seq<Point>, marked: seq<PointId>)
    requires n > 0 && batch == BatchAt(ps, n - 1)
    requires forall i, j :: 0 <= i < j < |ps| ==> ps[i].id != ps[j].id
    requires forall id :: id in marked ==> exists k :: 0 <= k < Min(BatchSize * (n - 1), |ps|) && ps[k].id == id
    ensures forall m :: 0 <= m < |batch| ==> batch[m].id !in marked
  {
    var lo := Min(BatchSize * (n - 1), |ps|);
    forall m | 0 <= m < |batch|
      ensures batch[m].id !in marked
    {
      assert batch[m] == ps[lo + m];
    }
  }

  /**
   * The points of the first n batches that are marked are indexed when
   * those of the earlier batches and those of batch n - 1 are; no other
   * point is marked.
   */
  lemma IndexedFromParts(ps: seq<Point>, n: nat, marked: seq<PointId>, index: Index, name: string)
    requires n > 0
    requires forall i, j :: 0 <= i < j < |ps| ==> ps[i].id != ps[j].id
    requires forall id :: id in marked ==> exists k :: 0 <= k < Min(BatchSize * n, |ps|) && ps[k].id == id
    requires var others := ps[..Min(BatchSize * (n - 1), |ps|)];
             forall i :: 0 <= i < |others| && others[i].id in marked ==> Indexed(others[i], index, name)
    requires var batch := BatchAt(ps, n - 1);
             forall m :: 0 <= m < |batch| && batch[m].id in marked ==> Indexed(batch[m], index, name)
    ensures forall k :: 0 <= k < |ps| && ps[k].id in marked ==> Indexed(ps[k], index, name)
  {
    var lo := Min(BatchSize * (n - 1), |ps|);
    var others, batch := ps[..lo], BatchAt(ps, n - 1);
    forall k | 0 <= k < |ps| && ps[k].id in marked
      ensures Indexed(ps[k], index, name)
    {
      var j :| 0 <= j < Min(BatchSize * n, |ps|) && ps[j].id == ps[k].id;
      assert j == k;
      if k < lo {
        assert others[k] == ps[k];
      } else {
        assert batch[k - lo] == ps[k];
      }
    }
  }

  /** When no point failed, exactly the points of the first n batches are marked, in order. */
  lemma {:induction false} NoErrorsMarksAll(ps: seq<Point>, n: nat, ix: Index, name: string,
                                            embedder: Embedder, upsert: Upserter, reach: Reach)
    requires RunUpTo(ps, n, ix, name, embedder, upsert, reach).Running?
    requires RunUpTo(ps, n, ix, name, embedder, upsert, reach).progress.errors == 0
    ensures RunUpTo(ps, n, ix, name, embedder, upsert, reach).progress.marked == Ids(ps[..Min(BatchSize * n, |ps|)])
  {
    if n > 0 {
      RunningBefore(ps, n, ix, name, embedder, upsert, reach);
      var q := RunUpTo(ps, n - 1, ix, name, embedder, upsert, reach).progress;
      var batch := BatchAt(ps, n - 1);
      var p := RunBatch(q, batch, n, name, embedder, upsert, reach).progress;
      assert RunUpTo(ps, n, ix, name, embedder, upsert, reach).progress == p;
      assert q.errors == 0;
      NoErrorsMarksAll(ps, n - 1, ix, name, embedder, upsert, reach);
      var lo := Min(BatchSize * (n - 1), |ps|);
      var hi := Min(BatchSize * n, |ps|);
      IdsConcat(ps[..lo], batch);
      assert ps[..hi] == ps[..lo] + batch;
    }
  }

  lemma IdsConcat(a: seq<Point>, b: seq<Point>)
    ensures Ids(a + b) == Ids(a) + Ids(b)
  {
  }

  /** If every embedding request answers at least one vector per text, the loop never stops early. */
  lemma {:induction false} FullAnswersNeverAbort(ps: seq<Point>, n: nat, ix: Index, name: string,
                                                 embedder: Embedder, upsert: Upserter, reach: Reach)
    requires forall j :: 0 <= j < n && embedder(Contents(BatchAt(ps, j))).Ok? ==>
               |embedder(Contents(BatchAt(ps, j))).value.embeddings| >= |BatchAt(ps, j)|
    ensures RunUpTo(ps, n, ix, name, embedder, upsert, reach).Running?
  {
    if n > 0 {
      FullAnswersNeverAbort(ps, n - 1, ix, name, embedder, upsert, reach);
    }
  }

  // ---------------------------------------------------------------------
  // Tokens and cost
  // ---------------------------------------------------------------------

  /** The tokens of every embedding request of the first n batches that succeeded. */
  function BilledTokens(ps: seq<Point>, n: nat, embedder: Embedder): nat
  {
    if n == 0 then 0
    else BilledTokens(ps, n - 1, embedder)
         + match embedder(Contents(BatchAt(ps, n - 1)))
           case Ok(b) => b.totalTokens
           case Err(_) => 0
  }

  /** The run's `billed` is the sum over all embedding requests that succeeded, whatever the index did. */
  lemma {:induction false} RunBillsEveryBatch(ps: seq<Point>, n: nat, ix: Index, name: string,
                                              embedder: Embedder, upsert: Upserter, reach: Reach)
    requires RunUpTo(ps, n, ix, name, embedder, upsert, reach).Running?
    ensures RunUpTo(ps, n, ix, name, embedder, upsert, reach).progress.billed == BilledTokens(ps, n, embedder)
  {
    if n > 0 {
      RunningBefore(ps, n, ix, name, embedder, upsert, reach);
      RunBillsEveryBatch(ps, n - 1, ix, name, embedder, upsert, reach);
    }
  }

  /** The cost the handler reports: the tokens of all embedding requests of the sync. */
  function SyncCost(p: Progress): (c: Option<Cost>)
    ensures c.Some? <==> p.billed > 0
    ensures c.Some? ==> c.value.tokens == p.billed
  {
    if p.billed > 0 then Some(EstimateCost(p.billed)) else None
  }

  /** The cost as the source computes it: from the last embedding result only. */
  function SyncCostAsWritten(p: Progress): (c: Option<Cost>)
    ensures c.Some? <==> p.lastTokens > 0
    ensures c.Some? ==> c.value.tokens == p.lastTokens
  {
    if p.lastTokens > 0 then Some(EstimateCost(p.lastTokens)) else None
  }

  /** The last result never holds more tokens than were billed. */
  lemma {:induction false} LastWithinBilled(ps: seq<Point>, n: nat, ix: Index, name: string,
                                            embedder: Embedder, upsert: Upserter, reach: Reach)
    requires n > 0
    requires RunUpTo(ps, n, ix, name, embedder, upsert, reach).Running?
    ensures var p := RunUpTo(ps, n, ix, name, embedder, upsert, reach).progress;
            var q := RunUpTo(ps, n - 1, ix, name, embedder, upsert, reach).progress;
            p.lastTokens + q.billed <= p.billed
  {
    RunningBefore(ps, n, ix, name, embedder, upsert, reach);
  }

  /**
   * With two or more batches and a first batch that was billed, the source's
   * cost leaves out tokens that were billed: the as-written figure is below the
   * sum over all requests.
   */
  lemma CostAsWrittenUndercounts(ps: seq<Point>, n: nat, ix: Index, name: string,
                                 embedder: Embedder, upsert: Upserter, reach: Reach)
    requires n >= 2
    requires RunUpTo(ps, n, ix, name, embedder, upsert, reach).Running?
    requires BilledTokens(ps, 1, embedder) > 0
    ensures var p := RunUpTo(ps, n, ix, name, embedder, upsert, reach).progress;
            SyncCost(p).Some?
            && (SyncCostAsWritten(p).None? || SyncCostAsWritten(p).value.tokens < SyncCost(p).value.tokens)
  {
    LastWithinBilled(ps, n, ix, name, embedder, upsert, reach);
    RunningBefore(ps, n, ix, name, embedder, upsert, reach);
    RunBillsEveryBatch(ps, n - 1, ix, name, embedder, upsert, reach);
    BilledGrows(ps, 1, n - 1, embedder);
  }

  lemma {:induction false} BilledGrows(ps: seq<Point>, m: nat, n: nat, embedder: Embedder)
    requires m <= n
    ensures BilledTokens(ps, m, embedder) <= BilledTokens(ps, n, embedder)
    decreases n
  {
    if m < n {
      BilledGrows(ps, m, n - 1, embedder);
    }
  }

  // ---------------------------------------------------------------------
  // The handler
  // ---------------------------------------------------------------------

  /** The JSON body of a completed sync. */
  function ReportOf(p: Progress, total: nat): (r: Report)
    ensures r.synced == p.synced && r.errors == p.errors && r.totalPoints == total
    ensures r.details.None? <==> p.details == []
    ensures r.details.Some? ==> r.details.value == p.details
    ensures r.cost == SyncCost(p)
  {
    Report(NatToString(p.synced) + " puntos sincronizados exitosamente", p.synced, p.errors,
           if p.details == [] then None else Some(p.details), total, SyncCost(p))
  }

  /** The collection check and, when the collection is missing, its creation with the base's dimension. */
  function EnsureCollection(ix: Index, name: string, size: nat, reachable: bool): (s: VectorIndex.Step<VectorIndex.Outcome>)
    ensures s.result.Success? <==> reachable
    ensures s.result.Success? ==> name in s.index && (name in ix ==> s.index == ix)
    ensures s.result.Failure? ==> s.index == ix
  {
    if VectorIndex.Exists(ix, name, reachable) then VectorIndex.Step(VectorIndex.Success, ix)
    else VectorIndex.Create(ix, name, size, reachable)
  }

  /** sync_base_to_qdrant as a transition of the tables, the clock and the index. */
  function Sync(bases: map<BaseId, Base>, points: seq<Point>, clock: nat, ix: Index, baseId: BaseId,
                embedder: Embedder, upsert: Upserter, reach: Reach): (s: SyncState)
    ensures baseId !in bases ==> s == SyncState(Err(NoSuchBase), bases, points, clock, ix)
    ensures s.result == Ok(NothingPending) <==> baseId in bases && Unsynced(points, baseId) == []
    ensures s.result == Ok(NothingPending) ==> s == SyncState(Ok(NothingPending), bases, points, clock, ix)
    ensures s.result.Err? ==> s.bases == bases && s.points == points && s.clock == clock
    ensures s.result.Ok? && s.result.value.Done? ==>
              && baseId in bases
              && s.bases.Keys == bases.Keys
              && s.bases[baseId] == bases[baseId].(lastSyncedAt := Some(clock))
              && (forall b :: b in bases && b != baseId ==> s.bases[b] == bases[b])
              && s.clock == clock + 1
              && s.result.value.report.totalPoints == |Unsynced(points, baseId)|
  {
    if baseId !in bases then SyncState(Err(NoSuchBase), bases, points, clock, ix)
    else
      var pending := Unsynced(points, baseId);
      if pending == [] then SyncState(Ok(NothingPending), bases, points, clock, ix)
      else
        var base := bases[baseId];
        var name := base.collectionName;
        var ensured := EnsureCollection(ix, name, base.vectorDimension, reach(0));
        if ensured.result.Failure? then SyncState(Err(CollectionFailed(ensured.result.error)), bases, points, clock, ix)
        else match RunUpTo(pending, NumBatches(|pending|), ensured.index, name, embedder, upsert, reach)
          case Aborted(ix') => SyncState(Err(BatchCrashed), bases, points, clock, ix')
          case Running(p) =>
            SyncState(Ok(Done(ReportOf(p, |pending|))),
                      bases[baseId := base.(lastSyncedAt := Some(clock))],
                      MarkSynced(points, p.marked), clock + 1, p.index)
  }

  /** Every pending point is counted once, as synced or as failed. */
  lemma SyncCountsEveryPendingPoint(bases: map<BaseId, Base>, points: seq<Point>, clock: nat, ix: Index,
                                    baseId: BaseId, embedder: Embedder, upsert: Upserter, reach: Reach)
    requires Sync(bases, points, clock, ix, baseId, embedder, upsert, reach).result.Ok?
    requires Sync(bases, points, clock, ix, baseId, embedder, upsert, reach).result.value.Done?
    ensures var r := Sync(bases, points, clock, ix, baseId, embedder, upsert, reach).result.value.report;
            r.synced + r.errors == r.totalPoints == |Unsynced(points, baseId)|
  {
    var pending := Unsynced(points, baseId);
    var base := bases[baseId];
    var ensured := EnsureCollection(ix, base.collectionName, base.vectorDimension, reach(0));
    NumBatchesCovers(|pending|);
    RunCounts(pending, NumBatches(|pending|), ensured.index, base.collectionName, embedder, upsert, reach);
  }

  /** A sync without failures leaves nothing pending in the base. */
  lemma SyncWithoutErrorsLeavesNothingPending(bases: map<BaseId, Base>, points: seq<Point>, clock: nat, ix: Index,
                                              baseId: BaseId, embedder: Embedder, upsert: Upserter, reach: Reach)
    requires Sync(bases, points, clock, ix, baseId, embedder, upsert, reach).result.Ok?
    requires Sync(bases, points, clock, ix, baseId, embedder, upsert, reach).result.value.Done?
    requires Sync(bases, points, clock, ix, baseId, embedder, upsert, reach).result.value.report.errors == 0
    ensures Unsynced(Sync(bases, points, clock, ix, baseId, embedder, upsert, reach).points, baseId) == []
  {
    var s := Sync(bases, points, clock, ix, baseId, embedder, upsert, reach);
    var pending := Unsynced(points, baseId);
    var base := bases[baseId];
    var ensured := EnsureCollection(ix, base.collectionName, base.vectorDimension, reach(0));
    var n := NumBatches(|pending|);
    NumBatchesCovers(|pending|);
    NoErrorsMarksAll(pending, n, ensured.index, base.collectionName, embedder, upsert, reach);
    var p := RunUpTo(pending, n, ensured.index, base.collectionName, embedder, upsert, reach).progress;
    assert pending[..Min(BatchSize * n, |pending|)] == pending;
    assert p.marked == Ids(pending);
    forall k | 0 <= k < |s.points|
      ensures !(s.points[k].baseId == baseId && !s.points[k].synced)
    {
      if points[k].baseId == baseId && !points[k].synced {
        assert points[k] in pending;
        var m :| 0 <= m < |pending| && pending[m] == points[k];
        assert Ids(pending)[m] == points[k].id;
      }
    }
    FilterNone(s.points, (p: Point) => p.baseId == baseId && !p.synced);
  }

  /** Every point a sync marks synced is in the base's collection with its content and metadata. */
  lemma SyncedPointsAreIndexed(bases: map<BaseId, Base>, points: seq<Point>, clock: nat, ix: Index,
                               baseId: BaseId, embedder: Embedder, upsert: Upserter, reach: Reach)
    requires Upholds(upsert)
    requires forall i, j :: 0 <= i < j < |points| ==> points[i].id != points[j].id
    requires Sync(bases, points, clock, ix, baseId, embedder, upsert, reach).result.Ok?
    requires Sync(bases, points, clock, ix, baseId, embedder, upsert, reach).result.value.Done?
    ensures var s := Sync(bases, points, clock, ix, baseId, embedder, upsert, reach);
            var name := bases[baseId].collectionName;
            forall k :: 0 <= k < |points| && !points[k].synced && s.points[k].synced ==>
              && name in s.index
              && points[k].id in s.index[name].points
              && s.index[name].points[points[k].id].payload == VectorIndex.Payload(points[k].content, points[k].metadata)
  {
    var s := Sync(bases, points, clock, ix, baseId, embedder, upsert, reach);
    var pending := Unsynced(points, baseId);
    var base := bases[baseId];
    var name := base.collectionName;
    var ensured := EnsureCollection(ix, name, base.vectorDimension, reach(0));
    var n := NumBatches(|pending|);
    forall i, j | 0 <= i < j < |pending|
      ensures pending[i].id != pending[j].id
    {
      KeptDistinct(points, (p: Point) => p.baseId == baseId && !p.synced, i, j);
    }
    MarkedAreIndexed(pending, n, ensured.index, name, embedder, upsert, reach);
    MarkedFromPrefix(pending, n, ensured.index, name, embedder, upsert, reach);
    var p := RunUpTo(pending, n, ensured.index, name, embedder, upsert, reach).progress;
    forall k | 0 <= k < |points| && !points[k].synced && s.points[k].synced
      ensures && name in s.index
              && points[k].id in s.index[name].points
              && s.index[name].points[points[k].id].payload == VectorIndex.Payload(points[k].content, points[k].metadata)
    {
      assert points[k].id in p.marked;
      var j :| 0 <= j < Min(BatchSize * n, |pending|) && pending[j].id == points[k].id;
      assert pending[j] in points;
      var i :| 0 <= i < |points| && points[i] == pending[j];
      assert i == k;
    }
  }

  /** The sync keeps the tables consistent. */
  lemma SyncKeepsConsistent(bases: map<BaseId, Base>, points: seq<Point>, clock: nat, nextId: nat, ix: Index,
                            baseId: BaseId, embedder: Embedder, upsert: Upserter, reach: Reach)
    requires Consistent(bases, points, clock, nextId)
    ensures var s := Sync(bases, points, clock, ix, baseId, embedder, upsert, reach);
            Consistent(s.bases, s.points, s.clock, nextId)
  {
    var s := Sync(bases, points, clock, ix, baseId, embedder, upsert, reach);
    if s.result.Ok? && s.result.value.Done? {
      var pending := Unsynced(points, baseId);
      var base := bases[baseId];
      var ensured := EnsureCollection(ix, base.collectionName, base.vectorDimension, reach(0));
      var p := RunUpTo(pending, NumBatches(|pending|), ensured.index, base.collectionName, embedder, upsert, reach).progress;
      ConsistentAfterSync(bases, points, clock, nextId, baseId, p.marked);
    }
  }

  /** Marking points synced and stamping the base keeps the tables consistent. */
  lemma ConsistentAfterSync(bases: map<BaseId, Base>, points: seq<Point>, clock: nat, nextId: nat,
                            baseId: BaseId, marked: seq<PointId>)
    requires Consistent(bases, points, clock, nextId)
    requires baseId in bases
    ensures Consistent(bases[baseId := bases[baseId].(lastSyncedAt := Some(clock))],
                       MarkSynced(points, marked), clock + 1, nextId)
  {
    var bases' := bases[baseId := bases[baseId].(lastSyncedAt := Some(clock))];
    var points' := MarkSynced(points, marked);
    forall i | 0 <= i < |points'|
      ensures PointOk(points'[i], bases', clock + 1, nextId)
    {
      assert PointOk(points[i], bases, clock, nextId);
    }
  }

  /** Sync once the base is found, something is pending and the collection is in place. */
  lemma SyncAfterCollection(bases: map<BaseId, Base>, points: seq<Point>, clock: nat, ix: Index, baseId: BaseId,
                            embedder: Embedder, upsert: Upserter, reach: Reach, ix1: Index)
    requires baseId in bases && Unsynced(points, baseId) != []
    requires EnsureCollection(ix, bases[baseId].collectionName, bases[baseId].vectorDimension, reach(0))
             == VectorIndex.Step(VectorIndex.Success, ix1)
    ensures var pending := Unsynced(points, baseId);
            var s := Sync(bases, points, clock, ix, baseId, embedder, upsert, reach);
            match RunUpTo(pending, NumBatches(|pending|), ix1, bases[baseId].collectionName, embedder, upsert, reach)
            case Aborted(ix') => s == SyncState(Err(BatchCrashed), bases, points, clock, ix')
            case Running(p) =>
              s == SyncState(Ok(Done(ReportOf(p, |pending|))),
                             bases[baseId := bases[baseId].(lastSyncedAt := Some(clock))],
                             MarkSynced(points, p.marked), clock + 1, p.index)
  {
  }

  // ---------------------------------------------------------------------
  // The handler over the store and the index manager
  // ---------------------------------------------------------------------

  /**
   * sync_base_to_qdrant. The embedding generator and the index's batch upsert
   * are the manager's collaborators, passed in as `embedder` and `upsert`
   * (BatchEmbedder and IndexUpsert are the ones the service wires in).
   */
  method SyncBase(store: KnowledgeStore, index: VectorIndex.IndexManager, baseId: BaseId,
                  embedder: Embedder, upsert: Upserter, reach: Reach)
    returns (r: Result<SyncOutcome, SyncError>)
    requires store.Valid()
    modifies store, index
    ensures store.Valid()
    ensures store.nextId == old(store.nextId)
    ensures var s := Sync(old(store.bases), old(store.points), old(store.clock), old(index.collections), baseId,
                          embedder, upsert, reach);
            && r == s.result
            && store.bases == s.bases && store.points == s.points && store.clock == s.clock
            && index.collections == s.index
  {
    SyncKeepsConsistent(store.bases, store.points, store.clock, store.nextId, index.collections, baseId,
                        embedder, upsert, reach);
    var s := SyncTables(index, store.bases, store.points, store.clock, baseId, embedder, upsert, reach);
    store.bases, store.points, store.clock := s.bases, s.points, s.clock;
    r := s.result;
  }

  /**
   * The handler's work on the tables inside its transaction. The batch loop
   * marks points on a copy of the points table; the copy, together with the
   * base's stamp, is what the commit writes, and an IndexError returns the
   * tables as they were while the index keeps the batches already written.
   */
  method SyncTables(index: VectorIndex.IndexManager, bases: map<BaseId, Base>, points: seq<Point>, clock: nat,
                    baseId: BaseId, embedder: Embedder, upsert: Upserter, reach: Reach)
    returns (s: SyncState)
    modifies index
    ensures s == Sync(bases, points, clock, old(index.collections), baseId, embedder, upsert, reach)
    ensures index.collections == s.index
  {
    if baseId !in bases {
      return SyncState(Err(NoSuchBase), bases, points, clock, index.collections);
    }
    var pending := Unsynced(points, baseId);
    if pending == [] {
      return SyncState(Ok(NothingPending), bases, points, clock, index.collections);
    }
    var base := bases[baseId];
    var name := base.collectionName;
    var present := index.CollectionExists(name, reach(0));
    if !present {
      var created := index.CreateCollection(name, reach(0), base.vectorDimension);
      if created.Failure? {
        return SyncState(Err(CollectionFailed(created.error)), bases, points, clock, index.collections);
      }
    }
    SyncAfterCollection(bases, points, clock, old(index.collections), baseId, embedder, upsert, reach, index.collections);
    var run, working := RunBatches(index, pending, points, name, embedder, upsert, reach);
    if run.Aborted? {
      return SyncState(Err(BatchCrashed), bases, points, clock, index.collections);
    }
    var p := run.progress;
    var cost := if p.billed > 0 then Some(EstimateCost(p.billed)) else None;
    var report := Report(NatToString(p.synced) + " puntos sincronizados exitosamente", p.synced, p.errors,
                         if p.details == [] then None else Some(p.details), |pending|, cost);
    s := SyncState(Ok(Done(report)), bases[baseId := base.(lastSyncedAt := Some(clock))], working, clock + 1,
                   index.collections);
  }

  /**
   * The loop over the batches of 50, with the transaction's copy of the
   * points table kept in step with the ids marked so far.
   */
  method RunBatches(index: VectorIndex.IndexManager, pending: seq<Point>, rows: seq<Point>, name: string,
                    embedder: Embedder, upsert: Upserter, reach: Reach)
    returns (run: Run, working: seq<Point>)
    modifies index
    ensures run == RunUpTo(pending, NumBatches(|pending|), old(index.collections), name, embedder, upsert, reach)
    ensures run.Running? ==> index.collections == run.progress.index && working == MarkSynced(rows, run.progress.marked)
    ensures run.Aborted? ==> index.collections == run.index
  {
    ghost var ix1 := index.collections;
    var p := Start(index.collections);
    working := rows;
    var i := 0;
    ghost var n := 0;
    NumBatchesCovers(|pending|);
    while i < |pending|
      invariant i == BatchSize * n
      invariant n <= NumBatches(|pending|)
      invariant RunUpTo(pending, n, ix1, name, embedder, upsert, reach) == Running(p)
      invariant p.index == index.collections
      invariant working == MarkSynced(rows, p.marked)
      decreases |pending| - i
    {
      var next;
      next, working := SyncBatchAt(index, pending, i, n, ix1, p, rows, working, name, embedder, upsert, reach);
      if next.Aborted? {
        return next, working;
      }
      p := next.progress;
      i := i + BatchSize;
      n := n + 1;
    }
    assert n == NumBatches(|pending|);
    run := Running(p);
  }

  /** The pass at cursor i = 50 * n: the run after n + 1 batches, or the final aborted run. */
  method SyncBatchAt(index: VectorIndex.IndexManager, pending: seq<Point>, i: nat, ghost n: nat, ghost ix: Index,
                     p: Progress, rows: seq<Point>, working: seq<Point>, name: string,
                     embedder: Embedder, upsert: Upserter, reach: Reach)
    returns (run: Run, working': seq<Point>)
    requires i == BatchSize * n && i < |pending|
    requires RunUpTo(pending, n, ix, name, embedder, upsert, reach) == Running(p)
    requires p.index == index.collections
    requires working == MarkSynced(rows, p.marked)
    modifies index
    ensures n + 1 <= NumBatches(|pending|)
    ensures run == RunUpTo(pending, n + 1, ix, name, embedder, upsert, reach)
    ensures run.Aborted? ==> run == RunUpTo(pending, NumBatches(|pending|), ix, name, embedder, upsert, reach)
    ensures run.Running? ==> index.collections == run.progress.index && working' == MarkSynced(rows, run.progress.marked)
    ensures run.Aborted? ==> index.collections == run.index
  {
    BatchCursor(pending, n);
    var batch := pending[i..Min(i + BatchSize, |pending|)];
    var batchNo := i / BatchSize + 1;
    run, working' := SyncBatch(index, p, rows, working, batch, batchNo, name, embedder, upsert, reach);
    LoopStep(pending, n, ix, name, embedder, upsert, reach, p, run);
  }

  /** After batch n + 1 the run is the one after n + 1 batches, and an abort is final. */
  lemma LoopStep(ps: seq<Point>, n: nat, ix: Index, name: string,
                 embedder: Embedder, upsert: Upserter, reach: Reach, p: Progress, next: Run)
    requires n + 1 <= NumBatches(|ps|)
    requires RunUpTo(ps, n, ix, name, embedder, upsert, reach) == Running(p)
    requires next == RunBatch(p, BatchAt(ps, n), n + 1, name, embedder, upsert, reach)
    ensures next == RunUpTo(ps, n + 1, ix, name, embedder, upsert, reach)
    ensures next.Aborted? ==> next == RunUpTo(ps, NumBatches(|ps|), ix, name, embedder, upsert, reach)
  {
    RunUpToNext(ps, n, ix, name, embedder, upsert, reach, p);
    if next.Aborted? {
      AbortSticks(ps, n + 1, NumBatches(|ps|), ix, name, embedder, upsert, reach);
    }
  }

  /** One pass of the loop: embed, build the entries, upsert, and mark the batch on success. */
  method SyncBatch(index: VectorIndex.IndexManager, p: Progress, rows: seq<Point>, working: seq<Point>,
                   batch: seq<Point>, batchNo: nat, name: string,
                   embedder: Embedder, upsert: Upserter, reach: Reach)
    returns (run: Run, working': seq<Point>)
    requires p.index == index.collections
    requires working == MarkSynced(rows, p.marked)
    modifies index
    ensures run == RunBatch(p, batch, batchNo, name, embedder, upsert, reach)
    ensures run.Running? ==> index.collections == run.progress.index && working' == MarkSynced(rows, run.progress.marked)
    ensures run.Aborted? ==> index.collections == run.index
  {
    var embedded := embedder(Contents(batch));
    if embedded.Err? {
      return Running(p.(errors := p.errors + |batch|, details := p.details + [EmbedFailed(batchNo, embedded.error)],
                        lastTokens := 0)), working;
    }
    var inputs := BatchInputs(batch, embedded.value.embeddings);
    if inputs.None? {
      return Aborted(index.collections), working;
    }
    var written := upsert(index.collections, name, inputs.value, reach(batchNo));
    index.collections := written.index;
    var p1 := p.(index := index.collections, billed := p.billed + embedded.value.totalTokens,
                 lastTokens := embedded.value.totalTokens);
    if written.result.Ok? {
      MarkSyncedTwice(rows, p.marked, Ids(batch));
      run := Running(p1.(synced := p.synced + |batch|, marked := p.marked + Ids(batch)));
      working' := MarkSynced(working, Ids(batch));
    } else {
      run := Running(p1.(errors := p.errors + |batch|, details := p.details + [UpsertFailed(batchNo, written.result.error)]));
      working' := working;
    }
  }

  /** The entries of one batch, `embeddings[idx]` for each position; None where that index is out of range. */
  method BatchInputs(batch: seq<Point>, vectors: seq<Vector>) returns (r: Option<seq<VectorIndex.PointInput>>)
    ensures r.None? <==> |vectors| < |batch|
    ensures r.Some? ==> r.value == Inputs(batch, vectors)
  {
    var inputs: seq<VectorIndex.PointInput> := [];
    var idx := 0;
    while idx < |batch|
      invariant idx <= |batch| && idx <= |vectors|
      invariant |inputs| == idx
      invariant forall k :: 0 <= k < idx ==>
                  inputs[k] == VectorIndex.PointInput(batch[k].id, Some(vectors[k]),
                                                      VectorIndex.Payload(batch[k].content, batch[k].metadata))
    {
      if idx >= |vectors| {
        return None;
      }
      inputs := inputs + [VectorIndex.PointInput(batch[idx].id, Some(vectors[idx]),
                                                 VectorIndex.Payload(batch[idx].content, batch[idx].metadata))];
      idx := idx + 1;
    }
    r := Some(inputs);
  }
}
