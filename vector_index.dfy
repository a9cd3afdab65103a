/**
 * The vector-index manager: a named set of collections, each with a fixed
 * vector size and a map from point id to (vector, payload). Every operation
 * first asks the service whether the collection exists; a service that does
 * not answer makes that check false, so reads and deletes then report that
 * the collection does not exist, and writes fail. Each call takes the
 * service's reachability as a parameter.
 *
 * The transitions are pure functions over the index state (`Index`), so that
 * lemmas can relate several calls; the class `IndexManager` holds the state
 * and its methods follow the source step by step, each proved to perform the
 * corresponding transition.
 */
module VectorIndex {
  import opened Common
  import opened Embedding

  /** Point ids are the knowledge points' own ids (UUIDs in the store, abstracted as naturals). */
  type PointId = nat

  type Metadata = map<string, string>

  /** The metadata is None where the store holds SQL NULL. */
  datatype Payload = Payload(pageContent: string, metadata: Option<Metadata>)

  datatype Stored = Stored(vector: Vector, payload: Payload)

  datatype Distance = Cosine

  datatype Collection = Collection(size: nat, distance: Distance, points: map<PointId, Stored>)

  type Index = map<string, Collection>

  datatype IndexError =
    | AlreadyExists(name: string)
    | DoesNotExist(name: string)
    | PointNotFound(id: PointId)
    | MalformedPoint        // a batch entry without a 'vector' key (KeyError)
    | ServiceError          // any exception raised by the client

  datatype Outcome = Success | Failure(error: IndexError)

  /** The result of an operation together with the index state it leaves. */
  datatype Step<T> = Step(result: T, index: Index)

  /** A batch entry as the caller hands it over; the vector may be missing. */
  datatype PointInput = PointInput(id: PointId, vector: Option<Vector>, payload: Payload)

  /** A point ready for the service. */
  datatype PointStruct = PointStruct(id: PointId, vector: Vector, payload: Payload)

  /** The fields get_collection_info reports; the two status fields are not modelled. */
  datatype Info = Info(name: string, pointsCount: nat, vectorsCount: nat)

  datatype Hit = Hit(id: PointId, payload: Payload)

  /**
   * The service's similarity search, an oracle: the ids of the collection's
   * points in decreasing similarity to the query (scores are not modelled).
   */
  type Ranker = (Collection, Vector) -> seq<PointId>

  // ---------------------------------------------------------------------
  // Transitions over the index state
  // ---------------------------------------------------------------------

  /** collection_exists: a listed collection has exactly this name; an unreachable service answers false. */
  predicate Exists(ix: Index, name: string, reachable: bool)
  {
    reachable && name in ix
  }

  function EmptyCollection(size: nat): Collection
  {
    Collection(size, Cosine, map[])
  }

  /** create_collection */
  function Create(ix: Index, name: string, size: nat, reachable: bool): (s: Step<Outcome>)
    ensures s.result.Success? <==> reachable && name !in ix
    ensures reachable && name in ix ==> s.result == Failure(AlreadyExists(name))
    ensures s.result.Success? ==> s.index == ix[name := EmptyCollection(size)]
    ensures s.result.Failure? ==> s.index == ix
  {
    if Exists(ix, name, reachable) then Step(Failure(AlreadyExists(name)), ix)
    else if !reachable then Step(Failure(ServiceError), ix)
    else Step(Success, ix[name := EmptyCollection(size)])
  }

  /** delete_collection */
  function Drop(ix: Index, name: string, reachable: bool): (s: Step<Outcome>)
    ensures s.result.Success? <==> reachable && name in ix
    ensures s.result.Failure? ==> s.result.error == DoesNotExist(name) && s.index == ix
    ensures s.result.Success? ==> name !in s.index && s.index.Keys == ix.Keys - {name}
    ensures forall other :: other != name && other in ix ==> other in s.index && s.index[other] == ix[other]
  {
    if !Exists(ix, name, reachable) then Step(Failure(DoesNotExist(name)), ix)
    else Step(Success, ix - {name})
  }

  /** The service's single-point write into an existing collection: a vector of the wrong length is refused. */
  function Put(ix: Index, name: string, p: PointStruct): Step<Outcome>
    requires name in ix
  {
    if |p.vector| != ix[name].size then Step(Failure(ServiceError), ix)
    else Step(Success, ix[name := ix[name].(points := ix[name].points[p.id := Stored(p.vector, p.payload)])])
  }

  /** upsert_point: auto-create sized to the vector, then insert or overwrite. */
  function UpsertOne(ix: Index, name: string, p: PointStruct, reachable: bool): (s: Step<Outcome>)
    ensures s.result.Success? <==> reachable && (name !in ix || ix[name].size == |p.vector|)
    ensures s.result.Failure? ==> s.index == ix
    ensures s.result.Success? ==>
              && s.index.Keys == ix.Keys + {name}
              && s.index[name].size == |p.vector|
              && p.id in s.index[name].points
              && s.index[name].points[p.id] == Stored(p.vector, p.payload)
              && (forall id :: id != p.id && name in ix && id in ix[name].points ==>
                    id in s.index[name].points && s.index[name].points[id] == ix[name].points[id])
              && (forall other :: other != name && other in ix ==> s.index[other] == ix[other])
  {
    if !Exists(ix, name, reachable) then
      var created := Create(ix, name, |p.vector|, reachable);
      if created.result.Failure? then created
      else Put(created.index, name, p)
    else Put(ix, name, p)
  }

  /** Writes a batch into a map of points in order, so a later entry with the same id wins. */
  function UpsertAll(pts: map<PointId, Stored>, batch: seq<PointStruct>): (r: map<PointId, Stored>)
    ensures forall id :: id in r <==> id in pts || exists k :: 0 <= k < |batch| && batch[k].id == id
    ensures forall id :: id in pts && (forall k :: 0 <= k < |batch| ==> batch[k].id != id) ==> r[id] == pts[id]
    decreases |batch|
  {
    if batch == [] then pts
    else UpsertAll(pts[batch[0].id := Stored(batch[0].vector, batch[0].payload)], batch[1..])
  }

  /** A point written by the batch holds the value of its last entry. */
  lemma {:induction false} UpsertAllLast(pts: map<PointId, Stored>, batch: seq<PointStruct>, k: nat)
    requires k < |batch|
    requires forall j :: k < j < |batch| ==> batch[j].id != batch[k].id
    ensures batch[k].id in UpsertAll(pts, batch)
    ensures UpsertAll(pts, batch)[batch[k].id] == Stored(batch[k].vector, batch[k].payload)
    decreases |batch|
  {
    var next := pts[batch[0].id := Stored(batch[0].vector, batch[0].payload)];
    if k == 0 {
      forall j | 0 <= j < |batch[1..]|
        ensures batch[1..][j].id != batch[0].id
      {
        assert batch[1..][j] == batch[j + 1];
      }
    } else {
      UpsertAllLast(next, batch[1..], k - 1);
    }
  }

  /** The position of the last entry of the batch with this id. */
  function LastWith(batch: seq<PointStruct>, id: PointId): (k: nat)
    requires exists k :: 0 <= k < |batch| && batch[k].id == id
    ensures k < |batch| && batch[k].id == id
    ensures forall j :: k < j < |batch| ==> batch[j].id != id
  {
    if batch[|batch| - 1].id == id then |batch| - 1
    else
      var init := batch[..|batch| - 1];
      assert exists k :: 0 <= k < |init| && init[k].id == id by {
        var k :| 0 <= k < |batch| && batch[k].id == id;
        assert init[k] == batch[k];
      }
      LastWith(init, id)
  }

  /** Upserting the same batch twice leaves what upserting it once left. */
  lemma UpsertAllIdempotent(pts: map<PointId, Stored>, batch: seq<PointStruct>)
    ensures UpsertAll(UpsertAll(pts, batch), batch) == UpsertAll(pts, batch)
  {
    var once := UpsertAll(pts, batch);
    var twice := UpsertAll(once, batch);
    forall id | id in once
      ensures twice[id] == once[id]
    {
      if exists k :: 0 <= k < |batch| && batch[k].id == id {
        var k := LastWith(batch, id);
        UpsertAllLast(pts, batch, k);
        UpsertAllLast(once, batch, k);
      }
    }
  }

  /** The structs of a batch, or None when some entry has no vector. */
  function Structs(points: seq<PointInput>): (r: Option<seq<PointStruct>>)
    ensures r.None? <==> exists k :: 0 <= k < |points| && points[k].vector.None?
    ensures r.Some? ==>
              && |r.value| == |points|
              && forall k :: 0 <= k < |points| ==>
                   r.value[k] == PointStruct(points[k].id, points[k].vector.value, points[k].payload)
  {
    if points == [] then Some([])
    else
      match (points[0].vector, Structs(points[1..]))
      case (Some(v), Some(rest)) =>
        var r := [PointStruct(points[0].id, v, points[0].payload)] + rest;
        assert forall k :: 1 <= k < |points| ==> r[k] == rest[k - 1] && points[k] == points[1..][k - 1];
        Some(r)
      case (None, _) => None
      case (_, None) =>
        var k :| 0 <= k < |points[1..]| && points[1..][k].vector.None?;
        assert points[k + 1].vector.None?;
        None
  }

  predicate SizesMatch(batch: seq<PointStruct>, size: nat)
  {
    forall k :: 0 <= k < |batch| ==> |batch[k].vector| == size
  }

  /** The auto-create step of upsert_points_batch: only for a missing collection, a non-empty batch and a first entry with a vector. */
  function AutoCreate(ix: Index, name: string, points: seq<PointInput>, reachable: bool): Step<Outcome>
  {
    if !Exists(ix, name, reachable) && |points| > 0 && points[0].vector.Some? then
      Create(ix, name, |points[0].vector.value|, reachable)
    else Step(Success, ix)
  }

  /** upsert_points_batch: reports the number of entries written. */
  function UpsertBatch(ix: Index, name: string, points: seq<PointInput>, reachable: bool): (s: Step<Result<nat, IndexError>>)
    ensures s.result.Ok? ==>
              && s.result.value == |points|
              && reachable
              && name in s.index
              && Structs(points).Some?
              && SizesMatch(Structs(points).value, s.index[name].size)
              && s.index.Keys == ix.Keys + {name}
              && s.index[name].points
                 == UpsertAll(if name in ix then ix[name].points else map[], Structs(points).value)
              && (forall other :: other != name && other in ix ==> s.index[other] == ix[other])
    ensures s.result.Err? ==>
              || s.index == ix
              || (&& reachable && name !in ix && |points| > 0 && points[0].vector.Some?
                  && s.index == ix[name := EmptyCollection(|points[0].vector.value|)])
    ensures !reachable ==> s.result.Err? && s.index == ix
  {
    var created := AutoCreate(ix, name, points, reachable);
    if created.result.Failure? then Step(Err(created.result.error), ix)
    else
      var ix1 := created.index;
      match Structs(points)
      case None => Step(Err(MalformedPoint), ix1)
      case Some(batch) =>
        if !reachable || name !in ix1 || !SizesMatch(batch, ix1[name].size) then Step(Err(ServiceError), ix1)
        else Step(Ok(|points|), ix1[name := ix1[name].(points := UpsertAll(ix1[name].points, batch))])
  }

  /** delete_point: removing an absent id is not an error. */
  function DeleteOne(ix: Index, name: string, id: PointId, reachable: bool): (s: Step<Outcome>)
    ensures s.result.Failure? <==> !Exists(ix, name, reachable)
    ensures s.result.Failure? ==> s.result.error == DoesNotExist(name) && s.index == ix
    ensures s.result.Success? ==>
              && s.index.Keys == ix.Keys
              && s.index[name].points.Keys == ix[name].points.Keys - {id}
              && s.index[name].size == ix[name].size
              && (forall other :: other != name && other in ix ==> s.index[other] == ix[other])
  {
    if !Exists(ix, name, reachable) then Step(Failure(DoesNotExist(name)), ix)
    else Step(Success, ix[name := ix[name].(points := ix[name].points - {id})])
  }

  /** delete_points_batch: reports the number of ids asked for, present or not. */
  function DeleteBatch(ix: Index, name: string, ids: seq<PointId>, reachable: bool): (s: Step<Result<nat, IndexError>>)
    ensures s.result.Err? <==> !Exists(ix, name, reachable)
    ensures s.result.Err? ==> s.result.error == DoesNotExist(name) && s.index == ix
    ensures s.result.Ok? ==>
              && s.result.value == |ids|
              && s.index.Keys == ix.Keys
              && (forall id :: id in s.index[name].points <==> id in ix[name].points && id !in ids)
              && (forall id :: id in s.index[name].points ==> s.index[name].points[id] == ix[name].points[id])
              && (forall other :: other != name && other in ix ==> s.index[other] == ix[other])
  {
    if !Exists(ix, name, reachable) then Step(Err(DoesNotExist(name)), ix)
    else
      var kept := map id | id in ix[name].points && id !in ids :: ix[name].points[id];
      Step(Ok(|ids|), ix[name := ix[name].(points := kept)])
  }

  /** get_collection_info */
  function CollectionInfo(ix: Index, name: string, reachable: bool): (r: Result<Info, IndexError>)
    ensures r.Err? <==> !Exists(ix, name, reachable)
    ensures r.Err? ==> r.error == DoesNotExist(name)
    ensures r.Ok? ==> r.value.name == name && r.value.pointsCount == |ix[name].points|
                      && r.value.vectorsCount == r.value.pointsCount
  {
    if !Exists(ix, name, reachable) then Err(DoesNotExist(name))
    else Ok(Info(name, |ix[name].points|, |ix[name].points|))
  }

  /** count_points */
  function Count(ix: Index, name: string, reachable: bool): (r: Result<nat, IndexError>)
    ensures r.Err? <==> !Exists(ix, name, reachable)
    ensures r.Err? ==> r.error == DoesNotExist(name)
    ensures r.Ok? ==> r.value == |ix[name].points|
  {
    if !Exists(ix, name, reachable) then Err(DoesNotExist(name)) else Ok(|ix[name].points|)
  }

  /** get_point: the payload of the point, or "not found". */
  function Fetch(ix: Index, name: string, id: PointId, reachable: bool): (r: Result<Hit, IndexError>)
    ensures r.Err? ==> r.error == DoesNotExist(name) || r.error == PointNotFound(id)
    ensures r.Err? && r.error == DoesNotExist(name) <==> !Exists(ix, name, reachable)
    ensures r.Ok? <==> Exists(ix, name, reachable) && id in ix[name].points
    ensures r.Ok? ==> r.value == Hit(id, ix[name].points[id].payload)
  {
    if !Exists(ix, name, reachable) then Err(DoesNotExist(name))
    else if id !in ix[name].points then Err(PointNotFound(id))
    else Ok(Hit(id, ix[name].points[id].payload))
  }

  /** The ids of `ranked` that name points of the collection, at most `limit` of them, in ranked order. */
  function Returned(ranked: seq<PointId>, pts: map<PointId, Stored>, limit: nat): (r: seq<PointId>)
    ensures |r| <= limit
    ensures forall k :: 0 <= k < |r| ==> r[k] in pts && r[k] in ranked
  {
    if ranked == [] || limit == 0 then []
    else if ranked[0] in pts then [ranked[0]] + Returned(ranked[1..], pts, limit - 1)
    else Returned(ranked[1..], pts, limit)
  }

  /** What the service answers to search: a query of the wrong length is refused. */
  function SearchResults(ix: Index, name: string, query: Vector, limit: nat, rank: Ranker, reachable: bool)
    : (r: Result<seq<PointId>, IndexError>)
    ensures r.Err? <==> !Exists(ix, name, reachable) || |query| != ix[name].size
    ensures r.Err? && !Exists(ix, name, reachable) ==> r.error == DoesNotExist(name)
    ensures r.Ok? ==> |r.value| <= limit && forall k :: 0 <= k < |r.value| ==> r.value[k] in ix[name].points
  {
    if !Exists(ix, name, reachable) then Err(DoesNotExist(name))
    else if |query| != ix[name].size then Err(ServiceError)
    else Ok(Returned(rank(ix[name], query), ix[name].points, limit))
  }

  // ---------------------------------------------------------------------
  // Properties relating several calls
  // ---------------------------------------------------------------------

  /** A freshly created collection is empty, has the requested size and cosine distance. */
  lemma CreateThenCount(ix: Index, name: string, size: nat)
    requires name !in ix
    ensures var s := Create(ix, name, size, true);
            && Count(s.index, name, true) == Ok(0)
            && s.index[name].size == size
            && s.index[name].distance == Cosine
  {
  }

  /** Creating twice fails the second time and changes nothing. */
  lemma CreateTwice(ix: Index, name: string, size1: nat, size2: nat)
    ensures var s := Create(ix, name, size1, true);
            Create(s.index, name, size2, true) == Step(Failure(AlreadyExists(name)), s.index)
  {
  }

  /** A point written by upsert_point is what get_point then returns. */
  lemma UpsertThenFetch(ix: Index, name: string, p: PointStruct)
    requires name !in ix || ix[name].size == |p.vector|
    ensures var s := UpsertOne(ix, name, p, true);
            s.result == Success && Fetch(s.index, name, p.id, true) == Ok(Hit(p.id, p.payload))
  {
  }

  /** After delete_point the point is not found, and deleting it again still succeeds. */
  lemma DeleteThenFetch(ix: Index, name: string, id: PointId)
    requires name in ix
    ensures var s := DeleteOne(ix, name, id, true);
            && Fetch(s.index, name, id, true) == Err(PointNotFound(id))
            && DeleteOne(s.index, name, id, true) == Step(Success, s.index)
  {
    var s := DeleteOne(ix, name, id, true);
    assert s.index[name].points - {id} == s.index[name].points;
    assert s.index[name := s.index[name].(points := s.index[name].points - {id})] == s.index;
  }

  /** Writing the same batch twice leaves the index as writing it once did. */
  lemma UpsertBatchIdempotent(ix: Index, name: string, points: seq<PointInput>)
    requires UpsertBatch(ix, name, points, true).result.Ok?
    ensures var s := UpsertBatch(ix, name, points, true);
            UpsertBatch(s.index, name, points, true) == s
  {
    var s := UpsertBatch(ix, name, points, true);
    var batch := Structs(points).value;
    var base := if name in ix then ix[name].points else map[];
    UpsertAllIdempotent(base, batch);
    assert AutoCreate(s.index, name, points, true) == Step(Success, s.index);
    var c := s.index[name];
    assert c.(points := UpsertAll(c.points, batch)) == c;
    assert s.index[name := c] == s.index;
  }

  /** The deleted count is the length of the request even when none of the ids was present. */
  lemma DeleteBatchCountsRequest(ix: Index, name: string, ids: seq<PointId>)
    requires name in ix
    requires forall k :: 0 <= k < |ids| ==> ids[k] !in ix[name].points
    ensures var s := DeleteBatch(ix, name, ids, true);
            s.result == Ok(|ids|) && s.index[name].points == ix[name].points
  {
  }

  // ---------------------------------------------------------------------
  // The manager object
  // ---------------------------------------------------------------------

  class IndexManager {
    var collections: Index

    constructor(initial: Index)
      ensures collections == initial
    {
      collections := initial;
    }

    method CollectionExists(name: string, reachable: bool) returns (b: bool)
      ensures b <==> reachable && name in collections
    {
      if !reachable {
        return false;
      }
      b := name in collections;
    }

    method CreateCollection(name: string, reachable: bool, vectorSize: nat := Dimensions) returns (r: Outcome)
      modifies this
      ensures Step(r, collections) == Create(old(collections), name, vectorSize, reachable)
    {
      var exists_ := CollectionExists(name, reachable);
      if exists_ {
        return Failure(AlreadyExists(name));
      }
      if !reachable {
        return Failure(ServiceError);
      }
      collections := collections[name := EmptyCollection(vectorSize)];
      r := Success;
    }

    method DeleteCollection(name: string, reachable: bool) returns (r: Outcome)
      modifies this
      ensures Step(r, collections) == Drop(old(collections), name, reachable)
    {
      var exists_ := CollectionExists(name, reachable);
      if !exists_ {
        return Failure(DoesNotExist(name));
      }
      collections := collections - {name};
      r := Success;
    }

    method GetCollectionInfo(name: string, reachable: bool) returns (r: Result<Info, IndexError>)
      ensures r == CollectionInfo(collections, name, reachable)
    {
      var exists_ := CollectionExists(name, reachable);
      if !exists_ {
        return Err(DoesNotExist(name));
      }
      var c := collections[name];
      r := Ok(Info(name, |c.points|, |c.points|));
    }

    method UpsertPoint(name: string, id: PointId, vector: Vector, payload: Payload, reachable: bool)
      returns (r: Outcome)
      modifies this
      ensures Step(r, collections) == UpsertOne(old(collections), name, PointStruct(id, vector, payload), reachable)
    {
      var exists_ := CollectionExists(name, reachable);
      if !exists_ {
        var created := CreateCollection(name, reachable, |vector|);
        if created.Failure? {
          return created;
        }
      }
      if |vector| != collections[name].size {
        return Failure(ServiceError);
      }
      var c := collections[name];
      collections := collections[name := c.(points := c.points[id := Stored(vector, payload)])];
      r := Success;
    }

    method UpsertPointsBatch(name: string, points: seq<PointInput>, reachable: bool)
      returns (r: Result<nat, IndexError>)
      modifies this
      ensures Step(r, collections) == UpsertBatch(old(collections), name, points, reachable)
    {
      var exists_ := CollectionExists(name, reachable);
      if !exists_ && |points| > 0 && points[0].vector.Some? {
        var created := CreateCollection(name, reachable, |points[0].vector.value|);
        if created.Failure? {
          return Err(created.error);
        }
      }
      var structs: seq<PointStruct> := [];
      var i := 0;
      while i < |points|
        invariant 0 <= i <= |points|
        invariant |structs| == i
        invariant forall k :: 0 <= k < i ==>
                    points[k].vector.Some? && structs[k] == PointStruct(points[k].id, points[k].vector.value, points[k].payload)
      {
        if points[i].vector.None? {
          return Err(MalformedPoint);
        }
        structs := structs + [PointStruct(points[i].id, points[i].vector.value, points[i].payload)];
        i := i + 1;
      }
      assert Structs(points).Some?;
      assert |Structs(points).value| == |structs|;
      assert forall k :: 0 <= k < |points| ==> Structs(points).value[k] == structs[k];
      assert Structs(points).value == structs;
      if !reachable || name !in collections {
        return Err(ServiceError);
      }
      var c := collections[name];
      if !SizesMatch(structs, c.size) {
        return Err(ServiceError);
      }
      collections := collections[name := c.(points := UpsertAll(c.points, structs))];
      r := Ok(|points|);
    }

    method DeletePoint(name: string, id: PointId, reachable: bool) returns (r: Outcome)
      modifies this
      ensures Step(r, collections) == DeleteOne(old(collections), name, id, reachable)
    {
      var exists_ := CollectionExists(name, reachable);
      if !exists_ {
        return Failure(DoesNotExist(name));
      }
      var c := collections[name];
      collections := collections[name := c.(points := c.points - {id})];
      r := Success;
    }

    method DeletePointsBatch(name: string, ids: seq<PointId>, reachable: bool) returns (r: Result<nat, IndexError>)
      modifies this
      ensures Step(r, collections) == DeleteBatch(old(collections), name, ids, reachable)
    {
      var exists_ := CollectionExists(name, reachable);
      if !exists_ {
        return Err(DoesNotExist(name));
      }
      var c := collections[name];
      var kept := map id | id in c.points && id !in ids :: c.points[id];
      collections := collections[name := c.(points := kept)];
      r := Ok(|ids|);
    }

    /** search_similar: formats each returned point as (id, payload), in the service's order. */
    method SearchSimilar(name: string, query: Vector, rank: Ranker, reachable: bool, limit: nat := 5)
      returns (r: Result<seq<Hit>, IndexError>)
      ensures SearchResults(collections, name, query, limit, rank, reachable).Err? ==>
                r == Err(SearchResults(collections, name, query, limit, rank, reachable).error)
      ensures SearchResults(collections, name, query, limit, rank, reachable).Ok? ==>
                var ids := SearchResults(collections, name, query, limit, rank, reachable).value;
                && r.Ok? && |r.value| == |ids| <= limit
                && forall k :: 0 <= k < |ids| ==>
                     r.value[k] == Hit(ids[k], collections[name].points[ids[k]].payload)
    {
      var exists_ := CollectionExists(name, reachable);
      if !exists_ {
        return Err(DoesNotExist(name));
      }
      var found := SearchResults(collections, name, query, limit, rank, reachable);
      if found.Err? {
        return Err(found.error);
      }
      var ids := found.value;
      var hits: seq<Hit> := [];
      var i := 0;
      while i < |ids|
        invariant 0 <= i <= |ids|
        invariant |hits| == i
        invariant forall k :: 0 <= k < i ==> hits[k] == Hit(ids[k], collections[name].points[ids[k]].payload)
      {
        hits := hits + [Hit(ids[i], collections[name].points[ids[i]].payload)];
        i := i + 1;
      }
      r := Ok(hits);
    }

    method GetPoint(name: string, id: PointId, reachable: bool) returns (r: Result<Hit, IndexError>)
      ensures r == Fetch(collections, name, id, reachable)
    {
      var exists_ := CollectionExists(name, reachable);
      if !exists_ {
        return Err(DoesNotExist(name));
      }
      var c := collections[name];
      if id !in c.points {
        return Err(PointNotFound(id));
      }
      r := Ok(Hit(id, c.points[id].payload));
    }

    method CountPoints(name: string, reachable: bool) returns (r: Result<nat, IndexError>)
      ensures r == Count(collections, name, reachable)
    {
      var exists_ := CollectionExists(name, reachable);
      if !exists_ {
        return Err(DoesNotExist(name));
      }
      r := Ok(|collections[name].points|);
    }
  }
}
