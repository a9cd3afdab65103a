/**
 * The knowledge-base tables and the handlers that change them: bases with
 * their derived collection names, points created, imported, updated and
 * deleted, and the read-side helpers (sync status classification, the
 * preview of a point, the paginated point list).
 *
 * The two tables are held by `KnowledgeStore`: bases in a map by id, points
 * in a sequence in insertion order. Ids come from a counter (the source uses
 * UUIDs) and SQL's NOW() is a logical clock that advances once per handler
 * call, so every timestamp written by one call is the same, as it is within
 * one transaction.
 */
module KnowledgeBases {
  import opened Common
  import opened Embedding
  import VectorIndex

  type BaseId = nat
  type PointId = VectorIndex.PointId
  type Metadata = VectorIndex.Metadata

  const DefaultEmbeddingModel: string := "text-embedding-3-large"
  const PreviewLength: nat := 150

  // ---------------------------------------------------------------------
  // Sync status of a base (list_bases)
  // ---------------------------------------------------------------------

  datatype SyncStatus = Empty | Synced | Partial | Pending

  datatype StatusView = StatusView(status: SyncStatus, caption: string, color: string)

  /** The status, label and colour list_bases shows for a base with these counters. */
  function ClassifySync(total: int, synced: int): (v: StatusView)
    ensures v.status == Empty <==> total == 0
    ensures v.status == Synced <==> total != 0 && synced == total
    ensures v.status == Partial <==> total != 0 && synced != total && synced > 0
    ensures v.status == Pending <==> total != 0 && synced != total && synced <= 0
  {
    var pending := total - synced;
    if total == 0 then StatusView(Empty, "Vacía", "secondary")
    else if synced == total then StatusView(Synced, "Sincronizado", "success")
    else if synced > 0 then StatusView(Partial, IntToString(pending) + " pendientes", "warning")
    else StatusView(Pending, "Sin sincronizar", "danger")
  }

  /**
   * With counters derived from the points (0 <= synced <= total), "partial"
   * means some but not all points are synced, its caption counts the pending
   * ones as a positive number, and "pending" means none is synced.
   */
  lemma ClassifyDerivedCounters(total: nat, synced: nat)
    requires synced <= total
    ensures ClassifySync(total, synced).status == Pending <==> total > 0 && synced == 0
    ensures ClassifySync(total, synced).status == Partial <==> 0 < synced < total
    ensures ClassifySync(total, synced).status == Partial ==>
              ClassifySync(total, synced).caption == NatToString(total - synced) + " pendientes"
              && 0 < total - synced < total
  {
  }

  // ---------------------------------------------------------------------
  // Collection name derived from the base name (create_base)
  // ---------------------------------------------------------------------

  /** `s.replace(a, b)` for single characters. */
  function ReplaceChar(s: string, a: char, b: char): (r: string)
    ensures |r| == |s|
    ensures forall i :: 0 <= i < |s| ==> r[i] == (if s[i] == a then b else s[i])
  {
    seq(|s|, i requires 0 <= i < |s| => if s[i] == a then b else s[i])
  }

  predicate IsCollectionChar(c: char)
  {
    IsAlnum(c) || c == '_'
  }

  /** `''.join(c for c in s if c.isalnum() or c == '_')` */
  function KeepCollectionChars(s: string): (r: string)
    ensures |r| <= |s|
    ensures forall i :: 0 <= i < |r| ==> IsCollectionChar(r[i])
    ensures (forall i :: 0 <= i < |s| ==> IsCollectionChar(s[i])) ==> r == s
  {
    if s == [] then []
    else (if IsCollectionChar(s[0]) then [s[0]] else []) + KeepCollectionChars(s[1..])
  }

  /** The collection name generated from a base name: lower-case, spaces to '_', accented vowels to plain ones, then only alphanumerics and '_'. */
  function DeriveCollectionName(name: string): (r: string)
    ensures |r| <= |name|
    ensures forall i :: 0 <= i < |r| ==> IsCollectionChar(r[i])
  {
    var s := ReplaceChar(ReplaceChar(Lower(name), ' ', '_'), 'á', 'a');
    var s := ReplaceChar(ReplaceChar(ReplaceChar(s, 'é', 'e'), 'í', 'i'), 'ó', 'o');
    KeepCollectionChars(ReplaceChar(s, 'ú', 'u'))
  }

  predicate NoAccentedVowel(c: char)
  {
    c != 'á' && c != 'é' && c != 'í' && c != 'ó' && c != 'ú'
  }

  /** A name that is already lower-case alphanumerics and '_' without acute vowels is its own collection name. */
  lemma DeriveKeepsCleanName(name: string)
    requires forall i :: 0 <= i < |name| ==>
               IsCollectionChar(name[i]) && LowerChar(name[i]) == name[i] && NoAccentedVowel(name[i])
    ensures DeriveCollectionName(name) == name
  {
    var lower := Lower(name);
    forall i | 0 <= i < |name| ensures lower[i] == name[i] {
      assert LowerChar(name[i]) == name[i];
    }
    assert lower == name;
    var s1 := ReplaceChar(ReplaceChar(lower, ' ', '_'), 'á', 'a');
    assert s1 == name;
    var s2 := ReplaceChar(ReplaceChar(ReplaceChar(s1, 'é', 'e'), 'í', 'i'), 'ó', 'o');
    assert s2 == name;
    assert ReplaceChar(s2, 'ú', 'u') == name;
  }

  /**
   * A derived name holds only alphanumerics and '_', has no ASCII capital,
   * no space and no acute-accented lower-case vowel, and is no longer than the base name.
   */
  lemma DerivedNameShape(name: string)
    ensures var r := DeriveCollectionName(name);
            && |r| <= |name|
            && forall i :: 0 <= i < |r| ==>
                 IsCollectionChar(r[i]) && !('A' <= r[i] <= 'Z') && r[i] != ' '
                 && NoAccentedVowel(r[i]) && LowerChar(r[i]) == r[i]
  {
    var s1 := ReplaceChar(ReplaceChar(Lower(name), ' ', '_'), 'á', 'a');
    var s2 := ReplaceChar(ReplaceChar(ReplaceChar(s1, 'é', 'e'), 'í', 'i'), 'ó', 'o');
    var s3 := ReplaceChar(s2, 'ú', 'u');
    assert forall i :: 0 <= i < |s3| ==> NoAccentedVowel(s3[i]) && s3[i] != ' ' && LowerChar(s3[i]) == s3[i];
    KeptCharsFrom(s3);
  }

  /** Every character kept by the filter is a character of its input. */
  lemma {:induction false} KeptCharsFrom(s: string)
    ensures forall i :: 0 <= i < |KeepCollectionChars(s)| ==> KeepCollectionChars(s)[i] in s
  {
    if s != [] {
      KeptCharsFrom(s[1..]);
      var rest := KeepCollectionChars(s[1..]);
      forall i | 0 <= i < |rest|
        ensures rest[i] in s
      {
        assert rest[i] in s[1..];
      }
    }
  }

  /** Deriving the name of an already derived name changes nothing. */
  lemma DeriveCollectionNameIdempotent(name: string)
    ensures DeriveCollectionName(DeriveCollectionName(name)) == DeriveCollectionName(name)
  {
    var r := DeriveCollectionName(name);
    DerivedNameShape(name);
    var s1 := ReplaceChar(ReplaceChar(Lower(r), ' ', '_'), 'á', 'a');
    var s2 := ReplaceChar(ReplaceChar(ReplaceChar(s1, 'é', 'e'), 'í', 'i'), 'ó', 'o');
    var s3 := ReplaceChar(s2, 'ú', 'u');
    assert s3 == r;
  }

  // ---------------------------------------------------------------------
  // Point preview (list_points)
  // ---------------------------------------------------------------------

  /** The first 150 characters and "..." for longer contents, the content itself otherwise. */
  function Preview(content: string): (r: string)
    ensures |content| <= PreviewLength ==> r == content
    ensures |content| > PreviewLength ==> |r| == PreviewLength + 3 && r[..PreviewLength] == content[..PreviewLength]
    ensures |r| <= PreviewLength + 3
  {
    if |content| > PreviewLength then content[..PreviewLength] + "..." else content
  }

  // ---------------------------------------------------------------------
  // Records
  // ---------------------------------------------------------------------

  datatype Base = Base(
    name: string,
    description: string,
    collectionName: string,
    vectorDimension: nat,
    embeddingModel: string,
    lastSyncedAt: Option<nat>,
    createdAt: nat)

  datatype Point = Point(
    id: PointId,
    baseId: BaseId,
    content: string,
    metadata: Option<Metadata>,
    synced: bool,
    indexId: Option<PointId>,
    createdAt: nat,
    updatedAt: nat)

  datatype KbError =
    | NameRequired
    | CollectionNameTaken(collectionName: string)
    | BaseNotFound
    | ContentRequired
    | PointNotFound
    | PointsRequired
    | ListFailed          // ZeroDivisionError, or a negative LIMIT/OFFSET refused by the database

  /** `json.dumps(metadata) if metadata else None` */
  function StoredMetadata(m: Metadata): Option<Metadata>
  {
    if m == map[] then None else Some(m)
  }

  // ---------------------------------------------------------------------
  // import_points_batch, item by item
  // ---------------------------------------------------------------------

  /** One element of the "points" array: an object (pageContent absent is None), or anything else. */
  datatype ImportItem = Entry(pageContent: Option<string>, metadata: Metadata) | Malformed

  datatype ImportReason = EmptyContent | Raised

  /** An error line "Punto {position}: ...", with a 1-based position. */
  datatype ImportError = ImportError(position: nat, reason: ImportReason)

  datatype Accepted = Accepted(content: string, metadata: Metadata)

  /** What the loop makes of one item: its stripped content, or the reason it is skipped. */
  function ItemContent(item: ImportItem): (r: Result<string, ImportReason>)
    ensures r.Ok? ==> !IsBlank(r.value)
    ensures item.Malformed? <==> r == Err(Raised)
  {
    match item
    case Malformed => Err(Raised)
    case Entry(c, _) =>
      var content := if c.Some? then Strip(c.value) else "";
      StripEmptyIffBlank(if c.Some? then c.value else "");
      StripIdempotent(if c.Some? then c.value else "");
      StripEmptyIffBlank(content);
      if content == "" then Err(EmptyContent) else Ok(content)
  }

  /** The items the loop inserts, in order. */
  function AcceptedItems(items: seq<ImportItem>): seq<Accepted>
  {
    if items == [] then []
    else
      var last := items[|items| - 1];
      AcceptedItems(items[..|items| - 1])
        + (match ItemContent(last)
           case Ok(c) => [Accepted(c, last.metadata)]
           case Err(_) => [])
  }

  /** The errors the loop logs, in order, each with its 1-based position. */
  function RejectedItems(items: seq<ImportItem>): seq<ImportError>
  {
    if items == [] then []
    else
      RejectedItems(items[..|items| - 1])
        + (match ItemContent(items[|items| - 1])
           case Ok(_) => []
           case Err(reason) => [ImportError(|items|, reason)])
  }

  /** Every item is either inserted or logged: inserted + len(errors) == len(points). */
  lemma {:induction false} ImportPartition(items: seq<ImportItem>)
    ensures |AcceptedItems(items)| + |RejectedItems(items)| == |items|
  {
    if items != [] {
      ImportPartition(items[..|items| - 1]);
    }
  }

  /** Every logged error names a position within the request, in increasing order; every inserted content is non-blank. */
  lemma {:induction false} ImportOutcomeShape(items: seq<ImportItem>)
    ensures forall k :: 0 <= k < |RejectedItems(items)| ==> 1 <= RejectedItems(items)[k].position <= |items|
    ensures forall k, l :: 0 <= k < l < |RejectedItems(items)| ==>
              RejectedItems(items)[k].position < RejectedItems(items)[l].position
    ensures forall k :: 0 <= k < |AcceptedItems(items)| ==> !IsBlank(AcceptedItems(items)[k].content)
  {
    if items != [] {
      ImportOutcomeShape(items[..|items| - 1]);
    }
  }

  function NewPoint(id: PointId, baseId: BaseId, a: Accepted, now: nat): Point
  {
    Point(id, baseId, a.content, Some(a.metadata), false, None, now, now)
  }

  /** The rows an import inserts: fresh consecutive ids, all unsynced, all stamped with the same time. */
  function ImportedPoints(accepted: seq<Accepted>, firstId: nat, baseId: BaseId, now: nat): (r: seq<Point>)
    ensures |r| == |accepted|
    ensures forall k :: 0 <= k < |r| ==> r[k] == NewPoint(firstId + k, baseId, accepted[k], now)
  {
    seq(|accepted|, k requires 0 <= k < |accepted| => NewPoint(firstId + k, baseId, accepted[k], now))
  }

  /**
   * The loop of import_points_batch: the rows to insert with their ids,
   * the count inserted and the errors logged.
   */
  method ImportLoop(items: seq<ImportItem>, nextId: nat, baseId: BaseId, clock: nat)
    returns (inserted: nat, errors: seq<ImportError>, rows: seq<Point>)
    ensures inserted == |AcceptedItems(items)|
    ensures errors == RejectedItems(items)
    ensures rows == ImportedPoints(AcceptedItems(items), nextId, baseId, clock)
  {
    inserted := 0;
    errors := [];
    rows := [];
    ghost var accepted: seq<Accepted> := [];
    var i := 0;
    while i < |items|
      invariant 0 <= i <= |items|
      invariant accepted == AcceptedItems(items[..i])
      invariant inserted == |accepted|
      invariant errors == RejectedItems(items[..i])
      invariant rows == ImportedPoints(accepted, nextId, baseId, clock)
    {
      ImportNext(items, i);
      match ItemContent(items[i]) {
        case Err(reason) =>
          errors := errors + [ImportError(i + 1, reason)];
        case Ok(pageContent) =>
          var a := Accepted(pageContent, items[i].metadata);
          ImportedPointsSnoc(accepted, a, nextId, baseId, clock);
          rows := rows + [NewPoint(nextId + inserted, baseId, a, clock)];
          inserted := inserted + 1;
          accepted := accepted + [a];
      }
      i := i + 1;
    }
    assert items[..i] == items;
  }

  /** One more item of the loop: accepted or logged at its 1-based position. */
  lemma ImportNext(items: seq<ImportItem>, i: nat)
    requires i < |items|
    ensures AcceptedItems(items[..i + 1]) == AcceptedItems(items[..i])
              + (match ItemContent(items[i]) case Ok(c) => [Accepted(c, items[i].metadata)] case Err(_) => [])
    ensures RejectedItems(items[..i + 1]) == RejectedItems(items[..i])
              + (match ItemContent(items[i]) case Ok(_) => [] case Err(reason) => [ImportError(i + 1, reason)])
  {
    assert items[..i + 1][..i] == items[..i];
  }

  lemma ImportedPointsSnoc(accepted: seq<Accepted>, a: Accepted, firstId: nat, baseId: BaseId, now: nat)
    ensures ImportedPoints(accepted + [a], firstId, baseId, now)
            == ImportedPoints(accepted, firstId, baseId, now) + [NewPoint(firstId + |accepted|, baseId, a, now)]
  {
  }

  datatype ImportReport = ImportReport(imported: nat, errors: seq<ImportError>)

  // ---------------------------------------------------------------------
  // Listing (list_points)
  // ---------------------------------------------------------------------

  datatype PointView = PointView(
    id: PointId,
    content: string,
    preview: string,
    metadata: Option<Metadata>,
    synced: bool,
    indexId: Option<PointId>)

  datatype PointList = PointList(rows: seq<PointView>, total: nat, page: int, totalPages: int, pageSize: int)

  function View(p: Point): (v: PointView)
    ensures v.id == p.id && v.content == p.content && v.preview == Preview(p.content)
  {
    PointView(p.id, p.content, Preview(p.content), p.metadata, p.synced, p.indexId)
  }

  /** `ILIKE '%search%'` on the content, as a case-insensitive substring test; an empty search matches everything. */
  predicate MatchesSearch(p: Point, search: string)
    ensures search == [] ==> MatchesSearch(p, search)
    ensures MatchesSearch(p, search) ==> |search| <= |p.content|
  {
    search == [] || Contains(Lower(p.content), Lower(search))
  }

  predicate OldestFirst(ps: seq<Point>)
  {
    forall i, j :: 0 <= i < j < |ps| ==> ps[i].createdAt <= ps[j].createdAt
  }

  // ---------------------------------------------------------------------
  // Table invariants, stated over values
  // ---------------------------------------------------------------------

  predicate UniqueIds(ps: seq<Point>)
  {
    forall i, j :: 0 <= i < j < |ps| ==> ps[i].id != ps[j].id
  }

  /** A stored point: fresh id, existing base, non-blank content, synced only with its own index id, stamped in the past. */
  predicate PointOk(p: Point, bases: map<BaseId, Base>, clock: nat, nextId: nat)
  {
    && p.id < nextId
    && p.baseId in bases
    && !IsBlank(p.content)
    && (p.synced ==> p.indexId == Some(p.id))
    && p.createdAt < clock
    && p.updatedAt < clock
  }

  predicate BasesOk(bases: map<BaseId, Base>, clock: nat, nextId: nat)
  {
    && (forall b :: b in bases ==> b < nextId && bases[b].createdAt < clock)
    && (forall b1, b2 :: b1 in bases && b2 in bases && b1 != b2 ==>
          bases[b1].collectionName != bases[b2].collectionName)
  }

  predicate Consistent(bases: map<BaseId, Base>, ps: seq<Point>, clock: nat, nextId: nat)
  {
    && UniqueIds(ps)
    && (forall i :: 0 <= i < |ps| ==> PointOk(ps[i], bases, clock, nextId))
    && OldestFirst(ps)
    && BasesOk(bases, clock, nextId)
  }

  /** More bases, a later clock and a larger id counter keep a consistent table consistent. */
  lemma ConsistentGrow(bases: map<BaseId, Base>, ps: seq<Point>, clock: nat, nextId: nat,
                       bases': map<BaseId, Base>, clock': nat, nextId': nat)
    requires Consistent(bases, ps, clock, nextId)
    requires bases.Keys <= bases'.Keys && clock <= clock' && nextId <= nextId'
    requires BasesOk(bases', clock', nextId')
    ensures Consistent(bases', ps, clock', nextId')
  {
    forall i | 0 <= i < |ps|
      ensures PointOk(ps[i], bases', clock', nextId')
    {
      assert PointOk(ps[i], bases, clock, nextId);
    }
  }

  /** Appending fresh, well-formed points stamped no earlier than the clock keeps the table consistent. */
  lemma ConsistentAppend(bases: map<BaseId, Base>, ps: seq<Point>, clock: nat, nextId: nat,
                         news: seq<Point>, clock': nat, nextId': nat)
    requires Consistent(bases, ps, clock, nextId)
    requires clock <= clock' && nextId <= nextId'
    requires UniqueIds(news) && OldestFirst(news)
    requires forall k :: 0 <= k < |news| ==>
               PointOk(news[k], bases, clock', nextId') && news[k].id >= nextId && news[k].createdAt >= clock
    ensures Consistent(bases, ps + news, clock', nextId')
  {
    ConsistentGrow(bases, ps, clock, nextId, bases, clock', nextId');
    var all := ps + news;
    forall i, j | 0 <= i < j < |all|
      ensures all[i].id != all[j].id && all[i].createdAt <= all[j].createdAt
    {
      if j < |ps| {
      } else if i < |ps| {
        assert PointOk(ps[i], bases, clock, nextId);
        assert all[j] == news[j - |ps|];
      } else {
        assert all[i] == news[i - |ps|] && all[j] == news[j - |ps|];
      }
    }
    forall i | 0 <= i < |all|
      ensures PointOk(all[i], bases, clock', nextId')
    {
      if i >= |ps| {
        assert all[i] == news[i - |ps|];
      }
    }
  }

  /** Replacing a point by one with the same id and creation time keeps the table consistent. */
  lemma ConsistentReplace(bases: map<BaseId, Base>, ps: seq<Point>, clock: nat, nextId: nat,
                          i: nat, p: Point, clock': nat)
    requires Consistent(bases, ps, clock, nextId)
    requires i < |ps| && p.id == ps[i].id && p.createdAt == ps[i].createdAt
    requires clock <= clock' && PointOk(p, bases, clock', nextId)
    ensures Consistent(bases, ps[i := p], clock', nextId)
  {
    ConsistentGrow(bases, ps, clock, nextId, bases, clock', nextId);
  }

  /** Removing one point keeps the table consistent. */
  lemma ConsistentRemove(bases: map<BaseId, Base>, ps: seq<Point>, clock: nat, nextId: nat, i: nat)
    requires Consistent(bases, ps, clock, nextId)
    requires i < |ps|
    ensures Consistent(bases, ps[..i] + ps[i + 1..], clock, nextId)
  {
    var r := ps[..i] + ps[i + 1..];
    assert forall k :: 0 <= k < |r| ==> r[k] == (if k < i then ps[k] else ps[k + 1]);
  }

  /** Dropping a base together with its points keeps the table consistent. */
  lemma ConsistentDropBase(bases: map<BaseId, Base>, ps: seq<Point>, clock: nat, nextId: nat, b: BaseId)
    requires Consistent(bases, ps, clock, nextId)
    ensures Consistent(bases - {b}, Filter(ps, (p: Point) => p.baseId != b), clock, nextId)
  {
    var keep := (p: Point) => p.baseId != b;
    FilterKeepsOrder(ps, keep, (p: Point) => p.createdAt);
    KeptUnique(ps, keep);
    KeptPointsOk(bases, ps, clock, nextId, b, keep);
    assert BasesOk(bases - {b}, clock, nextId);
  }

  lemma KeptUnique(ps: seq<Point>, keep: Point -> bool)
    requires UniqueIds(ps)
    ensures UniqueIds(Filter(ps, keep))
  {
    var kept := Filter(ps, keep);
    forall i, j | 0 <= i < j < |kept|
      ensures kept[i].id != kept[j].id
    {
      KeptDistinct(ps, keep, i, j);
    }
  }

  lemma KeptPointsOk(bases: map<BaseId, Base>, ps: seq<Point>, clock: nat, nextId: nat, b: BaseId,
                      keep: Point -> bool)
    requires forall i :: 0 <= i < |ps| ==> PointOk(ps[i], bases, clock, nextId)
    requires forall p :: keep(p) ==> p.baseId != b
    ensures forall i :: 0 <= i < |Filter(ps, keep)| ==> PointOk(Filter(ps, keep)[i], bases - {b}, clock, nextId)
  {
    var kept := Filter(ps, keep);
    forall i | 0 <= i < |kept|
      ensures PointOk(kept[i], bases - {b}, clock, nextId)
    {
      assert kept[i] in ps;
      var k :| 0 <= k < |ps| && ps[k] == kept[i];
      assert PointOk(ps[k], bases, clock, nextId);
    }
  }

  /** `WHERE knowledge_base_id = %s AND synced_to_qdrant = false`, in table order. */
  function Unsynced(ps: seq<Point>, baseId: BaseId): (r: seq<Point>)
    ensures forall p :: p in r <==> p in ps && p.baseId == baseId && !p.synced
  {
    Filter(ps, (p: Point) => p.baseId == baseId && !p.synced)
  }

  /** The rows an import adds are unique, oldest first, and well formed. */
  lemma ImportedPointsOk(accepted: seq<Accepted>, bases: map<BaseId, Base>, baseId: BaseId,
                         clock: nat, nextId: nat)
    requires baseId in bases
    requires forall k :: 0 <= k < |accepted| ==> !IsBlank(accepted[k].content)
    ensures var news := ImportedPoints(accepted, nextId, baseId, clock);
            && UniqueIds(news) && OldestFirst(news)
            && forall k :: 0 <= k < |news| ==>
                 PointOk(news[k], bases, clock + 1, nextId + |accepted|) && news[k].id >= nextId
                 && news[k].createdAt >= clock
  {
  }

  /**
   * One page of a list ordered oldest first, shown newest first: page `page`
   * of `pageSize` rows starts `(page - 1) * pageSize` rows from the newest.
   * A page size that is not positive or a page before the first makes the
   * query fail.
   */
  function PageOf(matching: seq<Point>, page: int, pageSize: int): (r: Result<PointList, KbError>)
    ensures pageSize <= 0 ==> r == Err(ListFailed)
    ensures pageSize > 0 ==> (r.Err? <==> page < 1)
    ensures r.Ok? ==>
              var off := (page - 1) * pageSize;
              && off >= 0
              && r.value.total == |matching| && r.value.page == page && r.value.pageSize == pageSize
              && r.value.totalPages * pageSize >= |matching|
              && (|matching| > 0 ==> (r.value.totalPages - 1) * pageSize < |matching|)
              && |r.value.rows| == (if off >= |matching| then 0 else Min(pageSize, |matching| - off))
              && forall k :: 0 <= k < |r.value.rows| ==>
                   r.value.rows[k] == View(matching[|matching| - 1 - off - k])
  {
    var total := |matching|;
    match Paginate(total, page, pageSize)
    case None => Err(ListFailed)
    case Some(pg) =>
      OffsetSign(page, pageSize);
      if pageSize < 0 || pg.offset < 0 then Err(ListFailed)
      else
        var off := pg.offset;
        var from := Min(off, total);
        var to := Min(off + pageSize, total);
        var rows := seq(to - from, k requires 0 <= k < to - from => View(matching[total - 1 - from - k]));
        Ok(PointList(rows, total, page, pg.totalPages, pageSize))
  }

  /** With a positive page size the offset `(page - 1) * pageSize` is negative exactly before the first page. */
  lemma OffsetSign(page: int, pageSize: int)
    ensures pageSize > 0 ==> ((page - 1) * pageSize < 0 <==> page < 1)
  {
    if pageSize > 0 && page < 1 {
      assert (page - 1) * pageSize <= -pageSize;
    }
  }

  /** The points of a base that a list query shows: those matching the search text. */
  function Matching(ps: seq<Point>, search: string): (r: seq<Point>)
    ensures forall p :: p in r <==> p in ps && MatchesSearch(p, search)
  {
    Filter(ps, (p: Point) => MatchesSearch(p, search))
  }

  /** An empty search text keeps every point, in order. */
  lemma MatchingEverything(ps: seq<Point>)
    ensures Matching(ps, []) == ps
  {
    FilterAll(ps, (p: Point) => MatchesSearch(p, []));
  }

  /** The collection name create_base uses: the given one, stripped, or the one derived from the stripped name. */
  function ChosenCollectionName(name: string, collectionName: string): string
  {
    if Strip(collectionName) == [] then DeriveCollectionName(Strip(name)) else Strip(collectionName)
  }

  /** A new base gets a fresh id and a collection name nobody uses, which keeps the bases well formed. */
  lemma BaseAdded(bases: map<BaseId, Base>, clock: nat, nextId: nat, b: Base)
    requires BasesOk(bases, clock, nextId)
    requires b.createdAt <= clock
    requires forall x :: x in bases ==> bases[x].collectionName != b.collectionName
    ensures nextId !in bases
    ensures BasesOk(bases[nextId := b], clock + 1, nextId + 1)
  {
  }

  // ---------------------------------------------------------------------
  // The store
  // ---------------------------------------------------------------------

  class KnowledgeStore {
    var bases: map<BaseId, Base>
    var points: seq<Point>
    var clock: nat
    var nextId: nat

    /**
     * Point ids are unique and fresh, every point belongs to an existing base,
     * stored content is never blank, a synced point carries its own id as its
     * index id, points are held oldest first, collection names are unique, and
     * all timestamps lie in the past.
     */
    predicate Valid()
      reads this
    {
      Consistent(bases, points, clock, nextId)
    }

    constructor()
      ensures Valid() && bases == map[] && points == []
    {
      bases := map[];
      points := [];
      clock := 0;
      nextId := 0;
    }

    /** The points of one base, in insertion (oldest first) order. */
    function PointsOf(baseId: BaseId): (r: seq<Point>)
      reads this
      ensures forall p :: p in r <==> p in points && p.baseId == baseId
    {
      Filter(points, (p: Point) => p.baseId == baseId)
    }

    /** total_points, derived from the points. */
    function TotalPoints(baseId: BaseId): nat
      reads this
    {
      |PointsOf(baseId)|
    }

    /** synced_points, derived from the points. */
    function SyncedPoints(baseId: BaseId): (n: nat)
      reads this
      ensures n <= TotalPoints(baseId)
    {
      |Filter(PointsOf(baseId), (p: Point) => p.synced)|
    }

    /** The points sync selects: this base's unsynced points, in insertion order. */
    function PendingOf(baseId: BaseId): (r: seq<Point>)
      reads this
      ensures forall p :: p in r <==> p in points && p.baseId == baseId && !p.synced
    {
      Unsynced(points, baseId)
    }

    /** The pending points come out ordered by created_at ascending. */
    lemma PendingOldestFirst(baseId: BaseId)
      requires Valid()
      ensures OldestFirst(PendingOf(baseId))
    {
      FilterKeepsOrder(points, (p: Point) => p.baseId == baseId && !p.synced, (p: Point) => p.createdAt);
    }

    predicate CollectionNameInUse(collectionName: string)
      reads this
    {
      exists b :: b in bases && bases[b].collectionName == collectionName
    }

    /** create_base: the collection name is the given one, or derived from the name when none is given. */
    method CreateBase(name: string, description: string, collectionName: string) returns (r: Result<BaseId, KbError>)
      requires Valid()
      modifies this
      ensures Valid()
      ensures points == old(points)
      ensures Strip(name) == [] ==> r == Err(NameRequired)
      ensures Strip(name) != [] && old(CollectionNameInUse(ChosenCollectionName(name, collectionName))) ==>
                r == Err(CollectionNameTaken(ChosenCollectionName(name, collectionName)))
      ensures Strip(name) != [] && !old(CollectionNameInUse(ChosenCollectionName(name, collectionName))) ==> r.Ok?
      ensures r.Err? ==> bases == old(bases)
      ensures r.Ok? ==>
                && r.value !in old(bases)
                && bases == old(bases)[r.value := Base(Strip(name), Strip(description),
                                                       ChosenCollectionName(name, collectionName), Dimensions,
                                                       DefaultEmbeddingModel, None, old(clock))]
    {
      var nombre := Strip(name);
      var descripcion := Strip(description);
      var collection := Strip(collectionName);
      if nombre == [] {
        return Err(NameRequired);
      }
      if collection == [] {
        collection := DeriveCollectionName(nombre);
      }
      if CollectionNameInUse(collection) {
        return Err(CollectionNameTaken(collection));
      }
      var id := nextId;
      var base := Base(nombre, descripcion, collection, Dimensions, DefaultEmbeddingModel, None, clock);
      BaseAdded(bases, clock, nextId, base);
      var bases' := bases[id := base];
      ConsistentGrow(bases, points, clock, nextId, bases', clock + 1, nextId + 1);
      bases := bases';
      nextId := nextId + 1;
      clock := clock + 1;
      r := Ok(id);
    }

    /** delete_base: the base and, by the table's cascade, its points; the index is not touched. */
    method DeleteBase(baseId: BaseId) returns (r: Result<(), KbError>)
      requires Valid()
      modifies this
      ensures Valid()
      ensures baseId !in old(bases) ==> r == Err(BaseNotFound) && bases == old(bases) && points == old(points)
      ensures baseId in old(bases) ==>
                && r.Ok?
                && bases == old(bases) - {baseId}
                && points == Filter(old(points), (p: Point) => p.baseId != baseId)
    {
      if baseId !in bases {
        return Err(BaseNotFound);
      }
      ConsistentDropBase(bases, points, clock, nextId, baseId);
      bases := bases - {baseId};
      points := Filter(points, (p: Point) => p.baseId != baseId);
      r := Ok(());
    }

    /** create_point: the stripped content, unsynced, stamped now. */
    method CreatePoint(baseId: BaseId, content: string, metadata: Metadata) returns (r: Result<PointId, KbError>)
      requires Valid()
      modifies this
      ensures Valid()
      ensures bases == old(bases)
      ensures IsBlank(content) ==> r == Err(ContentRequired)
      ensures !IsBlank(content) && baseId !in bases ==> r == Err(BaseNotFound)
      ensures r.Err? ==> points == old(points)
      ensures !IsBlank(content) && baseId in bases ==>
                && r == Ok(old(nextId))
                && points == old(points) + [Point(old(nextId), baseId, Strip(content), StoredMetadata(metadata),
                                                  false, None, old(clock), old(clock))]
    {
      var pageContent := Strip(content);
      StripEmptyIffBlank(content);
      if pageContent == [] {
        return Err(ContentRequired);
      }
      if baseId !in bases {
        return Err(BaseNotFound);
      }
      StripIdempotent(content);
      StripEmptyIffBlank(pageContent);
      var p := Point(nextId, baseId, pageContent, StoredMetadata(metadata), false, None, clock, clock);
      ConsistentAppend(bases, points, clock, nextId, [p], clock + 1, nextId + 1);
      points := points + [p];
      nextId := nextId + 1;
      clock := clock + 1;
      r := Ok(p.id);
    }

    /** import_points_batch: a missing or empty array is refused; every other item is inserted or logged. */
    method ImportPoints(baseId: BaseId, body: Option<seq<ImportItem>>) returns (r: Result<ImportReport, KbError>)
      requires Valid()
      modifies this
      ensures Valid()
      ensures bases == old(bases)
      ensures (body.None? || body.value == []) ==> r == Err(PointsRequired)
      ensures body.Some? && body.value != [] && baseId !in bases ==> r == Err(BaseNotFound)
      ensures r.Err? ==> points == old(points)
      ensures body.Some? && body.value != [] && baseId in bases ==>
                && r == Ok(ImportReport(|AcceptedItems(body.value)|, RejectedItems(body.value)))
                && points == old(points) + ImportedPoints(AcceptedItems(body.value), old(nextId), baseId, old(clock))
    {
      if body.None? || body.value == [] {
        return Err(PointsRequired);
      }
      if baseId !in bases {
        return Err(BaseNotFound);
      }
      var items := body.value;
      var inserted, errors, rows := ImportLoop(items, nextId, baseId, clock);
      ImportOutcomeShape(items);
      ImportedPointsOk(AcceptedItems(items), bases, baseId, clock, nextId);
      ConsistentAppend(bases, points, clock, nextId, rows, clock + 1, nextId + inserted);
      points := points + rows;
      nextId := nextId + inserted;
      clock := clock + 1;
      r := Ok(ImportReport(inserted, errors));
    }

    /** The position of a point in the table, if any. */
    function IndexOf(id: PointId): (r: Option<nat>)
      reads this
      ensures r.None? <==> forall i :: 0 <= i < |points| ==> points[i].id != id
      ensures r.Some? ==> r.value < |points| && points[r.value].id == id
    {
      IndexIn(points, id)
    }

    /** get_point */
    function GetPoint(id: PointId): (r: Option<Point>)
      reads this
      ensures r.None? <==> forall i :: 0 <= i < |points| ==> points[i].id != id
      ensures r.Some? ==> r.value in points && r.value.id == id
    {
      match IndexOf(id)
      case None => None
      case Some(i) => Some(points[i])
    }

    /** update_point: new content and metadata, reset to unsynced; the index id is kept. */
    method UpdatePoint(id: PointId, content: string, metadata: Metadata) returns (r: Result<Point, KbError>)
      requires Valid()
      modifies this
      ensures Valid()
      ensures bases == old(bases)
      ensures IsBlank(content) ==> r == Err(ContentRequired)
      ensures !IsBlank(content) && old(IndexOf(id)).None? ==> r == Err(PointNotFound)
      ensures r.Err? ==> points == old(points)
      ensures !IsBlank(content) && old(IndexOf(id)).Some? ==>
                var i := old(IndexOf(id)).value;
                && r.Ok?
                && r.value == old(points[i]).(content := Strip(content), metadata := StoredMetadata(metadata),
                                              synced := false, updatedAt := old(clock))
                && points == old(points)[i := r.value]
    {
      var pageContent := Strip(content);
      StripEmptyIffBlank(content);
      if pageContent == [] {
        return Err(ContentRequired);
      }
      var found := IndexOf(id);
      if found.None? {
        return Err(PointNotFound);
      }
      StripIdempotent(content);
      StripEmptyIffBlank(pageContent);
      var i := found.value;
      var p := points[i].(content := pageContent, metadata := StoredMetadata(metadata), synced := false, updatedAt := clock);
      assert PointOk(points[i], bases, clock, nextId);
      ConsistentReplace(bases, points, clock, nextId, i, p, clock + 1);
      points := points[i := p];
      clock := clock + 1;
      r := Ok(p);
    }

    /** delete_point: the row only; the index is not touched. */
    method DeletePoint(id: PointId) returns (r: Result<(), KbError>)
      requires Valid()
      modifies this
      ensures Valid()
      ensures bases == old(bases)
      ensures old(IndexOf(id)).None? ==> r == Err(PointNotFound) && points == old(points)
      ensures old(IndexOf(id)).Some? ==>
                var i := old(IndexOf(id)).value;
                r.Ok? && points == old(points)[..i] + old(points)[i + 1..]
    {
      var found := IndexOf(id);
      if found.None? {
        return Err(PointNotFound);
      }
      var i := found.value;
      ConsistentRemove(bases, points, clock, nextId, i);
      points := points[..i] + points[i + 1..];
      r := Ok(());
    }

    /**
     * list_points: the points of a base matching the search text, newest first, one page of them.
     * The search text is stripped first; a blank one filters nothing.
     */
    function ListPoints(baseId: BaseId, page: int, pageSize: int, search: string): (r: Result<PointList, KbError>)
      reads this
      ensures pageSize <= 0 ==> r == Err(ListFailed)
      ensures pageSize > 0 ==> (r.Err? <==> page < 1)
      ensures r == PageOf(Matching(PointsOf(baseId), Strip(search)), page, pageSize)
      ensures IsBlank(search) ==> r == PageOf(PointsOf(baseId), page, pageSize)
    {
      StripEmptyIffBlank(search);
      MatchingEverything(PointsOf(baseId));
      PageOf(Matching(PointsOf(baseId), Strip(search)), page, pageSize)
    }
  }

  function IndexIn(ps: seq<Point>, id: PointId): (r: Option<nat>)
    ensures r.None? <==> forall i :: 0 <= i < |ps| ==> ps[i].id != id
    ensures r.Some? ==> r.value < |ps| && ps[r.value].id == id
  {
    if ps == [] then None
    else if ps[0].id == id then Some(0)
    else match IndexIn(ps[1..], id)
      case None => None
      case Some(i) => Some(i + 1)
  }

  /** Filtering a table whose ids are unique leaves ids unique. */
  lemma {:induction false} KeptDistinct(ps: seq<Point>, keep: Point -> bool, i: nat, j: nat)
    requires UniqueIds(ps)
    requires i < j < |Filter(ps, keep)|
    ensures Filter(ps, keep)[i].id != Filter(ps, keep)[j].id
  {
    var tail := ps[1..];
    var rest := Filter(tail, keep);
    UniqueTail(ps);
    if keep(ps[0]) {
      assert Filter(ps, keep) == [ps[0]] + rest;
      if i == 0 {
        HeadIdFresh(ps, rest[j - 1]);
      } else {
        KeptDistinct(tail, keep, i - 1, j - 1);
      }
    } else {
      assert Filter(ps, keep) == rest;
      KeptDistinct(tail, keep, i, j);
    }
  }

  lemma UniqueTail(ps: seq<Point>)
    requires UniqueIds(ps) && ps != []
    ensures UniqueIds(ps[1..])
  {
    var tail := ps[1..];
    forall a, b | 0 <= a < b < |tail| ensures tail[a].id != tail[b].id {
      assert tail[a] == ps[a + 1] && tail[b] == ps[b + 1];
    }
  }

  lemma HeadIdFresh(ps: seq<Point>, x: Point)
    requires UniqueIds(ps) && ps != [] && x in ps[1..]
    ensures x.id != ps[0].id
  {
    var k :| 0 <= k < |ps[1..]| && ps[1..][k] == x;
    assert ps[k + 1] == x;
  }

}
