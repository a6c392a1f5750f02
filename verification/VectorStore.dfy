/** The scoped points of `QdrantVectorStore` (qdrant.py), updated in place. */
module VectorStore {
  import opened Common
  import opened Embedding

  type PointId = string

  /** A repository version of one source. */
  datatype Scope = Scope(source: string, repository: nat, version: nat)

  /** A point and its payload. */
  datatype Record = Record(
    scope: Scope, chunk: Chunk, fingerprint: string, policy: string, model: string, vector: Vector)

  /** What `deterministic_point_id` hashes. */
  datatype Identity = Identity(scope: Scope, filePath: string, contentHash: string, chunkType: string, ordinal: nat)

  datatype Naming = Naming(pointId: Identity -> PointId)

  ghost predicate InjectiveIds(n: Naming) {
    forall a, b :: n.pointId(a) == n.pointId(b) ==> a == b
  }

  function IdOf(n: Naming, scope: Scope, c: Chunk): PointId {
    n.pointId(Identity(scope, c.filePath, c.contentHash, c.chunkType, c.ordinal))
  }

  /** The seven fields by which an old vector is found again. */
  datatype Key = Key(
    filePath: string, chunkType: string, contentHash: string, startLine: nat, endLine: nat,
    qualifiedName: Option<string>, fingerprint: string)

  function KeyOf(c: Chunk, fingerprint: string): Key {
    Key(c.filePath, c.chunkType, c.contentHash, c.startLine, c.endLine, c.qualifiedName, fingerprint)
  }

  datatype StoreError = InvalidVector | ScopeMismatch | DeleteFailed | UpsertFailed | InvalidReuse | VectorCountMismatch | MetadataMismatch

  type Points = map<PointId, Record>

  function Outside(points: Points, scope: Scope): Points {
    map p | p in points && points[p].scope != scope :: points[p]
  }

  function Inside(points: Points, scope: Scope): Points {
    map p | p in points && points[p].scope == scope :: points[p]
  }

  datatype Put = Put(id: PointId, record: Record)

  function PutAll(points: Points, puts: seq<Put>): Points {
    if puts == [] then points
    else PutAll(points, puts[..|puts| - 1])[puts[|puts| - 1].id := puts[|puts| - 1].record]
  }

  lemma {:induction false} PutAllAppend(points: Points, a: seq<Put>, b: seq<Put>)
    ensures PutAll(points, a + b) == PutAll(PutAll(points, a), b)
  {
    if b == [] {
      assert a + b == a;
    } else {
      var before, last := b[..|b| - 1], b[|b| - 1];
      PutAllAppend(points, a, before);
      assert (a + b)[..|a + b| - 1] == a + before && (a + b)[|a + b| - 1] == last;
    }
  }

  /** The filter of a search for reusable vectors. */
  predicate Retrievable(t: Tools, scope: Scope, commit: string, r: Record) {
    r.scope == scope && r.chunk.commit == commit && r.model == t.model && r.policy == t.policy
  }

  function Retrievables(t: Tools, points: Points, scope: Scope, commit: string): Points {
    map p | p in points && Retrievable(t, scope, commit, points[p]) :: points[p]
  }

  function Wanted(docs: seq<Doc>): map<Key, nat> {
    if docs == [] then map[]
    else
      var d := docs[|docs| - 1];
      Wanted(docs[..|docs| - 1])[KeyOf(d.chunk, d.fingerprint) := d.id]
  }

  lemma {:induction false} WantedIsADoc(docs: seq<Doc>, key: Key)
    requires key in Wanted(docs)
    ensures exists d :: d in docs && KeyOf(d.chunk, d.fingerprint) == key && d.id == Wanted(docs)[key]
  {
    var d := docs[|docs| - 1];
    if KeyOf(d.chunk, d.fingerprint) != key {
      WantedIsADoc(docs[..|docs| - 1], key);
    }
  }

  /** Of several documents with one key, the last one takes the records with that key. */
  lemma {:induction false} LastDocIsWanted(docs: seq<Doc>, i: nat)
    requires i < |docs|
    requires forall k :: i < k < |docs| ==> KeyOf(docs[k].chunk, docs[k].fingerprint) != KeyOf(docs[i].chunk, docs[i].fingerprint)
    ensures var key := KeyOf(docs[i].chunk, docs[i].fingerprint); key in Wanted(docs) && Wanted(docs)[key] == docs[i].id
  {
    if i == |docs| - 1 {
    } else {
      LastDocIsWanted(docs[..|docs| - 1], i);
    }
  }

  lemma {:induction false} EarlierDocIsNotWanted(docs: seq<Doc>, i: nat, k: nat)
    requires DistinctIds(docs) && i < k < |docs|
    requires KeyOf(docs[i].chunk, docs[i].fingerprint) == KeyOf(docs[k].chunk, docs[k].fingerprint)
    ensures var key := KeyOf(docs[i].chunk, docs[i].fingerprint); key in Wanted(docs) && Wanted(docs)[key] != docs[i].id
  {
    if k == |docs| - 1 {
    } else {
      EarlierDocIsNotWanted(docs[..|docs| - 1], i, k);
    }
  }

  /** The record has a wanted key: the key of the document with this id. */
  predicate Meets(docs: seq<Doc>, r: Record, id: nat) {
    var key := KeyOf(r.chunk, r.fingerprint);
    key in Wanted(docs) && Wanted(docs)[key] == id
  }

  ghost predicate FoundIn(docs: seq<Doc>, records: seq<Record>, id: nat, v: Vector) {
    exists r :: r in records && Meets(docs, r, id) && r.vector == v
  }

  /** Every vector found is that of a record with a wanted key, and no wanted record is passed over. */
  ghost predicate Found(docs: seq<Doc>, records: seq<Record>, found: map<nat, Vector>) {
    && (forall id :: id in found ==> FoundIn(docs, records, id, found[id]))
    && (forall r, id :: r in records && Meets(docs, r, id) ==> id in found)
  }

  ghost predicate SomeInvalid(t: Tools, docs: seq<Doc>, records: seq<Record>) {
    exists r, id :: r in records && Meets(docs, r, id) && !t.valid(r.vector)
  }

  // ---------------------------------------------------------------- the server

  /** How one write of a batch ends: a write that was carried out may still be reported as failed. */
  datatype Delivery = Acknowledged | LostReply | Refused

  ghost predicate Acceptable(t: Tools, scope: Scope, puts: seq<Put>) {
    forall k :: 0 <= k < |puts| ==> puts[k].record.scope == scope && t.valid(puts[k].record.vector)
  }

  ghost predicate AllAcknowledged(deliver: nat -> Delivery, batches: nat) {
    forall k: nat :: k < batches ==> deliver(k).Acknowledged?
  }

  /** The first batch that failed is `failed`; it is written if only its reply was lost. */
  ghost predicate FailedAt(deliver: nat -> Delivery, failed: nat, batches: nat) {
    && AllAcknowledged(deliver, failed) && !deliver(failed).Acknowledged?
    && batches == if deliver(failed).LostReply? then failed + 1 else failed
  }

  /** The records that a paged scroll returns: each selected point once. */
  ghost predicate IsListing(selected: Points, records: seq<Record>, ids: seq<PointId>) {
    && |ids| == |records|
    && (forall i, k :: 0 <= i < k < |ids| ==> ids[i] != ids[k])
    && (forall p :: p in ids <==> p in selected)
    && (forall i :: 0 <= i < |ids| ==> records[i] == selected[ids[i]])
  }

  function Flat(pages: seq<seq<Record>>): seq<Record> {
    if pages == [] then [] else Flat(pages[..|pages| - 1]) + pages[|pages| - 1]
  }

  ghost predicate Lists(selected: Points, pages: seq<seq<Record>>) {
    exists ids :: IsListing(selected, Flat(pages), ids)
  }

  lemma {:induction false} DistinctSize(ids: seq<PointId>)
    requires forall i, k :: 0 <= i < k < |ids| ==> ids[i] != ids[k]
    ensures |set p | p in ids| == |ids|
  {
    if ids == [] {
    } else {
      var before, last := ids[..|ids| - 1], ids[|ids| - 1];
      DistinctSize(before);
      assert (set p | p in ids) == (set p | p in before) + {last};
    }
  }

  ghost predicate IsPointOf(selected: Points, r: Record) {
    exists p :: p in selected && selected[p] == r
  }

  lemma ListedIsSelected(selected: Points, records: seq<Record>, ids: seq<PointId>, r: Record)
    requires IsListing(selected, records, ids) && r in records
    ensures IsPointOf(selected, r)
  {
    var i :| 0 <= i < |records| && records[i] == r;
    assert ids[i] in ids;
  }

  lemma SelectedIsListed(selected: Points, records: seq<Record>, ids: seq<PointId>, p: PointId)
    requires IsListing(selected, records, ids) && p in selected
    ensures selected[p] in records
  {
    assert p in ids;
    var i :| 0 <= i < |ids| && ids[i] == p;
    assert records[i] == selected[p];
  }

  lemma ListedCount(selected: Points, records: seq<Record>, ids: seq<PointId>)
    requires IsListing(selected, records, ids)
    ensures |records| == |selected|
  {
    DistinctSize(ids);
    assert (set p | p in ids) == selected.Keys;
    assert |selected| == |selected.Keys|;
  }

  lemma ListingFacts(selected: Points, pages: seq<seq<Record>>)
    requires Lists(selected, pages)
    ensures |Flat(pages)| == |selected|
    ensures forall r :: r in Flat(pages) ==> IsPointOf(selected, r)
    ensures forall p :: p in selected ==> selected[p] in Flat(pages)
  {
    var ids :| IsListing(selected, Flat(pages), ids);
    hide IsListing, Flat, IsPointOf;
    var records := Flat(pages);
    ListedCount(selected, records, ids);
    forall r | r in records ensures IsPointOf(selected, r) { ListedIsSelected(selected, records, ids, r); }
    forall p | p in selected ensures selected[p] in records { SelectedIsListed(selected, records, ids, p); }
  }

  method CheckRecords(t: Tools, scope: Scope, puts: seq<Put>) returns (error: Option<StoreError>)
    ensures error.None? <==> Acceptable(t, scope, puts)
    ensures error.Some? ==> error == Some(ScopeMismatch) || error == Some(InvalidVector)
  {
    for k := 0 to |puts|
      invariant forall i :: 0 <= i < k ==> puts[i].record.scope == scope && t.valid(puts[i].record.vector)
    {
      if puts[k].record.scope != scope {
        return Some(ScopeMismatch);
      }
      if !t.valid(puts[k].record.vector) {
        return Some(InvalidVector);
      }
    }
    return None;
  }

  lemma NothingWritten(points: Points, puts: seq<Put>, batchSize: nat)
    ensures BatchEnd(0, batchSize, |puts|) == 0 && PutAll(points, puts[..0]) == points
  {
  }

  lemma PutAllSlice(points: Points, puts: seq<Put>, offset: nat, end: nat)
    requires offset <= end <= |puts|
    ensures PutAll(points, puts[..end]) == PutAll(PutAll(points, puts[..offset]), puts[offset..end])
  {
    hide PutAll;
    PutAllAppend(points, puts[..offset], puts[offset..end]);
    assert puts[..end] == puts[..offset] + puts[offset..end];
  }

  lemma NextBatch(points: Points, puts: seq<Put>, batchSize: nat, k: nat)
    ensures var offset, end := BatchEnd(k, batchSize, |puts|), BatchEnd(k + 1, batchSize, |puts|);
            && end == Min(offset + batchSize, |puts|)
            && PutAll(points, puts[..end]) == PutAll(PutAll(points, puts[..offset]), puts[offset..end])
  {
    hide BatchEnd, PutAll;
    BatchEndSteps(k, batchSize, |puts|);
    PutAllSlice(points, puts, BatchEnd(k, batchSize, |puts|), BatchEnd(k + 1, batchSize, |puts|));
  }

  lemma NothingAcknowledged(deliver: nat -> Delivery)
    ensures AllAcknowledged(deliver, 0)
  {
  }

  lemma OneMoreAcknowledged(deliver: nat -> Delivery, batches: nat)
    requires AllAcknowledged(deliver, batches) && deliver(batches).Acknowledged?
    ensures AllAcknowledged(deliver, batches + 1)
  {
  }

  lemma FirstFailure(deliver: nat -> Delivery, failed: nat, batches: nat)
    requires AllAcknowledged(deliver, failed) && !deliver(failed).Acknowledged?
    requires batches == if deliver(failed).LostReply? then failed + 1 else failed
    ensures FailedAt(deliver, failed, batches)
  {
  }

  lemma NothingPaged(pages: seq<seq<Record>>)
    requires pages == []
    ensures Flat(pages) == []
  {
  }

  lemma {:induction false} PagedIsFlat(pages: seq<seq<Record>>, p: nat, k: nat)
    requires p < |pages| && k < |pages[p]|
    ensures pages[p][k] in Flat(pages)
  {
    if p == |pages| - 1 {
    } else {
      PagedIsFlat(pages[..|pages| - 1], p, k);
    }
  }

  predicate MetadataOk(t: Tools, scope: Scope, commit: string, r: Record) {
    r.scope == scope && r.chunk.commit == commit && r.model == t.model
  }

  lemma Mismatch(t: Tools, scope: Scope, commit: string, r: Record)
    requires r.scope != scope || r.chunk.commit != commit || r.model != t.model
    ensures !MetadataOk(t, scope, commit, r)
  {
  }

  lemma Match(t: Tools, scope: Scope, commit: string, r: Record)
    requires r.scope == scope && r.chunk.commit == commit && r.model == t.model
    ensures MetadataOk(t, scope, commit, r)
  {
  }

  ghost predicate AllMatch(t: Tools, scope: Scope, commit: string, points: Points) {
    forall p :: p in points ==> MetadataOk(t, scope, commit, points[p])
  }

  /** The points of a scope, and what validation asks of each. */
  lemma MatchIff(t: Tools, scope: Scope, commit: string, points: Points)
    ensures |Inside(points, scope)| == |set p | p in points && points[p].scope == scope|
    ensures AllMatch(t, scope, commit, Inside(points, scope)) <==>
              forall p :: p in points && points[p].scope == scope ==> points[p].chunk.commit == commit && points[p].model == t.model
  {
    assert Inside(points, scope).Keys == set p | p in points && points[p].scope == scope;
    assert |Inside(points, scope)| == |Inside(points, scope).Keys|;
    forall p | p in points && points[p].scope == scope ensures p in Inside(points, scope) {}
  }

  lemma FlatNext(pages: seq<seq<Record>>, p: nat)
    requires p < |pages|
    ensures Flat(pages[..p + 1]) == Flat(pages[..p]) + pages[p]
  {
    assert pages[..p + 1][..p] == pages[..p];
  }

  class Store {
    var points: Points

    constructor ()
      ensures points == map[]
    {
      points := map[];
    }

    method DeleteScope(scope: Scope, deliver: Delivery) returns (error: Option<StoreError>)
      modifies this
      ensures forall p :: p in points <==> p in old(points) && (deliver.Refused? || old(points)[p].scope != scope)
      ensures forall p :: p in points ==> points[p] == old(points)[p]
      ensures points == if deliver.Refused? then old(points) else Outside(old(points), scope)
      ensures error == if deliver.Acknowledged? then None else Some(DeleteFailed)
    {
      if !deliver.Refused? {
        points := map p | p in points && points[p].scope != scope :: points[p];
      }
      return if deliver.Acknowledged? then None else Some(DeleteFailed);
    }

    /**
     * All records are checked before the first is written. A failing batch leaves the batches before
     * it; `deliver` is what becomes of each batch and `batches` how many were written.
     */
    method Upsert(t: Tools, scope: Scope, puts: seq<Put>, batchSize: nat, deliver: nat -> Delivery)
      returns (error: Option<StoreError>, ghost batches: nat)
      requires batchSize >= 1
      modifies this
      ensures points == PutAll(old(points), puts[..BatchEnd(batches, batchSize, |puts|)])
      ensures (exists k :: 0 <= k < |puts| && (puts[k].record.scope != scope || !t.valid(puts[k].record.vector)))
              <==> error == Some(ScopeMismatch) || error == Some(InvalidVector)
      ensures !Acceptable(t, scope, puts) <==> error == Some(ScopeMismatch) || error == Some(InvalidVector)
      ensures !Acceptable(t, scope, puts) ==> batches == 0
      ensures error.None? ==> BatchEnd(batches, batchSize, |puts|) == |puts| && AllAcknowledged(deliver, batches)
      ensures error.Some? && Acceptable(t, scope, puts) ==>
                error == Some(UpsertFailed)
                && exists failed :: FailedAt(deliver, failed, batches) && BatchEnd(failed, batchSize, |puts|) < |puts|
    {
      hide PutAll, AllAcknowledged, FailedAt, BatchEnd;
      batches := 0;
      NothingWritten(points, puts, batchSize);
      NothingAcknowledged(deliver);
      error := CheckRecords(t, scope, puts);
      if error.Some? {
        return error, 0;
      }
      var offset, batch := 0, 0;
      while offset < |puts|
        invariant offset == BatchEnd(batch, batchSize, |puts|) <= |puts| && batches == batch
        invariant points == PutAll(old(points), puts[..offset])
        invariant AllAcknowledged(deliver, batch)
      {
        var end := Min(offset + batchSize, |puts|);
        NextBatch(old(points), puts, batchSize, batch);
        if !deliver(batch).Refused? {
          WriteBatch(puts[offset..end]);
        }
        if !deliver(batch).Acknowledged? {
          batches := if deliver(batch).LostReply? then batch + 1 else batch;
          FirstFailure(deliver, batch, batches);
          return Some(UpsertFailed), batches;
        }
        OneMoreAcknowledged(deliver, batch);
        offset, batch, batches := end, batch + 1, batch + 1;
      }
      return None, batches;
    }

    method WriteBatch(batch: seq<Put>)
      modifies this
      ensures points == PutAll(old(points), batch)
    {
      for k := 0 to |batch|
        invariant points == PutAll(old(points), batch[..k])
      {
        assert batch[..k + 1][..k] == batch[..k];
        points := points[batch[k].id := batch[k].record];
      }
      assert batch[..|batch|] == batch;
    }

    method CountScope(scope: Scope) returns (count: nat)
      ensures count == |Inside(points, scope)|
    {
      count := |map p | p in points && points[p].scope == scope :: points[p]|;
    }

    /** `pages` is how the server pages the points of the scope. */
    method ValidateScope(t: Tools, scope: Scope, expected: nat, commit: string, pages: seq<seq<Record>>) returns (error: Option<StoreError>)
      requires Lists(Inside(points, scope), pages)
      ensures error.None? <==>
                && |set p | p in points && points[p].scope == scope| == expected
                && forall p :: p in points && points[p].scope == scope ==> points[p].chunk.commit == commit && points[p].model == t.model
      ensures error.None? <==> |Inside(points, scope)| == expected && AllMatch(t, scope, commit, Inside(points, scope))
      ensures error.Some? ==> error == Some(if |Inside(points, scope)| != expected then VectorCountMismatch else MetadataMismatch)
    {
      var count := CountScope(scope);
      MatchIff(t, scope, commit, points);
      ListingFacts(Inside(points, scope), pages);
      if count != expected {
        return Some(VectorCountMismatch);
      }
      var seen := 0;
      hide Lists, Inside, MetadataOk, Flat;
      assert Flat(pages[..0]) == [] by { NothingPaged(pages[..0]); }
      for p := 0 to |pages|
        invariant seen == |Flat(pages[..p])|
        invariant forall r :: r in Flat(pages[..p]) ==> MetadataOk(t, scope, commit, r)
      {
        FlatNext(pages, p);
        for k := 0 to |pages[p]|
          invariant forall i :: 0 <= i < k ==> MetadataOk(t, scope, commit, pages[p][i])
        {
          var r := pages[p][k];
          if r.scope != scope || r.chunk.commit != commit || r.model != t.model {
            PagedIsFlat(pages, p, k);
            Mismatch(t, scope, commit, r);
            return Some(MetadataMismatch);
          }
          Match(t, scope, commit, r);
        }
        seen := seen + |pages[p]|;
      }
      assert pages[..|pages|] == pages;
      if seen != expected {
        return Some(VectorCountMismatch);
      }
      return None;
    }
  }

  method CollectWanted(docs: seq<Doc>) returns (wanted: map<Key, nat>)
    ensures wanted == Wanted(docs)
  {
    wanted := map[];
    for i := 0 to |docs|
      invariant wanted == Wanted(docs[..i])
    {
      assert docs[..i + 1][..i] == docs[..i];
      wanted := wanted[KeyOf(docs[i].chunk, docs[i].fingerprint) := docs[i].id];
    }
    assert docs[..|docs|] == docs;
  }

  lemma NothingFound(t: Tools, docs: seq<Doc>)
    ensures Found(docs, Flat([]), map[]) && !SomeInvalid(t, docs, Flat([]))
  {
  }

  lemma InvalidMet(t: Tools, docs: seq<Doc>, records: seq<Record>, record: Record)
    requires record in records && KeyOf(record.chunk, record.fingerprint) in Wanted(docs) && !t.valid(record.vector)
    ensures SomeInvalid(t, docs, records)
  {
    assert Meets(docs, record, Wanted(docs)[KeyOf(record.chunk, record.fingerprint)]);
  }

  lemma StillFound(docs: seq<Doc>, records: seq<Record>, record: Record, id: nat, v: Vector)
    requires FoundIn(docs, records, id, v)
    ensures FoundIn(docs, records + [record], id, v)
  {
    var r :| r in records && Meets(docs, r, id) && r.vector == v;
    assert r in records + [record];
  }

  lemma PassedOver(t: Tools, docs: seq<Doc>, records: seq<Record>, found: map<nat, Vector>, record: Record)
    requires Found(docs, records, found) && !SomeInvalid(t, docs, records) && KeyOf(record.chunk, record.fingerprint) !in Wanted(docs)
    ensures Found(docs, records + [record], found) && !SomeInvalid(t, docs, records + [record])
  {
    forall id | id in found ensures FoundIn(docs, records + [record], id, found[id]) {
      StillFound(docs, records, record, id, found[id]);
    }
  }

  lemma FoundOne(t: Tools, docs: seq<Doc>, records: seq<Record>, found: map<nat, Vector>, record: Record)
    requires Found(docs, records, found) && !SomeInvalid(t, docs, records)
    requires KeyOf(record.chunk, record.fingerprint) in Wanted(docs) && t.valid(record.vector)
    ensures Found(docs, records + [record], found[Wanted(docs)[KeyOf(record.chunk, record.fingerprint)] := record.vector])
    ensures !SomeInvalid(t, docs, records + [record])
  {
    var wanted := Wanted(docs)[KeyOf(record.chunk, record.fingerprint)];
    assert record in records + [record] && Meets(docs, record, wanted);
    var after := found[wanted := record.vector];
    forall id | id in after ensures FoundIn(docs, records + [record], id, after[id]) {
      if id != wanted { StillFound(docs, records, record, id, found[id]); }
    }
  }

  /** `reusable_vectors`, over the records that the scroll returns page by page. */
  method ReusableVectors(t: Tools, docs: seq<Doc>, pages: seq<seq<Record>>) returns (r: Result<map<nat, Vector>, StoreError>)
    ensures r.Success? ==> Found(docs, Flat(pages), r.value) && forall id :: id in r.value ==> t.valid(r.value[id])
    ensures r.Failure? <==> SomeInvalid(t, docs, Flat(pages))
    ensures r.Failure? ==> r.error == InvalidReuse
  {
    hide Found, Flat, Wanted, KeyOf, SomeInvalid, Meets;
    NothingFound(t, docs);
    var wanted := CollectWanted(docs);
    var found: map<nat, Vector> := map[];
    for p := 0 to |pages|
      invariant Found(docs, Flat(pages[..p]), found) && !SomeInvalid(t, docs, Flat(pages[..p]))
      invariant forall id :: id in found ==> t.valid(found[id])
    {
      FlatNext(pages, p);
      assert Flat(pages[..p]) + pages[p][..0] == Flat(pages[..p]);
      for k := 0 to |pages[p]|
        invariant Found(docs, Flat(pages[..p]) + pages[p][..k], found) && !SomeInvalid(t, docs, Flat(pages[..p]) + pages[p][..k])
        invariant forall id :: id in found ==> t.valid(found[id])
      {
        var record := pages[p][k];
        var key := KeyOf(record.chunk, record.fingerprint);
        var seen := Flat(pages[..p]) + pages[p][..k];
        assert Flat(pages[..p]) + pages[p][..k + 1] == seen + [record];
        if key in wanted {
          if !t.valid(record.vector) {
            PagedIsFlat(pages, p, k);
            InvalidMet(t, docs, Flat(pages), record);
            return Failure(InvalidReuse);
          }
          FoundOne(t, docs, seen, found, record);
          found := found[wanted[key] := record.vector];
        } else {
          PassedOver(t, docs, seen, found, record);
        }
      }
      assert pages[p][..|pages[p]|] == pages[p];
    }
    assert pages[..|pages|] == pages;
    return Success(found);
  }
}
