/**
 * `_embed_and_store` (worker.py): whatever it reuses, a successful refresh leaves in its scope
 * exactly the index that embedding everything would leave.
 */
module IncrementalIndex {
  import opened Common
  import opened Embedding
  import opened VectorStore

  // ---------------------------------------------------------------- the full index

  function RecordOf(t: Tools, scope: Scope, d: Doc, v: Vector): Record {
    Record(scope, d.chunk, d.fingerprint, t.policy, t.model, v)
  }

  /** One point for each document, with the embedding of its text. */
  function FullPuts(t: Tools, n: Naming, scope: Scope, docs: seq<Doc>): (puts: seq<Put>)
    ensures |puts| == |docs|
  {
    seq(|docs|, i requires 0 <= i < |docs| =>
      Put(IdOf(n, scope, docs[i].chunk), RecordOf(t, scope, docs[i], t.embed(t.model, docs[i].text))))
  }

  function FullIndex(t: Tools, n: Naming, scope: Scope, docs: seq<Doc>): Points {
    PutAll(map[], FullPuts(t, n, scope, docs))
  }

  /** A vector is the embedding, by its model, of the text that its fingerprint identifies. */
  ghost predicate IsTrue(t: Tools, r: Record) {
    exists text: string :: r.fingerprint == t.fingerprint(r.policy, text) && r.vector == t.embed(r.model, text)
  }

  ghost predicate AllTrue(t: Tools, points: Points) {
    forall p :: p in points ==> IsTrue(t, points[p])
  }

  /** The documents that the preprocessor makes of chunks with distinct ordinals. */
  ghost predicate ArePrepared(t: Tools, docs: seq<Doc>) {
    DistinctIds(docs) && forall i :: 0 <= i < |docs| ==> docs[i] == Prepared(t, docs[i].chunk)
  }

  lemma {:induction false} PutKeys(points: Points, puts: seq<Put>, p: PointId)
    ensures p in PutAll(points, puts) ==> p in points || exists k :: 0 <= k < |puts| && puts[k].id == p
    ensures (forall k :: 0 <= k < |puts| ==> puts[k].id != p) ==>
              (p in PutAll(points, puts) <==> p in points) && (p in points ==> PutAll(points, puts)[p] == points[p])
  {
    if puts == [] {
    } else {
      var before, last := puts[..|puts| - 1], puts[|puts| - 1];
      PutKeys(points, before, p);
      if p in PutAll(points, puts) && p !in points {
        if last.id == p {
          assert puts[|puts| - 1].id == p;
        } else {
          var k :| 0 <= k < |before| && before[k].id == p;
          assert puts[k].id == p;
        }
      }
      if forall k :: 0 <= k < |puts| ==> puts[k].id != p {
        forall k | 0 <= k < |before| ensures before[k].id != p { assert puts[k].id != p; }
        assert puts[|puts| - 1].id != p;
      }
    }
  }

  lemma {:induction false} PutHolds(points: Points, puts: seq<Put>, k: nat)
    requires k < |puts| && forall i, j :: 0 <= i < j < |puts| ==> puts[i].id != puts[j].id
    ensures puts[k].id in PutAll(points, puts) && PutAll(points, puts)[puts[k].id] == puts[k].record
  {
    var before := puts[..|puts| - 1];
    if k == |puts| - 1 {
    } else {
      PutHolds(points, before, k);
      assert puts[k].id != puts[|puts| - 1].id;
    }
  }

  lemma OrdinalIsId(t: Tools, docs: seq<Doc>, i: nat)
    requires ArePrepared(t, docs) && i < |docs|
    ensures docs[i].chunk.ordinal == docs[i].id
  {
  }

  lemma IdsDiffer(t: Tools, n: Naming, scope: Scope, docs: seq<Doc>)
    requires InjectiveIds(n) && ArePrepared(t, docs)
    ensures var puts := FullPuts(t, n, scope, docs);
            forall i, j :: 0 <= i < j < |puts| ==> puts[i].id != puts[j].id
  {
    hide Prepared;
    forall i, j | 0 <= i < j < |docs| ensures IdOf(n, scope, docs[i].chunk) != IdOf(n, scope, docs[j].chunk) {
      OrdinalIsId(t, docs, i);
      OrdinalIsId(t, docs, j);
    }
  }

  /** Every chunk gets exactly one point, which holds the embedding of its text. */
  lemma FullIndexHolds(t: Tools, n: Naming, scope: Scope, docs: seq<Doc>, i: nat)
    requires InjectiveIds(n) && ArePrepared(t, docs) && i < |docs|
    ensures var index := FullIndex(t, n, scope, docs);
            var c := docs[i].chunk;
            var id := n.pointId(Identity(scope, c.filePath, c.contentHash, c.chunkType, c.ordinal));
            id in index && index[id] == Record(scope, c, docs[i].fingerprint, t.policy, t.model, t.embed(t.model, docs[i].text))
  {
    IdsDiffer(t, n, scope, docs);
    PutHolds(map[], FullPuts(t, n, scope, docs), i);
    assert FullPuts(t, n, scope, docs)[i].id == IdOf(n, scope, docs[i].chunk);
  }

  lemma PutAt(t: Tools, n: Naming, scope: Scope, docs: seq<Doc>, i: nat)
    requires i < |docs|
    ensures FullPuts(t, n, scope, docs)[i]
         == Put(IdOf(n, scope, docs[i].chunk), RecordOf(t, scope, docs[i], t.embed(t.model, docs[i].text)))
  {
  }

  lemma LastPut(t: Tools, n: Naming, scope: Scope, docs: seq<Doc>)
    requires docs != []
    ensures var last := FullPuts(t, n, scope, docs)[|docs| - 1];
            last.record.scope == scope && last.id == IdOf(n, scope, last.record.chunk)
  {
    PutAt(t, n, scope, docs, |docs| - 1);
  }

  lemma AddedSize(points: Points, p: PointId, r: Record)
    requires p !in points
    ensures |points[p := r]| == |points| + 1
  {
    assert points[p := r].Keys == points.Keys + {p};
    assert |points| == |points.Keys| && |points[p := r]| == |points[p := r].Keys|;
  }

  lemma {:induction false} FullIndexSize(t: Tools, n: Naming, scope: Scope, docs: seq<Doc>)
    requires InjectiveIds(n) && ArePrepared(t, docs)
    ensures |FullIndex(t, n, scope, docs)| == |docs|
    ensures forall p :: p in FullIndex(t, n, scope, docs) ==> FullIndex(t, n, scope, docs)[p].scope == scope
  {
    if docs == [] {
    } else {
      var before := docs[..|docs| - 1];
      assert ArePrepared(t, before);
      FullIndexSize(t, n, scope, before);
      var puts := FullPuts(t, n, scope, docs);
      assert puts[..|puts| - 1] == FullPuts(t, n, scope, before);
      var last := puts[|puts| - 1];
      LastPut(t, n, scope, docs);
      IdsDiffer(t, n, scope, docs);
      PutKeys(map[], puts[..|puts| - 1], last.id);
      assert last.id !in FullIndex(t, n, scope, before);
      assert FullIndex(t, n, scope, docs) == FullIndex(t, n, scope, before)[last.id := last.record];
      AddedSize(FullIndex(t, n, scope, before), last.id, last.record);
    }
  }

  // ---------------------------------------------------------------- reuse

  lemma DocMet(docs: seq<Doc>, r: Record, id: nat) returns (d: Doc)
    requires Meets(docs, r, id)
    ensures d in docs && d.id == id && KeyOf(d.chunk, d.fingerprint) == KeyOf(r.chunk, r.fingerprint)
  {
    WantedIsADoc(docs, KeyOf(r.chunk, r.fingerprint));
    d :| d in docs && KeyOf(d.chunk, d.fingerprint) == KeyOf(r.chunk, r.fingerprint) && d.id == id;
  }

  lemma FingerprintOf(t: Tools, docs: seq<Doc>, d: Doc)
    requires ArePrepared(t, docs) && d in docs
    ensures d.fingerprint == t.fingerprint(t.policy, d.text)
  {
    var i :| 0 <= i < |docs| && docs[i] == d;
  }

  lemma TrueOfFingerprint(t: Tools, points: Points, scope: Scope, commit: string, docs: seq<Doc>, r: Record, d: Doc)
    requires InjectiveFingerprint(t) && ArePrepared(t, docs) && AllTrue(t, points) && d in docs && r.fingerprint == d.fingerprint
    requires IsPointOf(Retrievables(t, points, scope, commit), r)
    ensures r.vector == t.embed(t.model, d.text)
  {
    var p :| p in Retrievables(t, points, scope, commit) && Retrievables(t, points, scope, commit)[p] == r;
    var text: string :| r.fingerprint == t.fingerprint(r.policy, text) && r.vector == t.embed(r.model, text);
    FingerprintOf(t, docs, d);
  }

  lemma SameDoc(docs: seq<Doc>, x: Doc, d: Doc)
    requires DistinctIds(docs) && x in docs && d in docs && x.id == d.id
    ensures x == d
  {
    var i :| 0 <= i < |docs| && docs[i] == x;
    var k :| 0 <= k < |docs| && docs[k] == d;
  }

  /** A reused vector is the embedding that would be computed. */
  lemma ReusedIsEmbedded(t: Tools, points: Points, scope: Scope, commit: string, pages: seq<seq<Record>>, docs: seq<Doc>,
                         reusable: seq<Doc>, found: map<nat, Vector>, d: Doc)
    requires InjectiveFingerprint(t) && ArePrepared(t, docs) && AllTrue(t, points)
    requires Lists(Retrievables(t, points, scope, commit), pages) && Found(reusable, Flat(pages), found)
    requires (forall x :: x in reusable ==> x in docs) && d in docs && d.id in found
    ensures found[d.id] == t.embed(t.model, d.text)
  {
    ListingFacts(Retrievables(t, points, scope, commit), pages);
    var r :| r in Flat(pages) && Meets(reusable, r, d.id) && r.vector == found[d.id];
    var x := DocMet(reusable, r, d.id);
    SameDoc(docs, x, d);
    assert IsPointOf(Retrievables(t, points, scope, commit), r);
    TrueOfFingerprint(t, points, scope, commit, docs, r, d);
  }

  /** The documents whose file was not touched. */
  function Untouched(docs: seq<Doc>, targets: set<string>): (r: seq<Doc>)
    ensures forall d :: d in r <==> d in docs && d.chunk.filePath !in targets
  {
    if docs == [] then []
    else Untouched(docs[..|docs| - 1], targets) + if docs[|docs| - 1].chunk.filePath in targets then [] else [docs[|docs| - 1]]
  }

  function NotReused(docs: seq<Doc>, reused: map<nat, Vector>): (r: seq<Doc>)
    ensures forall d :: d in r <==> d in docs && d.id !in reused
  {
    if docs == [] then []
    else NotReused(docs[..|docs| - 1], reused) + if docs[|docs| - 1].id in reused then [] else [docs[|docs| - 1]]
  }

  lemma {:induction false} UntouchedDistinct(docs: seq<Doc>, targets: set<string>)
    requires DistinctIds(docs)
    ensures DistinctIds(Untouched(docs, targets))
  {
    if docs == [] {
    } else {
      var before, last := docs[..|docs| - 1], docs[|docs| - 1];
      UntouchedDistinct(before, targets);
      assert docs == before + [last];
      var kept := Untouched(before, targets);
      forall i | 0 <= i < |kept| ensures kept[i].id != last.id {
        assert kept[i] in before;
        var k :| 0 <= k < |before| && before[k] == kept[i];
        assert docs[k].id != docs[|docs| - 1].id;
      }
    }
  }

  ghost predicate HasRecord(records: seq<Record>, d: Doc) {
    exists r :: r in records && KeyOf(r.chunk, r.fingerprint) == KeyOf(d.chunk, d.fingerprint)
  }

  /** The same place, type, content, name and text. */
  predicate SameKey(a: Chunk, x: string, b: Chunk, y: string) {
    && (a.filePath, a.chunkType, a.contentHash, a.qualifiedName) == (b.filePath, b.chunkType, b.contentHash, b.qualifiedName)
    && (a.startLine, a.endLine) == (b.startLine, b.endLine) && x == y
  }

  lemma SameKeyIff(a: Chunk, x: string, b: Chunk, y: string)
    ensures SameKey(a, x, b, y) <==> KeyOf(a, x) == KeyOf(b, y)
  {
  }

  ghost predicate DistinctKeys(docs: seq<Doc>) {
    forall i, k :: 0 <= i < k < |docs| ==> !SameKey(docs[i].chunk, docs[i].fingerprint, docs[k].chunk, docs[k].fingerprint)
  }

  lemma FoundAreIds(docs: seq<Doc>, records: seq<Record>, found: map<nat, Vector>)
    requires DistinctIds(docs) && Found(docs, records, found)
    ensures found.Keys <= Ids(docs) && (|found| == |docs| <==> found.Keys == Ids(docs))
  {
    hide Meets, DistinctIds;
    DistinctCount(docs);
    forall id | id in found.Keys ensures id in Ids(docs) {
      assert FoundIn(docs, records, id, found[id]);
      var r :| r in records && Meets(docs, r, id) && r.vector == found[id];
      var d := DocMet(docs, r, id);
    }
    assert |found| == |found.Keys|;
    if |found| == |docs| { SubsetOfSameSize(found.Keys, Ids(docs)); }
  }

  /** A vector was found for a document exactly when it is the last of its key and a record has the key. */
  lemma FoundIff(docs: seq<Doc>, records: seq<Record>, found: map<nat, Vector>, i: nat)
    requires DistinctIds(docs) && Found(docs, records, found) && i < |docs|
    ensures docs[i].id in found <==>
            HasRecord(records, docs[i])
            && forall k :: i < k < |docs| ==> KeyOf(docs[k].chunk, docs[k].fingerprint) != KeyOf(docs[i].chunk, docs[i].fingerprint)
  {
    var key := KeyOf(docs[i].chunk, docs[i].fingerprint);
    if docs[i].id in found {
      var r :| r in records && Meets(docs, r, docs[i].id) && r.vector == found[docs[i].id];
      var d := DocMet(docs, r, docs[i].id);
      SameDoc(docs, d, docs[i]);
      forall k | i < k < |docs| ensures KeyOf(docs[k].chunk, docs[k].fingerprint) != key {
        if KeyOf(docs[k].chunk, docs[k].fingerprint) == key { EarlierDocIsNotWanted(docs, i, k); }
      }
    } else if forall k :: i < k < |docs| ==> KeyOf(docs[k].chunk, docs[k].fingerprint) != key {
      LastDocIsWanted(docs, i);
      if r :| r in records && KeyOf(r.chunk, r.fingerprint) == key {
        assert Meets(docs, r, docs[i].id);
      }
    }
  }

  /** As many vectors as documents asked for: exactly when each has a record and no two share a key. */
  lemma AllFoundIff(docs: seq<Doc>, records: seq<Record>, found: map<nat, Vector>)
    requires DistinctIds(docs) && Found(docs, records, found)
    ensures |found| == |docs| <==> (forall d :: d in docs ==> HasRecord(records, d)) && DistinctKeys(docs)
  {
    hide Found, HasRecord, KeyOf;
    FoundAreIds(docs, records, found);
    forall i | 0 <= i < |docs|
      ensures docs[i].id in found <==>
              HasRecord(records, docs[i])
              && forall k :: i < k < |docs| ==> KeyOf(docs[k].chunk, docs[k].fingerprint) != KeyOf(docs[i].chunk, docs[i].fingerprint)
    {
      FoundIff(docs, records, found, i);
    }
    forall i, k | 0 <= i < k < |docs|
      ensures SameKey(docs[i].chunk, docs[i].fingerprint, docs[k].chunk, docs[k].fingerprint)
              <==> KeyOf(docs[i].chunk, docs[i].fingerprint) == KeyOf(docs[k].chunk, docs[k].fingerprint)
    {
      SameKeyIff(docs[i].chunk, docs[i].fingerprint, docs[k].chunk, docs[k].fingerprint);
    }
    hide SameKey;
    if |found| == |docs| {
      forall i | 0 <= i < |docs| ensures docs[i].id in found { assert docs[i] in docs; }
    }
    if (forall d :: d in docs ==> HasRecord(records, d)) && DistinctKeys(docs) {
      forall d | d in docs ensures d.id in found {
        var i :| 0 <= i < |docs| && docs[i] == d;
      }
      assert found.Keys == Ids(docs);
    }
  }

  /** A point of this scope and commit, made by the present model and policy, with the key of the document. */
  ghost predicate HasPoint(t: Tools, points: Points, scope: Scope, commit: string, d: Doc) {
    exists p :: p in points && points[p].scope == scope && points[p].chunk.commit == commit
                && points[p].model == t.model && points[p].policy == t.policy
                && SameKey(points[p].chunk, points[p].fingerprint, d.chunk, d.fingerprint)
  }

  /** Every untouched document has a point with its key in the active index, and no two share a key. */
  ghost predicate CanReuse(t: Tools, points: Points, active: Option<(Scope, string)>, incremental: bool, untouched: seq<Doc>) {
    && incremental && active.Some?
    && (forall d :: d in untouched ==> HasPoint(t, points, active.value.0, active.value.1, d))
    && DistinctKeys(untouched)
  }

  lemma HasPointIff(t: Tools, points: Points, scope: Scope, commit: string, pages: seq<seq<Record>>, d: Doc)
    requires Lists(Retrievables(t, points, scope, commit), pages)
    ensures HasRecord(Flat(pages), d) <==> HasPoint(t, points, scope, commit, d)
  {
    var selected := Retrievables(t, points, scope, commit);
    ListingFacts(selected, pages);
    hide KeyOf, SameKey, Flat, Lists;
    if HasRecord(Flat(pages), d) {
      var r :| r in Flat(pages) && KeyOf(r.chunk, r.fingerprint) == KeyOf(d.chunk, d.fingerprint);
      assert IsPointOf(selected, r);
      var p :| p in selected && selected[p] == r;
      SameKeyIff(r.chunk, r.fingerprint, d.chunk, d.fingerprint);
      assert p in points && points[p] == r;
    }
    if HasPoint(t, points, scope, commit, d) {
      var p :| p in points && points[p].scope == scope && points[p].chunk.commit == commit
               && points[p].model == t.model && points[p].policy == t.policy
               && SameKey(points[p].chunk, points[p].fingerprint, d.chunk, d.fingerprint);
      SameKeyIff(points[p].chunk, points[p].fingerprint, d.chunk, d.fingerprint);
      assert p in selected;
      assert selected[p] in Flat(pages);
    }
  }

  /** Then exactly the untouched documents have a vector. */
  lemma ReuseIsComplete(docs: seq<Doc>, targets: set<string>, records: seq<Record>, found: map<nat, Vector>)
    requires DistinctIds(docs) && Found(Untouched(docs, targets), records, found) && |found| == |Untouched(docs, targets)|
    ensures forall d :: d in docs ==> (d.id in found <==> d.chunk.filePath !in targets)
  {
    hide Found;
    var reusable := Untouched(docs, targets);
    UntouchedDistinct(docs, targets);
    FoundAreIds(reusable, records, found);
    forall d | d in docs ensures d.id in found <==> d.chunk.filePath !in targets {
      assert d.chunk.filePath !in targets ==> d in reusable;
      if d.id in found {
        var x :| x in reusable && x.id == d.id;
        SameDoc(docs, x, d);
      }
    }
  }

  /** The documents whose file was touched. */
  function Touched(docs: seq<Doc>, targets: set<string>): (r: seq<Doc>)
    ensures forall d :: d in r <==> d in docs && d.chunk.filePath in targets
  {
    if docs == [] then []
    else Touched(docs[..|docs| - 1], targets) + if docs[|docs| - 1].chunk.filePath in targets then [docs[|docs| - 1]] else []
  }

  lemma {:induction false} TouchedCount(docs: seq<Doc>, targets: set<string>)
    ensures |Touched(docs, targets)| + |Untouched(docs, targets)| == |docs|
  {
    if docs == [] {
    } else {
      TouchedCount(docs[..|docs| - 1], targets);
    }
  }

  lemma {:induction false} NotReusedIsTouched(docs: seq<Doc>, targets: set<string>, reused: map<nat, Vector>)
    requires forall d :: d in docs ==> (d.id in reused <==> d.chunk.filePath !in targets)
    ensures NotReused(docs, reused) == Touched(docs, targets)
  {
    if docs == [] {
    } else {
      var before, last := docs[..|docs| - 1], docs[|docs| - 1];
      assert docs == before + [last] && last in docs;
      assert forall d :: d in before ==> d in docs;
      NotReusedIsTouched(before, targets, reused);
    }
  }

  lemma {:induction false} NothingReused(docs: seq<Doc>)
    ensures NotReused(docs, map[]) == docs
  {
    if docs == [] {
    } else {
      var before, last := docs[..|docs| - 1], docs[|docs| - 1];
      NothingReused(before);
      assert NotReused(docs, map[]) == NotReused(before, map[]) + [last];
      hide NotReused;
      assert docs == before + [last];
    }
  }

  datatype IndexError = VectorError(error: StoreError) | EmbeddingError(cause: EmbedError) | ActivationRace | ResultCountMismatch

  function VectorFor(id: nat, reused: map<nat, Vector>, embeddings: map<nat, Vector>): Vector {
    if id in reused then reused[id] else if id in embeddings then embeddings[id] else []
  }

  /** The vectors of a refresh: reused or embedded, they are those of a full index. */
  lemma RefreshedPuts(t: Tools, n: Naming, scope: Scope, docs: seq<Doc>, reused: map<nat, Vector>,
                      embeddings: map<nat, Vector>, puts: seq<Put>)
    requires ArePrepared(t, docs) && Embedded(t, NotReused(docs, reused), embeddings)
    requires forall d :: d in docs && d.id in reused ==> reused[d.id] == t.embed(t.model, d.text)
    requires |puts| == |docs|
    requires forall i :: 0 <= i < |docs| ==>
               puts[i] == Put(IdOf(n, scope, docs[i].chunk), RecordOf(t, scope, docs[i], VectorFor(docs[i].id, reused, embeddings)))
    ensures puts == FullPuts(t, n, scope, docs)
  {
    hide ArePrepared, RecordOf;
    forall i | 0 <= i < |docs| ensures VectorFor(docs[i].id, reused, embeddings) == t.embed(t.model, docs[i].text) {
      assert docs[i] in docs;
      if docs[i].id !in reused { assert docs[i] in NotReused(docs, reused); }
    }
  }

  /** The scope emptied and these documents written: all of them by a successful refresh. */
  function Refreshed(t: Tools, n: Naming, points: Points, scope: Scope, docs: seq<Doc>): Points {
    PutAll(Outside(points, scope), FullPuts(t, n, scope, docs))
  }

  lemma TrueRecord(t: Tools, scope: Scope, d: Doc)
    requires d.fingerprint == t.fingerprint(t.policy, d.text)
    ensures IsTrue(t, RecordOf(t, scope, d, t.embed(t.model, d.text)))
  {
  }

  lemma {:induction false} PutAllTrue(t: Tools, points: Points, puts: seq<Put>)
    requires AllTrue(t, points) && forall k :: 0 <= k < |puts| ==> IsTrue(t, puts[k].record)
    ensures AllTrue(t, PutAll(points, puts))
  {
    hide IsTrue;
    if puts == [] {
    } else {
      PutAllTrue(t, points, puts[..|puts| - 1]);
    }
  }

  lemma RefreshKeepsTruth(t: Tools, n: Naming, points: Points, scope: Scope, docs: seq<Doc>)
    requires AllTrue(t, points) && ArePrepared(t, docs)
    ensures AllTrue(t, Outside(points, scope)) && AllTrue(t, Refreshed(t, n, points, scope, docs))
  {
    hide IsTrue;
    var base, puts := Outside(points, scope), FullPuts(t, n, scope, docs);
    forall k | 0 <= k < |puts| ensures IsTrue(t, puts[k].record) {
      FingerprintOf(t, docs, docs[k]);
      TrueRecord(t, scope, docs[k]);
    }
    PutAllTrue(t, base, puts);
  }

  /**
   * The refresh writes a whole number of batches, or does not touch the store. `written` is how many
   * documents it left in its scope, if it emptied it.
   */
  ghost predicate Left(t: Tools, n: Naming, before: Points, after: Points, scope: Scope, docs: seq<Doc>, upsertBatch: nat,
                       written: Option<nat>) {
    if written.None? then after == before
    else
      && written.value <= |docs| && after == Refreshed(t, n, before, scope, docs[..written.value])
      && exists k :: written.value == BatchEnd(k, upsertBatch, |docs|)
  }

  lemma LeftPrefix(t: Tools, n: Naming, before: Points, after: Points, scope: Scope, docs: seq<Doc>, upsertBatch: nat, batches: nat)
    requires after == PutAll(Outside(before, scope), FullPuts(t, n, scope, docs)[..BatchEnd(batches, upsertBatch, |docs|)])
    ensures Left(t, n, before, after, scope, docs, upsertBatch, Some(BatchEnd(batches, upsertBatch, |docs|)))
  {
    var m := BatchEnd(batches, upsertBatch, |docs|);
    assert FullPuts(t, n, scope, docs)[..m] == FullPuts(t, n, scope, docs[..m]);
  }

  lemma LeftEmpty(t: Tools, n: Naming, before: Points, scope: Scope, docs: seq<Doc>, upsertBatch: nat)
    ensures Left(t, n, before, Outside(before, scope), scope, docs, upsertBatch, Some(0))
  {
    assert FullPuts(t, n, scope, docs)[..0] == [] && BatchEnd(0, upsertBatch, |docs|) == 0;
    LeftPrefix(t, n, before, Outside(before, scope), scope, docs, upsertBatch, 0);
  }

  lemma PreparedPrefix(t: Tools, docs: seq<Doc>, m: nat)
    requires ArePrepared(t, docs) && m <= |docs|
    ensures ArePrepared(t, docs[..m])
  {
  }

  lemma LeftKeepsTruth(t: Tools, n: Naming, before: Points, after: Points, scope: Scope, docs: seq<Doc>, upsertBatch: nat,
                       written: Option<nat>)
    requires AllTrue(t, before) && ArePrepared(t, docs) && Left(t, n, before, after, scope, docs, upsertBatch, written)
    ensures AllTrue(t, after)
  {
    if written.Some? {
      PreparedPrefix(t, docs, written.value);
      RefreshKeepsTruth(t, n, before, scope, docs[..written.value]);
    }
  }

  lemma VectorsAcceptable(t: Tools, n: Naming, scope: Scope, docs: seq<Doc>, reused: map<nat, Vector>, embeddings: map<nat, Vector>,
                          puts: seq<Put>)
    requires Embedded(t, NotReused(docs, reused), embeddings) && forall id :: id in reused ==> t.valid(reused[id])
    requires |puts| == |docs|
    requires forall i :: 0 <= i < |docs| ==>
               puts[i] == Put(IdOf(n, scope, docs[i].chunk), RecordOf(t, scope, docs[i], VectorFor(docs[i].id, reused, embeddings)))
    ensures Acceptable(t, scope, puts)
  {
    forall k | 0 <= k < |puts| ensures puts[k].record.scope == scope && t.valid(puts[k].record.vector) {
      assert docs[k] in docs;
      if docs[k].id !in reused { assert docs[k] in NotReused(docs, reused); }
    }
  }

  /** What the service outside may do to a refresh. */
  datatype Environment = Environment(
    respond: seq<Doc> -> Response, allowed: bool, onDelete: Delivery, onUpsert: nat -> Delivery)

  lemma DocsDistinct(t: Tools, docs: seq<Doc>)
    requires ArePrepared(t, docs)
    ensures DistinctIds(docs)
  {
  }

  /** What a refresh embeds: the touched documents if all others can be reused, and else all of them. */
  ghost function ToEmbed(t: Tools, points: Points, active: Option<(Scope, string)>, incremental: bool, targets: set<string>,
                         docs: seq<Doc>): seq<Doc> {
    if CanReuse(t, points, active, incremental, Untouched(docs, targets)) then Touched(docs, targets) else docs
  }

  /** The vectors that a refresh reuses: those of the untouched documents, or none. */
  method Reuse(points: Points, t: Tools, active: Option<(Scope, string)>, incremental: bool, targets: set<string>, docs: seq<Doc>,
               pages: seq<seq<Record>>)
    returns (r: Result<map<nat, Vector>, IndexError>)
    requires InjectiveFingerprint(t) && ArePrepared(t, docs) && AllTrue(t, points)
    requires active.Some? ==> Lists(Retrievables(t, points, active.value.0, active.value.1), pages)
    ensures r.Success? ==> forall d :: d in docs && d.id in r.value ==> r.value[d.id] == t.embed(t.model, d.text)
    ensures r.Success? ==> forall id :: id in r.value ==> t.valid(r.value[id])
    ensures r.Success? ==> NotReused(docs, r.value) == ToEmbed(t, points, active, incremental, targets, docs)
    ensures r.Failure? <==> incremental && active.Some? && SomeInvalid(t, Untouched(docs, targets), Flat(pages))
    ensures r.Failure? ==> r.error == VectorError(InvalidReuse)
  {
    hide Found, Lists, InjectiveFingerprint, ArePrepared, AllTrue, DistinctIds, Untouched, HasRecord, HasPoint, SomeInvalid,
         Retrievables, DistinctKeys, NotReused, Touched;
    DocsDistinct(t, docs);
    NothingReused(docs);
    if !incremental || active.None? {
      return Success(map[]);
    }
    var reusable := Untouched(docs, targets);
    UntouchedDistinct(docs, targets);
    var found := ReusableVectors(t, reusable, pages);
    if found.Failure? {
      return Failure(VectorError(found.error));
    }
    var reused := found.value;
    AllFoundIff(reusable, Flat(pages), reused);
    forall d | d in reusable ensures HasRecord(Flat(pages), d) <==> HasPoint(t, points, active.value.0, active.value.1, d) {
      HasPointIff(t, points, active.value.0, active.value.1, pages, d);
    }
    if |reused| != |reusable| {
      return Success(map[]);
    }
    forall d | d in docs && d.id in reused ensures reused[d.id] == t.embed(t.model, d.text) {
      ReusedIsEmbedded(t, points, active.value.0, active.value.1, pages, docs, reusable, reused, d);
    }
    ReuseIsComplete(docs, targets, Flat(pages), reused);
    NotReusedIsTouched(docs, targets, reused);
    return Success(reused);
  }

  ghost predicate EveryBatchAcknowledged(deliver: nat -> Delivery, batchSize: nat, total: nat) {
    forall k: nat :: BatchEnd(k, batchSize, total) < total ==> deliver(k).Acknowledged?
  }

  lemma UpsertSucceeds(deliver: nat -> Delivery, batchSize: nat, total: nat, batches: nat)
    requires BatchEnd(batches, batchSize, total) == total && AllAcknowledged(deliver, batches)
    ensures EveryBatchAcknowledged(deliver, batchSize, total)
  {
    forall k: nat | BatchEnd(k, batchSize, total) < total ensures deliver(k).Acknowledged? {
      if k >= batches { BatchEndGrows(batches, k, batchSize, total); }
    }
  }

  lemma UpsertFails(deliver: nat -> Delivery, batchSize: nat, total: nat, batches: nat)
    requires exists failed :: FailedAt(deliver, failed, batches) && BatchEnd(failed, batchSize, total) < total
    ensures !EveryBatchAcknowledged(deliver, batchSize, total)
  {
  }

  /** No vector to reuse is invalid, the service answers, the version may be written, and the store takes everything. */
  ghost predicate Succeeds(t: Tools, points: Points, active: Option<(Scope, string)>, incremental: bool, targets: set<string>,
                           docs: seq<Doc>, pages: seq<seq<Record>>, e: Environment, embedBatch: nat, upsertBatch: nat) {
    && !(incremental && active.Some? && SomeInvalid(t, Untouched(docs, targets), Flat(pages)))
    && AllAnswered(t, ToEmbed(t, points, active, incremental, targets, docs), embedBatch, e.respond)
    && e.allowed && e.onDelete.Acknowledged? && EveryBatchAcknowledged(e.onUpsert, upsertBatch, |docs|)
  }

  lemma NothingLeft(t: Tools, n: Naming, points: Points, scope: Scope, docs: seq<Doc>, upsertBatch: nat)
    ensures Left(t, n, points, points, scope, docs, upsertBatch, None)
  {
  }

  lemma AllLeft(t: Tools, n: Naming, before: Points, after: Points, scope: Scope, docs: seq<Doc>, upsertBatch: nat, written: Option<nat>)
    requires Left(t, n, before, after, scope, docs, upsertBatch, written) && written == Some(|docs|)
    ensures after == Refreshed(t, n, before, scope, docs)
  {
    assert docs[..|docs|] == docs;
  }

  /** The comprehension over `build_vector_record`. */
  method BuildRecords(t: Tools, n: Naming, scope: Scope, docs: seq<Doc>, reused: map<nat, Vector>, embeddings: map<nat, Vector>)
    returns (puts: seq<Put>)
    ensures |puts| == |docs|
    ensures forall i :: 0 <= i < |docs| ==>
              puts[i] == Put(IdOf(n, scope, docs[i].chunk), RecordOf(t, scope, docs[i], VectorFor(docs[i].id, reused, embeddings)))
  {
    puts := [];
    for i := 0 to |docs|
      invariant |puts| == i
      invariant forall k :: 0 <= k < i ==>
                  puts[k] == Put(IdOf(n, scope, docs[k].chunk), RecordOf(t, scope, docs[k], VectorFor(docs[k].id, reused, embeddings)))
    {
      puts := puts + [Put(IdOf(n, scope, docs[i].chunk), RecordOf(t, scope, docs[i], VectorFor(docs[i].id, reused, embeddings)))];
    }
  }

  /**
   * `_embed_and_store`. `active` is the scope and commit of the active index, `targets` the paths
   * of the plan and `pages` the scroll over the active index. Exactly the documents of touched files
   * are embedded if every untouched one can be reused, and all of them otherwise.
   */
  method EmbedAndStore(store: Store, t: Tools, n: Naming, scope: Scope, active: Option<(Scope, string)>, incremental: bool,
                       targets: set<string>, docs: seq<Doc>, pages: seq<seq<Record>>, e: Environment,
                       embedBatch: nat, upsertBatch: nat)
    returns (r: Result<nat, IndexError>, reembedded: nat, ghost written: Option<nat>)
    requires embedBatch >= 1 && upsertBatch >= 1
    requires InjectiveFingerprint(t) && Honest(t, e.respond) && ArePrepared(t, docs) && AllTrue(t, store.points)
    requires active.Some? ==> Lists(Retrievables(t, store.points, active.value.0, active.value.1), pages)
    modifies store
    ensures r.Success? <==> Succeeds(t, old(store.points), active, incremental, targets, docs, pages, e, embedBatch, upsertBatch)
    ensures !e.allowed ==> r.Failure? && store.points == old(store.points)
    ensures r.Success? ==> e.onDelete == Acknowledged && forall k: nat :: BatchEnd(k, upsertBatch, |docs|) < |docs| ==> e.onUpsert(k) == Acknowledged
    ensures r.Success? ==> r.value == |docs| && store.points == Refreshed(t, n, old(store.points), scope, docs)
    ensures r.Success? ==> reembedded == |ToEmbed(t, old(store.points), active, incremental, targets, docs)|
    ensures Left(t, n, old(store.points), store.points, scope, docs, upsertBatch, written)
    ensures AllTrue(t, store.points)
    ensures r != Failure(ResultCountMismatch)
    ensures r != Failure(VectorError(InvalidVector)) && r != Failure(VectorError(ScopeMismatch))
  {
    hide Found, Lists, Honest, InjectiveFingerprint, ArePrepared, AllTrue, PutAll, Outside, FullPuts, DistinctIds, Untouched, CanReuse,
         Left, NotReused, Touched, Embedded, Acceptable, BatchEnd, Refreshed, ToEmbed, AllAnswered, EveryBatchAcknowledged, SomeInvalid,
         AllAcknowledged, FailedAt;
    ghost var before := store.points;
    NothingLeft(t, n, before, scope, docs, upsertBatch);
    reembedded, written := 0, None;
    var reuse := Reuse(store.points, t, active, incremental, targets, docs, pages);
    if reuse.Failure? {
      return Failure(reuse.error), 0, None;
    }
    var reused := reuse.value;
    var toEmbed := NotReused(docs, reused);
    var embeddings := EmbedDocuments(t, toEmbed, embedBatch, e.respond);
    if embeddings.Failure? {
      return Failure(EmbeddingError(embeddings.error)), 0, None;
    }
    if |embeddings.value| != |toEmbed| {
      return Failure(ResultCountMismatch), reembedded, written;
    }
    if !e.allowed {
      return Failure(ActivationRace), 0, None;
    }
    LeftEmpty(t, n, before, scope, docs, upsertBatch);
    var deleted := store.DeleteScope(scope, e.onDelete);
    if deleted.Some? {
      written := if e.onDelete.LostReply? then Some(0) else None;
      LeftKeepsTruth(t, n, before, store.points, scope, docs, upsertBatch, written);
      return Failure(VectorError(deleted.value)), 0, written;
    }
    var puts := BuildRecords(t, n, scope, docs, reused, embeddings.value);
    VectorsAcceptable(t, n, scope, docs, reused, embeddings.value, puts);
    RefreshedPuts(t, n, scope, docs, reused, embeddings.value, puts);
    ghost var batches: nat;
    var error;
    error, batches := store.Upsert(t, scope, puts, upsertBatch, e.onUpsert);
    written := Some(BatchEnd(batches, upsertBatch, |docs|));
    LeftPrefix(t, n, before, store.points, scope, docs, upsertBatch, batches);
    LeftKeepsTruth(t, n, before, store.points, scope, docs, upsertBatch, written);
    if error.Some? {
      UpsertFails(e.onUpsert, upsertBatch, |docs|, batches);
      return Failure(VectorError(error.value)), 0, written;
    }
    UpsertSucceeds(e.onUpsert, upsertBatch, |docs|, batches);
    AllLeft(t, n, before, store.points, scope, docs, upsertBatch, written);
    return Success(|docs|), |toEmbed|, written;
  }

  lemma {:induction false} LastPutOf(points: Points, puts: seq<Put>, p: PointId) returns (k: nat)
    requires p in PutAll(points, puts) && p !in points
    ensures k < |puts| && PutAll(points, puts)[p] == puts[k].record
  {
    if puts[|puts| - 1].id == p {
      k := |puts| - 1;
    } else {
      k := LastPutOf(points, puts[..|puts| - 1], p);
    }
  }

  lemma FullIndexMetadata(t: Tools, n: Naming, scope: Scope, docs: seq<Doc>, commit: string, p: PointId)
    requires p in FullIndex(t, n, scope, docs) && forall d :: d in docs ==> d.chunk.commit == commit
    ensures MetadataOk(t, scope, commit, FullIndex(t, n, scope, docs)[p])
  {
    var puts := FullPuts(t, n, scope, docs);
    var k := LastPutOf(map[], puts, p);
    PutAt(t, n, scope, docs, k);
    assert docs[k] in docs;
  }

  /** Point ids are those of their own scope and chunk. */
  ghost predicate WellNamed(n: Naming, points: Points) {
    forall p :: p in points ==> p == IdOf(n, points[p].scope, points[p].chunk)
  }

  lemma SameIdSameScope(n: Naming, points: Points, put: Put, scope: Scope)
    requires InjectiveIds(n) && WellNamed(n, points) && put.id in points && put.id == IdOf(n, scope, put.record.chunk)
    ensures points[put.id].scope == scope
  {
  }

  lemma PutInside(n: Naming, points: Points, put: Put, scope: Scope)
    requires InjectiveIds(n) && WellNamed(n, points) && put.record.scope == scope && put.id == IdOf(n, scope, put.record.chunk)
    ensures var after := points[put.id := put.record];
            && WellNamed(n, after) && Inside(after, scope) == Inside(points, scope)[put.id := put.record]
            && forall other :: other != scope ==> Inside(after, other) == Inside(points, other)
  {
    if put.id in points { SameIdSameScope(n, points, put, scope); }
    hide InjectiveIds, IdOf;
    var after := points[put.id := put.record];
    forall other | other != scope ensures Inside(after, other) == Inside(points, other) {}
  }

  lemma {:induction false} PutsInside(t: Tools, n: Naming, base: Points, scope: Scope, docs: seq<Doc>)
    requires InjectiveIds(n) && WellNamed(n, base) && forall p :: p in base ==> base[p].scope != scope
    ensures var after := PutAll(base, FullPuts(t, n, scope, docs));
            && Inside(after, scope) == FullIndex(t, n, scope, docs) && WellNamed(n, after)
            && forall other :: other != scope ==> Inside(after, other) == Inside(base, other)
  {
    if docs == [] {
    } else {
      var before := docs[..|docs| - 1];
      PutsInside(t, n, base, scope, before);
      var puts := FullPuts(t, n, scope, docs);
      assert puts[..|puts| - 1] == FullPuts(t, n, scope, before);
      LastPut(t, n, scope, docs);
      PutInside(n, PutAll(base, puts[..|puts| - 1]), puts[|puts| - 1], scope);
    }
  }

  lemma RefreshedInside(t: Tools, n: Naming, points: Points, scope: Scope, docs: seq<Doc>)
    requires InjectiveIds(n) && ArePrepared(t, docs) && WellNamed(n, points)
    ensures Inside(Refreshed(t, n, points, scope, docs), scope) == FullIndex(t, n, scope, docs)
    ensures WellNamed(n, Refreshed(t, n, points, scope, docs))
    ensures forall other :: other != scope ==> Inside(Refreshed(t, n, points, scope, docs), other) == Inside(points, other)
  {
    PutsInside(t, n, Outside(points, scope), scope, docs);
    var after := Refreshed(t, n, points, scope, docs);
    forall other | other != scope ensures Inside(after, other) == Inside(points, other) {
      assert Inside(Outside(points, scope), other) == Inside(points, other);
    }
  }

  /** What a refresh leaves in a scope is what `validate_scope` asks of it. */
  lemma RefreshedScopeValidates(t: Tools, n: Naming, points: Points, scope: Scope, docs: seq<Doc>, commit: string)
    requires InjectiveIds(n) && ArePrepared(t, docs) && WellNamed(n, points)
    requires forall d :: d in docs ==> d.chunk.commit == commit
    ensures var inside := Inside(Refreshed(t, n, points, scope, docs), scope);
            |inside| == |docs| && AllMatch(t, scope, commit, inside)
  {
    RefreshedInside(t, n, points, scope, docs);
    FullIndexSize(t, n, scope, docs);
    hide FullIndex, MetadataOk, Inside, Refreshed, ArePrepared;
    var index := FullIndex(t, n, scope, docs);
    forall p | p in index ensures MetadataOk(t, scope, commit, index[p]) {
      FullIndexMetadata(t, n, scope, docs, commit, p);
    }
  }

  // ---------------------------------------------------------------- chains of refreshes

  /** A refresh, incremental or full: the mode does not occur. `written` is as in `EmbedAndStore`. */
  datatype Refresh = Refresh(scope: Scope, docs: seq<Doc>, written: Option<nat>)

  ghost predicate RefreshOk(t: Tools, r: Refresh) {
    ArePrepared(t, r.docs) && (r.written.Some? ==> r.written.value <= |r.docs|)
  }

  function After(t: Tools, n: Naming, points: Points, r: Refresh): Points {
    if r.written.None? || r.written.value > |r.docs| then points
    else Refreshed(t, n, points, r.scope, r.docs[..r.written.value])
  }

  /** The points after refreshes that succeeded or failed at any point. */
  function Chain(t: Tools, n: Naming, points: Points, chain: seq<Refresh>): Points {
    if chain == [] then points
    else After(t, n, Chain(t, n, points, chain[..|chain| - 1]), chain[|chain| - 1])
  }

  lemma AfterFacts(t: Tools, n: Naming, points: Points, r: Refresh)
    requires InjectiveIds(n) && RefreshOk(t, r) && WellNamed(n, points)
    ensures WellNamed(n, After(t, n, points, r))
    ensures forall other :: other != r.scope ==> Inside(After(t, n, points, r), other) == Inside(points, other)
    ensures r.written == Some(|r.docs|) ==> Inside(After(t, n, points, r), r.scope) == FullIndex(t, n, r.scope, r.docs)
  {
    if r.written.Some? {
      var docs := r.docs[..r.written.value];
      PreparedPrefix(t, r.docs, r.written.value);
      hide ArePrepared, Inside, FullIndex, Refreshed, WellNamed;
      RefreshedInside(t, n, points, r.scope, docs);
      if r.written == Some(|r.docs|) { assert docs == r.docs; }
    }
  }

  lemma {:induction false} ChainWellNamed(t: Tools, n: Naming, points: Points, chain: seq<Refresh>)
    requires InjectiveIds(n) && WellNamed(n, points) && forall i :: 0 <= i < |chain| ==> RefreshOk(t, chain[i])
    ensures WellNamed(n, Chain(t, n, points, chain))
  {
    hide RefreshOk, Refreshed, After;
    if chain == [] {
    } else {
      var before, last := chain[..|chain| - 1], chain[|chain| - 1];
      ChainWellNamed(t, n, points, before);
      AfterFacts(t, n, Chain(t, n, points, before), last);
    }
  }

  /**
   * After any chain of refreshes, a scope holds the full index of the last one that touched it, if
   * that one wrote all its documents.
   */
  lemma {:induction false} ChainIsFull(t: Tools, n: Naming, points: Points, chain: seq<Refresh>, k: nat)
    requires InjectiveIds(n) && WellNamed(n, points) && k < |chain|
    requires forall i :: 0 <= i < |chain| ==> RefreshOk(t, chain[i])
    requires chain[k].written == Some(|chain[k].docs|)
    requires forall i :: k < i < |chain| ==> chain[i].scope != chain[k].scope || chain[i].written.None?
    ensures Inside(Chain(t, n, points, chain), chain[k].scope) == FullIndex(t, n, chain[k].scope, chain[k].docs)
  {
    hide RefreshOk, Inside, FullIndex, Refreshed;
    var before, last := chain[..|chain| - 1], chain[|chain| - 1];
    ChainWellNamed(t, n, points, before);
    AfterFacts(t, n, Chain(t, n, points, before), last);
    if k == |chain| - 1 {
    } else {
      ChainIsFull(t, n, points, before, k);
    }
  }
}
