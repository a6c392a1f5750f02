/** Prepared documents (preprocessing.py) and the batching embedding client (client.py). */
module Embedding {
  import opened Common

  type Vector = seq<real>

  /** `details` stands for the metadata that the prepared text holds and nothing else reads. */
  datatype Chunk = Chunk(
    filePath: string, chunkType: string, contentHash: string, startLine: nat, endLine: nat,
    qualifiedName: Option<string>, ordinal: nat, commit: string, details: string, content: string)

  /** What the metadata line of a prepared text is made from: neither the ordinal nor the commit of the chunk. */
  datatype Metadata = Metadata(
    filePath: string, chunkType: string, startLine: nat, endLine: nat, qualifiedName: Option<string>, details: string)

  /** A chunk ready to embed; `id` is its ordinal. */
  datatype Doc = Doc(id: nat, text: string, fingerprint: string, chunk: Chunk)

  /** Hashes, canonical JSON and the model; `policy` and `model` are the fingerprints of the configuration. */
  datatype Tools = Tools(
    policy: string, model: string, version: string,
    json: Metadata -> string,
    fingerprint: (string, string) -> string,
    embed: (string, string) -> Vector,
    valid: Vector -> bool)

  ghost predicate InjectiveFingerprint(t: Tools) {
    forall p, x, q, y :: t.fingerprint(p, x) == t.fingerprint(q, y) ==> p == q && x == y
  }

  const CONTENT_BEGIN := "\nchunk_content_begin\n"
  const CONTENT_END := "\nchunk_content_end"

  function Heading(t: Tools): string {
    "repolume_preprocessing=" + t.version + "\nchunk_metadata="
  }

  function TextOf(t: Tools, c: Chunk): string {
    Heading(t) + (t.json(Metadata(c.filePath, c.chunkType, c.startLine, c.endLine, c.qualifiedName, c.details))
                  + (CONTENT_BEGIN + (c.content + CONTENT_END)))
  }

  /** `prepare_chunk`, for a text within the size limit. */
  function Prepared(t: Tools, c: Chunk): Doc {
    var text := TextOf(t, c);
    Doc(c.ordinal, text, t.fingerprint(t.policy, text), c)
  }

  /** Canonical JSON is one line, and tells different values apart. */
  ghost predicate CanonicalJson(t: Tools) {
    && (forall m :: '\n' !in t.json(m))
    && (forall m, n :: t.json(m) == t.json(n) ==> m == n)
  }

  lemma LinesEndTogether(x: string, u: string, y: string, v: string)
    requires '\n' !in x && '\n' !in y && x + ("\n" + u) == y + ("\n" + v)
    ensures x == y && u == v
  {
    var whole := x + ("\n" + u);
    assert whole[|x|] == '\n' && whole[|y|] == '\n';
    assert forall i :: 0 <= i < |x| ==> whole[i] == x[i];
    assert forall i :: 0 <= i < |y| ==> whole[i] == y[i];
    assert whole[..|x|] == x && whole[..|y|] == y;
    assert whole[|x| + 1..] == u && whole[|y| + 1..] == v;
  }

  /**
   * The text holds the content and all metadata of the chunk, and nothing else about it: two chunks
   * are prepared to the same text exactly if they agree in these.
   */
  lemma SameTextIff(t: Tools, a: Chunk, b: Chunk)
    requires CanonicalJson(t)
    ensures Prepared(t, a).text == Prepared(t, b).text <==>
              && (a.filePath, a.chunkType, a.startLine, a.endLine) == (b.filePath, b.chunkType, b.startLine, b.endLine)
              && (a.qualifiedName, a.details, a.content) == (b.qualifiedName, b.details, b.content)
    ensures Prepared(t, a).chunk == a && Prepared(t, a).id == a.ordinal
  {
    if TextOf(t, a) == TextOf(t, b) {
      var x := t.json(Metadata(a.filePath, a.chunkType, a.startLine, a.endLine, a.qualifiedName, a.details));
      var y := t.json(Metadata(b.filePath, b.chunkType, b.startLine, b.endLine, b.qualifiedName, b.details));
      var u, v := "chunk_content_begin\n" + (a.content + CONTENT_END), "chunk_content_begin\n" + (b.content + CONTENT_END);
      assert TextOf(t, a)[|Heading(t)|..] == x + ("\n" + u) by { assert CONTENT_BEGIN + (a.content + CONTENT_END) == "\n" + u; }
      assert TextOf(t, b)[|Heading(t)|..] == y + ("\n" + v) by { assert CONTENT_BEGIN + (b.content + CONTENT_END) == "\n" + v; }
      LinesEndTogether(x, u, y, v);
      var n := |"chunk_content_begin\n"|;
      assert u[n..|u| - |CONTENT_END|] == a.content && v[n..|v| - |CONTENT_END|] == b.content;
    }
  }

  // ---------------------------------------------------------------- one batch

  datatype Item = Item(id: nat, vector: Vector)

  /** `matches` says that model, revision, dimension and normalization are the configured ones. */
  datatype Response = Response(matches: bool, items: seq<Item>)

  datatype EmbedError =
    | DuplicateRequest | ModelMismatch | CountMismatch | UnexpectedResult | InvalidEmbedding | MissingResult | DuplicateResult

  function Ids(docs: seq<Doc>): set<nat> {
    set d | d in docs :: d.id
  }

  ghost predicate DistinctIds(docs: seq<Doc>) {
    forall i, k :: 0 <= i < k < |docs| ==> docs[i].id != docs[k].id
  }

  ghost predicate DistinctItems(items: seq<Item>) {
    forall i, k :: 0 <= i < k < |items| ==> items[i].id != items[k].id
  }

  /** What a response must be to be accepted. */
  ghost predicate Answers(t: Tools, docs: seq<Doc>, response: Response) {
    && DistinctIds(docs) && response.matches && |response.items| == |docs| && DistinctItems(response.items)
    && (forall k :: 0 <= k < |response.items| ==> response.items[k].id in Ids(docs) && t.valid(response.items[k].vector))
  }

  lemma {:induction false} DistinctCount(docs: seq<Doc>)
    ensures |Ids(docs)| <= |docs|
    ensures |Ids(docs)| == |docs| <==> DistinctIds(docs)
  {
    if docs == [] {
    } else {
      var before, d := docs[..|docs| - 1], docs[|docs| - 1];
      DistinctCount(before);
      assert Ids(docs) == Ids(before) + {d.id};
      if d.id in Ids(before) {
        var i :| 0 <= i < |before| && before[i].id == d.id;
        assert docs[i].id == docs[|docs| - 1].id;
      } else {
        forall i | 0 <= i < |before| ensures before[i].id != d.id { assert before[i] in before; }
        assert DistinctIds(before) ==> DistinctIds(docs);
      }
      assert DistinctIds(docs) ==> DistinctIds(before);
    }
  }

  lemma NotInBoth(a: set<nat>, b: set<nat>, x: nat)
    requires a * b == {} && x in a
    ensures x !in b
  {
    assert x in b ==> x in a * b;
  }

  lemma OneMore(a: set<nat>, x: nat)
    requires x !in a
    ensures |a + {x}| == |a| + 1
  {
  }

  lemma {:induction false} SubsetOfSameSize(a: set<nat>, b: set<nat>)
    requires a <= b && |a| == |b|
    ensures a == b
  {
    assert b == a + (b - a);
  }

  ghost predicate HoldsItems(result: map<nat, Vector>, items: seq<Item>) {
    forall k :: 0 <= k < |items| ==> items[k].id in result && result[items[k].id] == items[k].vector
  }

  function ItemIds(items: seq<Item>): set<nat> {
    set x | x in items :: x.id
  }

  /** The loop state: the results so far are the items so far. */
  ghost predicate Collected(t: Tools, docs: seq<Doc>, items: seq<Item>, results: map<nat, Vector>) {
    && results.Keys == ItemIds(items) && |results| == |items| && HoldsItems(results, items) && DistinctItems(items)
    && (forall k :: 0 <= k < |items| ==> items[k].id in Ids(docs) && t.valid(items[k].vector))
  }

  lemma ItemAppended(items: seq<Item>, results: map<nat, Vector>, item: Item)
    requires HoldsItems(results, items) && DistinctItems(items) && item.id !in results
    ensures HoldsItems(results[item.id := item.vector], items + [item]) && DistinctItems(items + [item])
  {
    forall k | 0 <= k < |items| ensures items[k].id != item.id { assert items[k].id in results; }
  }

  lemma MapSize(results: map<nat, Vector>, id: nat, v: Vector)
    requires id !in results
    ensures |results[id := v]| == |results| + 1
  {
    assert results[id := v].Keys == results.Keys + {id};
    assert |results| == |results.Keys| && |results[id := v]| == |results[id := v].Keys|;
  }

  lemma ItemIdsAppend(items: seq<Item>, item: Item)
    ensures ItemIds(items + [item]) == ItemIds(items) + {item.id}
  {
    var more := items + [item];
    assert more[|items|] == item;
    forall x | x in items ensures x in more {}
  }

  lemma CollectOne(t: Tools, docs: seq<Doc>, items: seq<Item>, results: map<nat, Vector>, item: Item)
    requires Collected(t, docs, items, results) && item.id !in results && item.id in Ids(docs) && t.valid(item.vector)
    ensures Collected(t, docs, items + [item], results[item.id := item.vector])
  {
    hide Ids, HoldsItems, DistinctItems, ItemIds;
    ItemIdsAppend(items, item);
    MapSize(results, item.id, item.vector);
    ItemAppended(items, results, item);
    assert results[item.id := item.vector].Keys == results.Keys + {item.id};
  }

  /** An item that the loop refuses makes the whole response unacceptable. */
  lemma RefusedItem(t: Tools, docs: seq<Doc>, response: Response, k: nat, results: map<nat, Vector>)
    requires k < |response.items| && Collected(t, docs, response.items[..k], results)
    requires response.items[k].id in results || response.items[k].id !in Ids(docs) || !t.valid(response.items[k].vector)
    ensures !Answers(t, docs, response)
  {
    if response.items[k].id in results {
      var x :| x in response.items[..k] && x.id == response.items[k].id;
      var i :| 0 <= i < k && response.items[..k][i] == x;
      assert response.items[i].id == response.items[k].id;
    }
  }

  lemma CollectedAll(t: Tools, docs: seq<Doc>, response: Response, results: map<nat, Vector>)
    requires DistinctIds(docs) && response.matches && |response.items| == |docs|
    requires Collected(t, docs, response.items, results)
    ensures Answers(t, docs, response) && results.Keys == Ids(docs)
  {
    DistinctCount(docs);
    assert |results| == |results.Keys|;
    forall id | id in results.Keys ensures id in Ids(docs) {
      var x :| x in response.items && x.id == id;
      var k :| 0 <= k < |response.items| && response.items[k] == x;
    }
    SubsetOfSameSize(results.Keys, Ids(docs));
  }

  lemma AnswerShape(t: Tools, docs: seq<Doc>, response: Response)
    ensures Answers(t, docs, response) ==> DistinctIds(docs) && response.matches && |response.items| == |docs|
  {
  }

  lemma CollectedHolds(t: Tools, docs: seq<Doc>, items: seq<Item>, results: map<nat, Vector>)
    requires Collected(t, docs, items, results)
    ensures HoldsItems(results, items)
  {
  }

  lemma NothingCollected(t: Tools, docs: seq<Doc>)
    ensures Collected(t, docs, [], map[])
  {
  }

  /** Documents and items with distinct ids, as many of each, every item a valid vector for one of the documents. */
  ghost predicate EachOnce(t: Tools, docs: seq<Doc>, response: Response) {
    && (forall i, k :: 0 <= i < k < |docs| ==> docs[i].id != docs[k].id)
    && response.matches && |response.items| == |docs|
    && (forall i, k :: 0 <= i < k < |response.items| ==> response.items[i].id != response.items[k].id)
    && (forall k :: 0 <= k < |response.items| ==>
          t.valid(response.items[k].vector) && exists d :: d in docs && d.id == response.items[k].id)
  }

  lemma IdKnown(docs: seq<Doc>, id: nat)
    ensures id in Ids(docs) <==> exists d :: d in docs && d.id == id
  {
  }

  lemma AnsweredEachOnce(t: Tools, docs: seq<Doc>, response: Response)
    requires Answers(t, docs, response)
    ensures EachOnce(t, docs, response)
  {
    forall k | 0 <= k < |response.items|
      ensures t.valid(response.items[k].vector) && exists d :: d in docs && d.id == response.items[k].id
    {
      IdKnown(docs, response.items[k].id);
    }
  }

  lemma EachOnceAnswers(t: Tools, docs: seq<Doc>, response: Response)
    requires EachOnce(t, docs, response)
    ensures Answers(t, docs, response)
  {
    forall k | 0 <= k < |response.items| ensures response.items[k].id in Ids(docs) && t.valid(response.items[k].vector) {
      IdKnown(docs, response.items[k].id);
    }
  }

  lemma AnswersIff(t: Tools, docs: seq<Doc>, response: Response)
    ensures Answers(t, docs, response) <==> EachOnce(t, docs, response)
  {
    hide Answers, EachOnce;
    if Answers(t, docs, response) { AnsweredEachOnce(t, docs, response); }
    if EachOnce(t, docs, response) { EachOnceAnswers(t, docs, response); }
  }

  /** `_embed_batch`, given the response of the service. Its last check can never fail. */
  method EmbedBatch(t: Tools, docs: seq<Doc>, response: Response) returns (r: Result<map<nat, Vector>, EmbedError>)
    ensures r.Success? <==> EachOnce(t, docs, response)
    ensures r.Success? <==> Answers(t, docs, response)
    ensures r.Success? ==> r.value.Keys == Ids(docs) && HoldsItems(r.value, response.items)
    ensures r != Failure(MissingResult)
  {
    AnswersIff(t, docs, response);
    hide Ids, DistinctIds, DistinctItems, HoldsItems, ItemIds, Collected, Answers, EachOnce;
    var expected := Ids(docs);
    DistinctCount(docs);
    AnswerShape(t, docs, response);
    if |expected| != |docs| {
      return Failure(DuplicateRequest);
    }
    if !response.matches {
      return Failure(ModelMismatch);
    }
    if |response.items| != |docs| {
      return Failure(CountMismatch);
    }
    var results: map<nat, Vector> := map[];
    NothingCollected(t, docs);
    for k := 0 to |response.items|
      invariant Collected(t, docs, response.items[..k], results)
    {
      var item := response.items[k];
      if item.id in results || item.id !in expected {
        RefusedItem(t, docs, response, k, results);
        return Failure(UnexpectedResult);
      }
      if !t.valid(item.vector) {
        RefusedItem(t, docs, response, k, results);
        return Failure(InvalidEmbedding);
      }
      CollectOne(t, docs, response.items[..k], results, item);
      assert response.items[..k + 1] == response.items[..k] + [item];
      results := results[item.id := item.vector];
    }
    assert response.items[..|response.items|] == response.items;
    CollectedAll(t, docs, response, results);
    CollectedHolds(t, docs, response.items, results);
    if results.Keys != expected {
      return Failure(MissingResult);
    }
    return Success(results);
  }

  // ---------------------------------------------------------------- all batches

  /** Every vector that the service returns for a document is the embedding of its text. */
  ghost predicate Honest(t: Tools, respond: seq<Doc> -> Response) {
    forall batch: seq<Doc>, d: Doc, k: nat ::
      d in batch && k < |respond(batch).items| && respond(batch).items[k].id == d.id ==>
        respond(batch).items[k].vector == t.embed(t.model, d.text)
  }

  /** The documents of a successful result: distinct ids, each with the embedding of its text. */
  ghost predicate Embedded(t: Tools, docs: seq<Doc>, result: map<nat, Vector>) {
    && result.Keys == Ids(docs) && DistinctIds(docs)
    && (forall d :: d in docs ==> result[d.id] == t.embed(t.model, d.text) && t.valid(result[d.id]))
  }

  lemma {:induction false} ItemCount(items: seq<Item>)
    requires DistinctItems(items)
    ensures |ItemIds(items)| == |items|
  {
    if items == [] {
    } else {
      var before, last := items[..|items| - 1], items[|items| - 1];
      ItemCount(before);
      assert items == before + [last];
      ItemIdsAppend(before, last);
      assert last.id !in ItemIds(before) by {
        forall x | x in before ensures x.id != last.id {
          var i :| 0 <= i < |before| && before[i] == x;
          assert items[i].id != items[|items| - 1].id;
        }
      }
      hide ItemIds;
      OneMore(ItemIds(before), last.id);
    }
  }

  lemma BatchEmbedded(t: Tools, docs: seq<Doc>, respond: seq<Doc> -> Response, result: map<nat, Vector>)
    requires Honest(t, respond) && Answers(t, docs, respond(docs)) && result.Keys == Ids(docs)
    requires HoldsItems(result, respond(docs).items)
    ensures Embedded(t, docs, result)
  {
    var items := respond(docs).items;
    ItemCount(items);
    DistinctCount(docs);
    SubsetOfSameSize(ItemIds(items), Ids(docs));
    forall d | d in docs ensures result[d.id] == t.embed(t.model, d.text) && t.valid(result[d.id]) {
      assert d.id in ItemIds(items);
      var x :| x in items && x.id == d.id;
      var k :| 0 <= k < |items| && items[k] == x;
    }
  }

  lemma IdsAppend(a: seq<Doc>, b: seq<Doc>)
    ensures Ids(a + b) == Ids(a) + Ids(b)
  {
    forall d | d in a || d in b ensures d in a + b {}
  }

  lemma DistinctAppend(a: seq<Doc>, b: seq<Doc>)
    requires DistinctIds(a) && DistinctIds(b) && Ids(a) * Ids(b) == {}
    ensures DistinctIds(a + b)
  {
    forall i, k | 0 <= i < k < |a + b| ensures (a + b)[i].id != (a + b)[k].id {
      if i < |a| <= k {
        assert a[i] in a && b[k - |a|] in b;
        assert a[i].id in Ids(a) && b[k - |a|].id in Ids(b);
        NotInBoth(Ids(a), Ids(b), a[i].id);
      }
    }
  }

  lemma EmbeddedAppend(t: Tools, a: seq<Doc>, ra: map<nat, Vector>, b: seq<Doc>, rb: map<nat, Vector>)
    requires Embedded(t, a, ra) && Embedded(t, b, rb) && ra.Keys * rb.Keys == {}
    ensures Embedded(t, a + b, ra + rb)
  {
    IdsAppend(a, b);
    DistinctAppend(a, b);
    forall d | d in a + b
      ensures d.id in ra + rb && (ra + rb)[d.id] == t.embed(t.model, d.text) && t.valid((ra + rb)[d.id])
    {
      if d in b {
        assert d.id in Ids(b) && (ra + rb)[d.id] == rb[d.id];
      } else {
        assert d.id in Ids(a);
        NotInBoth(ra.Keys, rb.Keys, d.id);
        assert (ra + rb)[d.id] == ra[d.id];
      }
    }
  }

  /** What the batches so far amount to. */
  ghost predicate Merged(t: Tools, respond: seq<Doc> -> Response, docs: seq<Doc>, all: map<nat, Vector>) {
    |all| == |docs| && all.Keys == Ids(docs) && DistinctIds(docs) && (Honest(t, respond) ==> Embedded(t, docs, all))
  }

  lemma NothingMerged(t: Tools, respond: seq<Doc> -> Response)
    ensures Merged(t, respond, [], map[])
  {
  }

  lemma AllMerged(t: Tools, respond: seq<Doc> -> Response, docs: seq<Doc>, all: map<nat, Vector>)
    requires Merged(t, respond, docs, all)
    ensures |all| == |docs| && all.Keys == Ids(docs) && DistinctIds(docs) && (Honest(t, respond) ==> Embedded(t, docs, all))
  {
  }

  lemma BatchSize(t: Tools, docs: seq<Doc>, response: Response, result: map<nat, Vector>)
    requires Answers(t, docs, response) && result.Keys == Ids(docs)
    ensures |result| == |docs|
  {
    DistinctCount(docs);
    assert |result| == |result.Keys|;
  }

  lemma MergedSize(a: map<nat, Vector>, b: map<nat, Vector>)
    requires a.Keys * b.Keys == {}
    ensures |a + b| == |a| + |b|
  {
    assert (a + b).Keys == a.Keys + b.Keys;
    assert |(a + b).Keys| == |a.Keys| + |b.Keys|;
  }

  lemma MergeBatch(t: Tools, respond: seq<Doc> -> Response, docs: seq<Doc>, all: map<nat, Vector>, batch: seq<Doc>,
                   result: map<nat, Vector>)
    requires Merged(t, respond, docs, all) && all.Keys * result.Keys == {}
    requires Answers(t, batch, respond(batch)) && result.Keys == Ids(batch) && HoldsItems(result, respond(batch).items)
    ensures Merged(t, respond, docs + batch, all + result)
  {
    hide Honest, Embedded, Ids, DistinctIds;
    BatchSize(t, batch, respond(batch), result);
    MergedSize(all, result);
    IdsAppend(docs, batch);
    AnswerShape(t, batch, respond(batch));
    DistinctAppend(docs, batch);
    assert (all + result).Keys == all.Keys + result.Keys;
    if Honest(t, respond) {
      BatchEmbedded(t, batch, respond, result);
      EmbeddedAppend(t, docs, all, batch, result);
    }
  }

  function BatchAt(docs: seq<Doc>, batchSize: nat, k: nat): seq<Doc> {
    BatchEndSteps(k, batchSize, |docs|);
    docs[BatchEnd(k, batchSize, |docs|)..BatchEnd(k + 1, batchSize, |docs|)]
  }

  ghost predicate BatchAnswered(t: Tools, docs: seq<Doc>, batchSize: nat, respond: seq<Doc> -> Response, k: nat) {
    Answers(t, BatchAt(docs, batchSize, k), respond(BatchAt(docs, batchSize, k)))
  }

  ghost predicate AnsweredBefore(t: Tools, docs: seq<Doc>, batchSize: nat, respond: seq<Doc> -> Response, n: nat) {
    forall k: nat :: k < n ==> BatchAnswered(t, docs, batchSize, respond, k)
  }

  /** No document is asked for twice, and the service answers every batch. */
  ghost predicate AllAnswered(t: Tools, docs: seq<Doc>, batchSize: nat, respond: seq<Doc> -> Response) {
    && DistinctIds(docs)
    && forall k: nat :: BatchEnd(k, batchSize, |docs|) < |docs| ==> BatchAnswered(t, docs, batchSize, respond, k)
  }

  /** The batch between two ends. */
  lemma BatchIs(docs: seq<Doc>, batchSize: nat, k: nat)
    ensures var offset := BatchEnd(k, batchSize, |docs|);
            var end := Min(offset + batchSize, |docs|);
            && BatchEnd(k + 1, batchSize, |docs|) == end && docs[offset..end] == BatchAt(docs, batchSize, k)
            && docs[..end] == docs[..offset] + BatchAt(docs, batchSize, k)
  {
    BatchEndSteps(k, batchSize, |docs|);
    hide BatchEnd;
  }

  lemma NotAnswered(t: Tools, docs: seq<Doc>, batchSize: nat, respond: seq<Doc> -> Response, k: nat)
    requires BatchEnd(k, batchSize, |docs|) < |docs|
    requires !Answers(t, BatchAt(docs, batchSize, k), respond(BatchAt(docs, batchSize, k)))
    ensures !AllAnswered(t, docs, batchSize, respond)
  {
    hide BatchEnd, Answers, BatchAt;
    assert !BatchAnswered(t, docs, batchSize, respond, k);
  }

  lemma RepeatedId(t: Tools, docs: seq<Doc>, batchSize: nat, respond: seq<Doc> -> Response, done: seq<Doc>, batch: seq<Doc>)
    requires done + batch <= docs && Ids(done) * Ids(batch) != {}
    ensures !AllAnswered(t, docs, batchSize, respond)
  {
    hide BatchEnd, Answers, BatchAt;
    var id :| id in Ids(done) * Ids(batch);
    var a :| a in done && a.id == id;
    var b :| b in batch && b.id == id;
    var i :| 0 <= i < |done| && done[i] == a;
    var k :| 0 <= k < |batch| && batch[k] == b;
    assert docs[i] == (done + batch)[i] && docs[|done| + k] == (done + batch)[|done| + k];
  }

  lemma NothingAnswered(t: Tools, docs: seq<Doc>, batchSize: nat, respond: seq<Doc> -> Response)
    ensures AnsweredBefore(t, docs, batchSize, respond, 0) && BatchEnd(0, batchSize, |docs|) == 0
  {
  }

  lemma OneMoreAnswered(t: Tools, docs: seq<Doc>, batchSize: nat, respond: seq<Doc> -> Response, n: nat)
    requires AnsweredBefore(t, docs, batchSize, respond, n)
    requires Answers(t, BatchAt(docs, batchSize, n), respond(BatchAt(docs, batchSize, n)))
    ensures AnsweredBefore(t, docs, batchSize, respond, n + 1)
  {
    hide BatchEnd, Answers, BatchAt;
  }

  lemma AllWereAnswered(t: Tools, docs: seq<Doc>, batchSize: nat, respond: seq<Doc> -> Response, n: nat)
    requires BatchEnd(n, batchSize, |docs|) == |docs| && DistinctIds(docs)
    requires AnsweredBefore(t, docs, batchSize, respond, n)
    ensures AllAnswered(t, docs, batchSize, respond)
  {
    hide BatchAnswered, DistinctIds;
    forall k: nat | BatchEnd(k, batchSize, |docs|) < |docs| ensures BatchAnswered(t, docs, batchSize, respond, k) {
      if k >= n { BatchEndGrows(n, k, batchSize, |docs|); }
    }
  }

  /** `embed_documents`: batches of `batchSize`, merged unless an id comes back twice. */
  method EmbedDocuments(t: Tools, docs: seq<Doc>, batchSize: nat, respond: seq<Doc> -> Response)
    returns (r: Result<map<nat, Vector>, EmbedError>)
    requires batchSize >= 1
    ensures r.Success? <==> AllAnswered(t, docs, batchSize, respond)
    ensures r.Success? ==> |r.value| == |docs| && r.value.Keys == Ids(docs)
    ensures r.Success? && Honest(t, respond) ==> Embedded(t, docs, r.value)
  {
    hide Embedded, Honest, Answers, Ids, DistinctIds, HoldsItems, Merged, AllAnswered, AnsweredBefore, BatchEnd, BatchAt;
    var all: map<nat, Vector> := map[];
    NothingMerged(t, respond);
    NothingAnswered(t, docs, batchSize, respond);
    assert docs[..0] == [];
    var offset := 0;
    ghost var k: nat := 0;
    while offset < |docs|
      invariant 0 <= offset <= |docs| && offset == BatchEnd(k, batchSize, |docs|)
      invariant Merged(t, respond, docs[..offset], all) && AnsweredBefore(t, docs, batchSize, respond, k)
    {
      var end := Min(offset + batchSize, |docs|);
      var batch := docs[offset..end];
      BatchIs(docs, batchSize, k);
      var results := EmbedBatch(t, batch, respond(batch));
      if results.Failure? {
        NotAnswered(t, docs, batchSize, respond, k);
        return results;
      }
      AllMerged(t, respond, docs[..offset], all);
      if all.Keys * results.value.Keys != {} {
        RepeatedId(t, docs, batchSize, respond, docs[..offset], batch);
        return Failure(DuplicateResult);
      }
      MergeBatch(t, respond, docs[..offset], all, batch, results.value);
      OneMoreAnswered(t, docs, batchSize, respond, k);
      all, offset, k := all + results.value, end, k + 1;
    }
    assert docs[..|docs|] == docs;
    AllMerged(t, respond, docs, all);
    AllWereAnswered(t, docs, batchSize, respond, k);
    return Success(all);
  }
}
