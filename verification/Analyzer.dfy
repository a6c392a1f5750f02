/** The canonical chunks of an analysis (analyzer.py) and the documents prepared from them. */
module Analyzer {
  import opened Common
  import opened Sorting
  import opened Embedding
  import Utf8

  datatype Limits = Limits(totalChunks: nat, totalChunkBytes: nat)

  function NameOf(c: Chunk): string {
    if c.qualifiedName.Some? then c.qualifiedName.value else ""
  }

  function Place(c: Chunk): (string, nat, nat, string, string, string) {
    (c.filePath, c.startLine, c.endLine, c.chunkType, NameOf(c), c.contentHash)
  }

  predicate TextsLe(a: Chunk, b: Chunk) {
    if a.chunkType != b.chunkType then StrLe(a.chunkType, b.chunkType)
    else if NameOf(a) != NameOf(b) then StrLe(NameOf(a), NameOf(b))
    else StrLe(a.contentHash, b.contentHash)
  }

  /** The sort key of `analyze`. */
  predicate ChunkLe(a: Chunk, b: Chunk) {
    if a.filePath != b.filePath then StrLe(a.filePath, b.filePath)
    else if a.startLine != b.startLine then a.startLine < b.startLine
    else if a.endLine != b.endLine then a.endLine < b.endLine
    else TextsLe(a, b)
  }

  function Numbered(chunks: seq<Chunk>): (r: seq<Chunk>)
    ensures |r| == |chunks|
  {
    seq(|chunks|, k requires 0 <= k < |chunks| => chunks[k].(ordinal := k))
  }

  function Canonical(chunks: seq<Chunk>): seq<Chunk> {
    Numbered(Sort(ChunkLe, chunks))
  }

  function ContentBytes(chunks: seq<Chunk>): nat {
    if chunks == [] then 0 else ContentBytes(chunks[..|chunks| - 1]) + Utf8.Size(chunks[|chunks| - 1].content)
  }

  function Gathered(perFile: seq<seq<Chunk>>): seq<Chunk> {
    if perFile == [] then [] else Gathered(perFile[..|perFile| - 1]) + perFile[|perFile| - 1]
  }

  /** All texts after one another. */
  function Texts(chunks: seq<Chunk>): string {
    if chunks == [] then "" else Texts(chunks[..|chunks| - 1]) + chunks[|chunks| - 1].content
  }

  lemma NoTexts()
    ensures Utf8.Size(Texts([])) == 0
  {
  }

  /** The bytes that are limited are those of all texts. */
  lemma {:induction false} BytesOfTexts(chunks: seq<Chunk>)
    ensures ContentBytes(chunks) == Utf8.Size(Texts(chunks))
  {
    hide Utf8.Size;
    if chunks == [] {
      NoTexts();
    } else {
      BytesOfTexts(chunks[..|chunks| - 1]);
      Utf8.SizeAppend(Texts(chunks[..|chunks| - 1]), chunks[|chunks| - 1].content);
    }
  }

  /** The chunks of all files, file by file. */
  lemma {:induction false} GatheredAppend(a: seq<seq<Chunk>>, b: seq<seq<Chunk>>)
    ensures Gathered(a + b) == Gathered(a) + Gathered(b) && forall x :: Gathered([x]) == x
  {
    forall x ensures Gathered([x]) == x { assert [x][..0] == []; }
    if b == [] {
      assert a + b == a;
    } else {
      GatheredAppend(a, b[..|b| - 1]);
      assert (a + b)[..|a + b| - 1] == a + b[..|b| - 1];
    }
  }

  datatype AnalysisError = ChunkCountExceeded | ChunkBytesExceeded

  lemma CanonicalSize(chunks: seq<Chunk>)
    ensures |Canonical(chunks)| == |chunks|
  {
  }

  lemma {:induction false} GatheredGrows(perFile: seq<seq<Chunk>>, i: nat, k: nat)
    requires i <= k <= |perFile|
    ensures |Gathered(perFile[..i])| <= |Gathered(perFile[..k])|
  {
    if i == k {
    } else {
      GatheredGrows(perFile, i, k - 1);
      assert perFile[..k][..k - 1] == perFile[..k - 1];
    }
  }

  lemma {:induction false} ContentBytesWithout(xs: seq<Chunk>, i: nat)
    requires i < |xs|
    ensures ContentBytes(xs) == ContentBytes(xs[..i] + xs[i + 1..]) + Utf8.Size(xs[i].content)
  {
    hide Utf8.Size;
    var rest := xs[..i] + xs[i + 1..];
    if i == |xs| - 1 {
      assert rest == xs[..|xs| - 1];
    } else {
      var before := xs[..|xs| - 1];
      ContentBytesWithout(before, i);
      assert rest[..|rest| - 1] == before[..i] + before[i + 1..];
    }
  }

  lemma TakeOut(xs: seq<Chunk>, ys: seq<Chunk>) returns (i: nat)
    requires xs != [] && multiset(xs) == multiset(ys)
    ensures i < |ys| && ys[i] == xs[|xs| - 1] && multiset(ys[..i] + ys[i + 1..]) == multiset(xs[..|xs| - 1])
  {
    var before, last := xs[..|xs| - 1], xs[|xs| - 1];
    assert xs == before + [last];
    assert last in multiset(ys);
    i :| 0 <= i < |ys| && ys[i] == last;
    assert ys == ys[..i] + [last] + ys[i + 1..];
    assert multiset(ys[..i] + ys[i + 1..]) == multiset(ys) - multiset{last};
  }

  /** The bytes of chunks do not depend on their order. */
  lemma {:induction false} ContentBytesIgnoresOrder(xs: seq<Chunk>, ys: seq<Chunk>)
    requires multiset(xs) == multiset(ys)
    ensures ContentBytes(xs) == ContentBytes(ys)
    decreases |xs|
  {
    hide Utf8.Size;
    assert |xs| == |multiset(xs)| == |ys|;
    if xs == [] {
    } else {
      var i := TakeOut(xs, ys);
      ContentBytesIgnoresOrder(xs[..|xs| - 1], ys[..i] + ys[i + 1..]);
      ContentBytesWithout(ys, i);
    }
  }

  lemma {:induction false} NumberedBytes(chunks: seq<Chunk>)
    ensures ContentBytes(Numbered(chunks)) == ContentBytes(chunks)
  {
    hide Utf8.Size;
    if chunks == [] {
    } else {
      NumberedBytes(chunks[..|chunks| - 1]);
      assert Numbered(chunks)[..|chunks| - 1] == Numbered(chunks[..|chunks| - 1]);
    }
  }

  lemma CanonicalBytes(chunks: seq<Chunk>)
    ensures ContentBytes(Canonical(chunks)) == ContentBytes(chunks)
  {
    hide Sort, ContentBytes, Numbered;
    NumberedBytes(Sort(ChunkLe, chunks));
    ContentBytesIgnoresOrder(Sort(ChunkLe, chunks), chunks);
  }

  /**
   * `_build_chunks` and the ordering of `analyze`, given the chunks of each file in turn: refused
   * exactly when there are too many chunks or too many bytes of text, in whatever order.
   */
  method Analyze(l: Limits, perFile: seq<seq<Chunk>>) returns (r: Result<seq<Chunk>, AnalysisError>)
    ensures r == Failure(ChunkCountExceeded) <==> |Gathered(perFile)| > l.totalChunks
    ensures r == Failure(ChunkBytesExceeded) <==>
              |Gathered(perFile)| <= l.totalChunks && Utf8.Size(Texts(Gathered(perFile))) > l.totalChunkBytes
    ensures r.Success? ==> r.value == Canonical(Gathered(perFile))
  {
    hide Sort, Canonical, ContentBytes;
    var chunks: seq<Chunk> := [];
    for i := 0 to |perFile|
      invariant chunks == Gathered(perFile[..i]) && |chunks| <= l.totalChunks
    {
      assert perFile[..i + 1][..i] == perFile[..i];
      chunks := chunks + perFile[i];
      if |chunks| > l.totalChunks {
        GatheredGrows(perFile, i + 1, |perFile|);
        assert perFile[..|perFile|] == perFile;
        return Failure(ChunkCountExceeded);
      }
    }
    assert perFile[..|perFile|] == perFile;
    var ordered := Canonical(chunks);
    CanonicalSize(chunks);
    CanonicalBytes(chunks);
    BytesOfTexts(chunks);
    if ContentBytes(ordered) > l.totalChunkBytes {
      return Failure(ChunkBytesExceeded);
    }
    return Success(ordered);
  }

  lemma TextsLeTransitive(a: Chunk, b: Chunk, c: Chunk)
    requires TextsLe(a, b) && TextsLe(b, c)
    ensures TextsLe(a, c)
  {
    hide StrLe, NameOf;
    if a.chunkType == b.chunkType == c.chunkType {
      if NameOf(a) == NameOf(b) == NameOf(c) {
        StrLeTransitive(a.contentHash, b.contentHash, c.contentHash);
      } else if NameOf(a) != NameOf(b) && NameOf(b) != NameOf(c) {
        StrLeTransitive(NameOf(a), NameOf(b), NameOf(c));
        if NameOf(a) == NameOf(c) { StrLeAntisymmetric(NameOf(a), NameOf(b)); }
      }
    } else if a.chunkType != b.chunkType && b.chunkType != c.chunkType {
      StrLeTransitive(a.chunkType, b.chunkType, c.chunkType);
      if a.chunkType == c.chunkType { StrLeAntisymmetric(a.chunkType, b.chunkType); }
    }
  }

  lemma ChunkLeTransitive(a: Chunk, b: Chunk, c: Chunk)
    requires ChunkLe(a, b) && ChunkLe(b, c)
    ensures ChunkLe(a, c)
  {
    hide StrLe, TextsLe;
    if a.filePath == b.filePath == c.filePath {
      if a.startLine == b.startLine == c.startLine && a.endLine == b.endLine == c.endLine { TextsLeTransitive(a, b, c); }
    } else if a.filePath != b.filePath && b.filePath != c.filePath {
      StrLeTransitive(a.filePath, b.filePath, c.filePath);
      if a.filePath == c.filePath { StrLeAntisymmetric(a.filePath, b.filePath); }
    }
  }

  lemma BothWays(x: string, y: string)
    ensures (StrLe(x, y) || StrLe(y, x)) && (StrLe(x, y) && StrLe(y, x) ==> x == y)
  {
    StrLeTotal(x, y);
    if StrLe(x, y) && StrLe(y, x) { StrLeAntisymmetric(x, y); }
  }

  lemma TextsLeTotal(a: Chunk, b: Chunk)
    ensures TextsLe(a, b) || TextsLe(b, a)
    ensures TextsLe(a, b) && TextsLe(b, a) ==> (a.chunkType, NameOf(a), a.contentHash) == (b.chunkType, NameOf(b), b.contentHash)
  {
    hide StrLe;
    BothWays(a.chunkType, b.chunkType);
    BothWays(NameOf(a), NameOf(b));
    BothWays(a.contentHash, b.contentHash);
  }

  lemma ChunkLeTotal(a: Chunk, b: Chunk)
    ensures ChunkLe(a, b) || ChunkLe(b, a)
    ensures ChunkLe(a, b) && ChunkLe(b, a) ==> Place(a) == Place(b)
  {
    hide StrLe, TextsLe;
    BothWays(a.filePath, b.filePath);
    TextsLeTotal(a, b);
  }

  lemma ChunkLeIsTotalPreorder()
    ensures TotalPreorder(ChunkLe)
  {
    hide ChunkLe;
    forall a, b ensures ChunkLe(a, b) || ChunkLe(b, a) { ChunkLeTotal(a, b); }
    forall a, b, c | ChunkLe(a, b) && ChunkLe(b, c) ensures ChunkLe(a, c) { ChunkLeTransitive(a, b, c); }
  }

  /** Chunks in one place are one chunk. */
  ghost predicate PlacesIdentify(chunks: seq<Chunk>) {
    forall a, b :: a in chunks && b in chunks && Place(a) == Place(b) ==> a == b
  }

  /** Neither the order of the files nor the order of the chunks in a file shows in the result. */
  lemma CanonicalIgnoresOrder(xs: seq<Chunk>, ys: seq<Chunk>)
    requires multiset(xs) == multiset(ys) && PlacesIdentify(xs)
    ensures Canonical(xs) == Canonical(ys)
  {
    hide ChunkLe;
    ChunkLeIsTotalPreorder();
    forall a, b | a in xs && b in xs && ChunkLe(a, b) && ChunkLe(b, a) ensures a == b { ChunkLeTotal(a, b); }
    SortIgnoresOrder(ChunkLe, xs, ys);
  }

  lemma OrdinalsDoNotCount(a: Chunk, i: nat, b: Chunk, k: nat)
    ensures ChunkLe(a.(ordinal := i), b.(ordinal := k)) <==> ChunkLe(a, b)
  {
  }

  predicate LaterKeys(a: Chunk, b: Chunk) {
    var x := if a.qualifiedName == None then "" else a.qualifiedName.value;
    var y := if b.qualifiedName == None then "" else b.qualifiedName.value;
    || (a.chunkType != b.chunkType && StrLe(a.chunkType, b.chunkType))
    || (a.chunkType == b.chunkType && x != y && StrLe(x, y))
    || (a.chunkType == b.chunkType && x == y && StrLe(a.contentHash, b.contentHash))
  }

  /** In the order of files and lines, then of type, name and content. */
  predicate Precedes(a: Chunk, b: Chunk) {
    || (a.filePath != b.filePath && StrLe(a.filePath, b.filePath))
    || (a.filePath == b.filePath && a.startLine < b.startLine)
    || (a.filePath == b.filePath && a.startLine == b.startLine && a.endLine < b.endLine)
    || (a.filePath == b.filePath && a.startLine == b.startLine && a.endLine == b.endLine && LaterKeys(a, b))
  }

  lemma KeyIsOrder(a: Chunk, b: Chunk)
    ensures ChunkLe(a, b) <==> Precedes(a, b)
  {
    hide StrLe;
  }

  /** The result is the given chunks in the order of the sort key, with dense ordinals. */
  lemma CanonicalIsOrdered(chunks: seq<Chunk>)
    ensures var result := Canonical(chunks);
            && (forall i :: 0 <= i < |result| ==> result[i].ordinal == i)
            && (forall i, k :: 0 <= i < k < |result| ==> Precedes(result[i], result[k]))
            && exists sorted :: multiset(sorted) == multiset(chunks) && Numbered(sorted) == result
  {
    hide ChunkLe, Precedes;
    ChunkLeIsTotalPreorder();
    SortIsSorted(ChunkLe, chunks);
    var sorted, result := Sort(ChunkLe, chunks), Canonical(chunks);
    forall i, k | 0 <= i < k < |result| ensures Precedes(result[i], result[k]) {
      assert ChunkLe(sorted[i], sorted[k]);
      OrdinalsDoNotCount(sorted[i], i, sorted[k], k);
      KeyIsOrder(result[i], result[k]);
    }
    assert multiset(sorted) == multiset(chunks) && Numbered(sorted) == result;
  }

  function DocsOf(t: Tools, chunks: seq<Chunk>): seq<Doc> {
    seq(|chunks|, i requires 0 <= i < |chunks| => Prepared(t, chunks[i]))
  }

  /** The dense ordinals give the documents of an analysis distinct ids. */
  lemma AnalyzedDocsAreDistinct(t: Tools, chunks: seq<Chunk>)
    ensures var docs := DocsOf(t, Canonical(chunks));
            DistinctIds(docs) && forall i :: 0 <= i < |docs| ==> docs[i].id == i && docs[i] == Prepared(t, docs[i].chunk)
  {
    hide Sort;
    var canonical := Canonical(chunks);
    forall i | 0 <= i < |canonical| ensures Prepared(t, canonical[i]).id == i {}
  }
}
