/** `DocumentationChunker.chunk`: nothing that is not blank is lost, repeated or altered. */
module DocumentationChunker {
  import opened Common
  import opened Sorting
  import opened Packing
  import opened DocumentSections
  import Utf8

  datatype Limits = Limits(chunkBytes: nat, sectionBytes: nat, chunksPerFile: nat, warnings: nat)

  datatype DocumentType = Markdown | PlainText | Unsupported

  datatype Chunk = Chunk(ordinal: nat, first: nat, last: nat, headings: seq<string>, contentHash: string, content: string)

  /** The parts of the environment: the line classifier and the content hash. */
  datatype Tools = Tools(classify: string -> LineKind, digest: string -> string)

  function KindsOf(t: Tools, lines: seq<string>): (kinds: seq<LineKind>)
    ensures |kinds| == |lines| && forall i :: 0 <= i < |lines| ==> kinds[i] == t.classify(lines[i])
  {
    seq(|lines|, i requires 0 <= i < |lines| => t.classify(lines[i]))
  }

  // ---------------------------------------------------------------- one section

  ghost predicate KeptLinesFit(lines: seq<string>, kinds: seq<LineKind>, limit: nat, s: Section)
    requires 1 <= s.first
  {
    forall l: nat :: s.first <= l <= s.last && Kept(kinds, s.first, l) ==> Bytes(lines, l, l) <= limit
  }

  /** A section is taken when it fits the section limit and each line of its paragraphs fits a chunk. */
  ghost predicate Accepted(lines: seq<string>, kinds: seq<LineKind>, limits: Limits, s: Section)
    requires 1 <= s.first
  {
    Bytes(lines, s.first, s.last) <= limits.sectionBytes && KeptLinesFit(lines, kinds, limits.chunkBytes, s)
  }

  /** The pieces of one section: they fit, stay in the section, and hold exactly the kept lines and what lies between. */
  ghost predicate PiecesOf(lines: seq<string>, kinds: seq<LineKind>, limits: Limits, s: Section, pieces: seq<Range>)
    requires 1 <= s.first
  {
    && Separated(pieces)
    && (forall k :: 0 <= k < |pieces| ==>
          && s.first <= pieces[k].first && pieces[k].last <= s.last && Fits(lines, limits.chunkBytes, pieces[k])
          && Kept(kinds, s.first, pieces[k].first) && Kept(kinds, s.first, pieces[k].last))
    && (forall l: nat :: s.first <= l <= s.last && Kept(kinds, s.first, l) ==> Holds(pieces, l))
  }

  lemma KeptIsHeld(kinds: seq<LineKind>, s: Section, ranges: seq<Range>, line: nat)
    requires 1 <= s.first <= line <= s.last && AreParagraphs(kinds, s.first, s.last, ranges) && Kept(kinds, s.first, line)
    ensures Holds(ranges, line)
  {
  }

  lemma HeldInside(kinds: seq<LineKind>, s: Section, ranges: seq<Range>, line: nat)
    requires 1 <= s.first <= s.last && AreParagraphs(kinds, s.first, s.last, ranges) && Holds(ranges, line)
    ensures s.first <= line <= s.last && Kept(kinds, s.first, line)
  {
    hide Kept, KindAt;
    var q :| 0 <= q < |ranges| && In(ranges[q], line);
  }

  lemma PiecesInSection(lines: seq<string>, kinds: seq<LineKind>, limits: Limits, s: Section, ranges: seq<Range>, pieces: seq<Range>)
    requires 1 <= s.first <= s.last && AreParagraphs(kinds, s.first, s.last, ranges)
    requires Covers(lines, limits.chunkBytes, ranges, pieces)
    ensures PiecesOf(lines, kinds, limits, s, pieces)
  {
    hide Fits, Kept, Holds, AreParagraphs;
    forall k | 0 <= k < |pieces|
      ensures s.first <= pieces[k].first && pieces[k].last <= s.last
           && Kept(kinds, s.first, pieces[k].first) && Kept(kinds, s.first, pieces[k].last)
    {
      assert PieceOk(lines, limits.chunkBytes, ranges, pieces[k]);
      HeldInside(kinds, s, ranges, pieces[k].first);
      HeldInside(kinds, s, ranges, pieces[k].last);
    }
    forall l: nat | s.first <= l <= s.last && Kept(kinds, s.first, l) ensures Holds(pieces, l) {
      KeptIsHeld(kinds, s, ranges, l);
    }
  }

  lemma PackedParagraphs(lines: seq<string>, kinds: seq<LineKind>, limits: Limits, s: Section, ranges: seq<Range>)
    requires 1 <= s.first <= s.last && AreParagraphs(kinds, s.first, s.last, ranges)
    ensures AllLinesFit(lines, limits.chunkBytes, ranges) <==> KeptLinesFit(lines, kinds, limits.chunkBytes, s)
    ensures forall pieces :: Covers(lines, limits.chunkBytes, ranges, pieces) ==> PiecesOf(lines, kinds, limits, s, pieces)
  {
    hide Bytes, Kept, KindAt;
    if AllLinesFit(lines, limits.chunkBytes, ranges) {
      forall l: nat | s.first <= l <= s.last && Kept(kinds, s.first, l) ensures Bytes(lines, l, l) <= limits.chunkBytes {
        var q :| 0 <= q < |ranges| && In(ranges[q], l);
      }
    }
    if KeptLinesFit(lines, kinds, limits.chunkBytes, s) {
      forall q | 0 <= q < |ranges| ensures LinesFit(lines, limits.chunkBytes, ranges[q].first, ranges[q].last) {
        forall l: nat | ranges[q].first <= l <= ranges[q].last ensures Bytes(lines, l, l) <= limits.chunkBytes {
          assert In(ranges[q], l);
          assert Holds(ranges, l);
        }
      }
    }
    forall pieces | Covers(lines, limits.chunkBytes, ranges, pieces) ensures PiecesOf(lines, kinds, limits, s, pieces) {
      PiecesInSection(lines, kinds, limits, s, ranges, pieces);
    }
  }

  lemma ParagraphsSeparated(kinds: seq<LineKind>, s: Section, ranges: seq<Range>)
    requires 1 <= s.first && AreParagraphs(kinds, s.first, s.last, ranges)
    ensures Separated(ranges)
  {
  }

  /** The ranges of one section; `None` is the warning that it is too large. */
  method PackSection(lines: seq<string>, kinds: seq<LineKind>, limits: Limits, s: Section) returns (packed: Option<seq<Range>>)
    requires 1 <= s.first <= s.last
    ensures packed.Some? <==> Accepted(lines, kinds, limits, s)
    ensures packed.Some? ==> PiecesOf(lines, kinds, limits, s, packed.value)
  {
    if Bytes(lines, s.first, s.last) > limits.sectionBytes {
      return None;
    }
    var ranges := ParagraphRanges(kinds, s.first, s.last);
    PackedParagraphs(lines, kinds, limits, s, ranges);
    hide AreParagraphs, Covers, PiecesOf, KeptLinesFit, AllLinesFit, Bytes, IsMinimalPacking, AllFit;
    assert Separated(ranges) by { ParagraphsSeparated(kinds, s, ranges); }
    packed := PackRanges(lines, limits.chunkBytes, ranges);
  }

  // ---------------------------------------------------------------- chunks

  /** The chunks of the pieces of a section; pieces without content are skipped. */
  function PieceChunks(t: Tools, lines: seq<string>, headings: seq<string>, pieces: seq<Range>): (chunks: seq<Chunk>)
    requires forall k :: 0 <= k < |pieces| ==> Legal(pieces[k])
  {
    if pieces == [] then []
    else
      var r := pieces[|pieces| - 1];
      assert Legal(r);
      var content := LineSlice(lines, r.first, r.last);
      PieceChunks(t, lines, headings, pieces[..|pieces| - 1]) +
      if content == "" then [] else [Chunk(0, r.first, r.last, headings, t.digest(content), content)]
  }

  /** The loop over the packed ranges of a section. */
  method CollectChunks(t: Tools, lines: seq<string>, headings: seq<string>, pieces: seq<Range>) returns (chunks: seq<Chunk>)
    requires forall k :: 0 <= k < |pieces| ==> Legal(pieces[k])
    ensures chunks == PieceChunks(t, lines, headings, pieces)
  {
    hide LineSlice;
    chunks := [];
    for i := 0 to |pieces|
      invariant chunks == PieceChunks(t, lines, headings, pieces[..i])
    {
      assert pieces[..i + 1][..i] == pieces[..i];
      var content := LineSlice(lines, pieces[i].first, pieces[i].last);
      if content == "" {
        continue;
      }
      chunks := chunks + [Chunk(0, pieces[i].first, pieces[i].last, headings, t.digest(content), content)];
    }
    assert pieces[..|pieces|] == pieces;
  }

  ghost predicate InChunk(chunks: seq<Chunk>, line: nat) {
    exists k :: 0 <= k < |chunks| && chunks[k].first <= line <= chunks[k].last
  }

  predicate Verbatim(t: Tools, lines: seq<string>, limits: Limits, c: Chunk) {
    && 1 <= c.first <= c.last
    && c.content == LineSlice(lines, c.first, c.last) && c.contentHash == t.digest(c.content)
    && Utf8.Size(c.content) <= limits.chunkBytes
  }

  /** A chunk comes from one accepted section. */
  ghost predicate ChunkOk(t: Tools, lines: seq<string>, kinds: seq<LineKind>, limits: Limits, s: Section, c: Chunk)
    requires 1 <= s.first
  {
    && Verbatim(t, lines, limits, c) && Accepted(lines, kinds, limits, s)
    && s.first <= c.first && c.last <= s.last && c.headings == s.headings
  }

  ghost predicate InOrder(chunks: seq<Chunk>) {
    forall j, k :: 0 <= j < k < |chunks| ==> chunks[j].last < chunks[k].first
  }

  predicate Readable(lines: seq<string>, line: nat) {
    1 <= line <= |lines| && lines[line - 1] != ""
  }

  /** What the chunks of one accepted section are. */
  ghost predicate SectionChunked(t: Tools, lines: seq<string>, kinds: seq<LineKind>, limits: Limits, s: Section, chunks: seq<Chunk>)
    requires 1 <= s.first
  {
    && InOrder(chunks)
    && (forall k :: 0 <= k < |chunks| ==> ChunkOk(t, lines, kinds, limits, s, chunks[k]))
    && (forall l: nat :: s.first <= l <= s.last && Readable(lines, l) && Kept(kinds, s.first, l) ==> InChunk(chunks, l))
  }

  ghost predicate FromPieces(t: Tools, lines: seq<string>, headings: seq<string>, pieces: seq<Range>, c: Chunk) {
    && Range(c.first, c.last) in pieces && 1 <= c.first
    && c.content == LineSlice(lines, c.first, c.last) && c.contentHash == t.digest(c.content) && c.headings == headings
  }

  lemma {:induction false} ChunksFromPieces(t: Tools, lines: seq<string>, headings: seq<string>, pieces: seq<Range>, c: Chunk)
    requires forall k :: 0 <= k < |pieces| ==> Legal(pieces[k])
    requires c in PieceChunks(t, lines, headings, pieces)
    ensures FromPieces(t, lines, headings, pieces, c)
  {
    hide LineSlice;
    var before := pieces[..|pieces| - 1];
    if c in PieceChunks(t, lines, headings, before) {
      ChunksFromPieces(t, lines, headings, before, c);
    }
  }

  lemma {:induction false} ChunksInOrder(t: Tools, lines: seq<string>, headings: seq<string>, pieces: seq<Range>)
    requires Separated(pieces)
    ensures InOrder(PieceChunks(t, lines, headings, pieces))
  {
    hide LineSlice;
    if pieces == [] {
    } else {
      var before, r := pieces[..|pieces| - 1], pieces[|pieces| - 1];
      ChunksInOrder(t, lines, headings, before);
      var earlier := PieceChunks(t, lines, headings, before);
      forall k | 0 <= k < |earlier| ensures earlier[k].last < r.first {
        ChunksFromPieces(t, lines, headings, before, earlier[k]);
        var i :| 0 <= i < |before| && before[i] == Range(earlier[k].first, earlier[k].last);
        assert pieces[i].last < r.first;
      }
    }
  }

  lemma InChunkAppend(a: seq<Chunk>, b: seq<Chunk>, line: nat)
    requires InChunk(a, line) || InChunk(b, line)
    ensures InChunk(a + b, line)
  {
    if InChunk(a, line) {
      var k :| 0 <= k < |a| && a[k].first <= line <= a[k].last;
      assert (a + b)[k] == a[k];
    } else {
      var k :| 0 <= k < |b| && b[k].first <= line <= b[k].last;
      assert (a + b)[|a| + k] == b[k];
    }
  }

  /** A piece that holds a readable line has content. */
  lemma ReadablePieceHasContent(lines: seq<string>, r: Range, line: nat)
    requires Legal(r) && In(r, line) && Readable(lines, line)
    ensures LineSlice(lines, r.first, r.last) != ""
  {
    BytesMonotone(lines, r.first, r.last, line, line);
    assert lines[line - 1..line] == [lines[line - 1]];
    assert Bytes(lines, line, line) == Utf8.Size(lines[line - 1]) >= 1;
  }

  lemma {:induction false} ReadableInChunk(t: Tools, lines: seq<string>, headings: seq<string>, pieces: seq<Range>, k: nat, line: nat)
    requires forall i :: 0 <= i < |pieces| ==> Legal(pieces[i])
    requires k < |pieces| && In(pieces[k], line) && Readable(lines, line)
    ensures InChunk(PieceChunks(t, lines, headings, pieces), line)
  {
    var before, r := pieces[..|pieces| - 1], pieces[|pieces| - 1];
    var earlier := PieceChunks(t, lines, headings, before);
    var content := LineSlice(lines, r.first, r.last);
    var last := if content == "" then [] else [Chunk(0, r.first, r.last, headings, t.digest(content), content)];
    if k == |pieces| - 1 {
      ReadablePieceHasContent(lines, r, line);
      assert last[0].first <= line <= last[0].last;
    } else {
      ReadableInChunk(t, lines, headings, before, k, line);
    }
    InChunkAppend(earlier, last, line);
  }

  lemma HeldInChunk(t: Tools, lines: seq<string>, headings: seq<string>, pieces: seq<Range>, line: nat)
    requires Separated(pieces) && Holds(pieces, line) && Readable(lines, line)
    ensures InChunk(PieceChunks(t, lines, headings, pieces), line)
  {
    var k :| 0 <= k < |pieces| && In(pieces[k], line);
    ReadableInChunk(t, lines, headings, pieces, k, line);
  }

  lemma PiecesAreChunked(t: Tools, lines: seq<string>, kinds: seq<LineKind>, limits: Limits, s: Section, pieces: seq<Range>)
    requires 1 <= s.first && PiecesOf(lines, kinds, limits, s, pieces) && Accepted(lines, kinds, limits, s)
    ensures Separated(pieces) && SectionChunked(t, lines, kinds, limits, s, PieceChunks(t, lines, s.headings, pieces))
  {
    hide Accepted, LineSlice, Kept, PieceChunks, Readable, InChunk, InOrder, Utf8.Size, Holds;
    var chunks := PieceChunks(t, lines, s.headings, pieces);
    ChunksInOrder(t, lines, s.headings, pieces);
    forall k | 0 <= k < |chunks| ensures ChunkOk(t, lines, kinds, limits, s, chunks[k]) {
      ChunksFromPieces(t, lines, s.headings, pieces, chunks[k]);
      var i :| 0 <= i < |pieces| && pieces[i] == Range(chunks[k].first, chunks[k].last);
      assert Fits(lines, limits.chunkBytes, pieces[i]);
    }
    forall l: nat | s.first <= l <= s.last && Readable(lines, l) && Kept(kinds, s.first, l) ensures InChunk(chunks, l) {
      assert Holds(pieces, l);
      HeldInChunk(t, lines, s.headings, pieces, l);
    }
  }

  // ---------------------------------------------------------------- all sections

  /** Sections in order that share no line. */
  ghost predicate Consecutive(sections: seq<Section>) {
    && (forall i :: 0 <= i < |sections| ==> 1 <= sections[i].first <= sections[i].last)
    && (forall i, k :: 0 <= i < k < |sections| ==> sections[i].last < sections[k].first)
  }

  lemma SectionsAreConsecutive(kinds: seq<LineKind>, sections: seq<Section>)
    requires AreSections(kinds, sections)
    ensures Consecutive(sections)
  {
    forall i, k | 0 <= i < k < |sections| ensures sections[i].last < sections[k].first {
      SectionsAscend(kinds, sections, i, k);
    }
    forall i | 0 <= i < |sections| ensures 1 <= sections[i].first <= sections[i].last {
      assert SectionAt(kinds, sections, i);
    }
  }

  ghost predicate SectionsFor(d: DocumentType, kinds: seq<LineKind>, sections: seq<Section>) {
    match d
    case Markdown => AreSections(kinds, sections)
    case PlainText => sections == [Section(1, Max(1, |kinds|), [])]
    case Unsupported => sections == []
  }

  ghost predicate FromSection(t: Tools, lines: seq<string>, kinds: seq<LineKind>, limits: Limits, sections: seq<Section>,
                              n: nat, c: Chunk)
    requires Consecutive(sections) && n <= |sections|
  {
    exists i :: 0 <= i < n && ChunkOk(t, lines, kinds, limits, sections[i], c)
  }

  /** A line of a paragraph of an accepted section. */
  ghost predicate Wanted(lines: seq<string>, kinds: seq<LineKind>, limits: Limits, s: Section, l: nat)
    requires 1 <= s.first
  {
    s.first <= l <= s.last && Accepted(lines, kinds, limits, s) && Readable(lines, l) && Kept(kinds, s.first, l)
  }

  /** From the first `n` sections: verbatim chunks in order, and every readable kept line of an accepted section in one. */
  ghost predicate Lossless(t: Tools, lines: seq<string>, kinds: seq<LineKind>, limits: Limits, sections: seq<Section>,
                           n: nat, chunks: seq<Chunk>)
    requires Consecutive(sections) && n <= |sections|
  {
    && InOrder(chunks)
    && (forall k :: 0 <= k < |chunks| ==> FromSection(t, lines, kinds, limits, sections, n, chunks[k]))
    && (forall i, l: nat :: 0 <= i < n && Wanted(lines, kinds, limits, sections[i], l) ==> InChunk(chunks, l))
  }

  lemma AddSection(t: Tools, lines: seq<string>, kinds: seq<LineKind>, limits: Limits, sections: seq<Section>,
                   n: nat, chunks: seq<Chunk>, more: seq<Chunk>)
    requires Consecutive(sections) && n < |sections| && Lossless(t, lines, kinds, limits, sections, n, chunks)
    requires if Accepted(lines, kinds, limits, sections[n]) then SectionChunked(t, lines, kinds, limits, sections[n], more) else more == []
    ensures Lossless(t, lines, kinds, limits, sections, n + 1, chunks + more)
  {
    hide Accepted, Kept, Readable, InChunk, Verbatim;
    var all := chunks + more;
    forall k | 0 <= k < |all| ensures FromSection(t, lines, kinds, limits, sections, n + 1, all[k]) {
      if k < |chunks| {
        assert FromSection(t, lines, kinds, limits, sections, n, chunks[k]);
        var i :| 0 <= i < n && ChunkOk(t, lines, kinds, limits, sections[i], chunks[k]);
        assert ChunkOk(t, lines, kinds, limits, sections[i], all[k]);
      } else {
        assert ChunkOk(t, lines, kinds, limits, sections[n], all[k]);
      }
    }
    forall j, k | 0 <= j < k < |all| ensures all[j].last < all[k].first {
      if j < |chunks| <= k {
        assert FromSection(t, lines, kinds, limits, sections, n, chunks[j]);
        var i :| 0 <= i < n && ChunkOk(t, lines, kinds, limits, sections[i], chunks[j]);
        assert ChunkOk(t, lines, kinds, limits, sections[n], more[k - |chunks|]);
      }
    }
    forall i, l: nat | 0 <= i < n + 1 && Wanted(lines, kinds, limits, sections[i], l) ensures InChunk(all, l) {
      InChunkAppend(chunks, more, l);
    }
  }

  ghost function Rejected(lines: seq<string>, kinds: seq<LineKind>, limits: Limits, sections: seq<Section>): nat
    requires Consecutive(sections)
  {
    if sections == [] then 0
    else
      Rejected(lines, kinds, limits, sections[..|sections| - 1]) +
      if Accepted(lines, kinds, limits, sections[|sections| - 1]) then 0 else 1
  }

  const TOO_LARGE := "documentation_section_too_large"

  lemma NoSections(t: Tools, lines: seq<string>, kinds: seq<LineKind>, limits: Limits, sections: seq<Section>)
    requires Consecutive(sections)
    ensures Lossless(t, lines, kinds, limits, sections, 0, [])
  {
  }

  /** The loop over the sections. */
  method ChunkSections(t: Tools, lines: seq<string>, kinds: seq<LineKind>, limits: Limits, sections: seq<Section>)
    returns (chunks: seq<Chunk>, warnings: seq<string>)
    requires Consecutive(sections)
    ensures Lossless(t, lines, kinds, limits, sections, |sections|, chunks)
    ensures |warnings| == Rejected(lines, kinds, limits, sections) && forall w :: w in warnings ==> w == TOO_LARGE
  {
    hide Lossless, Accepted, PiecesOf, SectionChunked, PieceChunks, TOO_LARGE;
    chunks, warnings := [], [];
    NoSections(t, lines, kinds, limits, sections);
    for i := 0 to |sections|
      invariant Lossless(t, lines, kinds, limits, sections, i, chunks)
      invariant |warnings| == Rejected(lines, kinds, limits, sections[..i]) && forall w :: w in warnings ==> w == TOO_LARGE
    {
      assert sections[..i + 1][..i] == sections[..i];
      var packed := PackSection(lines, kinds, limits, sections[i]);
      if packed.None? {
        AddSection(t, lines, kinds, limits, sections, i, chunks, []);
        assert chunks + [] == chunks;
        warnings := warnings + [TOO_LARGE];
        continue;
      }
      PiecesAreChunked(t, lines, kinds, limits, sections[i], packed.value);
      var more := CollectChunks(t, lines, sections[i].headings, packed.value);
      AddSection(t, lines, kinds, limits, sections, i, chunks, more);
      chunks := chunks + more;
    }
    assert sections[..|sections|] == sections;
  }

  // ---------------------------------------------------------------- order and numbering

  /** The sort key of a chunk. */
  predicate ChunkLe(a: Chunk, b: Chunk) {
    if a.first != b.first then a.first < b.first
    else if a.last != b.last then a.last < b.last
    else StrLe(a.contentHash, b.contentHash)
  }

  lemma ChunkLeIsTotalPreorder()
    ensures TotalPreorder(ChunkLe)
  {
    forall a, b ensures ChunkLe(a, b) || ChunkLe(b, a) { StrLeTotal(a.contentHash, b.contentHash); }
    forall a, b, c | ChunkLe(a, b) && ChunkLe(b, c) ensures ChunkLe(a, c) {
      if a.first == b.first == c.first && a.last == b.last == c.last {
        StrLeTransitive(a.contentHash, b.contentHash, c.contentHash);
      }
    }
  }

  function Numbered(chunks: seq<Chunk>): (r: seq<Chunk>)
    ensures |r| == |chunks|
  {
    seq(|chunks|, k requires 0 <= k < |chunks| => chunks[k].(ordinal := k))
  }

  lemma OrderedIsSorted(chunks: seq<Chunk>)
    requires InOrder(chunks) && forall k :: 0 <= k < |chunks| ==> chunks[k].first <= chunks[k].last
    ensures Sort(ChunkLe, chunks) == chunks
  {
    hide StrLe;
    ChunkLeIsTotalPreorder();
    assert Sorted(ChunkLe, chunks) by {
      forall j, k | 0 <= j < k < |chunks| ensures ChunkLe(chunks[j], chunks[k]) {
        assert chunks[j].last < chunks[k].first;
      }
    }
    hide ChunkLe, InOrder;
    SortFixesSorted(ChunkLe, chunks);
  }

  lemma LosslessOrder(t: Tools, lines: seq<string>, kinds: seq<LineKind>, limits: Limits, sections: seq<Section>, chunks: seq<Chunk>)
    requires Consecutive(sections) && Lossless(t, lines, kinds, limits, sections, |sections|, chunks)
    ensures InOrder(chunks) && forall k :: 0 <= k < |chunks| ==> chunks[k].first <= chunks[k].last
  {
    hide Accepted, Wanted, LineSlice;
    forall k | 0 <= k < |chunks| ensures chunks[k].first <= chunks[k].last {
      assert FromSection(t, lines, kinds, limits, sections, |sections|, chunks[k]);
      var i :| 0 <= i < |sections| && ChunkOk(t, lines, kinds, limits, sections[i], chunks[k]);
    }
  }

  lemma NumberedLossless(t: Tools, lines: seq<string>, kinds: seq<LineKind>, limits: Limits, sections: seq<Section>, chunks: seq<Chunk>)
    requires Consecutive(sections) && Lossless(t, lines, kinds, limits, sections, |sections|, chunks)
    ensures Lossless(t, lines, kinds, limits, sections, |sections|, Numbered(chunks))
  {
    hide Accepted, Wanted, LineSlice;
    var numbered := Numbered(chunks);
    forall k | 0 <= k < |numbered| ensures FromSection(t, lines, kinds, limits, sections, |sections|, numbered[k]) {
      assert FromSection(t, lines, kinds, limits, sections, |sections|, chunks[k]);
      var i :| 0 <= i < |sections| && ChunkOk(t, lines, kinds, limits, sections[i], chunks[k]);
      assert ChunkOk(t, lines, kinds, limits, sections[i], numbered[k]);
    }
    forall i, l: nat | 0 <= i < |sections| && Wanted(lines, kinds, limits, sections[i], l) ensures InChunk(numbered, l) {
      assert InChunk(chunks, l);
      var k :| 0 <= k < |chunks| && chunks[k].first <= l <= chunks[k].last;
      assert numbered[k].first <= l <= numbered[k].last;
    }
    forall j, k | 0 <= j < k < |numbered| ensures numbered[j].last < numbered[k].first {
      assert chunks[j].last < chunks[k].first;
    }
  }

  // ---------------------------------------------------------------- code blocks

  /** The line exists, and it is not blank or it is in a code block. */
  ghost predicate Taken(kinds: seq<LineKind>, blocks: seq<Block>, line: nat) {
    1 <= line <= |kinds| && (!kinds[line - 1].Blank? || Fenced(blocks, line))
  }

  /** The text of a section is within its limit, and so is each of its lines that is not blank or is in a code block. */
  ghost predicate WithinLimits(lines: seq<string>, kinds: seq<LineKind>, blocks: seq<Block>, limits: Limits, s: Section)
    requires |kinds| == |lines| && 1 <= s.first <= s.last
  {
    && Utf8.Size(LineSlice(lines, s.first, s.last)) <= limits.sectionBytes
    && forall l: nat :: s.first <= l <= s.last && Taken(kinds, blocks, l) ==>
         Utf8.Size(lines[l - 1]) <= limits.chunkBytes
  }

  /** Every line with text, blank lines outside code blocks aside, of a section within the limits is in a chunk. */
  ghost predicate LosesNothing(lines: seq<string>, kinds: seq<LineKind>, blocks: seq<Block>, limits: Limits, sections: seq<Section>,
                               chunks: seq<Chunk>)
    requires |kinds| == |lines| && Consecutive(sections)
  {
    forall i, l: nat ::
      0 <= i < |sections| && WithinLimits(lines, kinds, blocks, limits, sections[i])
      && sections[i].first <= l <= sections[i].last && Taken(kinds, blocks, l) && lines[l - 1] != ""
      ==> InChunk(chunks, l)
  }

  lemma OneLineSize(lines: seq<string>, line: nat)
    requires 1 <= line <= |lines|
    ensures Bytes(lines, line, line) == Utf8.Size(lines[line - 1])
  {
    assert lines[line - 1..line] == [lines[line - 1]];
  }

  lemma PastTheEnd(lines: seq<string>, line: nat)
    requires line > |lines|
    ensures Bytes(lines, line, line) == 0
  {
  }

  /** A line counts towards the limit of a chunk if it is kept. */
  lemma LineCounts(lines: seq<string>, kinds: seq<LineKind>, blocks: seq<Block>, limits: Limits, s: Section, l: nat)
    requires |kinds| == |lines| && 1 <= s.first <= l <= s.last && AreBlocks(kinds, blocks)
    requires s.last <= Max(1, |lines|) && FenceAfter(kinds, 1, s.first - 1) == None
    ensures (Kept(kinds, s.first, l) ==> Bytes(lines, l, l) <= limits.chunkBytes)
            <==> (Taken(kinds, blocks, l) ==> Utf8.Size(lines[l - 1]) <= limits.chunkBytes)
  {
    hide AreBlocks, FenceAfter, Fenced, Bytes, Kept;
    if l <= |lines| {
      KeptIff(kinds, blocks, s.first, l);
      OneLineSize(lines, l);
    } else {
      PastTheEnd(lines, l);
    }
  }

  lemma WithinLimitsIff(lines: seq<string>, kinds: seq<LineKind>, blocks: seq<Block>, limits: Limits, s: Section)
    requires |kinds| == |lines| && 1 <= s.first <= s.last && AreBlocks(kinds, blocks)
    requires s.last <= Max(1, |lines|) && FenceAfter(kinds, 1, s.first - 1) == None
    ensures Accepted(lines, kinds, limits, s) <==> WithinLimits(lines, kinds, blocks, limits, s)
  {
    hide AreBlocks, FenceAfter, Fenced, LineSlice, Utf8.Size, Kept;
    if Accepted(lines, kinds, limits, s) {
      forall l: nat | s.first <= l <= s.last && Taken(kinds, blocks, l)
        ensures Utf8.Size(lines[l - 1]) <= limits.chunkBytes
      {
        LineCounts(lines, kinds, blocks, limits, s, l);
      }
    }
    if WithinLimits(lines, kinds, blocks, limits, s) {
      forall l: nat | s.first <= l <= s.last && Kept(kinds, s.first, l) ensures Bytes(lines, l, l) <= limits.chunkBytes {
        LineCounts(lines, kinds, blocks, limits, s, l);
      }
    }
  }

  lemma LosslessIsLossless(t: Tools, lines: seq<string>, kinds: seq<LineKind>, blocks: seq<Block>, limits: Limits,
                           sections: seq<Section>, chunks: seq<Chunk>)
    requires |kinds| == |lines| && Consecutive(sections) && AreBlocks(kinds, blocks)
    requires forall i :: 0 <= i < |sections| ==> sections[i].last <= Max(1, |lines|) && FenceAfter(kinds, 1, sections[i].first - 1) == None
    requires Lossless(t, lines, kinds, limits, sections, |sections|, chunks)
    ensures LosesNothing(lines, kinds, blocks, limits, sections, chunks)
  {
    hide AreBlocks, FenceAfter, Fenced, WithinLimits, Accepted, InChunk, Kept, FromSection, InOrder;
    forall i, l: nat |
      0 <= i < |sections| && WithinLimits(lines, kinds, blocks, limits, sections[i])
      && sections[i].first <= l <= sections[i].last && Taken(kinds, blocks, l) && lines[l - 1] != ""
      ensures InChunk(chunks, l)
    {
      WithinLimitsIff(lines, kinds, blocks, limits, sections[i]);
      KeptIff(kinds, blocks, sections[i].first, l);
      assert Wanted(lines, kinds, limits, sections[i], l);
    }
  }

  lemma SectionsStartOutsideCode(d: DocumentType, kinds: seq<LineKind>, sections: seq<Section>)
    requires SectionsFor(d, kinds, sections)
    ensures forall i :: 0 <= i < |sections| ==>
              sections[i].first >= 1 && sections[i].last <= Max(1, |kinds|) && FenceAfter(kinds, 1, sections[i].first - 1) == None
  {
    hide HeadingAt, HierarchyAt;
    forall i | 0 <= i < |sections|
      ensures sections[i].first >= 1 && sections[i].last <= Max(1, |kinds|) && FenceAfter(kinds, 1, sections[i].first - 1) == None
    {
      if d.Markdown? {
        assert SectionAt(kinds, sections, i);
        assert SectionAt(kinds, sections, |sections| - 1);
        if i < |sections| - 1 { SectionsAscend(kinds, sections, i, |sections| - 1); }
      }
    }
  }

  /** What the code blocks of the file mean for its sections and chunks. */
  ghost predicate RespectsCode(d: DocumentType, lines: seq<string>, kinds: seq<LineKind>, limits: Limits, sections: seq<Section>,
                               all: seq<Chunk>)
    requires |kinds| == |lines| && Consecutive(sections)
  {
    forall blocks :: AreBlocks(kinds, blocks) ==>
      && (d.Markdown? ==> BeginAtHeadings(kinds, blocks, sections))
      && LosesNothing(lines, kinds, blocks, limits, sections, all)
  }

  lemma ChunksRespectCode(t: Tools, d: DocumentType, lines: seq<string>, limits: Limits, sections: seq<Section>, all: seq<Chunk>)
    requires SectionsFor(d, KindsOf(t, lines), sections) && Consecutive(sections)
    requires Lossless(t, lines, KindsOf(t, lines), limits, sections, |sections|, all)
    ensures RespectsCode(d, lines, KindsOf(t, lines), limits, sections, all)
  {
    hide AreBlocks, BeginAtHeadings, LosesNothing, Lossless, FenceAfter, AreSections;
    var kinds := KindsOf(t, lines);
    SectionsStartOutsideCode(d, kinds, sections);
    forall blocks | AreBlocks(kinds, blocks)
      ensures (d.Markdown? ==> BeginAtHeadings(kinds, blocks, sections)) && LosesNothing(lines, kinds, blocks, limits, sections, all)
    {
      LosslessIsLossless(t, lines, kinds, blocks, limits, sections, all);
      if d.Markdown? { SectionsBeginAtHeadings(kinds, blocks, sections); }
    }
  }

  /**
   * `chunk`, on the lines of the normalized text. `all` is what the sections give before the
   * limit on the number of chunks; up to that limit it is returned whole, numbered in order.
   */
  method ChunkDocument(t: Tools, d: DocumentType, lines: seq<string>, limits: Limits)
    returns (chunks: seq<Chunk>, warnings: seq<string>, ghost sections: seq<Section>, ghost all: seq<Chunk>)
    ensures d.Unsupported? ==> chunks == [] && warnings == ["unsupported_file"]
    ensures SectionsFor(d, KindsOf(t, lines), sections) && Consecutive(sections)
    ensures Lossless(t, lines, KindsOf(t, lines), limits, sections, |sections|, all)
    ensures RespectsCode(d, lines, KindsOf(t, lines), limits, sections, all)
    ensures |all| > limits.chunksPerFile && !d.Unsupported? ==> chunks == [] && warnings == ["chunk_count_exceeded"]
    ensures |all| <= limits.chunksPerFile && !d.Unsupported? ==>
              && Lossless(t, lines, KindsOf(t, lines), limits, sections, |sections|, chunks)
              && |chunks| == |all| && (forall k :: 0 <= k < |chunks| ==> chunks[k] == all[k].(ordinal := k))
              && |warnings| == Min(limits.warnings, Rejected(lines, KindsOf(t, lines), limits, sections))
  {
    hide Lossless, Sort, AreSections, Rejected, RespectsCode;
    sections, all := [], [];
    if d.Unsupported? {
      NoSections(t, lines, KindsOf(t, lines), limits, sections);
      ChunksRespectCode(t, d, lines, limits, sections, all);
      return [], ["unsupported_file"], sections, all;
    }
    var kinds := KindsOf(t, lines);
    var parts;
    if d.Markdown? {
      parts := MarkdownSections(kinds);
      SectionsAreConsecutive(kinds, parts);
    } else {
      parts := [Section(1, Max(1, |lines|), [])];
    }
    sections := parts;
    chunks, warnings := ChunkSections(t, lines, kinds, limits, parts);
    all := chunks;
    ChunksRespectCode(t, d, lines, limits, sections, all);
    if |chunks| > limits.chunksPerFile {
      return [], ["chunk_count_exceeded"], sections, all;
    }
    LosslessOrder(t, lines, kinds, limits, sections, all);
    OrderedIsSorted(all);
    NumberedLossless(t, lines, kinds, limits, sections, all);
    chunks := Sort(ChunkLe, chunks);
    chunks := Numbered(chunks);
    warnings := warnings[..Min(limits.warnings, |warnings|)];
  }
}
