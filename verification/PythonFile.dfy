/**
 * `PythonChunker.chunk` for one file: the chunks of its symbols and of its module code, in the order
 * that the whole analysis uses.
 */
module PythonFile {
  import opened Common
  import opened Packing
  import opened SourceLines
  import opened PythonChunker
  import Analyzer
  import Embedding
  import Utf8

  datatype Limits = Limits(symbolBytes: nat, chunkBytes: nat, chunksPerFile: nat, warnings: nat)

  /** What the chunks of a symbol, or of the module, carry besides their lines and text. */
  datatype Caption = Caption(chunkType: string, qualifiedName: string, details: string)

  datatype Definition = Definition(symbol: Symbol, caption: Caption)

  datatype File = File(path: string, commit: string, text: string, definitions: seq<Definition>, statements: seq<Range>, caption: Caption)

  ghost predicate InOrder(f: File) {
    && Ascending(f.statements)
    && forall i :: 0 <= i < |f.definitions| ==> InSourceOrder(f.definitions[i].symbol.body)
  }

  // ---------------------------------------------------------------- chunks

  function ChunkOf(f: File, digest: string -> string, caption: Caption, p: Piece): Embedding.Chunk {
    Embedding.Chunk(f.path, caption.chunkType, digest(p.content), p.first, p.last, Some(caption.qualifiedName), 0, f.commit,
                    caption.details, p.content)
  }

  function ChunksOf(f: File, digest: string -> string, caption: Caption, pieces: seq<Piece>): (chunks: seq<Embedding.Chunk>)
    ensures |chunks| == |pieces|
    ensures forall i :: 0 <= i < |chunks| ==>
              && (chunks[i].filePath, chunks[i].commit) == (f.path, f.commit)
              && (chunks[i].startLine, chunks[i].endLine, chunks[i].content) == (pieces[i].first, pieces[i].last, pieces[i].content)
              && chunks[i].contentHash == digest(pieces[i].content)
              && (chunks[i].chunkType, chunks[i].qualifiedName) == (caption.chunkType, Some(caption.qualifiedName))
              && chunks[i].details == caption.details
  {
    seq(|pieces|, i requires 0 <= i < |pieces| => ChunkOf(f, digest, caption, pieces[i]))
  }

  /** The chunks of one definition, and the ranges behind those that were cut out of its body. */
  datatype Cut = Cut(pieces: Option<seq<Piece>>, ranges: seq<Range>)

  /** A definition is refused for its size, or because it cannot be cut into chunks. */
  ghost predicate CutOk(f: File, l: Limits, d: Definition, c: Cut) {
    if Utf8.Size(d.symbol.whole.content) > l.symbolBytes then c.pieces.None?
    else AreSymbolChunks(f.text, l.chunkBytes, d.symbol, c.ranges, c.pieces)
  }

  ghost predicate CutsOk(f: File, l: Limits, cuts: seq<Cut>) {
    |cuts| <= |f.definitions| && forall i :: 0 <= i < |cuts| ==> CutOk(f, l, f.definitions[i], cuts[i])
  }

  function DefinitionChunks(f: File, digest: string -> string, cuts: seq<Cut>): seq<Embedding.Chunk>
    requires |cuts| <= |f.definitions|
  {
    if cuts == [] then []
    else
      var last := |cuts| - 1;
      DefinitionChunks(f, digest, cuts[..last]) +
      if cuts[last].pieces.None? then [] else ChunksOf(f, digest, f.definitions[last].caption, cuts[last].pieces.value)
  }

  /** Every chunk has text, within the limit, with its digest, and is of this file and commit. */
  predicate ChunksFit(f: File, l: Limits, digest: string -> string, chunks: seq<Embedding.Chunk>) {
    forall c :: c in chunks ==>
      && c.filePath == f.path && c.commit == f.commit && c.contentHash == digest(c.content)
      && c.content != "" && Utf8.Size(c.content) <= l.chunkBytes
  }

  lemma MakeableFit(f: File, l: Limits, digest: string -> string, caption: Caption, pieces: seq<Piece>)
    requires AllMakeable(l.chunkBytes, pieces)
    ensures ChunksFit(f, l, digest, ChunksOf(f, digest, caption, pieces))
  {
    forall c | c in ChunksOf(f, digest, caption, pieces) ensures ChunksFit(f, l, digest, [c]) {
      var k :| 0 <= k < |pieces| && ChunksOf(f, digest, caption, pieces)[k] == c;
    }
  }

  lemma NothingFits(f: File, l: Limits, digest: string -> string)
    ensures ChunksFit(f, l, digest, [])
  {
  }

  lemma FitAppend(f: File, l: Limits, digest: string -> string, a: seq<Embedding.Chunk>, b: seq<Embedding.Chunk>)
    requires ChunksFit(f, l, digest, a) && ChunksFit(f, l, digest, b)
    ensures ChunksFit(f, l, digest, a + b)
  {
  }

  lemma CanonicalFit(f: File, l: Limits, digest: string -> string, chunks: seq<Embedding.Chunk>)
    requires ChunksFit(f, l, digest, chunks)
    ensures ChunksFit(f, l, digest, Analyzer.Canonical(chunks)) && |Analyzer.Canonical(chunks)| == |chunks|
  {
    Analyzer.CanonicalIsOrdered(chunks);
    hide Analyzer.Canonical, Analyzer.ChunkLe;
    var sorted :| multiset(sorted) == multiset(chunks) && Analyzer.Numbered(sorted) == Analyzer.Canonical(chunks);
    assert |sorted| == |multiset(sorted)| == |chunks|;
    forall c | c in Analyzer.Numbered(sorted) ensures ChunksFit(f, l, digest, [c]) {
      var k :| 0 <= k < |sorted| && Analyzer.Numbered(sorted)[k] == c;
      assert sorted[k] in multiset(sorted);
    }
  }

  const TOO_LARGE := "symbol_too_large"
  const MODULE_TOO_LARGE := "module_code_too_large"
  const TOO_MANY := "chunk_count_exceeded"

  function Refusals(cuts: seq<Cut>): seq<string> {
    if cuts == [] then [] else Refusals(cuts[..|cuts| - 1]) + if cuts[|cuts| - 1].pieces.None? then [TOO_LARGE] else []
  }

  /**
   * The module code up to the first run that cannot be cut: of the statements before it, exactly
   * their lines are in the chunks.
   */
  ghost predicate ModuleOk(f: File, l: Limits, runs: seq<seq<Range>>, taken: nat, ranges: seq<Range>, pieces: seq<Piece>) {
    && AreRuns(f.statements, runs) && taken <= |runs|
    && ArePieces(LinesOf(f.text), ranges, pieces) && ExactChunks(LinesOf(f.text), l.chunkBytes, Flatten(runs[..taken]), ranges)
    && (taken < |runs| ==>
          exists k :: 0 <= k < |runs[taken]| && Legal(runs[taken][k]) && Unusable(LinesOf(f.text), l.chunkBytes, runs[taken][k]))
  }

  /** The loop over the runs of the module code. */
  method ModuleChunks(f: File, l: Limits)
    returns (pieces: seq<Piece>, ghost runs: seq<seq<Range>>, ghost taken: nat, ghost ranges: seq<Range>, complete: bool)
    requires Ascending(f.statements)
    ensures ModuleOk(f, l, runs, taken, ranges, pieces) && (complete <==> taken == |runs|)
    ensures AllMakeable(l.chunkBytes, pieces)
  {
    var lines := LinesOf(f.text);
    var all := ContiguousRuns(f.statements);
    runs, ranges, taken, pieces := all, [], 0, [];
    hide ExactChunks, ArePieces, AllMakeable, AreRuns, IsMinimalPacking, LinesOf, RunsFit, Unusable;
    Nothing(lines, l.chunkBytes, all);
    for q := 0 to |all|
      invariant ExactChunks(lines, l.chunkBytes, Flatten(all[..q]), ranges) && ArePieces(lines, ranges, pieces) && taken == q
    {
      RunFacts(f.statements, all, q);
      RunLegal(all[q]);
      var packed := SegmentChunks(lines, l.chunkBytes, all[q]);
      if packed.None? {
        UsablePiecesAreMakeable(lines, l.chunkBytes, Flatten(all[..q]), ranges, pieces);
        return pieces, all, q, ranges, false;
      }
      MinimalIsPacking(lines, l.chunkBytes, all[q], packed.value);
      ExactAppend(lines, l.chunkBytes, Flatten(all[..q]), ranges, all[q], packed.value);
      var more := MakePieces(lines, packed.value);
      ArePiecesAppend(lines, ranges, pieces, packed.value, more);
      pieces, ranges, taken := pieces + more, ranges + packed.value, q + 1;
    }
    UsablePiecesAreMakeable(lines, l.chunkBytes, Flatten(all[..|all|]), ranges, pieces);
    return pieces, all, taken, ranges, true;
  }

  lemma NothingCut(f: File, l: Limits)
    ensures CutsOk(f, l, [])
  {
  }

  lemma CutAdded(f: File, l: Limits, cuts: seq<Cut>, c: Cut)
    requires CutsOk(f, l, cuts) && |cuts| < |f.definitions| && CutOk(f, l, f.definitions[|cuts|], c)
    ensures CutsOk(f, l, cuts + [c])
  {
    hide CutOk;
  }

  lemma CutIsOk(f: File, l: Limits, d: Definition, c: Cut)
    requires if Utf8.Size(d.symbol.whole.content) > l.symbolBytes then c.pieces.None?
             else AreSymbolChunks(f.text, l.chunkBytes, d.symbol, c.ranges, c.pieces)
    ensures CutOk(f, l, d, c)
  {
  }

  /** The loop over the definitions. */
  method CutDefinitions(f: File, l: Limits, digest: string -> string)
    returns (chunks: seq<Embedding.Chunk>, warnings: seq<string>, ghost cuts: seq<Cut>)
    requires InOrder(f)
    ensures |cuts| == |f.definitions| && CutsOk(f, l, cuts)
    ensures chunks == DefinitionChunks(f, digest, cuts) && warnings == Refusals(cuts)
    ensures ChunksFit(f, l, digest, chunks) && |warnings| <= |f.definitions|
  {
    hide ChunksFit, AllMakeable, ChunksOf, CutOk, CutsOk, AreSymbolChunks, InSourceOrder, Ascending, Utf8.Size;
    chunks, warnings, cuts := [], [], [];
    NothingFits(f, l, digest);
    NothingCut(f, l);
    for i := 0 to |f.definitions|
      invariant |cuts| == i && CutsOk(f, l, cuts)
      invariant chunks == DefinitionChunks(f, digest, cuts) && warnings == Refusals(cuts)
      invariant ChunksFit(f, l, digest, chunks) && |warnings| <= i
    {
      var d := f.definitions[i];
      var pieces: Option<seq<Piece>> := None;
      if Utf8.Size(d.symbol.whole.content) <= l.symbolBytes {
        ghost var behind;
        pieces, behind := SymbolChunks(f.text, l.chunkBytes, d.symbol);
        CutIsOk(f, l, d, Cut(pieces, behind));
        CutAdded(f, l, cuts, Cut(pieces, behind));
        cuts := cuts + [Cut(pieces, behind)];
      } else {
        CutIsOk(f, l, d, Cut(None, []));
        CutAdded(f, l, cuts, Cut(None, []));
        cuts := cuts + [Cut(None, [])];
      }
      assert cuts[..i] + [cuts[i]] == cuts;
      if pieces.None? {
        warnings := warnings + [TOO_LARGE];
      } else {
        MakeableFit(f, l, digest, d.caption, pieces.value);
        FitAppend(f, l, digest, chunks, ChunksOf(f, digest, d.caption, pieces.value));
        chunks := chunks + ChunksOf(f, digest, d.caption, pieces.value);
      }
    }
  }

  function FirstOf(warnings: seq<string>, n: nat): seq<string> {
    warnings[..Min(n, |warnings|)]
  }

  /** The definitions that were refused. */
  function Refused(cuts: seq<Cut>): set<nat> {
    set i: nat | i < |cuts| && cuts[i].pieces.None?
  }

  lemma {:induction false} OneWarningEach(cuts: seq<Cut>)
    ensures |Refusals(cuts)| == |Refused(cuts)| && forall w :: w in Refusals(cuts) ==> w == "symbol_too_large"
  {
    if cuts == [] {
      assert Refused(cuts) == {};
    } else {
      var last := |cuts| - 1;
      OneWarningEach(cuts[..last]);
      assert Refused(cuts) == Refused(cuts[..last]) + if cuts[last].pieces.None? then {last} else {};
    }
  }

  /**
   * A definition that is too large is refused; any other is refused only if its header, its text or
   * one of its statements is empty or does not fit a chunk.
   */
  lemma RefusedForAReason(f: File, l: Limits, cuts: seq<Cut>, i: nat)
    requires CutsOk(f, l, cuts) && i < |cuts|
    ensures var s := f.definitions[i].symbol;
            && (Utf8.Size(s.whole.content) > l.symbolBytes ==> cuts[i].pieces.None?)
            && (cuts[i].pieces.None? ==>
                  || Utf8.Size(s.whole.content) > l.symbolBytes
                  || (if s.isClass then s.header.content == "" || Utf8.Size(s.header.content) > l.chunkBytes else s.whole.content == "")
                  || HasBadStatement(LinesOf(f.text), l.chunkBytes, s.body))
  {
    hide LinesOf, Utf8.Size, HasBadStatement, SomeUnusable, KeptRanges, SplitsBody, AllMakeable;
    assert CutOk(f, l, f.definitions[i], cuts[i]);
    var s := f.definitions[i].symbol;
    if SomeUnusable(LinesOf(f.text), l.chunkBytes, KeptRanges(s.body)) { BadStatement(LinesOf(f.text), l.chunkBytes, s.body); }
  }

  lemma TakenWithin(f: File, l: Limits, runs: seq<seq<Range>>, taken: nat, ranges: seq<Range>, pieces: seq<Piece>)
    requires ModuleOk(f, l, runs, taken, ranges, pieces)
    ensures taken <= |runs|
  {
  }

  /** `chunk`: all chunks in canonical order, or none of them if there are too many. */
  method ChunkFile(f: File, l: Limits, digest: string -> string)
    returns (chunks: seq<Embedding.Chunk>, warnings: seq<string>, ghost cuts: seq<Cut>, ghost runs: seq<seq<Range>>, ghost taken: nat,
             ghost ranges: seq<Range>, ghost module': seq<Piece>)
    requires InOrder(f)
    ensures |chunks| <= l.chunksPerFile && ChunksFit(f, l, digest, chunks) && |warnings| <= Max(1, l.warnings)
    ensures |cuts| == |f.definitions| && CutsOk(f, l, cuts) && ModuleOk(f, l, runs, taken, ranges, module')
    ensures var all := DefinitionChunks(f, digest, cuts) + ChunksOf(f, digest, f.caption, module');
            if |all| > l.chunksPerFile then chunks == [] && warnings == [TOO_MANY]
            else
              && chunks == Analyzer.Canonical(all)
              && warnings == FirstOf(Refusals(cuts) + if taken < |runs| then [MODULE_TOO_LARGE] else [], l.warnings)
  {
    hide ChunksFit, AllMakeable, CutsOk, ModuleOk, DefinitionChunks, Refusals, Analyzer.Canonical, Ascending, InSourceOrder;
    chunks, warnings, cuts := CutDefinitions(f, l, digest);
    var pieces, complete;
    pieces, runs, taken, ranges, complete := ModuleChunks(f, l);
    module' := pieces;
    TakenWithin(f, l, runs, taken, ranges, pieces);
    if !complete {
      warnings := warnings + [MODULE_TOO_LARGE];
    } else {
      assert warnings + [] == warnings;
    }
    MakeableFit(f, l, digest, f.caption, pieces);
    FitAppend(f, l, digest, chunks, ChunksOf(f, digest, f.caption, pieces));
    NothingFits(f, l, digest);
    chunks := chunks + ChunksOf(f, digest, f.caption, pieces);
    if |chunks| > l.chunksPerFile {
      chunks, warnings := [], [TOO_MANY];
      return;
    }
    CanonicalFit(f, l, digest, chunks);
    chunks := Analyzer.Canonical(chunks);
    warnings := FirstOf(warnings, l.warnings);
  }

  // ---------------------------------------------------------------- what a file is cut into

  /** Some chunk holds the line, as a slice of the text, and carries the caption. */
  ghost predicate IsChunked(f: File, chunks: seq<Embedding.Chunk>, caption: Caption, line: nat) {
    exists c :: c in chunks && c.startLine <= line <= c.endLine && 1 <= c.startLine && c.filePath == f.path
             && c.content == LineSlice(LinesOf(f.text), c.startLine, c.endLine)
             && c.chunkType == caption.chunkType && c.qualifiedName == Some(caption.qualifiedName)
  }

  lemma PieceIsChunked(f: File, digest: string -> string, caption: Caption, ranges: seq<Range>, pieces: seq<Piece>, line: nat)
    requires ArePieces(LinesOf(f.text), ranges, pieces) && Holds(ranges, line)
    ensures IsChunked(f, ChunksOf(f, digest, caption, pieces), caption, line)
  {
    hide LinesOf, LineSlice;
    var k :| 0 <= k < |ranges| && In(ranges[k], line);
    assert ChunksOf(f, digest, caption, pieces)[k] == ChunkOf(f, digest, caption, pieces[k]);
    assert pieces[k] == PieceOf(LinesOf(f.text), ranges[k]);
  }

  lemma MoreChunks(f: File, some: seq<Embedding.Chunk>, all: seq<Embedding.Chunk>, caption: Caption, line: nat)
    requires IsChunked(f, some, caption, line) && forall c :: c in some ==> c in all
    ensures IsChunked(f, all, caption, line)
  {
  }

  lemma {:induction false} CutIsThere(f: File, digest: string -> string, cuts: seq<Cut>, i: nat)
    requires i < |cuts| <= |f.definitions| && cuts[i].pieces.Some?
    ensures forall c :: c in ChunksOf(f, digest, f.definitions[i].caption, cuts[i].pieces.value) ==> c in DefinitionChunks(f, digest, cuts)
    decreases |cuts|
  {
    if i == |cuts| - 1 {
    } else {
      CutIsThere(f, digest, cuts[..|cuts| - 1], i);
    }
  }

  /** Every statement line of a class, or of a definition that was split, is in a chunk of that definition. */
  lemma BodyLineIsChunked(f: File, l: Limits, digest: string -> string, cuts: seq<Cut>, i: nat, line: nat)
    requires CutsOk(f, l, cuts) && i < |cuts| && cuts[i].pieces.Some?
    requires var symbol := f.definitions[i].symbol;
             && (symbol.isClass || Utf8.Size(symbol.whole.content) > l.chunkBytes)
             && Holds(KeptRanges(symbol.body), line)
    ensures IsChunked(f, DefinitionChunks(f, digest, cuts), f.definitions[i].caption, line)
  {
    hide KeptRanges, LinesOf, ArePieces, IsChunked, Holds, AllUsable, AllMakeable, Utf8.Size, SomeUnusable;
    var d, c := f.definitions[i], cuts[i];
    assert CutOk(f, l, d, c);
    var body := if d.symbol.isClass then c.pieces.value[1..] else c.pieces.value;
    assert SplitsBody(LinesOf(f.text), l.chunkBytes, d.symbol.body, c.ranges, body);
    PieceIsChunked(f, digest, d.caption, c.ranges, body, line);
    var whole := ChunksOf(f, digest, d.caption, c.pieces.value);
    forall x | x in ChunksOf(f, digest, d.caption, body) ensures x in whole {
      var k :| 0 <= k < |body| && ChunksOf(f, digest, d.caption, body)[k] == x;
      assert whole[if d.symbol.isClass then k + 1 else k] == x;
    }
    CutIsThere(f, digest, cuts, i);
    MoreChunks(f, ChunksOf(f, digest, d.caption, body), DefinitionChunks(f, digest, cuts), d.caption, line);
  }

  /** The module chunks hold exactly the lines of the statements before the run that could not be cut. */
  lemma ModuleLinesAreExact(f: File, l: Limits, runs: seq<seq<Range>>, taken: nat, ranges: seq<Range>, pieces: seq<Piece>,
                            digest: string -> string, line: nat)
    requires ModuleOk(f, l, runs, taken, ranges, pieces)
    ensures Holds(ranges, line) <==> Holds(Flatten(runs[..taken]), line)
    ensures taken == |runs| ==> Flatten(runs[..taken]) == f.statements
    ensures Holds(Flatten(runs[..taken]), line) ==> IsChunked(f, ChunksOf(f, digest, f.caption, pieces), f.caption, line)
  {
    hide LinesOf, ArePieces, IsChunked, Holds, AllUsable;
    assert runs[..|runs|] == runs;
    if Holds(ranges, line) { PieceIsChunked(f, digest, f.caption, ranges, pieces, line); }
  }
}
