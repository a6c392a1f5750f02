/**
 * `PythonChunker` on the body of one symbol: the statements that are not definitions, split into
 * contiguous runs and packed.
 */
module PythonChunker {
  import opened Common
  import opened Packing
  import opened SourceLines
  import Utf8

  datatype Segment = Segment(nodeType: string, range: Range)

  datatype Piece = Piece(first: nat, last: nat, content: string)

  predicate IsDefinition(nodeType: string) {
    nodeType == "function_definition" || nodeType == "class_definition" || nodeType == "decorated_definition"
  }

  /** The lines of the segments that are not definitions. */
  function KeptRanges(segments: seq<Segment>): seq<Range> {
    if segments == [] then []
    else
      KeptRanges(segments[..|segments| - 1]) +
      if IsDefinition(segments[|segments| - 1].nodeType) then [] else [segments[|segments| - 1].range]
  }

  ghost predicate InSourceOrder(segments: seq<Segment>) {
    && (forall i :: 0 <= i < |segments| ==> Legal(segments[i].range))
    && (forall i, k :: 0 <= i < k < |segments| ==> segments[i].range.last <= segments[k].range.first)
  }

  lemma {:induction false} KeptAscending(segments: seq<Segment>)
    requires InSourceOrder(segments)
    ensures Ascending(KeptRanges(segments))
    ensures forall r :: r in KeptRanges(segments) ==> exists k :: 0 <= k < |segments| && segments[k].range == r
  {
    hide IsDefinition;
    if segments == [] {
    } else {
      var before := segments[..|segments| - 1];
      KeptAscending(before);
      forall i | 0 <= i < |KeptRanges(before)| ensures KeptRanges(before)[i].last <= segments[|segments| - 1].range.first {
        assert KeptRanges(before)[i] in KeptRanges(before);
        var k :| 0 <= k < |before| && before[k].range == KeptRanges(before)[i];
        assert segments[k].range == KeptRanges(before)[i];
      }
      forall r | r in KeptRanges(segments) ensures exists k :: 0 <= k < |segments| && segments[k].range == r {
        if r in KeptRanges(before) {
          var k :| 0 <= k < |before| && before[k].range == r;
          assert segments[k].range == r;
        } else {
          assert segments[|segments| - 1].range == r;
        }
      }
    }
  }

  /** The node types of nested definitions. */
  const DEFINITIONS := {"function_definition", "class_definition", "decorated_definition"}

  /** What is kept of a body: the ranges of the segments that are no definitions, each once and in order. */
  ghost predicate KeptAt(segments: seq<Segment>, kept: seq<Range>, places: seq<nat>) {
    && |places| == |kept|
    && (forall i, k :: 0 <= i < k < |places| ==> places[i] < places[k])
    && (forall i :: 0 <= i < |places| ==> places[i] < |segments| && kept[i] == segments[places[i]].range)
    && (forall k :: 0 <= k < |segments| ==> (k in places <==> segments[k].nodeType !in DEFINITIONS))
  }

  lemma KeptAtMore(segments: seq<Segment>, kept: seq<Range>, places: seq<nat>, last: Segment)
    requires KeptAt(segments, kept, places)
    ensures if last.nodeType in DEFINITIONS then KeptAt(segments + [last], kept, places)
            else KeptAt(segments + [last], kept + [last.range], places + [|segments|])
  {
    assert forall i :: 0 <= i < |places| ==> places[i] in places;
  }

  lemma NothingKept()
    ensures KeptAt([], KeptRanges([]), [])
  {
  }

  lemma DefinitionIff(nodeType: string)
    ensures IsDefinition(nodeType) <==> nodeType in DEFINITIONS
  {
  }

  lemma {:induction false} KeptIff(segments: seq<Segment>) returns (places: seq<nat>)
    ensures KeptAt(segments, KeptRanges(segments), places)
  {
    hide KeptAt, IsDefinition;
    if segments == [] {
      places := [];
      NothingKept();
    } else {
      var before, last := segments[..|segments| - 1], segments[|segments| - 1];
      var earlier := KeptIff(before);
      KeptAtMore(before, KeptRanges(before), earlier, last);
      assert before + [last] == segments;
      DefinitionIff(last.nodeType);
      if IsDefinition(last.nodeType) {
        assert KeptRanges(segments) == KeptRanges(before);
        places := earlier;
      } else {
        places := earlier + [|before|];
      }
    }
  }

  // ---------------------------------------------------------------- runs

  /** Each range starts no later than the line after the one before it ends. */
  ghost predicate Contiguous(run: seq<Range>) {
    forall i :: 0 < i < |run| ==> run[i].first <= run[i - 1].last + 1
  }

  function Flatten<T>(runs: seq<seq<T>>): seq<T> {
    if runs == [] then [] else Flatten(runs[..|runs| - 1]) + runs[|runs| - 1]
  }

  predicate Apart(a: seq<Range>, b: seq<Range>) {
    a != [] && b != [] && b[0].first > a[|a| - 1].last + 1
  }

  /** Runs are maximal: a line lies between one run and the next. */
  ghost predicate AreRuns(ranges: seq<Range>, runs: seq<seq<Range>>) {
    && Flatten(runs) == ranges
    && (forall q :: 0 <= q < |runs| ==> runs[q] != [] && Contiguous(runs[q]))
    && (forall p, q :: 0 <= p < q < |runs| && q == p + 1 ==> Apart(runs[p], runs[q]))
  }

  lemma OneRun(r: Range)
    ensures AreRuns([r], [[r]])
  {
    assert [[r]][..0] == [];
    assert Flatten<Range>([]) == [];
    assert Flatten([[r]]) == Flatten([[r]][..0]) + [r];
  }

  lemma NewRun(ranges: seq<Range>, runs: seq<seq<Range>>, r: Range)
    requires AreRuns(ranges, runs) && runs != [] && r.first > runs[|runs| - 1][|runs[|runs| - 1]| - 1].last + 1
    ensures AreRuns(ranges + [r], runs + [[r]])
  {
    assert (runs + [[r]])[..|runs|] == runs;
  }

  lemma LongerRun(ranges: seq<Range>, runs: seq<seq<Range>>, r: Range)
    requires AreRuns(ranges, runs) && runs != [] && r.first <= runs[|runs| - 1][|runs[|runs| - 1]| - 1].last + 1
    ensures AreRuns(ranges + [r], runs[..|runs| - 1] + [runs[|runs| - 1] + [r]])
  {
    var before, last := runs[..|runs| - 1], runs[|runs| - 1];
    var after := before + [last + [r]];
    assert after[..|after| - 1] == before;
    assert Flatten(before) + (last + [r]) == Flatten(before) + last + [r];
    assert Contiguous(last + [r]);
  }

  /** `_contiguous_runs` */
  method ContiguousRuns(ranges: seq<Range>) returns (runs: seq<seq<Range>>)
    ensures AreRuns(ranges, runs)
    ensures Flatten(runs) == ranges && forall q :: 0 <= q < |runs| ==> runs[q] != []
    ensures forall q, i :: 0 <= q < |runs| && 0 < i < |runs[q]| ==> runs[q][i].first <= runs[q][i - 1].last + 1
    ensures forall q :: 0 < q < |runs| ==> runs[q][0].first > runs[q - 1][|runs[q - 1]| - 1].last + 1
  {
    if ranges == [] {
      return [];
    }
    runs := [[ranges[0]]];
    OneRun(ranges[0]);
    assert ranges[..1] == [ranges[0]];
    for i := 1 to |ranges|
      invariant runs != [] && AreRuns(ranges[..i], runs)
    {
      var last := runs[|runs| - 1];
      assert ranges[..i + 1] == ranges[..i] + [ranges[i]];
      if ranges[i].first > last[|last| - 1].last + 1 {
        NewRun(ranges[..i], runs, ranges[i]);
        runs := runs + [[ranges[i]]];
      } else {
        LongerRun(ranges[..i], runs, ranges[i]);
        runs := runs[..|runs| - 1] + [last + [ranges[i]]];
      }
    }
    assert ranges[..|ranges|] == ranges;
  }

  /** Inside a contiguous run, a group holds the lines of its members and no other. */
  lemma {:induction false} SpanHolds(run: seq<Range>, i: nat, j: nat, line: nat)
    requires Ascending(run) && Contiguous(run) && i < j <= |run|
    ensures In(Span(run, i, j), line) <==> exists k :: i <= k < j && In(run[k], line)
    decreases j
  {
    if i < j - 1 {
      SpanHolds(run, i, j - 1, line);
      if In(Span(run, i, j), line) && !In(Span(run, i, j - 1), line) {
        assert In(run[j - 1], line);
      }
    } else if In(Span(run, i, j), line) {
      assert In(run[i], line);
    }
  }

  lemma NothingPacked(lines: seq<string>, limit: nat, run: seq<Range>, n: nat, cuts: seq<nat>)
    requires Ascending(run) && n <= |run| && PackedAt(lines, limit, run, n, [], cuts)
    ensures n == 0
  {
  }

  lemma GroupHolds(run: seq<Range>, c: nat, n: nat, line: nat)
    requires Ascending(run) && Contiguous(run) && c < n <= |run|
    ensures Holds([Span(run, c, n)], line) <==> Holds(run[c..n], line)
  {
    SpanHolds(run, c, n, line);
    hide Ascending, Contiguous;
    var group := run[c..n];
    if Holds(group, line) {
      var k :| 0 <= k < |group| && In(group[k], line);
      assert group[k] == run[c + k];
      assert In([Span(run, c, n)][0], line);
    }
    if In(Span(run, c, n), line) {
      var k :| c <= k < n && In(run[k], line);
      assert group[k - c] == run[k];
    }
  }

  lemma {:induction false} PackedHolds(lines: seq<string>, limit: nat, run: seq<Range>, n: nat, output: seq<Range>,
                                      cuts: seq<nat>, line: nat)
    requires Ascending(run) && Contiguous(run) && n <= |run| && PackedAt(lines, limit, run, n, output, cuts)
    ensures Holds(output, line) <==> Holds(run[..n], line)
    decreases |output|
  {
    hide Ascending, Contiguous, PackedAt, Fits, Holds, Span;
    if output == [] {
      NothingPacked(lines, limit, run, n, cuts);
    } else {
      var c, before, shorter, group := PackedPrefix(lines, limit, run, n, output, cuts);
      PackedHolds(lines, limit, run, c, before, shorter, line);
      GroupHolds(run, c, n, line);
      HoldsAppend(before, [group], line);
      HoldsAppend(run[..c], run[c..n], line);
    }
  }

  lemma PackingHolds(lines: seq<string>, limit: nat, run: seq<Range>, output: seq<Range>, line: nat)
    requires Ascending(run) && Contiguous(run) && IsPacking(lines, limit, run, output)
    ensures Holds(output, line) <==> Holds(run, line)
  {
    hide Bytes;
    var cuts :| PackedAt(lines, limit, run, |run|, output, cuts);
    PackedHolds(lines, limit, run, |run|, output, cuts, line);
    assert run[..|run|] == run;
  }

  // ---------------------------------------------------------------- chunks

  /** A segment that no chunk can hold, or without text. */
  predicate Unusable(lines: seq<string>, limit: nat, r: Range)
    requires Legal(r)
  {
    !Fits(lines, limit, r) || LineSlice(lines, r.first, r.last) == ""
  }

  ghost predicate AllUsable(lines: seq<string>, limit: nat, ranges: seq<Range>) {
    forall k :: 0 <= k < |ranges| ==> Legal(ranges[k]) && !Unusable(lines, limit, ranges[k])
  }

  predicate AllLegal(run: seq<Range>) {
    forall k :: 0 <= k < |run| ==> 1 <= run[k].first && run[k].first <= run[k].last
  }

  lemma RunLegal(run: seq<Range>)
    requires Ascending(run)
    ensures AllLegal(run) && forall k :: 0 <= k < |run| ==> Legal(run[k])
  {
  }

  lemma GroupFacts(lines: seq<string>, limit: nat, run: seq<Range>, s: nat, i: nat)
    requires Ascending(run) && s < i <= |run|
    ensures Legal(Span(run, s, i))
    ensures Bytes(lines, run[s].first, run[i - 1].last) == Utf8.Size(LineSlice(lines, run[s].first, run[i - 1].last))
    ensures LineSlice(lines, run[s].first, run[i - 1].last) == "" ==> Unusable(lines, limit, run[s])
    ensures Fits(lines, limit, Span(run, s, i)) ==> forall k :: s <= k < i ==> Fits(lines, limit, run[k])
  {
    var whole := Span(run, s, i);
    assert run[s].last <= run[i - 1].last;
    BytesMonotone(lines, whole.first, whole.last, run[s].first, run[s].last);
    if Fits(lines, limit, whole) {
      forall k | s <= k < i ensures Fits(lines, limit, run[k]) {
        SpanFitsInside(lines, limit, run, s, i, k, k + 1);
      }
    }
  }

  /** Where the group from `s` ends that holds the segments before `i`: it takes all it can. */
  function GroupEnd(lines: seq<string>, limit: nat, run: seq<Range>, s: nat, i: nat): (e: nat)
    requires s < i <= |run| && 1 <= run[s].first
    ensures i <= e <= |run|
    decreases |run| - i
  {
    if i < |run| && Bytes(lines, run[s].first, run[i].last) <= limit then GroupEnd(lines, limit, run, s, i + 1) else i
  }

  /** The groups of the segments from `s` on, each as long as the limit allows. */
  function Groups(lines: seq<string>, limit: nat, run: seq<Range>, s: nat): seq<Range>
    requires s <= |run| && AllLegal(run)
    decreases |run| - s
  {
    if s == |run| then []
    else
      var e := GroupEnd(lines, limit, run, s, s + 1);
      [Span(run, s, e)] + Groups(lines, limit, run, e)
  }

  ghost predicate SomeTooLarge(lines: seq<string>, limit: nat, run: seq<Range>)
    requires AllLegal(run)
  {
    exists k :: 0 <= k < |run| && !Fits(lines, limit, run[k])
  }

  ghost predicate SomeGroupIsEmpty(lines: seq<string>, limit: nat, run: seq<Range>)
    requires AllLegal(run)
  {
    exists g :: g in Groups(lines, limit, run, 0) && 1 <= g.first && LineSlice(lines, g.first, g.last) == ""
  }

  lemma NextGroup(lines: seq<string>, limit: nat, run: seq<Range>, s: nat, i: nat, output: seq<Range>)
    requires s < i <= |run| && AllLegal(run)
    requires GroupEnd(lines, limit, run, s, s + 1) == GroupEnd(lines, limit, run, s, i) == i
    requires output + Groups(lines, limit, run, s) == Groups(lines, limit, run, 0)
    ensures (output + [Span(run, s, i)]) + Groups(lines, limit, run, i) == Groups(lines, limit, run, 0)
    ensures Span(run, s, i) in Groups(lines, limit, run, 0)
  {
    hide Bytes, GroupEnd;
    var rest := Groups(lines, limit, run, i);
    assert Groups(lines, limit, run, s) == [Span(run, s, i)] + rest;
    assert (output + [Span(run, s, i)]) + rest == output + ([Span(run, s, i)] + rest);
  }

  lemma NoEmptyGroup(lines: seq<string>, limit: nat, run: seq<Range>, output: seq<Range>)
    requires AllLegal(run)
    requires output == Groups(lines, limit, run, 0) && AllUsable(lines, limit, output)
    ensures !SomeGroupIsEmpty(lines, limit, run)
  {
    hide Groups, LineSlice, Fits;
  }

  lemma NothingLeft(lines: seq<string>, limit: nat, run: seq<Range>)
    requires AllLegal(run)
    ensures Groups(lines, limit, run, |run|) == []
  {
  }

  lemma GroupEndStep(lines: seq<string>, limit: nat, run: seq<Range>, s: nat, i: nat)
    requires s < i <= |run| && 1 <= run[s].first
    ensures GroupEnd(lines, limit, run, s, i)
         == if i < |run| && Bytes(lines, run[s].first, run[i].last) <= limit then GroupEnd(lines, limit, run, s, i + 1) else i
  {
  }

  lemma EmptyGroup(lines: seq<string>, limit: nat, run: seq<Range>, g: Range)
    requires AllLegal(run)
    requires g in Groups(lines, limit, run, 0) && 1 <= g.first && LineSlice(lines, g.first, g.last) == ""
    ensures SomeGroupIsEmpty(lines, limit, run)
  {
  }

  /** `_segment_chunks`: fails exactly for a segment that is too large, or a group without text. */
  method SegmentChunks(lines: seq<string>, limit: nat, run: seq<Range>) returns (r: Option<seq<Range>>)
    requires Ascending(run)
    ensures AllLegal(run)
    ensures r.None? <==> SomeTooLarge(lines, limit, run) || SomeGroupIsEmpty(lines, limit, run)
    ensures r.Some? ==> r.value == Groups(lines, limit, run, 0)
    ensures r.Some? ==> IsMinimalPacking(lines, limit, run, r.value) && AllUsable(lines, limit, r.value)
    ensures r.None? ==> exists k :: 0 <= k < |run| && Unusable(lines, limit, run[k])
  {
    hide GreedyAt, IsMinimalPacking, Bytes, LineSlice, Ascending, SomeGroupIsEmpty, GroupEnd, Groups;
    GreedyStart(lines, limit, run);
    assert AllLegal(run) by { RunLegal(run); }
    if run == [] {
      GreedyIsMinimal(lines, limit, run, [], [0]);
      NothingLeft(lines, limit, run);
      NoEmptyGroup(lines, limit, run, []);
      return Some([]);
    }
    var output: seq<Range> := [];
    ghost var cuts: seq<nat> := [0];
    ghost var s := 0;
    var start, end := run[0].first, run[0].last;
    for i := 1 to |run| + 1
      invariant s <= i - 1 && (i <= |run| ==> s < i) && (i > |run| ==> s == |run|)
      invariant i <= |run| ==> start == run[s].first && end == run[i - 1].last
      invariant i <= |run| ==> s + 1 == i || Bytes(lines, start, end) <= limit
      invariant i <= |run| ==> GroupEnd(lines, limit, run, s, s + 1) == GroupEnd(lines, limit, run, s, i)
      invariant output + Groups(lines, limit, run, s) == Groups(lines, limit, run, 0)
      invariant GreedyAt(lines, limit, run, s, output, cuts)
      invariant AllUsable(lines, limit, output)
      invariant forall k :: 0 <= k < s ==> Fits(lines, limit, run[k])
    {
      var candidateEnd := if i < |run| then run[i].last else end;
      GroupEndStep(lines, limit, run, s, i);
      if i < |run| && Bytes(lines, start, candidateEnd) <= limit {
        end := run[i].last;
        continue;
      }
      var content := LineSlice(lines, start, end);
      GroupFacts(lines, limit, run, s, i);
      NextGroup(lines, limit, run, s, i, output);
      if content == "" || Utf8.Size(content) > limit {
        if content == "" { EmptyGroup(lines, limit, run, Range(start, end)); }
        return None;
      }
      CloseGroup(lines, limit, run, s, i, output, cuts, Range(start, end));
      output, cuts, s := output + [Range(start, end)], cuts + [i], i;
      if i < |run| {
        start, end := run[i].first, run[i].last;
      }
    }
    GreedyIsMinimal(lines, limit, run, output, cuts);
    NothingLeft(lines, limit, run);
    assert output + [] == output;
    NoEmptyGroup(lines, limit, run, output);
    return Some(output);
  }

  lemma {:induction false} RunAscends(runs: seq<seq<Range>>, q: nat)
    requires Ascending(Flatten(runs)) && q < |runs|
    ensures Ascending(runs[q])
    decreases |runs|
  {
    var before, last := runs[..|runs| - 1], runs[|runs| - 1];
    var all := Flatten(runs);
    if q < |runs| - 1 {
      assert Flatten(before) == all[..|Flatten(before)|];
      RunAscends(before, q);
    } else {
      assert last == all[|Flatten(before)|..];
    }
  }

  lemma {:induction false} InFlatten(runs: seq<seq<Range>>, q: nat, k: nat)
    requires q < |runs| && k < |runs[q]|
    ensures runs[q][k] in Flatten(runs)
    decreases |runs|
  {
    if q == |runs| - 1 {
    } else {
      InFlatten(runs[..|runs| - 1], q, k);
    }
  }

  lemma {:induction false} FittingFlatten(lines: seq<string>, limit: nat, runs: seq<seq<Range>>)
    requires forall q, k :: 0 <= q < |runs| && 0 <= k < |runs[q]| ==> Legal(runs[q][k]) && Fits(lines, limit, runs[q][k])
    ensures forall r :: r in Flatten(runs) ==> Legal(r) && Fits(lines, limit, r)
  {
    hide Fits;
    if runs == [] {
    } else {
      FittingFlatten(lines, limit, runs[..|runs| - 1]);
    }
  }

  function PieceOf(lines: seq<string>, r: Range): Piece
    requires Legal(r)
  {
    Piece(r.first, r.last, LineSlice(lines, r.first, r.last))
  }

  /** The body of a symbol as chunks: its kept lines, all of them and no other, verbatim and within the limit. */
  ghost predicate ExactChunks(lines: seq<string>, limit: nat, kept: seq<Range>, ranges: seq<Range>) {
    && AllUsable(lines, limit, ranges)
    && (forall line: nat :: Holds(ranges, line) <==> Holds(kept, line))
  }

  lemma ExactAppend(lines: seq<string>, limit: nat, kept: seq<Range>, ranges: seq<Range>, run: seq<Range>, packed: seq<Range>)
    requires ExactChunks(lines, limit, kept, ranges) && Ascending(run) && Contiguous(run)
    requires IsPacking(lines, limit, run, packed) && AllUsable(lines, limit, packed)
    ensures ExactChunks(lines, limit, kept + run, ranges + packed)
  {
    forall line: nat ensures Holds(ranges + packed, line) <==> Holds(kept + run, line) {
      PackingHolds(lines, limit, run, packed, line);
      HoldsAppend(ranges, packed, line);
      HoldsAppend(kept, run, line);
    }
  }

  /** The chunks of the ranges, with their text. */
  ghost predicate ArePieces(lines: seq<string>, ranges: seq<Range>, pieces: seq<Piece>) {
    |pieces| == |ranges| && forall k :: 0 <= k < |ranges| ==> Legal(ranges[k]) && pieces[k] == PieceOf(lines, ranges[k])
  }

  lemma ArePiecesAppend(lines: seq<string>, a: seq<Range>, p: seq<Piece>, b: seq<Range>, q: seq<Piece>)
    requires ArePieces(lines, a, p) && ArePieces(lines, b, q)
    ensures ArePieces(lines, a + b, p + q)
  {
  }

  ghost predicate RunsFit(lines: seq<string>, limit: nat, runs: seq<seq<Range>>) {
    forall q, k :: 0 <= q < |runs| && 0 <= k < |runs[q]| ==> Legal(runs[q][k]) && Fits(lines, limit, runs[q][k])
  }

  lemma RunsFitAppend(lines: seq<string>, limit: nat, runs: seq<seq<Range>>, q: nat)
    requires q < |runs| && RunsFit(lines, limit, runs[..q])
    requires forall k :: 0 <= k < |runs[q]| ==> Legal(runs[q][k]) && Fits(lines, limit, runs[q][k])
    ensures RunsFit(lines, limit, runs[..q + 1])
  {
    hide Fits;
    forall p, k | 0 <= p < q + 1 && 0 <= k < |runs[p]| ensures Legal(runs[p][k]) && Fits(lines, limit, runs[p][k]) {
      if p < q { assert runs[..q][p] == runs[p]; }
    }
  }

  lemma RunFacts(ranges: seq<Range>, runs: seq<seq<Range>>, q: nat)
    requires AreRuns(ranges, runs) && Ascending(ranges) && q < |runs|
    ensures Ascending(runs[q]) && Contiguous(runs[q]) && Flatten(runs[..q + 1]) == Flatten(runs[..q]) + runs[q]
  {
    RunAscends(runs, q);
    assert runs[..q + 1][..q] == runs[..q];
  }

  /** A segment that makes the whole symbol fail, and the guarantee that a symbol does not fail otherwise. */
  ghost predicate SomeUnusable(lines: seq<string>, limit: nat, kept: seq<Range>) {
    exists r :: r in kept && Legal(r) && Unusable(lines, limit, r)
  }

  ghost predicate SomeOversized(lines: seq<string>, limit: nat, kept: seq<Range>) {
    exists r :: r in kept && Legal(r) && !Fits(lines, limit, r)
  }

  lemma UnusableRun(lines: seq<string>, limit: nat, ranges: seq<Range>, runs: seq<seq<Range>>, q: nat)
    requires AreRuns(ranges, runs) && q < |runs| && (forall k :: 0 <= k < |runs[q]| ==> Legal(runs[q][k]))
    requires exists k :: 0 <= k < |runs[q]| && Unusable(lines, limit, runs[q][k])
    ensures SomeUnusable(lines, limit, ranges)
  {
    var k :| 0 <= k < |runs[q]| && Unusable(lines, limit, runs[q][k]);
    InFlatten(runs, q, k);
  }

  lemma NoneOversized(lines: seq<string>, limit: nat, ranges: seq<Range>, runs: seq<seq<Range>>)
    requires AreRuns(ranges, runs) && RunsFit(lines, limit, runs)
    ensures !SomeOversized(lines, limit, ranges)
  {
    FittingFlatten(lines, limit, runs);
  }

  lemma Nothing(lines: seq<string>, limit: nat, runs: seq<seq<Range>>)
    ensures ExactChunks(lines, limit, Flatten(runs[..0]), []) && ArePieces(lines, [], []) && RunsFit(lines, limit, runs[..0])
  {
  }

  lemma AllKept(ranges: seq<Range>, runs: seq<seq<Range>>)
    requires AreRuns(ranges, runs)
    ensures Flatten(runs) == ranges
  {
  }

  lemma MinimalIsPacking(lines: seq<string>, limit: nat, run: seq<Range>, packed: seq<Range>)
    requires Ascending(run) && IsMinimalPacking(lines, limit, run, packed)
    ensures IsPacking(lines, limit, run, packed)
  {
  }

  method MakePieces(lines: seq<string>, ranges: seq<Range>) returns (pieces: seq<Piece>)
    requires forall k :: 0 <= k < |ranges| ==> Legal(ranges[k])
    ensures ArePieces(lines, ranges, pieces)
  {
    pieces := [];
    for k := 0 to |ranges|
      invariant |pieces| == k && forall i :: 0 <= i < k ==> pieces[i] == PieceOf(lines, ranges[i])
    {
      pieces := pieces + [PieceOf(lines, ranges[k])];
    }
  }

  /** The loop of `_symbol_chunks` over the runs of a body. */
  method ChunkBody(lines: seq<string>, limit: nat, segments: seq<Segment>)
    returns (pieces: Option<seq<Piece>>, ghost ranges: seq<Range>)
    requires InSourceOrder(segments)
    ensures pieces.Some? ==> ArePieces(lines, ranges, pieces.value) && ExactChunks(lines, limit, KeptRanges(segments), ranges)
    ensures pieces.None? ==> SomeUnusable(lines, limit, KeptRanges(segments))
    ensures SomeOversized(lines, limit, KeptRanges(segments)) ==> pieces.None?
  {
    var kept := KeptRanges(segments);
    KeptAscending(segments);
    var runs := ContiguousRuns(kept);
    hide KeptRanges, Ascending, InSourceOrder, ExactChunks, ArePieces, RunsFit, AreRuns, IsMinimalPacking, SomeUnusable, SomeOversized;
    var output: seq<Piece> := [];
    ranges := [];
    Nothing(lines, limit, runs);
    for q := 0 to |runs|
      invariant ExactChunks(lines, limit, Flatten(runs[..q]), ranges)
      invariant ArePieces(lines, ranges, output) && RunsFit(lines, limit, runs[..q])
    {
      RunFacts(kept, runs, q);
      RunLegal(runs[q]);
      var packed := SegmentChunks(lines, limit, runs[q]);
      if packed.None? {
        UnusableRun(lines, limit, kept, runs, q);
        return None, ranges;
      }
      RunsFitAppend(lines, limit, runs, q);
      MinimalIsPacking(lines, limit, runs[q], packed.value);
      ExactAppend(lines, limit, Flatten(runs[..q]), ranges, runs[q], packed.value);
      var more := MakePieces(lines, packed.value);
      ArePiecesAppend(lines, ranges, output, packed.value, more);
      output, ranges := output + more, ranges + packed.value;
    }
    assert runs[..|runs|] == runs;
    NoneOversized(lines, limit, kept, runs);
    AllKept(kept, runs);
    return Some(output), ranges;
  }

  /** A class, or a function or method, with the text the parser kept of it. */
  datatype Symbol = Symbol(isClass: bool, whole: Piece, header: Piece, body: seq<Segment>)

  /** What `_make_chunk` accepts. */
  predicate Makeable(limit: nat, p: Piece) {
    p.content != "" && Utf8.Size(p.content) <= limit
  }

  ghost predicate AllMakeable(limit: nat, pieces: seq<Piece>) {
    forall k :: 0 <= k < |pieces| ==> Makeable(limit, pieces[k])
  }

  /** `pieces` are exact chunks of the kept part of a body. */
  ghost predicate SplitsBody(lines: seq<string>, limit: nat, body: seq<Segment>, ranges: seq<Range>, pieces: seq<Piece>) {
    ArePieces(lines, ranges, pieces) && ExactChunks(lines, limit, KeptRanges(body), ranges)
  }

  lemma UsablePiecesAreMakeable(lines: seq<string>, limit: nat, kept: seq<Range>, ranges: seq<Range>, pieces: seq<Piece>)
    requires ArePieces(lines, ranges, pieces) && ExactChunks(lines, limit, kept, ranges)
    ensures AllMakeable(limit, pieces)
  {
    hide LineSlice, Holds;
    forall k | 0 <= k < |pieces| ensures Makeable(limit, pieces[k]) {
      assert pieces[k] == PieceOf(lines, ranges[k]) && !Unusable(lines, limit, ranges[k]);
    }
  }

  /**
   * A class is its header and then its body; anything else is one chunk if it fits, and its split
   * body if not. Every chunk has text within the limit, and nothing is refused without a reason.
   */
  ghost predicate AreSymbolChunks(text: string, limit: nat, s: Symbol, ranges: seq<Range>, pieces: Option<seq<Piece>>) {
    && (pieces.Some? ==> AllMakeable(limit, pieces.value))
    && (pieces.None? ==>
          || (if s.isClass then !Makeable(limit, s.header) else s.whole.content == "")
          || SomeUnusable(LinesOf(text), limit, KeptRanges(s.body)))
    && (s.isClass && !Makeable(limit, s.header) ==> pieces.None?)
    && (s.isClass && pieces.Some? ==>
          |pieces.value| >= 1 && pieces.value[0] == s.header && SplitsBody(LinesOf(text), limit, s.body, ranges, pieces.value[1..]))
    && (!s.isClass && Utf8.Size(s.whole.content) <= limit ==> pieces == if s.whole.content == "" then None else Some([s.whole]))
    && (!s.isClass && Utf8.Size(s.whole.content) > limit && pieces.Some? ==>
          SplitsBody(LinesOf(text), limit, s.body, ranges, pieces.value))
  }

  /** A statement of the body that does not fit a chunk, or has no text. */
  ghost predicate HasBadStatement(lines: seq<string>, limit: nat, body: seq<Segment>) {
    exists k :: 0 <= k < |body| && body[k].nodeType !in DEFINITIONS && Legal(body[k].range)
                && (Utf8.Size(LineSlice(lines, body[k].range.first, body[k].range.last)) > limit
                    || LineSlice(lines, body[k].range.first, body[k].range.last) == "")
  }

  lemma BadStatement(lines: seq<string>, limit: nat, body: seq<Segment>)
    requires SomeUnusable(lines, limit, KeptRanges(body))
    ensures HasBadStatement(lines, limit, body)
  {
    hide LineSlice, Utf8.Size, KeptRanges;
    var r :| r in KeptRanges(body) && Legal(r) && Unusable(lines, limit, r);
    var places := KeptIff(body);
    var i :| 0 <= i < |KeptRanges(body)| && KeptRanges(body)[i] == r;
    assert places[i] in places;
    assert body[places[i]].range == r;
  }

  lemma MakeablePieces(limit: nat, pieces: seq<Piece>)
    requires AllMakeable(limit, pieces)
    ensures forall p :: p in pieces ==> p.content != "" && Utf8.Size(p.content) <= limit
  {
    forall p | p in pieces ensures p.content != "" && Utf8.Size(p.content) <= limit {
      var k :| 0 <= k < |pieces| && pieces[k] == p;
      assert Makeable(limit, pieces[k]);
    }
  }

  /** `_symbol_chunks`: a body is cut out of the lines of `splitlines` by the rows of the parser. */
  method SymbolChunks(text: string, limit: nat, s: Symbol) returns (pieces: Option<seq<Piece>>, ghost ranges: seq<Range>)
    requires InSourceOrder(s.body)
    ensures AreSymbolChunks(text, limit, s, ranges, pieces)
    ensures pieces.Some? ==> AllMakeable(limit, pieces.value)
    ensures pieces.Some? ==> forall p :: p in pieces.value ==> p.content != "" && Utf8.Size(p.content) <= limit
    ensures pieces.None? ==>
              || (if s.isClass then s.header.content == "" || Utf8.Size(s.header.content) > limit else s.whole.content == "")
              || HasBadStatement(LinesOf(text), limit, s.body)
    ensures !s.isClass && Utf8.Size(s.whole.content) <= limit ==> pieces == if s.whole.content == "" then None else Some([s.whole])
  {
    hide ArePieces, ExactChunks, SomeUnusable, SomeOversized, KeptRanges;
    var lines := LinesOf(text);
    ranges := [];
    if s.isClass {
      if s.header.content == "" || Utf8.Size(s.header.content) > limit {
        return None, ranges;
      }
    } else if Utf8.Size(s.whole.content) <= limit {
      if s.whole.content == "" {
        return None, ranges;
      }
      return Some([s.whole]), ranges;
    }
    var body;
    body, ranges := ChunkBody(lines, limit, s.body);
    if body.None? {
      BadStatement(lines, limit, s.body);
      return None, ranges;
    }
    UsablePiecesAreMakeable(lines, limit, KeptRanges(s.body), ranges, body.value);
    if s.isClass {
      assert ([s.header] + body.value)[1..] == body.value;
      MakeablePieces(limit, [s.header] + body.value);
      return Some([s.header] + body.value), ranges;
    }
    MakeablePieces(limit, body.value);
    return body, ranges;
  }

  // ---------------------------------------------------------------- lines and rows

  /** The kept statements end inside the text, and not in the empty row after a last newline. */
  ghost predicate InsideText(text: string, kept: seq<Range>) {
    forall r :: r in kept ==> r.last <= |Rows(text)| && (r.last == |Rows(text)| ==> Rows(text)[r.last - 1] != "")
  }

  /** No break but a newline stands before the end of the kept statements. */
  ghost predicate PlainText(text: string, kept: seq<Range>) {
    forall r :: r in kept ==> PlainThrough(text, r.last)
  }

  lemma PlainEarlier(text: string, m: nat, n: nat)
    requires m <= n && PlainThrough(text, n)
    ensures PlainThrough(text, m)
  {
    hide Rows, Plain;
  }

  /** Then the split body is the text of the kept statements as the parser sees it. */
  lemma SplitBodyIsSource(text: string, limit: nat, body: seq<Segment>, ranges: seq<Range>, pieces: seq<Piece>)
    requires SplitsBody(LinesOf(text), limit, body, ranges, pieces)
    requires (forall r :: r in KeptRanges(body) ==> Legal(r)) && InsideText(text, KeptRanges(body)) && PlainText(text, KeptRanges(body))
    ensures forall k :: 0 <= k < |pieces| ==> pieces[k].content == LineSlice(Rows(text), pieces[k].first, pieces[k].last)
  {
    hide LinesOf, Rows, LineSlice, PlainThrough, KeptRanges, Unusable;
    var kept := KeptRanges(body);
    forall k | 0 <= k < |pieces| ensures pieces[k].content == LineSlice(Rows(text), pieces[k].first, pieces[k].last) {
      assert Legal(ranges[k]) && pieces[k] == PieceOf(LinesOf(text), ranges[k]);
      assert In(ranges[k], ranges[k].last);
      assert Holds(ranges, ranges[k].last);
      var q :| 0 <= q < |kept| && In(kept[q], ranges[k].last);
      PlainEarlier(text, ranges[k].last, kept[q].last);
      SliceIsExact(text, ranges[k].first, ranges[k].last);
    }
  }

  /** A definition between two statements, after a row that holds nothing but another break. */
  function AroundDefinition(): seq<Segment> {
    [Segment("expression_statement", Range(2, 2)), Segment("function_definition", Range(4, 4)),
     Segment("expression_statement", Range(5, 5))]
  }

  lemma KeptAroundDefinition()
    ensures KeptRanges(AroundDefinition()) == [Range(2, 2), Range(5, 5)]
  {
    var body := AroundDefinition();
    assert body[..2][..1] == [body[0]] && body[..2][..1][..0] == [];
    assert KeptRanges([]) == [] && KeptRanges(body[..2][..1]) == [Range(2, 2)] && KeptRanges(body[..2]) == [Range(2, 2)];
  }

  lemma OnlyKeptLines(ranges: seq<Range>, kept: seq<Range>)
    requires kept == [Range(2, 2), Range(5, 5)]
    requires (forall k :: 0 <= k < |ranges| ==> Legal(ranges[k])) && forall line: nat :: Holds(ranges, line) <==> Holds(kept, line)
    ensures !Holds(ranges, 6) && forall k :: 0 <= k < |ranges| && In(ranges[k], 5) ==> ranges[k] == Range(5, 5)
  {
    assert forall k, line :: 0 <= k < 2 && In(kept[k], line) ==> line == 2 || line == 5;
    assert !Holds(kept, 4) && !Holds(kept, 6);
    assert !Holds(ranges, 4) && !Holds(ranges, 6);
    forall k | 0 <= k < |ranges| && In(ranges[k], 5) ensures ranges[k] == Range(5, 5) {
      assert !In(ranges[k], 4) && !In(ranges[k], 6);
    }
  }

  /**
   * Otherwise lines are off by one for each such break: the chunk of the second statement holds the
   * definition, which is excluded, and no chunk holds the statement.
   */
  lemma OtherBreakLeaksDefinition(h: string, a: string, c: char, definition: string, statement: string, limit: nat,
                                  ranges: seq<Range>, pieces: seq<Piece>)
    requires Unbroken(h) && Unbroken(a) && Unbroken(definition) && Unbroken(statement) && IsOtherBreak(c)
    requires SplitsBody(LinesOf(Shifted(h, a, c, definition, statement)), limit, AroundDefinition(), ranges, pieces)
    ensures var text := Shifted(h, a, c, definition, statement);
            && LineSlice(Rows(text), 5, 5) == statement && LineAt(LinesOf(text), 6) == statement && !Holds(ranges, 6)
            && exists k :: 0 <= k < |pieces| && pieces[k] == Piece(5, 5, definition)
  {
    var text := Shifted(h, a, c, definition, statement);
    ShiftedRows(h, a, c, definition, statement);
    ShiftedLines(h, a, c, definition, statement);
    KeptAroundDefinition();
    hide LinesOf, Rows, Shifted, Unbroken, Unusable;
    var kept := [Range(2, 2), Range(5, 5)];
    OnlyKeptLines(ranges, kept);
    assert In(kept[1], 5) && Holds(kept, 5);
    var k :| 0 <= k < |ranges| && In(ranges[k], 5);
    assert pieces[k] == PieceOf(LinesOf(text), ranges[k]);
    assert ranges[k] == Range(5, 5);
    assert LinesOf(text)[4..5] == [definition] && Rows(text)[4..5] == [statement];
  }

  /** A class with a form feed on a row of its own: the chunk of `y = 2` is the method, which is excluded. */
  lemma FormFeedLeaksDefinition(limit: nat, ranges: seq<Range>, pieces: seq<Piece>)
    requires SplitsBody(LinesOf(Shifted("class A:", "    x = 1", '\U{C}', "    def f(self): pass", "    y = 2")), limit,
                        AroundDefinition(), ranges, pieces)
    ensures exists k :: 0 <= k < |pieces| && pieces[k] == Piece(5, 5, "    def f(self): pass")
  {
    OtherBreakLeaksDefinition("class A:", "    x = 1", '\U{C}', "    def f(self): pass", "    y = 2", limit, ranges, pieces);
  }
}
