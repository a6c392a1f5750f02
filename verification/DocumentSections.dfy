/**
 * The line scans of `DocumentationChunker`: Markdown sections and paragraphs, with their fence
 * state. The regular expressions are a classification of lines.
 */
module DocumentSections {
  import opened Common
  import opened Packing

  /** `depth` is the number of `#` signs less one. The kinds exclude each other. */
  datatype LineKind = Fence(marker: char) | Heading(depth: nat, title: string) | Blank | Text

  datatype Section = Section(first: nat, last: nat, headings: seq<string>)

  // ---------------------------------------------------------------- fences

  /** Python reads a line past the end as empty. */
  function KindAt(kinds: seq<LineKind>, line: nat): LineKind
    requires line >= 1
  {
    if line <= |kinds| then kinds[line - 1] else Blank
  }

  function Toggle(fence: Option<char>, marker: char): Option<char> {
    if fence == Some(marker) then None else if fence == None then Some(marker) else fence
  }

  /** The open fence after the lines from `first` to `line`, starting outside any fence. */
  function FenceAfter(kinds: seq<LineKind>, first: nat, line: nat): Option<char>
    requires first >= 1
  {
    if line < first then None
    else
      var before := FenceAfter(kinds, first, line - 1);
      if KindAt(kinds, line).Fence? then Toggle(before, KindAt(kinds, line).marker) else before
  }

  /** The paragraph scan of a section sees the fences that the section scan of the whole file saw. */
  lemma {:induction false} FencesAgree(kinds: seq<LineKind>, first: nat, line: nat)
    requires 1 <= first <= line + 1 && FenceAfter(kinds, 1, first - 1) == None
    ensures FenceAfter(kinds, first, line) == FenceAfter(kinds, 1, line)
  {
    if first == line + 1 {
    } else {
      FencesAgree(kinds, first, line - 1);
    }
  }

  // ---------------------------------------------------------------- code blocks

  /** From an opening fence to the next fence with the same marker, or to the line after the last. */
  datatype Block = Block(open: nat, close: nat, marker: char)

  predicate IsBlock(kinds: seq<LineKind>, b: Block) {
    && 1 <= b.open < b.close <= |kinds| + 1
    && kinds[b.open - 1] == Fence(b.marker)
    && (b.close <= |kinds| ==> kinds[b.close - 1] == Fence(b.marker))
    && (forall i :: b.open <= i < b.close - 1 ==> kinds[i] != Fence(b.marker))
  }

  /** The line is in the block, with its fences. */
  predicate InBlock(b: Block, line: nat) {
    b.open <= line <= b.close
  }

  ghost predicate Fenced(blocks: seq<Block>, line: nat) {
    exists i :: 0 <= i < |blocks| && InBlock(blocks[i], line)
  }

  /** Disjoint blocks in order, and no fence outside them: what the line kinds alone say about code blocks. */
  ghost predicate AreBlocks(kinds: seq<LineKind>, blocks: seq<Block>) {
    && (forall i :: 0 <= i < |blocks| ==> IsBlock(kinds, blocks[i]))
    && (forall i, k :: 0 <= i < k < |blocks| ==> blocks[i].close < blocks[k].open)
    && (forall line: nat :: 1 <= line <= |kinds| && kinds[line - 1].Fence? ==> Fenced(blocks, line))
  }

  /** The scan is inside a code block with this marker: after its opening fence, and not after its closing one. */
  ghost predicate InsideOf(blocks: seq<Block>, line: nat, marker: char) {
    exists i :: 0 <= i < |blocks| && blocks[i].open <= line < blocks[i].close && blocks[i].marker == marker
  }

  lemma OneInside(kinds: seq<LineKind>, blocks: seq<Block>, i: nat, line: nat, marker: char)
    requires AreBlocks(kinds, blocks) && i < |blocks| && InBlock(blocks[i], line)
    ensures InsideOf(blocks, line, marker) <==> line < blocks[i].close && blocks[i].marker == marker
  {
  }

  lemma OutsideBefore(kinds: seq<LineKind>, blocks: seq<Block>, i: nat, marker: char)
    requires AreBlocks(kinds, blocks) && i < |blocks|
    ensures blocks[i].open >= 1 && !InsideOf(blocks, blocks[i].open - 1, marker)
  {
    assert IsBlock(kinds, blocks[i]);
    forall k | 0 <= k < |blocks| ensures k < i ==> blocks[k].close < blocks[i].open {}
    forall k | 0 <= k < |blocks| ensures k > i ==> blocks[k].open > blocks[i].open {}
  }

  lemma FenceInBlock(kinds: seq<LineKind>, blocks: seq<Block>, i: nat, line: nat)
    requires AreBlocks(kinds, blocks) && 1 <= line <= |kinds| && i < |blocks| && InBlock(blocks[i], line)
    requires forall m :: FenceAfter(kinds, 1, line - 1) == Some(m) <==> InsideOf(blocks, line - 1, m)
    ensures FenceAfter(kinds, 1, line) == if line < blocks[i].close then Some(blocks[i].marker) else None
  {
    var b := blocks[i];
    assert IsBlock(kinds, b);
    if b.open < line {
      OneInside(kinds, blocks, i, line - 1, b.marker);
      if line < b.close { assert kinds[line - 1] != Fence(b.marker); }
    } else {
      var before := FenceAfter(kinds, 1, line - 1);
      OutsideBefore(kinds, blocks, i, if before.Some? then before.value else b.marker);
    }
  }

  lemma FenceOutside(kinds: seq<LineKind>, blocks: seq<Block>, line: nat, m: char)
    requires AreBlocks(kinds, blocks) && 1 <= line <= |kinds| && !Fenced(blocks, line)
    ensures FenceAfter(kinds, 1, line) == FenceAfter(kinds, 1, line - 1) && !InsideOf(blocks, line - 1, m) && !InsideOf(blocks, line, m)
  {
    forall i | 0 <= i < |blocks| ensures !InBlock(blocks[i], line) {}
    if i :| 0 <= i < |blocks| && blocks[i].open <= line - 1 < blocks[i].close { assert InBlock(blocks[i], line); }
    if i :| 0 <= i < |blocks| && blocks[i].open <= line < blocks[i].close { assert InBlock(blocks[i], line); }
  }

  lemma FenceStep(kinds: seq<LineKind>, blocks: seq<Block>, line: nat, marker: char)
    requires AreBlocks(kinds, blocks) && 1 <= line <= |kinds|
    requires forall m :: FenceAfter(kinds, 1, line - 1) == Some(m) <==> InsideOf(blocks, line - 1, m)
    ensures FenceAfter(kinds, 1, line) == Some(marker) <==> InsideOf(blocks, line, marker)
  {
    hide AreBlocks, FenceAfter, InsideOf, InBlock;
    if i :| 0 <= i < |blocks| && InBlock(blocks[i], line) {
      FenceInBlock(kinds, blocks, i, line);
      OneInside(kinds, blocks, i, line, marker);
    } else {
      FenceOutside(kinds, blocks, line, marker);
    }
  }

  lemma NothingInside(kinds: seq<LineKind>, blocks: seq<Block>)
    requires AreBlocks(kinds, blocks)
    ensures FenceAfter(kinds, 1, 0) == None && forall m :: !InsideOf(blocks, 0, m)
  {
    forall i | 0 <= i < |blocks| ensures blocks[i].open >= 1 { assert IsBlock(kinds, blocks[i]); }
  }

  /** The open fence after a line is that of the code block that the line is inside of. */
  lemma {:induction false} OpenFenceIff(kinds: seq<LineKind>, blocks: seq<Block>, line: nat, marker: char)
    requires AreBlocks(kinds, blocks) && line <= |kinds|
    ensures FenceAfter(kinds, 1, line) == Some(marker) <==> InsideOf(blocks, line, marker)
  {
    hide AreBlocks, FenceAfter;
    if line == 0 {
      NothingInside(kinds, blocks);
    } else {
      forall m ensures FenceAfter(kinds, 1, line - 1) == Some(m) <==> InsideOf(blocks, line - 1, m) {
        OpenFenceIff(kinds, blocks, line - 1, m);
      }
      FenceStep(kinds, blocks, line, marker);
    }
  }

  /** A block among the lines but the last: closed, or open to their end. */
  lemma BlockKept(kinds: seq<LineKind>, b: Block)
    requires kinds != [] && IsBlock(kinds[..|kinds| - 1], b)
    ensures b.open < b.close <= |kinds|
    ensures b.close < |kinds| ==> IsBlock(kinds, b)
    ensures b.close == |kinds| ==> IsBlock(kinds, if kinds[|kinds| - 1] == Fence(b.marker) then b else b.(close := |kinds| + 1))
  {
    var before := kinds[..|kinds| - 1];
    forall i | b.open <= i < b.close - 1 ensures kinds[i] != Fence(b.marker) { assert before[i] == kinds[i]; }
  }

  lemma FencesKept(kinds: seq<LineKind>, before: seq<Block>, blocks: seq<Block>)
    requires kinds != [] && AreBlocks(kinds[..|kinds| - 1], before) && |before| <= |blocks|
    requires forall i :: 0 <= i < |before| ==> blocks[i].open == before[i].open && blocks[i].close >= before[i].close
    requires kinds[|kinds| - 1].Fence? ==> Fenced(blocks, |kinds|)
    ensures forall line: nat :: 1 <= line <= |kinds| && kinds[line - 1].Fence? ==> Fenced(blocks, line)
  {
    forall line: nat | 1 <= line < |kinds| && kinds[line - 1].Fence? ensures Fenced(blocks, line) {
      assert kinds[..|kinds| - 1][line - 1].Fence? && Fenced(before, line);
      var i :| 0 <= i < |before| && InBlock(before[i], line);
      assert InBlock(blocks[i], line);
    }
  }

  lemma FenceOpens(kinds: seq<LineKind>)
    requires kinds != [] && kinds[|kinds| - 1].Fence?
    ensures IsBlock(kinds, Block(|kinds|, |kinds| + 1, kinds[|kinds| - 1].marker))
  {
  }

  lemma LastInBlock(blocks: seq<Block>, line: nat)
    requires blocks != [] && InBlock(blocks[|blocks| - 1], line)
    ensures Fenced(blocks, line)
  {
  }

  lemma BlocksExtended(kinds: seq<LineKind>, before: seq<Block>) returns (blocks: seq<Block>)
    requires kinds != [] && AreBlocks(kinds[..|kinds| - 1], before)
    ensures AreBlocks(kinds, blocks)
  {
    hide IsBlock, Fenced;
    var n, last := |kinds|, kinds[|kinds| - 1];
    forall i | 0 <= i < |before|
      ensures before[i].close <= n && (before[i].close < n ==> IsBlock(kinds, before[i]))
      ensures i < |before| - 1 ==> before[i].close < n
    {
      BlockKept(kinds, before[i]);
      BlockKept(kinds, before[|before| - 1]);
    }
    if before != [] && before[|before| - 1].close == n {
      var k := |before| - 1;
      BlockKept(kinds, before[k]);
      blocks := before[k := if last == Fence(before[k].marker) then before[k] else before[k].(close := n + 1)];
      LastInBlock(blocks, n);
    } else if last.Fence? {
      var newest := Block(n, n + 1, last.marker);
      assert IsBlock(kinds, newest) by { FenceOpens(kinds); }
      blocks := before + [newest];
      LastInBlock(blocks, n);
    } else {
      blocks := before;
    }
    FencesKept(kinds, before, blocks);
  }

  lemma {:induction false} BlocksExist(kinds: seq<LineKind>) returns (blocks: seq<Block>)
    ensures AreBlocks(kinds, blocks)
  {
    if kinds == [] {
      blocks := [];
    } else {
      var n := |kinds|;
      var before := BlocksExist(kinds[..n - 1]);
      hide AreBlocks;
      blocks := BlocksExtended(kinds, before);
    }
  }

  // ---------------------------------------------------------------- sections

  /** A heading outside fences. */
  predicate HeadingAt(kinds: seq<LineKind>, line: nat) {
    1 <= line <= |kinds| && kinds[line - 1].Heading? && FenceAfter(kinds, 1, line - 1) == None
  }

  /** The heading stack after the first `line` lines. */
  function HierarchyAt(kinds: seq<LineKind>, line: nat): seq<string> {
    if line == 0 then []
    else if HeadingAt(kinds, line) then
      var before := HierarchyAt(kinds, line - 1);
      before[..Min(kinds[line - 1].depth, |before|)] + [kinds[line - 1].title]
    else HierarchyAt(kinds, line - 1)
  }

  predicate SectionAt(kinds: seq<LineKind>, sections: seq<Section>, i: nat)
    requires i < |sections|
  {
    var s := sections[i];
    && 1 <= s.first <= s.last
    && s.last == (if i + 1 < |sections| then sections[i + 1].first - 1 else Max(1, |kinds|))
    && (if i == 0 then s.first == 1 else HeadingAt(kinds, s.first))
    && s.headings == HierarchyAt(kinds, s.first)
    && FenceAfter(kinds, 1, s.first - 1) == None
  }

  ghost predicate StartsAt(sections: seq<Section>, line: nat) {
    exists i :: 0 <= i < |sections| && sections[i].first == line
  }

  /** The sections partition the lines and start at line one and at every heading outside fences. */
  ghost predicate AreSections(kinds: seq<LineKind>, sections: seq<Section>) {
    && sections != []
    && (forall i :: 0 <= i < |sections| ==> SectionAt(kinds, sections, i))
    && (forall line: nat :: HeadingAt(kinds, line) ==> StartsAt(sections, line))
  }

  lemma {:induction false} SectionOf(kinds: seq<LineKind>, sections: seq<Section>, n: nat, line: nat) returns (i: nat)
    requires AreSections(kinds, sections) && n < |sections| && 1 <= line <= sections[n].last
    ensures i <= n && sections[i].first <= line <= sections[i].last
  {
    hide FenceAfter, HierarchyAt;
    assert SectionAt(kinds, sections, n);
    if sections[n].first <= line {
      i := n;
    } else {
      assert SectionAt(kinds, sections, n - 1);
      i := SectionOf(kinds, sections, n - 1, line);
    }
  }

  lemma {:induction false} SectionsAscend(kinds: seq<LineKind>, sections: seq<Section>, i: nat, k: nat)
    requires AreSections(kinds, sections) && i < k < |sections|
    ensures sections[i].last < sections[k].first
    decreases k
  {
    hide FenceAfter, HierarchyAt;
    assert SectionAt(kinds, sections, k - 1) && SectionAt(kinds, sections, i);
    if i == k - 1 {
    } else {
      SectionsAscend(kinds, sections, i, k - 1);
    }
  }

  /** Every line is in one section, and there the two scans agree on the open fence. */
  lemma SectionsPartition(kinds: seq<LineKind>, sections: seq<Section>, line: nat) returns (i: nat)
    requires AreSections(kinds, sections) && 1 <= line <= Max(1, |kinds|)
    ensures i < |sections| && 1 <= sections[i].first <= line <= sections[i].last
    ensures forall k :: 0 <= k < |sections| && sections[k].first <= line <= sections[k].last ==> k == i
    ensures FenceAfter(kinds, sections[i].first, line) == FenceAfter(kinds, 1, line)
  {
    assert SectionAt(kinds, sections, |sections| - 1);
    i := SectionOf(kinds, sections, |sections| - 1, line);
    assert SectionAt(kinds, sections, i);
    FencesAgree(kinds, sections[i].first, line);
    hide FenceAfter;
    forall k | 0 <= k < |sections| && sections[k].first <= line <= sections[k].last ensures k == i {
      if k < i { SectionsAscend(kinds, sections, k, i); }
      if i < k { SectionsAscend(kinds, sections, i, k); }
    }
  }

  // ---------------------------------------------------------------- heading levels

  datatype Entry = Entry(depth: nat, title: string)

  /** The headings that are shallower than a new one: the rest of the stack is closed by it. */
  function Enclosing(stack: seq<Entry>, depth: nat): (r: seq<Entry>)
    ensures |r| <= |stack|
  {
    if stack == [] || stack[|stack| - 1].depth < depth then stack else Enclosing(stack[..|stack| - 1], depth)
  }

  /** The enclosing headings of a line by their levels, independent of how many levels were skipped. */
  function OutlineAt(kinds: seq<LineKind>, line: nat): seq<Entry> {
    if line == 0 then []
    else if HeadingAt(kinds, line) then
      Enclosing(OutlineAt(kinds, line - 1), kinds[line - 1].depth) + [Entry(kinds[line - 1].depth, kinds[line - 1].title)]
    else OutlineAt(kinds, line - 1)
  }

  function Titles(stack: seq<Entry>): (r: seq<string>)
    ensures |r| == |stack|
  {
    seq(|stack|, i requires 0 <= i < |stack| => stack[i].title)
  }

  lemma {:induction false} EnclosingIsPrefix(stack: seq<Entry>, depth: nat)
    ensures Enclosing(stack, depth) == stack[..|Enclosing(stack, depth)|]
  {
    if stack == [] || stack[|stack| - 1].depth < depth {
      assert stack[..|stack|] == stack;
    } else {
      EnclosingIsPrefix(stack[..|stack| - 1], depth);
    }
  }

  /** A heading keeps as many of the open headings as the number of its level counts. */
  predicate KeepsAsCounted(kinds: seq<LineKind>, line: nat)
    requires HeadingAt(kinds, line)
  {
    var open, depth := OutlineAt(kinds, line - 1), kinds[line - 1].depth;
    |Enclosing(open, depth)| == Min(depth, |open|)
  }

  ghost predicate AllKeepAsCounted(kinds: seq<LineKind>, line: nat) {
    forall l: nat :: l <= line && HeadingAt(kinds, l) ==> KeepsAsCounted(kinds, l)
  }

  ghost predicate HierarchyIsExact(kinds: seq<LineKind>, line: nat) {
    forall l: nat :: l <= line ==> HierarchyAt(kinds, l) == Titles(OutlineAt(kinds, l))
  }

  lemma NothingOpened(kinds: seq<LineKind>)
    ensures HierarchyAt(kinds, 0) == [] && OutlineAt(kinds, 0) == [] && Titles([]) == [] && !HeadingAt(kinds, 0)
  {
  }

  lemma HeadingInside(kinds: seq<LineKind>, line: nat)
    requires HeadingAt(kinds, line)
    ensures 1 <= line <= |kinds| && kinds[line - 1].Heading?
  {
  }

  lemma OneLineExact(kinds: seq<LineKind>, line: nat)
    requires line >= 1 && HierarchyAt(kinds, line - 1) == Titles(OutlineAt(kinds, line - 1))
    ensures HierarchyAt(kinds, line) == Titles(OutlineAt(kinds, line)) <==> HeadingAt(kinds, line) ==> KeepsAsCounted(kinds, line)
  {
    hide HeadingAt;
    if HeadingAt(kinds, line) {
      HeadingInside(kinds, line);
      var open, entry := OutlineAt(kinds, line - 1), Entry(kinds[line - 1].depth, kinds[line - 1].title);
      var kept := Enclosing(open, entry.depth);
      EnclosingIsPrefix(open, entry.depth);
      assert Titles(kept + [entry]) == Titles(open)[..|kept|] + [entry.title];
    }
  }

  /** The truncated stack holds the titles of the enclosing headings exactly as long as levels count the open headings. */
  lemma {:induction false} HierarchyIsOutline(kinds: seq<LineKind>, line: nat)
    ensures HierarchyIsExact(kinds, line) <==> AllKeepAsCounted(kinds, line)
  {
    hide HeadingAt, KeepsAsCounted, OutlineAt, HierarchyAt, Titles, FenceAfter;
    if line == 0 {
      NothingOpened(kinds);
    } else {
      HierarchyIsOutline(kinds, line - 1);
      assert HierarchyIsExact(kinds, line) <==>
             HierarchyIsExact(kinds, line - 1) && HierarchyAt(kinds, line) == Titles(OutlineAt(kinds, line));
      if HierarchyAt(kinds, line - 1) == Titles(OutlineAt(kinds, line - 1)) { OneLineExact(kinds, line); }
    }
  }

  // The levels themselves: the headings alone tell when they are the positions in the stack.

  /** The depth of the last heading outside fences. */
  function LastDepth(kinds: seq<LineKind>, line: nat): Option<nat> {
    if line == 0 then None
    else if HeadingAt(kinds, line) then Some(kinds[line - 1].depth)
    else LastDepth(kinds, line - 1)
  }

  predicate StepOk(kinds: seq<LineKind>, line: nat)
    requires HeadingAt(kinds, line)
  {
    var last := LastDepth(kinds, line - 1);
    kinds[line - 1].depth <= if last.None? then 0 else last.value + 1
  }

  /** The first heading is of the top level, and each other at most one level below the heading before it. */
  ghost predicate StepsByOne(kinds: seq<LineKind>, line: nat) {
    forall l: nat :: l <= line && HeadingAt(kinds, l) ==> StepOk(kinds, l)
  }

  ghost predicate Nested(stack: seq<Entry>, titles: seq<string>) {
    |stack| == |titles| && forall i :: 0 <= i < |stack| ==> stack[i] == Entry(i, titles[i])
  }

  /** Every enclosing heading stands in the stack at the index that its level gives. */
  ghost predicate LevelsAreExact(kinds: seq<LineKind>, line: nat) {
    forall l: nat :: l <= line ==> Nested(OutlineAt(kinds, l), HierarchyAt(kinds, l))
  }

  ghost predicate EndsAt(stack: seq<Entry>, last: Option<nat>) {
    |stack| == if last.None? then 0 else last.value + 1
  }

  lemma {:induction false} EnclosingNested(stack: seq<Entry>, titles: seq<string>, depth: nat)
    requires Nested(stack, titles)
    ensures Nested(Enclosing(stack, depth), titles[..Min(depth, |titles|)])
  {
    if stack != [] && stack[|stack| - 1].depth >= depth {
      EnclosingNested(stack[..|stack| - 1], titles[..|titles| - 1], depth);
      assert titles[..|titles| - 1][..Min(depth, |titles| - 1)] == titles[..Min(depth, |titles|)];
    }
  }

  lemma {:induction false} StackEndsAtLast(kinds: seq<LineKind>, line: nat)
    requires LevelsAreExact(kinds, line)
    ensures EndsAt(OutlineAt(kinds, line), LastDepth(kinds, line))
  {
    if line == 0 {
      assert OutlineAt(kinds, 0) == [];
    } else {
      assert Nested(OutlineAt(kinds, line), HierarchyAt(kinds, line));
      if HeadingAt(kinds, line) {
        var stack := OutlineAt(kinds, line);
        assert stack[|stack| - 1] == Entry(kinds[line - 1].depth, kinds[line - 1].title);
      } else {
        StackEndsAtLast(kinds, line - 1);
      }
    }
  }

  lemma NothingNested()
    ensures Nested([], [])
  {
  }

  lemma OneLevelExact(kinds: seq<LineKind>, line: nat)
    requires line >= 1 && Nested(OutlineAt(kinds, line - 1), HierarchyAt(kinds, line - 1))
    requires EndsAt(OutlineAt(kinds, line - 1), LastDepth(kinds, line - 1))
    ensures Nested(OutlineAt(kinds, line), HierarchyAt(kinds, line)) <==> HeadingAt(kinds, line) ==> StepOk(kinds, line)
  {
    hide HeadingAt;
    if HeadingAt(kinds, line) {
      HeadingInside(kinds, line);
      var open, depth := OutlineAt(kinds, line - 1), kinds[line - 1].depth;
      EnclosingNested(open, HierarchyAt(kinds, line - 1), depth);
      var stack := OutlineAt(kinds, line);
      assert stack[|stack| - 1].depth == depth;
    }
  }

  lemma {:induction false} LevelsAreExactIff(kinds: seq<LineKind>, line: nat)
    ensures LevelsAreExact(kinds, line) <==> StepsByOne(kinds, line)
  {
    hide HeadingAt, StepOk, OutlineAt, HierarchyAt, Nested, FenceAfter, LastDepth;
    if line == 0 {
      NothingOpened(kinds);
      assert Nested([], []) by { NothingNested(); }
    } else {
      LevelsAreExactIff(kinds, line - 1);
      assert LevelsAreExact(kinds, line) <==>
             LevelsAreExact(kinds, line - 1) && Nested(OutlineAt(kinds, line), HierarchyAt(kinds, line));
      if LevelsAreExact(kinds, line - 1) {
        StackEndsAtLast(kinds, line - 1);
        OneLevelExact(kinds, line);
      }
    }
  }

  lemma OutlineLine(kinds: seq<LineKind>, n: nat)
    requires n < |kinds|
    ensures OutlineAt(kinds, n + 1)
         == if HeadingAt(kinds, n + 1)
            then Enclosing(OutlineAt(kinds, n), kinds[n].depth) + [Entry(kinds[n].depth, kinds[n].title)]
            else OutlineAt(kinds, n)
  {
  }

  lemma NoOutline(kinds: seq<LineKind>)
    ensures OutlineAt(kinds, 0) == []
  {
  }

  lemma NothingScanned(kinds: seq<LineKind>)
    ensures HierarchyAt(kinds, 0) == [] && FenceAfter(kinds, 1, 0) == None
  {
  }

  /** One line of the scan. */
  lemma ScanLine(kinds: seq<LineKind>, n: nat)
    requires n < |kinds|
    ensures FenceAfter(kinds, 1, n + 1)
         == if kinds[n].Fence? then Toggle(FenceAfter(kinds, 1, n), kinds[n].marker) else FenceAfter(kinds, 1, n)
    ensures HeadingAt(kinds, n + 1) <==> kinds[n].Heading? && FenceAfter(kinds, 1, n) == None
    ensures HierarchyAt(kinds, n + 1)
         == if HeadingAt(kinds, n + 1)
            then HierarchyAt(kinds, n)[..Min(kinds[n].depth, |HierarchyAt(kinds, n)|)] + [kinds[n].title]
            else HierarchyAt(kinds, n)
  {
  }

  /** After a skipped level, sibling headings nest. */
  lemma SkippedLevelNestsSiblings(depth: nat, a: string, b: string)
    requires depth >= 1
    ensures var kinds := [Heading(depth, a), Heading(depth, b)];
            HierarchyAt(kinds, 2) == [a, b] && OutlineAt(kinds, 2) == [Entry(depth, b)]
  {
    hide FenceAfter, HierarchyAt, HeadingAt, OutlineAt;
    var kinds := [Heading(depth, a), Heading(depth, b)];
    NothingScanned(kinds);
    ScanLine(kinds, 0);
    ScanLine(kinds, 1);
    OutlineLine(kinds, 0);
    OutlineLine(kinds, 1);
    assert OutlineAt(kinds, 0) == [] by { NoOutline(kinds); }
    assert OutlineAt(kinds, 1) == [Entry(depth, a)];
    assert HierarchyAt(kinds, 1) == [a];
    assert [a][..1] == [a];
  }

  datatype Start = Start(line: nat, headings: seq<string>)

  ghost predicate StartsOk(kinds: seq<LineKind>, starts: seq<Start>, n: nat) {
    && starts != [] && starts[0].line == 1
    && (forall k :: 0 <= k < |starts| ==>
          && 1 <= starts[k].line <= n
          && (k > 0 ==> HeadingAt(kinds, starts[k].line))
          && starts[k].headings == HierarchyAt(kinds, starts[k].line)
          && FenceAfter(kinds, 1, starts[k].line - 1) == None)
    && (forall k, l :: 0 <= k < l < |starts| ==> starts[k].line < starts[l].line)
    && (forall line: nat :: line <= n && HeadingAt(kinds, line) ==> exists k :: 0 <= k < |starts| && starts[k].line == line)
  }

  lemma FirstStart(kinds: seq<LineKind>)
    requires kinds != []
    ensures StartsOk(kinds, [Start(1, HierarchyAt(kinds, 1))], 1)
  {
    assert [Start(1, HierarchyAt(kinds, 1))][0].line == 1;
  }

  lemma StartsKept(kinds: seq<LineKind>, starts: seq<Start>, n: nat)
    requires n < |kinds| && !HeadingAt(kinds, n + 1)
    requires if n == 0 then starts == [Start(1, [])] else StartsOk(kinds, starts, n)
    ensures StartsOk(kinds, starts, n + 1)
  {
    if n == 0 {
      ScanLine(kinds, 0);
      FirstStart(kinds);
    }
  }

  lemma HeadingOutsideFence(kinds: seq<LineKind>, line: nat)
    requires HeadingAt(kinds, line)
    ensures FenceAfter(kinds, 1, line - 1) == None
  {
  }

  lemma StartAppended(kinds: seq<LineKind>, starts: seq<Start>, n: nat, hierarchy: seq<string>)
    requires 0 < n < |kinds| && StartsOk(kinds, starts, n)
    requires HeadingAt(kinds, n + 1) && hierarchy == HierarchyAt(kinds, n + 1)
    ensures StartsOk(kinds, starts + [Start(n + 1, hierarchy)], n + 1)
  {
    hide HeadingAt, HierarchyAt, FenceAfter;
    var after := starts + [Start(n + 1, hierarchy)];
    forall line: nat | line <= n + 1 && HeadingAt(kinds, line) ensures exists k :: 0 <= k < |after| && after[k].line == line {
      if line == n + 1 {
        assert after[|starts|].line == line;
      } else {
        var k :| 0 <= k < |starts| && starts[k].line == line;
        assert after[k].line == line;
      }
    }
    assert FenceAfter(kinds, 1, n) == None by { HeadingOutsideFence(kinds, n + 1); }
  }

  /** The first loop of `_markdown_sections`. */
  method CollectStarts(kinds: seq<LineKind>) returns (starts: seq<Start>)
    requires kinds != []
    ensures StartsOk(kinds, starts, |kinds|)
  {
    hide StartsOk, HeadingAt, HierarchyAt, FenceAfter;
    starts := [Start(1, [])];
    var hierarchy: seq<string> := [];
    var fence: Option<char> := None;
    NothingScanned(kinds);
    for i := 0 to |kinds|
      invariant i == 0 ==> starts == [Start(1, [])]
      invariant i > 0 ==> StartsOk(kinds, starts, i)
      invariant hierarchy == HierarchyAt(kinds, i) && fence == FenceAfter(kinds, 1, i)
    {
      var kind := kinds[i];
      ScanLine(kinds, i);
      if kind.Fence? {
        fence := if fence == Some(kind.marker) then None else if fence == None then Some(kind.marker) else fence;
        StartsKept(kinds, starts, i);
      } else if fence == None && kind.Heading? {
        hierarchy := hierarchy[..Min(kind.depth, |hierarchy|)] + [kind.title];
        if i == 0 && starts == [Start(1, [])] {
          starts := [Start(1, hierarchy)];
          FirstStart(kinds);
        } else {
          StartAppended(kinds, starts, i, hierarchy);
          starts := starts + [Start(i + 1, hierarchy)];
        }
      } else {
        StartsKept(kinds, starts, i);
      }
    }
  }

  function SectionFrom(starts: seq<Start>, k: nat, n: nat): Section
    requires k < |starts| && forall i :: 0 <= i < |starts| ==> starts[i].line >= 1
  {
    Section(starts[k].line, if k + 1 < |starts| then starts[k + 1].line - 1 else n, starts[k].headings)
  }

  lemma SectionsFromStarts(kinds: seq<LineKind>, starts: seq<Start>, sections: seq<Section>)
    requires kinds != [] && StartsOk(kinds, starts, |kinds|) && |sections| == |starts|
    requires forall k :: 0 <= k < |sections| ==> sections[k] == SectionFrom(starts, k, |kinds|)
    ensures AreSections(kinds, sections)
  {
    hide HeadingAt, HierarchyAt, FenceAfter;
    forall i | 0 <= i < |sections| ensures SectionAt(kinds, sections, i) {
      if i + 1 < |sections| { assert starts[i].line < starts[i + 1].line; }
    }
    forall line: nat | HeadingAt(kinds, line) ensures StartsAt(sections, line) {
      assert line <= |kinds| by { HeadingInside(kinds, line); }
      var k :| 0 <= k < |starts| && starts[k].line == line;
      assert sections[k].first == line;
    }
  }

  /** `_markdown_sections` */
  method MarkdownSections(kinds: seq<LineKind>) returns (sections: seq<Section>)
    ensures AreSections(kinds, sections)
  {
    if kinds == [] {
      assert StartsAt([Section(1, 1, [])], 1) by { assert [Section(1, 1, [])][0].first == 1; }
      return [Section(1, 1, [])];
    }
    var starts := CollectStarts(kinds);
    sections := [];
    for i := 0 to |starts|
      invariant |sections| == i
      invariant forall k :: 0 <= k < i ==> sections[k] == SectionFrom(starts, k, |kinds|)
    {
      var end := if i + 1 < |starts| then starts[i + 1].line - 1 else |kinds|;
      if end >= starts[i].line {
        sections := sections + [Section(starts[i].line, end, starts[i].headings)];
      }
    }
    SectionsFromStarts(kinds, starts, sections);
  }

  // ---------------------------------------------------------------- paragraphs

  /** A line that a paragraph takes: not blank, or inside a fence. */
  predicate Kept(kinds: seq<LineKind>, first: nat, line: nat)
    requires first >= 1 && line >= 1
  {
    !KindAt(kinds, line).Blank? || FenceAfter(kinds, first, line) != None
  }

  /** The paragraphs of the lines from `first` to `last`: the maximal runs of kept lines. */
  ghost predicate AreParagraphs(kinds: seq<LineKind>, first: nat, last: nat, ranges: seq<Range>)
    requires 1 <= first
  {
    && Separated(ranges)
    && (forall i :: 0 <= i < |ranges| ==>
          && first <= ranges[i].first && ranges[i].last <= last
          && !KindAt(kinds, ranges[i].first).Blank?
          && (ranges[i].last < last ==> !Kept(kinds, first, ranges[i].last + 1)))
    && (forall line: nat :: first <= line <= last ==> (Holds(ranges, line) <==> Kept(kinds, first, line)))
  }

  lemma FenceLine(kinds: seq<LineKind>, first: nat, line: nat)
    requires 1 <= first <= line
    ensures var before := FenceAfter(kinds, first, line - 1);
            FenceAfter(kinds, first, line)
            == if KindAt(kinds, line).Fence? then Toggle(before, KindAt(kinds, line).marker) else before
  {
  }

  /** The scan before `line`: closed paragraphs, and the open one if there is one. */
  ghost predicate OpenParagraph(kinds: seq<LineKind>, first: nat, line: nat, ranges: seq<Range>, start: Option<nat>)
    requires 1 <= first <= line
  {
    && Separated(ranges)
    && (forall i :: 0 <= i < |ranges| ==>
          && first <= ranges[i].first && ranges[i].last + 1 < line
          && !KindAt(kinds, ranges[i].first).Blank? && !Kept(kinds, first, ranges[i].last + 1)
          && (start != None ==> ranges[i].last + 1 < start.value))
    && (start != None ==> first <= start.value < line && !KindAt(kinds, start.value).Blank?)
    && (forall l: nat :: first <= l < line ==>
          (Kept(kinds, first, l) <==> Holds(ranges, l) || (start != None && start.value <= l)))
  }

  lemma NothingOpen(kinds: seq<LineKind>, first: nat)
    requires 1 <= first
    ensures OpenParagraph(kinds, first, first, [], None) && FenceAfter(kinds, first, first - 1) == None
  {
  }

  lemma TakeLine(kinds: seq<LineKind>, first: nat, line: nat, ranges: seq<Range>, start: Option<nat>)
    requires 1 <= first <= line && OpenParagraph(kinds, first, line, ranges, start)
    requires Kept(kinds, first, line) && (start == None ==> !KindAt(kinds, line).Blank?)
    ensures OpenParagraph(kinds, first, line + 1, ranges, if start == None then Some(line) else start)
  {
    hide Kept, KindAt;
  }

  lemma CloseParagraph(kinds: seq<LineKind>, first: nat, line: nat, ranges: seq<Range>, start: nat)
    requires 1 <= first <= line && OpenParagraph(kinds, first, line, ranges, Some(start))
    ensures var closed := ranges + [Range(start, line - 1)];
            && Separated(closed)
            && (forall i :: 0 <= i < |closed| ==>
                  && closed[i].last < line && first <= closed[i].first && !KindAt(kinds, closed[i].first).Blank?
                  && (closed[i].last + 1 < line ==> !Kept(kinds, first, closed[i].last + 1)))
            && (forall l: nat :: first <= l < line ==> (Kept(kinds, first, l) <==> Holds(closed, l)))
            && (forall l: nat :: l >= line ==> !Holds(closed, l))
  {
    hide Kept, KindAt;
    var closed := ranges + [Range(start, line - 1)];
    forall l: nat ensures Holds(closed, l) <==> Holds(ranges, l) || start <= l < line {
      HoldsAppend(ranges, [Range(start, line - 1)], l);
      if start <= l < line { assert In([Range(start, line - 1)][0], l); }
    }
  }

  lemma DropLine(kinds: seq<LineKind>, first: nat, line: nat, ranges: seq<Range>, start: Option<nat>)
    requires 1 <= first <= line && OpenParagraph(kinds, first, line, ranges, start) && !Kept(kinds, first, line)
    ensures OpenParagraph(kinds, first, line + 1,
                          if start == None then ranges else ranges + [Range(start.value, line - 1)], None)
  {
    hide Kept, KindAt;
    if start != None { CloseParagraph(kinds, first, line, ranges, start.value); }
  }

  lemma LastParagraph(kinds: seq<LineKind>, first: nat, last: nat, ranges: seq<Range>, start: Option<nat>)
    requires 1 <= first <= last && OpenParagraph(kinds, first, last + 1, ranges, start)
    ensures AreParagraphs(kinds, first, last, if start == None then ranges else ranges + [Range(start.value, last)])
  {
    hide Kept, KindAt, Holds, Separated;
    if start != None { CloseParagraph(kinds, first, last + 1, ranges, start.value); }
  }

  /** `_paragraph_ranges` */
  method ParagraphRanges(kinds: seq<LineKind>, first: nat, last: nat) returns (ranges: seq<Range>)
    requires 1 <= first <= last
    ensures AreParagraphs(kinds, first, last, ranges)
  {
    hide OpenParagraph, FenceAfter, AreParagraphs;
    ranges := [];
    var start: Option<nat> := None;
    var fence: Option<char> := None;
    var line := first;
    NothingOpen(kinds, first);
    while line <= last
      invariant first <= line <= last + 1
      invariant fence == FenceAfter(kinds, first, line - 1)
      invariant OpenParagraph(kinds, first, line, ranges, start)
      invariant fence != None ==> start != None
    {
      var kind := KindAt(kinds, line);
      FenceLine(kinds, first, line);
      if kind.Fence? {
        TakeLine(kinds, first, line, ranges, start);
        if start == None {
          start := Some(line);
        }
        fence := if fence == Some(kind.marker) then None else if fence == None then Some(kind.marker) else fence;
      } else if kind.Blank? && fence == None {
        DropLine(kinds, first, line, ranges, start);
        if start != None {
          ranges := ranges + [Range(start.value, line - 1)];
          start := None;
        }
      } else {
        TakeLine(kinds, first, line, ranges, start);
        if start == None {
          start := Some(line);
        }
      }
      line := line + 1;
    }
    LastParagraph(kinds, first, last, ranges, start);
    if start != None {
      ranges := ranges + [Range(start.value, last)];
    }
  }

  // ---------------------------------------------------------------- code blocks in sections and paragraphs

  lemma NoFenceOpen(kinds: seq<LineKind>, blocks: seq<Block>, line: nat)
    requires AreBlocks(kinds, blocks) && line <= |kinds|
    ensures FenceAfter(kinds, 1, line) == None <==> forall i :: 0 <= i < |blocks| ==> !(blocks[i].open <= line < blocks[i].close)
  {
    var fence := FenceAfter(kinds, 1, line);
    hide AreBlocks, FenceAfter;
    if fence.Some? { OpenFenceIff(kinds, blocks, line, fence.value); }
    if i :| 0 <= i < |blocks| && blocks[i].open <= line < blocks[i].close {
      OpenFenceIff(kinds, blocks, line, blocks[i].marker);
    }
  }

  lemma FencedWithoutFence(kinds: seq<LineKind>, blocks: seq<Block>, line: nat)
    requires AreBlocks(kinds, blocks) && 1 <= line <= |kinds| && !kinds[line - 1].Fence?
    ensures Fenced(blocks, line) <==> FenceAfter(kinds, 1, line - 1) != None
    ensures FenceAfter(kinds, 1, line) == FenceAfter(kinds, 1, line - 1)
  {
    NoFenceOpen(kinds, blocks, line - 1);
    forall i | 0 <= i < |blocks| ensures InBlock(blocks[i], line) <==> blocks[i].open <= line - 1 < blocks[i].close {
      assert IsBlock(kinds, blocks[i]);
    }
  }

  /** Headings count exactly outside code blocks. */
  lemma HeadingIff(kinds: seq<LineKind>, blocks: seq<Block>, line: nat)
    requires AreBlocks(kinds, blocks) && 1 <= line <= |kinds|
    ensures HeadingAt(kinds, line) <==> kinds[line - 1].Heading? && !Fenced(blocks, line)
  {
    hide AreBlocks, FenceAfter, Fenced;
    if kinds[line - 1].Heading? { FencedWithoutFence(kinds, blocks, line); }
  }

  /** A paragraph drops exactly the blank lines outside code blocks. */
  lemma KeptIff(kinds: seq<LineKind>, blocks: seq<Block>, first: nat, line: nat)
    requires AreBlocks(kinds, blocks) && 1 <= first <= line <= |kinds| && FenceAfter(kinds, 1, first - 1) == None
    ensures Kept(kinds, first, line) <==> !kinds[line - 1].Blank? || Fenced(blocks, line)
  {
    hide AreBlocks, FenceAfter, Fenced;
    if kinds[line - 1].Blank? {
      FencedWithoutFence(kinds, blocks, line);
      FencesAgree(kinds, first, line);
    }
  }

  /** The lines of a code block, with both fences. */
  predicate HoldsBlock(kinds: seq<LineKind>, first: nat, last: nat, b: Block) {
    first <= b.open && Min(b.close, |kinds|) <= last
  }

  lemma BlockIsFenced(blocks: seq<Block>, b: nat, line: nat)
    requires b < |blocks| && InBlock(blocks[b], line)
    ensures Fenced(blocks, line)
  {
  }

  /** A section never ends inside a code block. */
  lemma CodeBlockInOneSection(kinds: seq<LineKind>, blocks: seq<Block>, sections: seq<Section>, b: nat) returns (i: nat)
    requires AreBlocks(kinds, blocks) && AreSections(kinds, sections) && b < |blocks|
    ensures i < |sections| && HoldsBlock(kinds, sections[i].first, sections[i].last, blocks[b])
  {
    assert IsBlock(kinds, blocks[b]);
    hide AreBlocks, FenceAfter, HierarchyAt, HeadingAt, Fenced;
    assert SectionAt(kinds, sections, |sections| - 1);
    i := SectionOf(kinds, sections, |sections| - 1, blocks[b].open);
    assert SectionAt(kinds, sections, i);
    if i + 1 < |sections| {
      assert SectionAt(kinds, sections, i + 1);
      var next := sections[i + 1].first;
      if next <= Min(blocks[b].close, |kinds|) {
        assert InBlock(blocks[b], next);
        BlockIsFenced(blocks, b, next);
        HeadingIff(kinds, blocks, next);
      }
    }
  }

  /** Nor does a paragraph. */
  lemma CodeBlockInOneParagraph(kinds: seq<LineKind>, blocks: seq<Block>, first: nat, last: nat, ranges: seq<Range>, b: nat)
      returns (i: nat)
    requires AreBlocks(kinds, blocks) && 1 <= first <= last <= |kinds| && FenceAfter(kinds, 1, first - 1) == None
    requires AreParagraphs(kinds, first, last, ranges) && b < |blocks| && HoldsBlock(kinds, first, last, blocks[b])
    ensures i < |ranges| && HoldsBlock(kinds, ranges[i].first, ranges[i].last, blocks[b])
  {
    assert IsBlock(kinds, blocks[b]);
    var open := blocks[b].open;
    hide AreBlocks, FenceAfter, Fenced, Kept;
    BlockIsFenced(blocks, b, open);
    KeptIff(kinds, blocks, first, open);
    i :| 0 <= i < |ranges| && In(ranges[i], open);
    var next := ranges[i].last + 1;
    if next <= Min(blocks[b].close, |kinds|) {
      BlockIsFenced(blocks, b, next);
      KeptIff(kinds, blocks, first, next);
    }
  }

  /** Sections begin at the first line and at the headings outside code blocks, and nowhere else. */
  ghost predicate BeginAtHeadings(kinds: seq<LineKind>, blocks: seq<Block>, sections: seq<Section>) {
    && sections != [] && sections[0].first == 1
    && (forall i :: 0 < i < |sections| ==>
          && 1 <= sections[i].first <= |kinds| && kinds[sections[i].first - 1].Heading? && !Fenced(blocks, sections[i].first))
    && (forall line: nat :: 1 <= line <= |kinds| && kinds[line - 1].Heading? && !Fenced(blocks, line) ==> StartsAt(sections, line))
  }

  lemma SectionsBeginAtHeadings(kinds: seq<LineKind>, blocks: seq<Block>, sections: seq<Section>)
    requires AreBlocks(kinds, blocks) && AreSections(kinds, sections)
    ensures BeginAtHeadings(kinds, blocks, sections)
  {
    hide AreBlocks, FenceAfter, HierarchyAt, Fenced, StartsAt;
    assert SectionAt(kinds, sections, 0);
    forall i | 0 < i < |sections|
      ensures 1 <= sections[i].first <= |kinds| && kinds[sections[i].first - 1].Heading? && !Fenced(blocks, sections[i].first)
    {
      assert SectionAt(kinds, sections, i);
      HeadingIff(kinds, blocks, sections[i].first);
    }
    forall line: nat | 1 <= line <= |kinds| && kinds[line - 1].Heading? && !Fenced(blocks, line) ensures StartsAt(sections, line) {
      HeadingIff(kinds, blocks, line);
    }
  }
}
