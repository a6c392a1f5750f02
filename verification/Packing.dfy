/**
 * Line slices and their sizes, and the greedy packing of consecutive ranges of lines under a
 * byte limit (chunking.py), with the proof that it is optimal.
 */
module Packing {
  import opened Common
  import Utf8

  // ---------------------------------------------------------------- slices

  /** `"\n".join(lines)` */
  function Joined(lines: seq<string>): string {
    if lines == [] then ""
    else if |lines| == 1 then lines[0]
    else lines[0] + "\n" + Joined(lines[1..])
  }

  /** `_line_slice`: Python slices clamp their bounds. */
  function LineSlice(lines: seq<string>, first: nat, last: nat): string
    requires 1 <= first
  {
    var lo := Min(first - 1, |lines|);
    var hi := Max(lo, Min(last, |lines|));
    Joined(lines[lo..hi])
  }

  function Bytes(lines: seq<string>, first: nat, last: nat): nat
    requires 1 <= first
  {
    Utf8.Size(LineSlice(lines, first, last))
  }

  lemma {:induction false} JoinedAppend(a: seq<string>, b: seq<string>)
    ensures Joined(a + b) == if a == [] then Joined(b) else if b == [] then Joined(a) else Joined(a) + "\n" + Joined(b)
  {
    if a == [] {
      assert a + b == b;
    } else if b == [] {
      assert a + b == a;
    } else {
      JoinedAppend(a[1..], b);
      assert (a + b)[1..] == a[1..] + b;
      if |a| > 1 { assert Joined(a) + "\n" + Joined(b) == a[0] + "\n" + (Joined(a[1..]) + "\n" + Joined(b)); }
    }
  }

  lemma OneJoined(line: string)
    ensures Joined([line]) == line
  {
  }

  /** A slice is its lines, joined by newlines. */
  lemma SliceGrows(lines: seq<string>, first: nat, last: nat)
    requires 1 <= first <= last <= |lines|
    ensures LineSlice(lines, last, last) == lines[last - 1]
    ensures first < last ==> LineSlice(lines, first, last) == LineSlice(lines, first, last - 1) + "\n" + lines[last - 1]
  {
    hide Joined;
    assert lines[last - 1..last] == [lines[last - 1]];
    assert Joined([lines[last - 1]]) == lines[last - 1] by { OneJoined(lines[last - 1]); }
    if first < last {
      assert lines[first - 1..last] == lines[first - 1..last - 1] + [lines[last - 1]];
      JoinedAppend(lines[first - 1..last - 1], [lines[last - 1]]);
    }
  }

  function Weight(lines: seq<string>): nat {
    if lines == [] then 0 else Utf8.Size(lines[0]) + 1 + Weight(lines[1..])
  }

  lemma NewlineIsOneByte()
    ensures Utf8.Size("\n") == 1
  {
    assert "\n"[1..] == "";
    assert Utf8.Encode("\n") == Utf8.EncodeChar('\n') + Utf8.Encode("");
  }

  lemma {:induction false} JoinedSize(lines: seq<string>)
    ensures Utf8.Size(Joined(lines)) == if lines == [] then 0 else Weight(lines) - 1
  {
    if |lines| <= 1 {
    } else {
      JoinedSize(lines[1..]);
      Utf8.SizeAppend(lines[0] + "\n", Joined(lines[1..]));
      Utf8.SizeAppend(lines[0], "\n");
      NewlineIsOneByte();
    }
  }

  lemma {:induction false} WeightAppend(a: seq<string>, b: seq<string>)
    ensures Weight(a + b) == Weight(a) + Weight(b)
  {
    if a == [] {
      assert a + b == b;
    } else {
      WeightAppend(a[1..], b);
      assert (a + b)[1..] == a[1..] + b;
    }
  }

  lemma BytesMonotone(lines: seq<string>, a: nat, b: nat, c: nat, d: nat)
    requires 1 <= a <= c && d <= b
    ensures Bytes(lines, c, d) <= Bytes(lines, a, b)
  {
    var lo, hi := Min(a - 1, |lines|), Max(Min(a - 1, |lines|), Min(b, |lines|));
    var lo', hi' := Min(c - 1, |lines|), Max(Min(c - 1, |lines|), Min(d, |lines|));
    JoinedSize(lines[lo..hi]);
    JoinedSize(lines[lo'..hi']);
    if lo' < hi' {
      assert lines[lo..hi] == lines[lo..lo'] + lines[lo'..hi'] + lines[hi'..hi];
      WeightAppend(lines[lo..lo'] + lines[lo'..hi'], lines[hi'..hi]);
      WeightAppend(lines[lo..lo'], lines[lo'..hi']);
    }
  }

  // ---------------------------------------------------------------- packings

  datatype Range = Range(first: nat, last: nat)

  predicate Legal(r: Range) {
    1 <= r.first <= r.last
  }

  /** Ranges in order; neighbours may share a line, as two statements on one line do. */
  ghost predicate Ascending(ranges: seq<Range>) {
    && (forall i :: 0 <= i < |ranges| ==> Legal(ranges[i]))
    && (forall i, k :: 0 <= i < k < |ranges| ==> ranges[i].last <= ranges[k].first)
  }

  predicate Fits(lines: seq<string>, limit: nat, r: Range)
    requires 1 <= r.first
  {
    Bytes(lines, r.first, r.last) <= limit
  }

  /** From the first line of range `i` to the last line of range `j - 1`. */
  function Span(ranges: seq<Range>, i: nat, j: nat): Range
    requires i < j <= |ranges|
  {
    Range(ranges[i].first, ranges[j - 1].last)
  }

  /** Group `t` of `output` joins the ranges between two cuts, and fits. */
  ghost predicate GroupAt(lines: seq<string>, limit: nat, ranges: seq<Range>, n: nat, output: seq<Range>, cuts: seq<nat>, t: nat)
    requires Ascending(ranges) && n <= |ranges| && |cuts| == |output| + 1 && t < |output|
  {
    && cuts[t] < cuts[t + 1] <= n
    && output[t] == Span(ranges, cuts[t], cuts[t + 1]) && Fits(lines, limit, output[t])
  }

  /** `output` joins the ranges before `n` into consecutive groups that fit; `cuts` are the group bounds. */
  ghost predicate PackedAt(lines: seq<string>, limit: nat, ranges: seq<Range>, n: nat, output: seq<Range>, cuts: seq<nat>)
    requires Ascending(ranges) && n <= |ranges|
  {
    && |cuts| == |output| + 1 && cuts[0] == 0 && cuts[|output|] == n
    && (forall t :: 0 <= t < |output| ==> GroupAt(lines, limit, ranges, n, output, cuts, t))
  }

  /** Group `t` could not have taken the next range. */
  ghost predicate FullAt(lines: seq<string>, limit: nat, ranges: seq<Range>, cuts: seq<nat>, t: nat)
    requires Ascending(ranges) && t + 1 < |cuts| && cuts[t] <= cuts[t + 1] <= |ranges|
  {
    cuts[t + 1] < |ranges| ==> !Fits(lines, limit, Span(ranges, cuts[t], cuts[t + 1] + 1))
  }

  /** A packing in which every group took all it could. */
  ghost predicate GreedyAt(lines: seq<string>, limit: nat, ranges: seq<Range>, n: nat, output: seq<Range>, cuts: seq<nat>)
    requires Ascending(ranges) && n <= |ranges|
  {
    && PackedAt(lines, limit, ranges, n, output, cuts)
    && (forall t :: 0 <= t < |output| ==>
          GroupAt(lines, limit, ranges, n, output, cuts, t) && FullAt(lines, limit, ranges, cuts, t))
  }

  ghost predicate IsPacking(lines: seq<string>, limit: nat, ranges: seq<Range>, output: seq<Range>)
    requires Ascending(ranges)
  {
    exists cuts :: PackedAt(lines, limit, ranges, |ranges|, output, cuts)
  }

  /** No way to join the ranges into consecutive groups that fit needs fewer groups. */
  ghost predicate IsMinimalPacking(lines: seq<string>, limit: nat, ranges: seq<Range>, output: seq<Range>)
    requires Ascending(ranges)
  {
    && IsPacking(lines, limit, ranges, output)
    && forall other :: IsPacking(lines, limit, ranges, other) ==> |output| <= |other|
  }

  lemma {:induction false} CutsIncrease(lines: seq<string>, limit: nat, ranges: seq<Range>, n: nat, output: seq<Range>,
                                       cuts: seq<nat>, t: nat, u: nat)
    requires Ascending(ranges) && n <= |ranges| && PackedAt(lines, limit, ranges, n, output, cuts) && t <= u <= |output|
    ensures cuts[t] + (u - t) <= cuts[u]
  {
    if t == u {
    } else {
      CutsIncrease(lines, limit, ranges, n, output, cuts, t, u - 1);
      assert GroupAt(lines, limit, ranges, n, output, cuts, u - 1);
    }
  }

  lemma SpanFitsInside(lines: seq<string>, limit: nat, ranges: seq<Range>, i: nat, j: nat, i': nat, j': nat)
    requires Ascending(ranges) && i <= i' < j' <= j <= |ranges| && Fits(lines, limit, Span(ranges, i, j))
    ensures Fits(lines, limit, Span(ranges, i', j'))
  {
    var a, b := Span(ranges, i, j), Span(ranges, i', j');
    assert a.first <= b.first && b.last <= a.last;
    BytesMonotone(lines, a.first, a.last, b.first, b.last);
  }

  /** The greedy cuts stay ahead of those of any other packing. */
  lemma {:induction false} StaysAhead(lines: seq<string>, limit: nat, ranges: seq<Range>, output: seq<Range>, cuts: seq<nat>,
                                     other: seq<Range>, cuts': seq<nat>, t: nat)
    requires Ascending(ranges)
    requires GreedyAt(lines, limit, ranges, |ranges|, output, cuts)
    requires PackedAt(lines, limit, ranges, |ranges|, other, cuts')
    requires t <= |output| && t <= |other|
    ensures cuts'[t] <= cuts[t]
  {
    if t == 0 {
    } else {
      StaysAhead(lines, limit, ranges, output, cuts, other, cuts', t - 1);
      assert GroupAt(lines, limit, ranges, |ranges|, output, cuts, t - 1) && FullAt(lines, limit, ranges, cuts, t - 1);
      assert GroupAt(lines, limit, ranges, |ranges|, other, cuts', t - 1);
      if cuts[t] < cuts'[t] {
        SpanFitsInside(lines, limit, ranges, cuts'[t - 1], cuts'[t], cuts[t - 1], cuts[t] + 1);
      }
    }
  }

  /** Greedy packing is optimal. */
  lemma GreedyIsMinimal(lines: seq<string>, limit: nat, ranges: seq<Range>, output: seq<Range>, cuts: seq<nat>)
    requires Ascending(ranges)
    requires GreedyAt(lines, limit, ranges, |ranges|, output, cuts)
    ensures IsMinimalPacking(lines, limit, ranges, output)
  {
    forall other | IsPacking(lines, limit, ranges, other) ensures |output| <= |other| {
      var cuts' :| PackedAt(lines, limit, ranges, |ranges|, other, cuts');
      if |other| < |output| {
        StaysAhead(lines, limit, ranges, output, cuts, other, cuts', |other|);
        CutsIncrease(lines, limit, ranges, |ranges|, output, cuts, |other|, |output|);
      }
    }
  }

  lemma GreedyStart(lines: seq<string>, limit: nat, ranges: seq<Range>)
    requires Ascending(ranges)
    ensures GreedyAt(lines, limit, ranges, 0, [], [0])
  {
  }

  /** One more group, which the next range no longer fits. */
  lemma CloseGroup(lines: seq<string>, limit: nat, ranges: seq<Range>, n: nat, m: nat, output: seq<Range>, cuts: seq<nat>,
                   group: Range)
    requires Ascending(ranges) && n < m <= |ranges|
    requires GreedyAt(lines, limit, ranges, n, output, cuts)
    requires group == Span(ranges, n, m) && Fits(lines, limit, group)
    requires m < |ranges| ==> !Fits(lines, limit, Span(ranges, n, m + 1))
    ensures GreedyAt(lines, limit, ranges, m, output + [group], cuts + [m])
  {
    var output', cuts' := output + [group], cuts + [m];
    forall t | 0 <= t < |output'|
      ensures GroupAt(lines, limit, ranges, m, output', cuts', t) && FullAt(lines, limit, ranges, cuts', t)
    {
      if t < |output| {
        assert GroupAt(lines, limit, ranges, n, output, cuts, t) && FullAt(lines, limit, ranges, cuts, t);
        assert output'[t] == output[t] && cuts'[t] == cuts[t] && cuts'[t + 1] == cuts[t + 1];
      }
    }
  }

  // ---------------------------------------------------------------- single lines

  /** The lines of a range as ranges of their own. */
  function Units(first: nat, last: nat): (r: seq<Range>)
    requires 1 <= first <= last
    ensures Ascending(r) && |r| == last + 1 - first
  {
    seq(last + 1 - first, i requires 0 <= i < last + 1 - first => Range(first + i, first + i))
  }

  /** Every line of a range fits on its own. */
  ghost predicate LinesFit(lines: seq<string>, limit: nat, first: nat, last: int)
    requires 1 <= first
  {
    forall l :: first <= l <= last ==> Bytes(lines, l, l) <= limit
  }

  lemma UnitSpan(first: nat, last: nat, i: nat, j: nat)
    requires 1 <= first <= last && i < j <= last + 1 - first
    ensures |Units(first, last)| == last + 1 - first && Span(Units(first, last), i, j) == Range(first + i, first + j - 1)
  {
  }

  /** The state of the scan: the lines before `start` are packed, and `start` to `end` is the open group. */
  ghost predicate Scanned(lines: seq<string>, limit: nat, first: nat, last: nat, start: nat, line: nat, output: seq<Range>, cuts: seq<nat>)
    requires 1 <= first <= start <= line <= last + 1 && first <= last
  {
    && start <= last && (line > first ==> start < line && Bytes(lines, start, line - 1) <= limit)
    && LinesFit(lines, limit, first, line - 1)
    && GreedyAt(lines, limit, Units(first, last), start - first, output, cuts)
  }

  lemma ScanStarts(lines: seq<string>, limit: nat, first: nat, last: nat)
    requires 1 <= first <= last
    ensures Scanned(lines, limit, first, last, first, first, [], [0])
  {
    GreedyStart(lines, limit, Units(first, last));
  }

  lemma ScanCloses(lines: seq<string>, limit: nat, first: nat, last: nat, start: nat, line: nat, output: seq<Range>, cuts: seq<nat>)
    requires 1 <= first <= start < line <= last + 1
    requires Scanned(lines, limit, first, last, start, line, output, cuts)
    requires line <= last ==> Bytes(lines, line, line) <= limit < Bytes(lines, start, line)
    ensures GreedyAt(lines, limit, Units(first, last), line - first, output + [Range(start, line - 1)], cuts + [line - first])
    ensures line <= last ==> Scanned(lines, limit, first, last, line, line + 1, output + [Range(start, line - 1)], cuts + [line - first])
  {
    hide GreedyAt, Bytes, Units, Span;
    var units := Units(first, last);
    UnitSpan(first, last, start - first, line - first);
    if line <= last { UnitSpan(first, last, start - first, line + 1 - first); }
    CloseGroup(lines, limit, units, start - first, line - first, output, cuts, Range(start, line - 1));
  }

  /** `_split_lines` */
  method SplitLines(lines: seq<string>, limit: nat, first: nat, last: nat) returns (r: Option<seq<Range>>)
    requires 1 <= first <= last
    ensures r.None? <==> !LinesFit(lines, limit, first, last)
    ensures r.Some? ==> IsMinimalPacking(lines, limit, Units(first, last), r.value)
  {
    hide GreedyAt, IsMinimalPacking, Bytes, Units;
    ScanStarts(lines, limit, first, last);
    var output := [];
    ghost var cuts: seq<nat> := [0];
    var start, end := first, first;
    var line := first;
    while line <= last
      invariant first <= start <= end <= line <= last + 1 && end == Max(first, line - 1)
      invariant Scanned(lines, limit, first, last, start, line, output, cuts)
    {
      if Bytes(lines, line, line) > limit {
        return None;
      }
      if Bytes(lines, start, line) > limit {
        ScanCloses(lines, limit, first, last, start, line, output, cuts);
        output, cuts := output + [Range(start, end)], cuts + [line - first];
        start := line;
      }
      end := line;
      line := line + 1;
    }
    ScanCloses(lines, limit, first, last, start, line, output, cuts);
    output, cuts := output + [Range(start, end)], cuts + [line - first];
    GreedyIsMinimal(lines, limit, Units(first, last), output, cuts);
    return Some(output);
  }

  // ---------------------------------------------------------------- ranges

  /** Ranges in order that share no line. */
  ghost predicate Separated(ranges: seq<Range>) {
    && (forall i :: 0 <= i < |ranges| ==> Legal(ranges[i]))
    && (forall i, k :: 0 <= i < k < |ranges| ==> ranges[i].last < ranges[k].first)
  }

  predicate In(r: Range, line: nat) {
    r.first <= line <= r.last
  }

  ghost predicate Holds(ranges: seq<Range>, line: nat) {
    exists k :: 0 <= k < |ranges| && In(ranges[k], line)
  }

  /** A piece that fits and starts and ends on a line of the ranges. */
  ghost predicate PieceOk(lines: seq<string>, limit: nat, ranges: seq<Range>, r: Range)
    requires Legal(r)
  {
    Fits(lines, limit, r) && Holds(ranges, r.first) && Holds(ranges, r.last)
  }

  ghost predicate Complete(ranges: seq<Range>, output: seq<Range>) {
    forall line: nat :: Holds(ranges, line) ==> Holds(output, line)
  }

  /**
   * The output is in order and disjoint, every piece fits, starts and ends on a line of the
   * ranges, and every line of the ranges is in it (so in exactly one piece).
   */
  ghost predicate Covers(lines: seq<string>, limit: nat, ranges: seq<Range>, output: seq<Range>) {
    && Separated(output) && Complete(ranges, output)
    && (forall k :: 0 <= k < |output| ==> PieceOk(lines, limit, ranges, output[k]))
  }

  lemma HoldsAppend(a: seq<Range>, b: seq<Range>, line: nat)
    ensures Holds(a + b, line) <==> Holds(a, line) || Holds(b, line)
  {
    hide In;
    if Holds(a, line) {
      var k :| 0 <= k < |a| && In(a[k], line);
      assert (a + b)[k] == a[k];
    }
    if Holds(b, line) {
      var k :| 0 <= k < |b| && In(b[k], line);
      assert (a + b)[|a| + k] == b[k];
    }
  }

  lemma HoldsApart(a: seq<Range>, b: seq<Range>, x: nat, y: nat)
    requires Separated(a + b) && Holds(a, x) && Holds(b, y)
    ensures x < y
  {
    var p :| 0 <= p < |a| && In(a[p], x);
    var q :| 0 <= q < |b| && In(b[q], y);
    assert (a + b)[p] == a[p] && (a + b)[|a| + q] == b[q];
  }

  lemma SeparatedAppend(a: seq<Range>, outA: seq<Range>, b: seq<Range>, outB: seq<Range>)
    requires Separated(a + b) && Separated(outA) && Separated(outB)
    requires forall k :: 0 <= k < |outA| ==> Holds(a, outA[k].last)
    requires forall k :: 0 <= k < |outB| ==> Holds(b, outB[k].first)
    ensures Separated(outA + outB)
  {
    var out := outA + outB;
    forall i, k | 0 <= i < k < |out| ensures out[i].last < out[k].first {
      if i < |outA| <= k { HoldsApart(a, b, outA[i].last, outB[k - |outA|].first); }
    }
  }

  lemma CompleteAppend(a: seq<Range>, outA: seq<Range>, b: seq<Range>, outB: seq<Range>)
    requires Complete(a, outA) && Complete(b, outB)
    ensures Complete(a + b, outA + outB)
  {
    forall line: nat | Holds(a + b, line) ensures Holds(outA + outB, line) {
      HoldsAppend(a, b, line);
      HoldsAppend(outA, outB, line);
    }
  }

  lemma PieceOkAppend(lines: seq<string>, limit: nat, a: seq<Range>, b: seq<Range>, r: Range)
    requires Legal(r) && (PieceOk(lines, limit, a, r) || PieceOk(lines, limit, b, r))
    ensures PieceOk(lines, limit, a + b, r)
  {
    HoldsAppend(a, b, r.first);
    HoldsAppend(a, b, r.last);
  }

  /** Two covered stretches, one after the other. */
  lemma CoversAppend(lines: seq<string>, limit: nat, a: seq<Range>, outA: seq<Range>, b: seq<Range>, outB: seq<Range>)
    requires Separated(a + b) && Covers(lines, limit, a, outA) && Covers(lines, limit, b, outB)
    ensures Covers(lines, limit, a + b, outA + outB)
  {
    SeparatedAppend(a, outA, b, outB);
    CompleteAppend(a, outA, b, outB);
    var out := outA + outB;
    hide Complete, Fits, Holds;
    forall k | 0 <= k < |out| ensures PieceOk(lines, limit, a + b, out[k]) {
      PieceOkAppend(lines, limit, a, b, out[k]);
    }
  }

  lemma GroupCovers(lines: seq<string>, limit: nat, ranges: seq<Range>, n: nat, m: nat)
    requires Separated(ranges) && n < m <= |ranges| && Fits(lines, limit, Span(ranges, n, m))
    ensures Covers(lines, limit, ranges[n..m], [Span(ranges, n, m)])
  {
    var group := ranges[n..m];
    var r := Span(ranges, n, m);
    assert group[0] == ranges[n] && group[m - n - 1] == ranges[m - 1];
    assert In(group[0], r.first) && In(group[m - n - 1], r.last);
    forall line: nat | Holds(group, line) ensures Holds([r], line) {
      var k :| 0 <= k < |group| && In(group[k], line);
      assert group[k] == ranges[n + k];
      assert In([r][0], line);
    }
  }

  /** A packing that is not empty is a shorter packing and one more group. */
  lemma PackedPrefix(lines: seq<string>, limit: nat, ranges: seq<Range>, n: nat, output: seq<Range>, cuts: seq<nat>)
    returns (c: nat, before: seq<Range>, shorter: seq<nat>, group: Range)
    requires Ascending(ranges) && n <= |ranges| && PackedAt(lines, limit, ranges, n, output, cuts) && output != []
    ensures c < n && PackedAt(lines, limit, ranges, c, before, shorter) && output == before + [group]
    ensures group == Span(ranges, c, n) && Fits(lines, limit, group) && ranges[..n] == ranges[..c] + ranges[c..n]
  {
    hide Bytes;
    var t := |output| - 1;
    assert GroupAt(lines, limit, ranges, n, output, cuts, t);
    c, before, shorter, group := cuts[t], output[..t], cuts[..t + 1], output[t];
    forall u | 0 <= u < |before| ensures GroupAt(lines, limit, ranges, c, before, shorter, u) {
      assert GroupAt(lines, limit, ranges, n, output, cuts, u);
      CutsIncrease(lines, limit, ranges, n, output, cuts, u + 1, t);
    }
  }

  lemma NothingCovers(lines: seq<string>, limit: nat, ranges: seq<Range>, n: nat, cuts: seq<nat>)
    requires Ascending(ranges) && n <= |ranges| && PackedAt(lines, limit, ranges, n, [], cuts)
    ensures Covers(lines, limit, ranges[..n], [])
  {
  }

  lemma SeparatedSlice(ranges: seq<Range>, n: nat)
    requires Separated(ranges) && n <= |ranges|
    ensures Separated(ranges[..n])
  {
  }

  /** A packing of separated ranges covers them. */
  lemma {:induction false} PackingCovers(lines: seq<string>, limit: nat, ranges: seq<Range>, n: nat, output: seq<Range>, cuts: seq<nat>)
    requires Separated(ranges) && Ascending(ranges) && n <= |ranges|
    requires PackedAt(lines, limit, ranges, n, output, cuts)
    ensures Covers(lines, limit, ranges[..n], output)
    decreases |output|
  {
    hide Separated, Ascending, PackedAt, Covers, Fits;
    if output == [] {
      NothingCovers(lines, limit, ranges, n, cuts);
    } else {
      var c, before, shorter, group := PackedPrefix(lines, limit, ranges, n, output, cuts);
      PackingCovers(lines, limit, ranges, c, before, shorter);
      GroupCovers(lines, limit, ranges, c, n);
      SeparatedSlice(ranges, n);
      CoversAppend(lines, limit, ranges[..c], before, ranges[c..n], [group]);
    }
  }

  lemma UnitsHold(r: Range, line: nat)
    requires Legal(r)
    ensures Holds(Units(r.first, r.last), line) <==> Holds([r], line)
  {
    var units := Units(r.first, r.last);
    if In(r, line) {
      assert In(units[line - r.first], line);
      assert In([r][0], line);
    }
  }

  lemma SameLinesCovered(lines: seq<string>, limit: nat, r: Range, output: seq<Range>)
    requires Legal(r) && Covers(lines, limit, Units(r.first, r.last), output)
    ensures Covers(lines, limit, [r], output)
  {
    hide Units, Holds, Fits;
    forall line: nat ensures Holds(Units(r.first, r.last), line) <==> Holds([r], line) { UnitsHold(r, line); }
  }

  lemma UnitsSeparated(r: Range)
    requires Legal(r)
    ensures Separated(Units(r.first, r.last))
  {
  }

  /** Splitting a range line by line covers it. */
  lemma SplitCovers(lines: seq<string>, limit: nat, r: Range, output: seq<Range>)
    requires Legal(r) && IsPacking(lines, limit, Units(r.first, r.last), output)
    ensures Covers(lines, limit, [r], output)
  {
    hide PackedAt, Units, Separated, Ascending, Covers;
    var units := Units(r.first, r.last);
    var cuts :| PackedAt(lines, limit, units, |units|, output, cuts);
    UnitsSeparated(r);
    PackingCovers(lines, limit, units, |units|, output, cuts);
    assert units[..|units|] == units;
    SameLinesCovered(lines, limit, r, output);
  }

  lemma FittingLines(lines: seq<string>, limit: nat, r: Range)
    requires Legal(r) && Fits(lines, limit, r)
    ensures LinesFit(lines, limit, r.first, r.last)
  {
    forall l | r.first <= l <= r.last ensures Bytes(lines, l, l) <= limit {
      BytesMonotone(lines, r.first, r.last, l, l);
    }
  }

  ghost predicate AllFit(lines: seq<string>, limit: nat, ranges: seq<Range>)
    requires Separated(ranges)
  {
    forall q :: 0 <= q < |ranges| ==> Fits(lines, limit, ranges[q])
  }

  /** Every line of every range fits on its own. */
  ghost predicate AllLinesFit(lines: seq<string>, limit: nat, ranges: seq<Range>)
    requires Separated(ranges)
  {
    forall q :: 0 <= q < |ranges| ==> LinesFit(lines, limit, ranges[q].first, ranges[q].last)
  }

  /** The state of `_pack_ranges`: ranges before `s` are packed, and `s` to `i - 1` are the open group. */
  ghost predicate PackState(lines: seq<string>, limit: nat, ranges: seq<Range>, s: nat, output: seq<Range>, cuts: seq<nat>)
    requires Separated(ranges) && s <= |ranges|
  {
    && Covers(lines, limit, ranges[..s], output)
    && AllLinesFit(lines, limit, ranges[..s])
    && (AllFit(lines, limit, ranges) ==> GreedyAt(lines, limit, ranges, s, output, cuts))
  }

  lemma PackStarts(lines: seq<string>, limit: nat, ranges: seq<Range>)
    requires Separated(ranges)
    ensures PackState(lines, limit, ranges, 0, [], [0])
  {
    GreedyStart(lines, limit, ranges);
  }

  lemma PackGroup(lines: seq<string>, limit: nat, ranges: seq<Range>, s: nat, i: nat, output: seq<Range>, cuts: seq<nat>)
    requires Separated(ranges) && s < i <= |ranges| && PackState(lines, limit, ranges, s, output, cuts)
    requires Fits(lines, limit, Span(ranges, s, i))
    requires i < |ranges| ==> !Fits(lines, limit, Span(ranges, s, i + 1))
    ensures PackState(lines, limit, ranges, i, output + [Span(ranges, s, i)], cuts + [i])
  {
    hide Bytes, Covers, Holds;
    GroupCovers(lines, limit, ranges, s, i);
    assert ranges[..i] == ranges[..s] + ranges[s..i];
    CoversAppend(lines, limit, ranges[..s], output, ranges[s..i], [Span(ranges, s, i)]);
    forall q | 0 <= q < i ensures LinesFit(lines, limit, ranges[q].first, ranges[q].last) {
      if q < s {
        assert ranges[..s][q] == ranges[q];
      } else {
        SpanFitsInside(lines, limit, ranges, s, i, q, q + 1);
        FittingLines(lines, limit, ranges[q]);
      }
    }
    if AllFit(lines, limit, ranges) {
      CloseGroup(lines, limit, ranges, s, i, output, cuts, Span(ranges, s, i));
    }
  }

  lemma PackSplit(lines: seq<string>, limit: nat, ranges: seq<Range>, s: nat, output: seq<Range>, cuts: seq<nat>,
                  pieces: seq<Range>, cuts': seq<nat>)
    requires Separated(ranges) && s < |ranges| && PackState(lines, limit, ranges, s, output, cuts)
    requires !Fits(lines, limit, ranges[s]) && LinesFit(lines, limit, ranges[s].first, ranges[s].last)
    requires IsPacking(lines, limit, Units(ranges[s].first, ranges[s].last), pieces)
    ensures PackState(lines, limit, ranges, s + 1, output + pieces, cuts')
  {
    SplitCovers(lines, limit, ranges[s], pieces);
    assert ranges[..s + 1] == ranges[..s] + [ranges[s]];
    CoversAppend(lines, limit, ranges[..s], output, [ranges[s]], pieces);
    forall q | 0 <= q < s + 1 ensures LinesFit(lines, limit, ranges[q].first, ranges[q].last) {
      if q < s { assert ranges[..s][q] == ranges[q]; }
    }
  }

  lemma OversizedLine(lines: seq<string>, limit: nat, ranges: seq<Range>, s: nat)
    requires Separated(ranges) && s < |ranges| && !LinesFit(lines, limit, ranges[s].first, ranges[s].last)
    ensures !AllLinesFit(lines, limit, ranges) && !AllFit(lines, limit, ranges)
  {
    if Fits(lines, limit, ranges[s]) { FittingLines(lines, limit, ranges[s]); }
  }

  lemma PackEnds(lines: seq<string>, limit: nat, ranges: seq<Range>, output: seq<Range>, cuts: seq<nat>)
    requires Separated(ranges) && PackState(lines, limit, ranges, |ranges|, output, cuts)
    ensures Covers(lines, limit, ranges, output) && AllLinesFit(lines, limit, ranges)
    ensures AllFit(lines, limit, ranges) ==> IsMinimalPacking(lines, limit, ranges, output)
  {
    assert ranges[..|ranges|] == ranges;
    if AllFit(lines, limit, ranges) {
      GreedyIsMinimal(lines, limit, ranges, output, cuts);
    }
  }

  /** `_pack_ranges` */
  method PackRanges(lines: seq<string>, limit: nat, ranges: seq<Range>) returns (r: Option<seq<Range>>)
    requires Separated(ranges)
    ensures r.None? <==> !AllLinesFit(lines, limit, ranges)
    ensures r.Some? ==> Covers(lines, limit, ranges, r.value)
    ensures AllFit(lines, limit, ranges) ==> r.Some? && IsMinimalPacking(lines, limit, ranges, r.value)
  {
    if ranges == [] {
      PackStarts(lines, limit, ranges);
      GreedyStart(lines, limit, ranges);
      GreedyIsMinimal(lines, limit, ranges, [], [0]);
      return Some([]);
    }
    hide PackState, Bytes, Covers, IsMinimalPacking, IsPacking, AllLinesFit, LinesFit, AllFit;
    var output: seq<Range> := [];
    ghost var cuts: seq<nat> := [0];
    var start, end := ranges[0].first, ranges[0].last;
    ghost var s := 0;
    PackStarts(lines, limit, ranges);
    for i := 1 to |ranges| + 1
      invariant s <= i - 1 && (i <= |ranges| ==> s < i)
      invariant i <= |ranges| ==> start == ranges[s].first && end == ranges[i - 1].last
      invariant i <= |ranges| ==> s + 1 == i || Bytes(lines, start, end) <= limit
      invariant i > |ranges| ==> s == |ranges|
      invariant PackState(lines, limit, ranges, s, output, cuts)
    {
      var nextEnd := if i < |ranges| then ranges[i].last else end;
      if i < |ranges| && Bytes(lines, start, nextEnd) <= limit {
        end := ranges[i].last;
        continue;
      }
      if Bytes(lines, start, end) > limit {
        var split := SplitLines(lines, limit, start, end);
        if split.None? {
          OversizedLine(lines, limit, ranges, s);
          return None;
        }
        PackSplit(lines, limit, ranges, s, output, cuts, split.value, cuts + [i]);
        output := output + split.value;
      } else {
        PackGroup(lines, limit, ranges, s, i, output, cuts);
        output := output + [Range(start, end)];
      }
      cuts, s := cuts + [i], i;
      if i < |ranges| {
        start, end := ranges[i].first, ranges[i].last;
      }
    }
    PackEnds(lines, limit, ranges, output, cuts);
    return Some(output);
  }
}
