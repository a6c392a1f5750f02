/** `EvidenceSelector` and `CitationValidator` (rag/evidence.py). */
module EvidenceSelection {
  import opened Common
  import opened Sorting
  import opened Numerals
  import Utf8

  /** `details` stands for the payload fields that selection copies. */
  datatype Hit = Hit(
    score: real, filePath: string, startLine: nat, endLine: nat, hash: string, content: string, details: string)

  datatype Limits = Limits(items: nat, perFile: nat, totalBytes: nat, itemBytes: nat)

  datatype Evidence = Evidence(id: string, hit: Hit)

  /** The sort key: best score first, then place and hash. */
  predicate HitLe(a: Hit, b: Hit) {
    if a.score != b.score then a.score > b.score
    else if a.filePath != b.filePath then StrLe(a.filePath, b.filePath)
    else if a.startLine != b.startLine then a.startLine < b.startLine
    else if a.endLine != b.endLine then a.endLine < b.endLine
    else StrLe(a.hash, b.hash)
  }

  function Bytes(h: Hit): nat {
    Utf8.Size(h.content)
  }

  function InFile(selected: seq<Hit>, path: string): nat {
    if selected == [] then 0
    else InFile(selected[..|selected| - 1], path) + if selected[|selected| - 1].filePath == path then 1 else 0
  }

  function TotalBytes(selected: seq<Hit>): nat {
    if selected == [] then 0 else TotalBytes(selected[..|selected| - 1]) + Bytes(selected[|selected| - 1])
  }

  /** Two hits share a line of a file. */
  predicate Overlap(a: Hit, b: Hit) {
    a.filePath == b.filePath && a.startLine <= b.endLine && b.startLine <= a.endLine
  }

  /** Why a hit is passed over, given what is selected. */
  predicate Blocked(l: Limits, selected: seq<Hit>, h: Hit) {
    || (exists i :: 0 <= i < |selected| && selected[i].hash == h.hash)
    || Bytes(h) > l.itemBytes
    || InFile(selected, h.filePath) >= l.perFile
    || TotalBytes(selected) + Bytes(h) > l.totalBytes
    || (exists i :: 0 <= i < |selected| && Overlap(h, selected[i]))
  }

  predicate Stopped(l: Limits, selected: seq<Hit>) {
    selected != [] && |selected| == l.items
  }

  /** What is selected after the first `n` hits of the sorted sequence. */
  function Picked(l: Limits, ordered: seq<Hit>, n: nat): seq<Hit>
    requires n <= |ordered|
  {
    if n == 0 then []
    else
      var before := Picked(l, ordered, n - 1);
      if Stopped(l, before) || Blocked(l, before, ordered[n - 1]) then before else before + [ordered[n - 1]]
  }

  /** What `select` keeps. */
  function Selection(l: Limits, hits: seq<Hit>): seq<Hit> {
    Picked(l, Sort(HitLe, hits), |hits|)
  }

  function Numbered(selected: seq<Hit>): seq<Evidence> {
    seq(|selected|, i requires 0 <= i < |selected| => Evidence("E" + Decimal(i + 1), selected[i]))
  }

  function CountOf(perFile: map<string, nat>, path: string): nat {
    if path in perFile then perFile[path] else 0
  }

  /** The running values of the loop describe what is selected. */
  ghost predicate Tracks(selected: seq<Hit>, seenHashes: set<string>, perFile: map<string, nat>, totalBytes: nat) {
    && seenHashes == (set h | h in selected :: h.hash)
    && (forall p :: CountOf(perFile, p) == InFile(selected, p))
    && totalBytes == TotalBytes(selected)
  }

  predicate OverlapsSelected(h: Hit, selected: seq<Hit>) {
    exists i :: 0 <= i < |selected| && Overlap(h, selected[i])
  }

  lemma HashSeen(selected: seq<Hit>, hash: string)
    ensures hash in (set h | h in selected :: h.hash) <==> exists i :: 0 <= i < |selected| && selected[i].hash == hash
  {
    if i :| 0 <= i < |selected| && selected[i].hash == hash { assert selected[i] in selected; }
  }

  lemma TrackedBlock(l: Limits, selected: seq<Hit>, seenHashes: set<string>, perFile: map<string, nat>, totalBytes: nat, h: Hit)
    requires Tracks(selected, seenHashes, perFile, totalBytes)
    ensures Blocked(l, selected, h) <==>
              h.hash in seenHashes || Bytes(h) > l.itemBytes || CountOf(perFile, h.filePath) >= l.perFile
              || totalBytes + Bytes(h) > l.totalBytes || OverlapsSelected(h, selected)
  {
    hide Bytes, Overlap;
    HashSeen(selected, h.hash);
  }

  lemma Append(selected: seq<Hit>, h: Hit)
    ensures (set x | x in selected + [h] :: x.hash) == (set x | x in selected :: x.hash) + {h.hash}
    ensures TotalBytes(selected + [h]) == TotalBytes(selected) + Bytes(h)
    ensures forall p :: InFile(selected + [h], p) == InFile(selected, p) + if h.filePath == p then 1 else 0
  {
    hide Bytes;
    var more := selected + [h];
    assert more[..|selected|] == selected && more[|selected|] == h;
    assert h in more;
    forall x | x in selected ensures x in more {}
  }

  lemma TrackOne(selected: seq<Hit>, seenHashes: set<string>, perFile: map<string, nat>, totalBytes: nat, h: Hit)
    requires Tracks(selected, seenHashes, perFile, totalBytes)
    ensures Tracks(selected + [h], seenHashes + {h.hash}, perFile[h.filePath := CountOf(perFile, h.filePath) + 1], totalBytes + Bytes(h))
  {
    hide Bytes, InFile, TotalBytes;
    Append(selected, h);
  }

  lemma NothingTracked()
    ensures Tracks([], {}, map[], 0)
  {
  }

  lemma {:induction false} StaysPicked(l: Limits, ordered: seq<Hit>, m: nat, n: nat)
    requires m <= n <= |ordered| && Stopped(l, Picked(l, ordered, m))
    ensures Picked(l, ordered, n) == Picked(l, ordered, m)
  {
    if m == n {
    } else {
      StaysPicked(l, ordered, m, n - 1);
    }
  }

  lemma HitLeTransitive(a: Hit, b: Hit, c: Hit)
    requires HitLe(a, b) && HitLe(b, c)
    ensures HitLe(a, c)
  {
    hide StrLe;
    if a.score == b.score == c.score {
      if a.filePath == b.filePath == c.filePath {
        if a.startLine == b.startLine == c.startLine && a.endLine == b.endLine == c.endLine {
          StrLeTransitive(a.hash, b.hash, c.hash);
        }
      } else if a.filePath != b.filePath && b.filePath != c.filePath {
        StrLeTransitive(a.filePath, b.filePath, c.filePath);
        if a.filePath == c.filePath { StrLeAntisymmetric(a.filePath, b.filePath); }
      }
    }
  }

  lemma HitLeIsTotalPreorder()
    ensures TotalPreorder(HitLe)
  {
    hide StrLe;
    forall a, b ensures HitLe(a, b) || HitLe(b, a) {
      StrLeTotal(a.filePath, b.filePath);
      StrLeTotal(a.hash, b.hash);
    }
    forall a, b, c | HitLe(a, b) && HitLe(b, c) ensures HitLe(a, c) { HitLeTransitive(a, b, c); }
  }

  // ---------------------------------------------------------------- the ranking

  /** Ranked at least as high: a better score, or the same score and no later place. */
  predicate Ranks(a: Hit, b: Hit) {
    || a.score > b.score
    || (a.score == b.score && a.filePath != b.filePath && StrLe(a.filePath, b.filePath))
    || (a.score == b.score && a.filePath == b.filePath && a.startLine < b.startLine)
    || (a.score == b.score && a.filePath == b.filePath && a.startLine == b.startLine && a.endLine < b.endLine)
    || (a.score == b.score && a.filePath == b.filePath && a.startLine == b.startLine && a.endLine == b.endLine && StrLe(a.hash, b.hash))
  }

  /** The hits of one file, by their positions. */
  function OfFile(selected: seq<Hit>, path: string): set<nat> {
    set i: nat | i < |selected| && selected[i].filePath == path
  }

  function Contents(selected: seq<Hit>): string {
    if selected == [] then "" else Contents(selected[..|selected| - 1]) + selected[|selected| - 1].content
  }

  /** Hits that leave no room for `h`: it repeats or overlaps one of them, or a limit would be exceeded. */
  ghost predicate Excludes(l: Limits, better: seq<Hit>, h: Hit) {
    || (exists x :: x in better && x.hash == h.hash)
    || (exists x :: x in better && x.filePath == h.filePath && x.startLine <= h.endLine && h.startLine <= x.endLine)
    || |OfFile(better, h.filePath)| >= l.perFile
    || Utf8.Size(h.content) > l.itemBytes
    || Utf8.Size(Contents(better) + h.content) > l.totalBytes
  }

  lemma NoContents()
    ensures Utf8.Size(Contents([])) == 0
  {
  }

  lemma {:induction false} InFileCounts(selected: seq<Hit>, path: string)
    ensures InFile(selected, path) == |OfFile(selected, path)|
  {
    if selected == [] {
      assert OfFile(selected, path) == {};
    } else {
      var n := |selected| - 1;
      InFileCounts(selected[..n], path);
      assert OfFile(selected, path) == OfFile(selected[..n], path) + if selected[n].filePath == path then {n} else {};
    }
  }

  lemma {:induction false} TotalBytesOfContents(selected: seq<Hit>)
    ensures TotalBytes(selected) == Utf8.Size(Contents(selected))
  {
    hide Utf8.Size;
    if selected == [] {
      NoContents();
    } else {
      TotalBytesOfContents(selected[..|selected| - 1]);
      Utf8.SizeAppend(Contents(selected[..|selected| - 1]), selected[|selected| - 1].content);
      assert Bytes(selected[|selected| - 1]) == Utf8.Size(selected[|selected| - 1].content);
    }
  }

  lemma ExcludesIff(l: Limits, selected: seq<Hit>, h: Hit)
    ensures Excludes(l, selected, h) <==> Blocked(l, selected, h)
  {
    hide Utf8.Size, InFile, TotalBytes, OfFile, Contents;
    InFileCounts(selected, h.filePath);
    TotalBytesOfContents(selected);
    Utf8.SizeAppend(Contents(selected), h.content);
    if x :| x in selected && x.hash == h.hash { var i :| 0 <= i < |selected| && selected[i] == x; }
    if x :| x in selected && Overlap(h, x) { var i :| 0 <= i < |selected| && selected[i] == x; }
    if i :| 0 <= i < |selected| && selected[i].hash == h.hash { assert selected[i] in selected; }
    if i :| 0 <= i < |selected| && Overlap(h, selected[i]) { assert selected[i] in selected; }
  }

  lemma {:induction false} PickedGrows(l: Limits, ordered: seq<Hit>, m: nat, n: nat)
    requires m <= n <= |ordered|
    ensures Picked(l, ordered, m) <= Picked(l, ordered, n)
  {
    hide Blocked, Stopped;
    if m == n {
    } else {
      PickedGrows(l, ordered, m, n - 1);
    }
  }

  lemma {:induction false} PickedIsRanked(l: Limits, ordered: seq<Hit>, n: nat)
    requires n <= |ordered| && Sorted(HitLe, ordered)
    ensures forall h :: h in Picked(l, ordered, n) ==> h in ordered[..n]
    ensures forall i, k :: 0 <= i < k < |Picked(l, ordered, n)| ==> HitLe(Picked(l, ordered, n)[i], Picked(l, ordered, n)[k])
  {
    hide Blocked, Stopped, HitLe;
    if n == 0 {
    } else {
      PickedIsRanked(l, ordered, n - 1);
      var before := Picked(l, ordered, n - 1);
      forall i | 0 <= i < |before| ensures HitLe(before[i], ordered[n - 1]) {
        assert before[i] in before;
        var m :| 0 <= m < n - 1 && ordered[..n - 1][m] == before[i];
        assert HitLe(ordered[m], ordered[n - 1]);
      }
      assert ordered[..n] == ordered[..n - 1] + [ordered[n - 1]];
    }
  }

  lemma HitLeIsRank(a: Hit, b: Hit)
    ensures HitLe(a, b) <==> Ranks(a, b)
  {
  }

  /** The selected hits are ranked: their scores never increase, and ties stand in order of place and hash. */
  lemma SelectionIsRanked(l: Limits, hits: seq<Hit>, i: nat, k: nat)
    requires i < k < |Selection(l, hits)|
    ensures Ranks(Selection(l, hits)[i], Selection(l, hits)[k])
  {
    hide HitLe, Ranks, Picked;
    HitLeIsTotalPreorder();
    SortIsSorted(HitLe, hits);
    PickedIsRanked(l, Sort(HitLe, hits), |hits|);
    HitLeIsRank(Selection(l, hits)[i], Selection(l, hits)[k]);
  }

  lemma PickedStep(l: Limits, ordered: seq<Hit>, n: nat)
    requires n < |ordered|
    ensures var before := Picked(l, ordered, n);
            Picked(l, ordered, n + 1)
            == if Stopped(l, before) || Excludes(l, before, ordered[n]) then before else before + [ordered[n]]
  {
    hide Blocked, Excludes;
    ExcludesIff(l, Picked(l, ordered, n), ordered[n]);
  }

  lemma SortedBefore(ordered: seq<Hit>, k: nat, x: Hit)
    requires k < |ordered| && Sorted(HitLe, ordered) && x in ordered[..k]
    ensures HitLe(x, ordered[k])
  {
    hide HitLe;
    var m :| 0 <= m < k && ordered[..k][m] == x;
    assert HitLe(ordered[m], ordered[k]);
  }

  lemma PassedOver(l: Limits, ordered: seq<Hit>, k: nat)
    requires k < |ordered| && Sorted(HitLe, ordered) && ordered[k] !in Picked(l, ordered, |ordered|)
    ensures var better := Picked(l, ordered, k);
            && better <= Picked(l, ordered, |ordered|)
            && (Excludes(l, better, ordered[k]) || (better != [] && |better| == l.items))
            && forall x :: x in better ==> HitLe(x, ordered[k])
  {
    hide HitLe, Blocked, Excludes, Sorted;
    var better := Picked(l, ordered, k);
    PickedGrows(l, ordered, k, |ordered|);
    PickedGrows(l, ordered, k + 1, |ordered|);
    PickedIsRanked(l, ordered, k);
    forall x | x in better ensures HitLe(x, ordered[k]) { SortedBefore(ordered, k, x); }
    PickedStep(l, ordered, k);
    assert (better + [ordered[k]])[|better|] == ordered[k];
  }

  /** A hit is left out only because of selected hits that rank at least as high: these alone exclude it or are enough. */
  ghost predicate JustlyLeftOut(l: Limits, selected: seq<Hit>, h: Hit) {
    exists n :: 0 <= n <= |selected|
                && (Excludes(l, selected[..n], h) || (n > 0 && n == l.items))
                && forall i :: 0 <= i < n ==> Ranks(selected[i], h)
  }

  lemma NothingBetterIsLeftOut(l: Limits, hits: seq<Hit>, h: Hit)
    requires h in hits && h !in Selection(l, hits)
    ensures JustlyLeftOut(l, Selection(l, hits), h)
  {
    hide HitLe, Ranks, Excludes;
    var ordered, selected := Sort(HitLe, hits), Selection(l, hits);
    HitLeIsTotalPreorder();
    SortIsSorted(HitLe, hits);
    SameElements(hits, ordered);
    var k :| 0 <= k < |ordered| && ordered[k] == h;
    PassedOver(l, ordered, k);
    var better := Picked(l, ordered, k);
    assert selected[..|better|] == better;
    forall i | 0 <= i < |better| ensures Ranks(selected[i], h) {
      assert better[i] in better;
      HitLeIsRank(better[i], h);
    }
  }

  lemma OneMoreAdmitted(l: Limits, before: seq<Hit>, h: Hit)
    requires forall i :: 0 <= i < |before| ==> !Excludes(l, before[..i], before[i])
    requires !Excludes(l, before, h)
    ensures forall i :: 0 <= i <= |before| ==> !Excludes(l, (before + [h])[..i], (before + [h])[i])
  {
    hide Excludes;
    var picked := before + [h];
    forall i | 0 <= i < |picked| ensures !Excludes(l, picked[..i], picked[i]) {
      if i < |before| {
        assert picked[..i] == before[..i];
      } else {
        assert picked[..i] == before;
      }
    }
  }

  lemma {:induction false} PickedOneByOne(l: Limits, ordered: seq<Hit>, n: nat)
    requires n <= |ordered|
    ensures var picked := Picked(l, ordered, n);
            && (forall i :: 0 <= i < |picked| ==> !Excludes(l, picked[..i], picked[i]))
            && (l.items > 0 ==> |picked| <= l.items)
  {
    hide Blocked, Excludes;
    if n == 0 {
    } else {
      PickedOneByOne(l, ordered, n - 1);
      PickedStep(l, ordered, n - 1);
      var before := Picked(l, ordered, n - 1);
      if !Stopped(l, before) && !Excludes(l, before, ordered[n - 1]) { OneMoreAdmitted(l, before, ordered[n - 1]); }
    }
  }

  lemma SelectionIsFromHits(l: Limits, hits: seq<Hit>)
    ensures forall i :: 0 <= i < |Selection(l, hits)| ==> Selection(l, hits)[i] in hits
  {
    hide HitLe, Picked;
    var ordered := Sort(HitLe, hits);
    HitLeIsTotalPreorder();
    SortIsSorted(HitLe, hits);
    SameElements(hits, ordered);
    PickedIsRanked(l, ordered, |hits|);
    assert ordered[..|hits|] == ordered;
  }

  lemma SelectionLaws(l: Limits, hits: seq<Hit>)
    ensures var selected := Selection(l, hits);
            && (forall i :: 0 <= i < |selected| ==> selected[i] in hits)
            && (forall i :: 0 <= i < |selected| ==> !Excludes(l, selected[..i], selected[i]))
            && (forall i, k :: 0 <= i < k < |selected| ==> Ranks(selected[i], selected[k]))
            && (forall h :: h in hits && h !in selected ==> JustlyLeftOut(l, selected, h))
            && (l.items > 0 ==> |selected| <= l.items)
  {
    hide HitLe, Ranks, Excludes, Picked, JustlyLeftOut, Sort;
    var selected := Selection(l, hits);
    SelectionIsFromHits(l, hits);
    PickedOneByOne(l, Sort(HitLe, hits), |hits|);
    assert selected == Picked(l, Sort(HitLe, hits), |hits|);
    forall i, k | 0 <= i < k < |selected| ensures Ranks(selected[i], selected[k]) { SelectionIsRanked(l, hits, i, k); }
    forall h | h in hits && h !in selected ensures JustlyLeftOut(l, selected, h) { NothingBetterIsLeftOut(l, hits, h); }
  }

  function HitsOf(evidence: seq<Evidence>): (r: seq<Hit>)
    ensures |r| == |evidence|
  {
    seq(|evidence|, i requires 0 <= i < |evidence| => evidence[i].hit)
  }

  lemma NumberedHits(selected: seq<Hit>)
    ensures HitsOf(Numbered(selected)) == selected
    ensures forall i :: 0 <= i < |selected| ==> Numbered(selected)[i].id == "E" + Decimal(i + 1)
  {
  }

  /** `select`, with the running counters of the loop. */
  method Select(l: Limits, hits: seq<Hit>) returns (evidence: seq<Evidence>)
    ensures evidence == Numbered(Selection(l, hits))
    ensures var selected := HitsOf(evidence);
            && (forall i :: 0 <= i < |selected| ==> selected[i] in hits && evidence[i].id == "E" + Decimal(i + 1))
            && (forall i :: 0 <= i < |selected| ==> !Excludes(l, selected[..i], selected[i]))
            && (forall i, k :: 0 <= i < k < |selected| ==> Ranks(selected[i], selected[k]))
            && (forall h :: h in hits && h !in selected ==> JustlyLeftOut(l, selected, h))
            && (l.items > 0 ==> |selected| <= l.items)
  {
    hide Sort, HitLe, Bytes, Tracks, Blocked, OverlapsSelected, Numbered;
    var ordered := Sort(HitLe, hits);
    var selected: seq<Hit> := [];
    var seenHashes: set<string> := {};
    var perFile: map<string, nat> := map[];
    var totalBytes: nat := 0;
    NothingTracked();
    for n := 0 to |ordered|
      invariant selected == Picked(l, ordered, n) && !Stopped(l, selected)
      invariant Tracks(selected, seenHashes, perFile, totalBytes)
    {
      var hit := ordered[n];
      var itemBytes := Bytes(hit);
      TrackedBlock(l, selected, seenHashes, perFile, totalBytes, hit);
      if hit.hash in seenHashes || itemBytes > l.itemBytes || CountOf(perFile, hit.filePath) >= l.perFile
         || totalBytes + itemBytes > l.totalBytes || OverlapsSelected(hit, selected) {
        continue;
      }
      TrackOne(selected, seenHashes, perFile, totalBytes, hit);
      selected := selected + [hit];
      seenHashes := seenHashes + {hit.hash};
      perFile := perFile[hit.filePath := CountOf(perFile, hit.filePath) + 1];
      totalBytes := totalBytes + itemBytes;
      if |selected| == l.items {
        StaysPicked(l, ordered, n + 1, |ordered|);
        break;
      }
    }
    evidence := Numbered(selected);
    SelectionLaws(l, hits);
    NumberedHits(selected);
  }

  // ---------------------------------------------------------------- properties

  /** Distinct hashes, no overlap, and all four limits. */
  ghost predicate Sound(l: Limits, selected: seq<Hit>) {
    && (forall i, k :: 0 <= i < k < |selected| ==> selected[i].hash != selected[k].hash && !Overlap(selected[i], selected[k]))
    && (forall i :: 0 <= i < |selected| ==> Bytes(selected[i]) <= l.itemBytes)
    && (forall p :: InFile(selected, p) <= l.perFile)
    && TotalBytes(selected) <= l.totalBytes
    && (l.items >= 1 ==> |selected| <= l.items)
  }

  lemma NothingIsSound(l: Limits)
    ensures Sound(l, [])
  {
  }

  lemma OverlapSymmetric(a: Hit, b: Hit)
    ensures Overlap(a, b) <==> Overlap(b, a)
  {
  }

  lemma SoundAppend(l: Limits, selected: seq<Hit>, h: Hit)
    requires Sound(l, selected) && !Stopped(l, selected) && !Blocked(l, selected, h)
    ensures Sound(l, selected + [h])
  {
    hide Bytes, Overlap, InFile, TotalBytes;
    Append(selected, h);
    forall i | 0 <= i < |selected| ensures selected[i].hash != h.hash && !Overlap(selected[i], h) {
      OverlapSymmetric(selected[i], h);
    }
  }

  lemma {:induction false} PickedIsSound(l: Limits, ordered: seq<Hit>, n: nat)
    requires n <= |ordered|
    ensures Sound(l, Picked(l, ordered, n))
    ensures forall h :: h in Picked(l, ordered, n) ==> h in ordered[..n]
  {
    hide Sound, Blocked, Stopped;
    if n == 0 {
      NothingIsSound(l);
    } else {
      PickedIsSound(l, ordered, n - 1);
      var before, h := Picked(l, ordered, n - 1), ordered[n - 1];
      assert ordered[..n] == ordered[..n - 1] + [h];
      if !Stopped(l, before) && !Blocked(l, before, h) { SoundAppend(l, before, h); }
    }
  }

  /** More selected hits block at least as much. */
  lemma BlockedStays(l: Limits, selected: seq<Hit>, more: Hit, h: Hit)
    requires Blocked(l, selected, h)
    ensures Blocked(l, selected + [more], h)
  {
    hide Bytes, Overlap;
    Append(selected, more);
    var all := selected + [more];
    if i :| 0 <= i < |selected| && selected[i].hash == h.hash { assert all[i].hash == h.hash; }
    if i :| 0 <= i < |selected| && Overlap(h, selected[i]) { assert Overlap(h, all[i]); }
  }

  lemma SelectedIsBlocked(l: Limits, selected: seq<Hit>, h: Hit)
    ensures Blocked(l, selected + [h], h)
  {
    assert (selected + [h])[|selected|].hash == h.hash;
  }

  /** Every hit that was seen is blocked by the selection, unless the loop stopped at the item limit. */
  lemma {:induction false} PickedIsMaximal(l: Limits, ordered: seq<Hit>, n: nat, k: nat)
    requires k < n <= |ordered|
    ensures Stopped(l, Picked(l, ordered, n)) || Blocked(l, Picked(l, ordered, n), ordered[k])
  {
    hide Blocked;
    var before, h := Picked(l, ordered, n - 1), ordered[n - 1];
    if k < n - 1 { PickedIsMaximal(l, ordered, n - 1, k); }
    if !Stopped(l, before) && !Blocked(l, before, h) {
      if k < n - 1 { BlockedStays(l, before, h, ordered[k]); } else { SelectedIsBlocked(l, before, h); }
    }
  }

  /** The selection is sound, comes from the hits, and below the item limit no hit could be added to it. */
  lemma SelectionIsSoundAndMaximal(l: Limits, hits: seq<Hit>)
    ensures var selected := Selection(l, hits);
            && Sound(l, selected) && (forall h :: h in selected ==> h in hits)
            && (!Stopped(l, selected) ==> forall h :: h in hits ==> Blocked(l, selected, h))
  {
    hide Sound, Blocked, Sort, HitLe;
    var ordered := Sort(HitLe, hits);
    PickedIsSound(l, ordered, |hits|);
    SameElements(hits, ordered);
    assert ordered[..|hits|] == ordered;
    forall h | h in hits ensures Stopped(l, Selection(l, hits)) || Blocked(l, Selection(l, hits), h) {
      var k :| 0 <= k < |ordered| && ordered[k] == h;
      PickedIsMaximal(l, ordered, |hits|, k);
    }
  }

  function SortKey(h: Hit): (real, string, nat, nat, string) {
    (h.score, h.filePath, h.startLine, h.endLine, h.hash)
  }

  /** Equal sort keys mean equal payloads. */
  ghost predicate KeysIdentify(hits: seq<Hit>) {
    forall a, b :: a in hits && b in hits && SortKey(a) == SortKey(b) ==> a == b
  }

  lemma EquallyPlaced(a: Hit, b: Hit)
    requires HitLe(a, b) && HitLe(b, a)
    ensures SortKey(a) == SortKey(b)
  {
    hide StrLe;
    if a.filePath != b.filePath && a.score == b.score { StrLeAntisymmetric(a.filePath, b.filePath); }
    else if a.hash != b.hash && a.score == b.score && a.startLine == b.startLine && a.endLine == b.endLine {
      StrLeAntisymmetric(a.hash, b.hash);
    }
  }

  /** The order in which the hits arrive does not matter. */
  lemma SelectionIgnoresOrder(l: Limits, xs: seq<Hit>, ys: seq<Hit>)
    requires multiset(xs) == multiset(ys) && KeysIdentify(xs)
    ensures Selection(l, xs) == Selection(l, ys)
  {
    hide Picked;
    HitLeIsTotalPreorder();
    SameElements(xs, ys);
    forall a, b | a in xs && b in xs && HitLe(a, b) && HitLe(b, a) ensures a == b { EquallyPlaced(a, b); }
    hide HitLe;
    SortIgnoresOrder(HitLe, xs, ys);
  }

  lemma EvidenceIdsDistinct(selected: seq<Hit>, i: nat, k: nat)
    requires i < k < |selected|
    ensures Numbered(selected)[i].id != Numbered(selected)[k].id
  {
    if Numbered(selected)[i].id == Numbered(selected)[k].id {
      assert ("E" + Decimal(i + 1))[1..] == Decimal(i + 1) && ("E" + Decimal(k + 1))[1..] == Decimal(k + 1);
      DecimalInjective(i + 1, k + 1);
    }
  }

  // ---------------------------------------------------------------- citations

  datatype Answerability = Answered | PartiallyAnswered | Insufficient | Unsupported

  /** `inlineIds` are the ids that the regular expression finds in the answer. */
  datatype Draft = Draft(answerability: Answerability, evidenceIds: seq<string>, inlineIds: set<string>)

  datatype Citation = Citation(id: string, hit: Hit, commit: string)

  /** `dict.fromkeys`: first occurrences, in order. */
  function Unique(ids: seq<string>): (r: seq<string>)
    ensures forall x :: x in r <==> x in ids
    ensures forall i, k :: 0 <= i < k < |r| ==> r[i] != r[k]
  {
    if ids == [] then []
    else
      var before := Unique(ids[..|ids| - 1]);
      assert ids == ids[..|ids| - 1] + [ids[|ids| - 1]];
      if ids[|ids| - 1] in before then before else before + [ids[|ids| - 1]]
  }

  /** The ids stand in the order of their first occurrences. */
  lemma {:induction false} UniqueInOrder(ids: seq<string>, i: nat, k: nat)
    requires i < k < |Unique(ids)|
    ensures exists p :: 0 <= p < |ids| && ids[p] == Unique(ids)[i] && Unique(ids)[k] !in ids[..p + 1]
  {
    var n := |ids| - 1;
    var before := Unique(ids[..n]);
    if k < |before| {
      UniqueInOrder(ids[..n], i, k);
      var p :| 0 <= p < n && ids[..n][p] == before[i] && before[k] !in ids[..n][..p + 1];
      assert ids[..n][..p + 1] == ids[..p + 1];
    } else {
      assert before[i] in ids[..n];
      var p :| 0 <= p < n && ids[..n][p] == before[i];
      assert ids[n] !in ids[..n];
      assert forall x :: x in ids[..p + 1] ==> x in ids[..n];
    }
  }

  function ById(evidence: seq<Evidence>): map<string, Evidence> {
    if evidence == [] then map[] else ById(evidence[..|evidence| - 1])[evidence[|evidence| - 1].id := evidence[|evidence| - 1]]
  }

  lemma {:induction false} ByIdFinds(evidence: seq<Evidence>, id: string)
    ensures id in ById(evidence) <==> exists e :: e in evidence && e.id == id
    ensures id in ById(evidence) ==> ById(evidence)[id] in evidence && ById(evidence)[id].id == id
  {
    if evidence == [] {
    } else {
      var before, last := evidence[..|evidence| - 1], evidence[|evidence| - 1];
      ByIdFinds(before, id);
      assert evidence == before + [last];
      if last.id == id { assert last in evidence; }
    }
  }

  /** The draft cites server evidence only, inline as in its list, and something if it answers. */
  ghost predicate Supported(draft: Draft, evidence: seq<Evidence>) {
    && draft.answerability == Answered && draft.evidenceIds != []
    && (forall id :: id in draft.evidenceIds ==> exists e :: e in evidence && e.id == id)
    && (forall id :: id in draft.inlineIds ==> id in draft.evidenceIds)
  }

  /** `validate`: an answer stands exactly when it is supported, and every citation is server evidence. */
  method Validate(draft: Draft, evidence: seq<Evidence>, commit: string) returns (state: Answerability, citations: seq<Citation>)
    ensures state == Answered <==>
              && draft.answerability == Answered && draft.evidenceIds != [] && (forall id :: id in draft.inlineIds ==> id in draft.evidenceIds)
              && forall id :: id in draft.evidenceIds ==> exists e :: e in evidence && e.id == id
    ensures state == Answered <==> Supported(draft, evidence)
    ensures state != Answered ==> state == Insufficient || state == draft.answerability
    ensures state != Answered ==> citations == []
    ensures state == Answered ==>
              && |citations| == |Unique(draft.evidenceIds)| > 0
              && forall k :: 0 <= k < |citations| ==>
                   && citations[k].id == Unique(draft.evidenceIds)[k] && citations[k].commit == commit
                   && Evidence(citations[k].id, citations[k].hit) in evidence
  {
    var byId := ById(evidence);
    var uniqueIds := Unique(draft.evidenceIds);
    forall id ensures (id in byId <==> exists e :: e in evidence && e.id == id)
                   && (id in byId ==> byId[id] in evidence && byId[id].id == id) { ByIdFinds(evidence, id); }
    hide ById, Unique;
    assert draft.evidenceIds != [] ==> draft.evidenceIds[0] in uniqueIds;
    assert uniqueIds != [] ==> uniqueIds[0] in draft.evidenceIds;
    citations := [];
    if (exists id :: id in uniqueIds && id !in byId) || !(draft.inlineIds <= byId.Keys)
       || (exists id :: id in draft.inlineIds && id !in uniqueIds) {
      return Insufficient, [];
    }
    if draft.answerability == Answered && uniqueIds == [] {
      return Insufficient, [];
    }
    if draft.answerability != Answered {
      return draft.answerability, [];
    }
    for k := 0 to |uniqueIds|
      invariant |citations| == k
      invariant forall i :: 0 <= i < k ==>
                  && citations[i].id == uniqueIds[i] && citations[i].commit == commit
                  && Evidence(citations[i].id, citations[i].hit) in evidence
    {
      var item := byId[uniqueIds[k]];
      assert Evidence(item.id, item.hit) == item;
      citations := citations + [Citation(item.id, item.hit, commit)];
    }
    return Answered, citations;
  }
}
