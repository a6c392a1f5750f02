/**
 * The bounded agent loop (agent/service.py) with the evidence ids of its tools (agent/tools.py).
 * What the provider decides, what a tool returns and what authorization finds come from outside.
 */
module AgentRun {
  import opened Common
  import opened Numerals
  import E = EvidenceSelection

  // ---------------------------------------------------------------- evidence ids

  /** Code hit, commit, pull request and caller of a step; positions count from one. */
  datatype Tag =
    | Code(step: nat, position: nat)
    | Commit(step: nat, position: nat)
    | Pull(step: nat, position: nat, pull: nat)
    | Caller(step: nat, position: nat)

  function Letter(t: Tag): char {
    match t
    case Code(_, _) => 'C'
    case Commit(_, _) => 'H'
    case Pull(_, _, _) => 'P'
    case Caller(_, _) => 'G'
  }

  function PullSuffix(t: Tag): string {
    if t.Pull? then "-" + Decimal(t.pull) else ""
  }

  /** The id string, such as `T2-P1-3`. */
  function Render(t: Tag): string {
    "T" + (Decimal(t.step) + ("-" + ([Letter(t)] + (Decimal(t.position) + PullSuffix(t)))))
  }

  lemma Regrouped(s: string, mark: string, p: string, suffix: string)
    ensures "T" + (s + (mark + (p + suffix))) == "T" + s + mark + p + suffix
  {
  }

  lemma Marked(c: char, rest: string)
    ensures "-" + ([c] + rest) == ['-', c] + rest
  {
  }

  lemma RenderedId(t: Tag)
    ensures Render(t) == "T" + Decimal(t.step) + ['-', Letter(t)] + Decimal(t.position) + PullSuffix(t)
    ensures !t.Pull? ==> Render(t) == "T" + Decimal(t.step) + ['-', Letter(t)] + Decimal(t.position)
  {
    Marked(Letter(t), Decimal(t.position) + PullSuffix(t));
    Regrouped(Decimal(t.step), ['-', Letter(t)], Decimal(t.position), PullSuffix(t));
  }

  /** The ids as they are written in an answer. */
  lemma RenderedIds(step: nat, position: nat, pull: nat)
    ensures Render(Code(step, position)) == "T" + Decimal(step) + "-C" + Decimal(position)
    ensures Render(Commit(step, position)) == "T" + Decimal(step) + "-H" + Decimal(position)
    ensures Render(Caller(step, position)) == "T" + Decimal(step) + "-G" + Decimal(position)
    ensures Render(Pull(step, position, pull)) == "T" + Decimal(step) + "-P" + Decimal(position) + ("-" + Decimal(pull))
  {
    RenderedId(Code(step, position));
    RenderedId(Commit(step, position));
    RenderedId(Caller(step, position));
    RenderedId(Pull(step, position, pull));
    hide Decimal, Render;
  }

  lemma SuffixesEqual(s: Tag, t: Tag)
    requires PullSuffix(s) == PullSuffix(t)
    ensures s.Pull? == t.Pull? && (s.Pull? ==> s.pull == t.pull)
  {
    if s.Pull? && t.Pull? {
      assert PullSuffix(s)[1..] == Decimal(s.pull) && PullSuffix(t)[1..] == Decimal(t.pull);
      DecimalInjective(s.pull, t.pull);
    }
  }

  /** Different tags have different ids. */
  lemma RenderInjective(s: Tag, t: Tag)
    requires Render(s) == Render(t)
    ensures s == t
  {
    var a, b := [Letter(s)] + (Decimal(s.position) + PullSuffix(s)), [Letter(t)] + (Decimal(t.position) + PullSuffix(t));
    assert Render(s)[1..] == Decimal(s.step) + ("-" + a);
    assert Render(t)[1..] == Decimal(t.step) + ("-" + b);
    NumeralsEndTogether(s.step, "-" + a, t.step, "-" + b);
    assert ("-" + a)[1..] == a && ("-" + b)[1..] == b;
    assert a[0] == Letter(s) && b[0] == Letter(t);
    assert a[1..] == Decimal(s.position) + PullSuffix(s) && b[1..] == Decimal(t.position) + PullSuffix(t);
    NumeralsEndTogether(s.position, PullSuffix(s), t.position, PullSuffix(t));
    SuffixesEqual(s, t);
  }

  datatype Item = Item(tag: Tag, body: string)

  ghost predicate DistinctTags(items: seq<Item>) {
    forall i, k :: 0 <= i < k < |items| ==> items[i].tag != items[k].tag
  }

  ghost predicate FromStep(items: seq<Item>, step: nat) {
    forall i :: 0 <= i < |items| ==> items[i].tag.step == step
  }

  /** A commit with its pull requests; one without any date gives no evidence. */
  datatype Bundle = Bundle(dated: bool, body: string, pulls: seq<string>)

  /** The search and caller tools. */
  function Positioned(caller: bool, step: nat, bodies: seq<string>): (items: seq<Item>)
    ensures DistinctTags(items) && FromStep(items, step)
  {
    seq(|bodies|, i requires 0 <= i < |bodies| => Item(if caller then Caller(step, i + 1) else Code(step, i + 1), bodies[i]))
  }

  /** A commit and its pull requests, at a position. */
  function BundleItems(step: nat, position: nat, b: Bundle): seq<Item> {
    if !b.dated then []
    else [Item(Commit(step, position), b.body)]
         + seq(|b.pulls|, p requires 0 <= p < |b.pulls| => Item(Pull(step, position, p + 1), b.pulls[p]))
  }

  function HistoryOf(step: nat, ranked: seq<Bundle>): seq<Item> {
    if ranked == [] then []
    else HistoryOf(step, ranked[..|ranked| - 1]) + BundleItems(step, |ranked|, ranked[|ranked| - 1])
  }

  /** The item is that of the commit of bundle `i`, or of one of its pull requests. */
  predicate OfBundle(x: Item, step: nat, ranked: seq<Bundle>, i: nat)
    requires i < |ranked|
  {
    && ranked[i].dated
    && (x == Item(Commit(step, i + 1), ranked[i].body)
        || exists p :: 0 <= p < |ranked[i].pulls| && x == Item(Pull(step, i + 1, p + 1), ranked[i].pulls[p]))
  }

  /** A commit stands before its pull requests, these in order, and all before the next commit. */
  predicate Precedes(a: Tag, b: Tag) {
    || a.position < b.position
    || (a.position == b.position && b.Pull? && (a.Commit? || (a.Pull? && a.pull < b.pull)))
  }

  /** All dated commits with all their pull requests, each text with the id of its place, in order, and nothing else. */
  ghost predicate IsHistory(step: nat, ranked: seq<Bundle>, items: seq<Item>) {
    && (forall x :: x in items <==> exists i: nat :: i < |ranked| && OfBundle(x, step, ranked, i))
    && (forall i, k :: 0 <= i < k < |items| ==> Precedes(items[i].tag, items[k].tag))
  }

  lemma BundleIsHistory(step: nat, ranked: seq<Bundle>, i: nat)
    requires i < |ranked|
    ensures var items := BundleItems(step, i + 1, ranked[i]);
            && (forall x :: x in items <==> OfBundle(x, step, ranked, i))
            && (forall i, k :: 0 <= i < k < |items| ==> Precedes(items[i].tag, items[k].tag))
  {
    var b := ranked[i];
    if b.dated {
      var pulls := seq(|b.pulls|, p requires 0 <= p < |b.pulls| => Item(Pull(step, i + 1, p + 1), b.pulls[p]));
      forall x ensures x in BundleItems(step, i + 1, b) <==> OfBundle(x, step, ranked, i) {
        if p :| 0 <= p < |b.pulls| && x == Item(Pull(step, i + 1, p + 1), b.pulls[p]) { assert pulls[p] == x; }
        if x in pulls {
          var p :| 0 <= p < |pulls| && pulls[p] == x;
          assert x == Item(Pull(step, i + 1, p + 1), b.pulls[p]);
        }
      }
    }
  }

  lemma EarlierBundles(x: Item, step: nat, ranked: seq<Bundle>)
    requires ranked != []
    ensures var before := ranked[..|ranked| - 1];
            (exists i: nat :: i < |ranked| && OfBundle(x, step, ranked, i))
            <==> (exists i: nat :: i < |before| && OfBundle(x, step, before, i)) || OfBundle(x, step, ranked, |ranked| - 1)
  {
    var before := ranked[..|ranked| - 1];
    forall i: nat | i < |before| ensures OfBundle(x, step, before, i) <==> OfBundle(x, step, ranked, i) {}
    if i: nat :| i < |before| && OfBundle(x, step, before, i) { assert OfBundle(x, step, ranked, i); }
  }

  lemma BundleTags(step: nat, position: nat, b: Bundle)
    ensures var items := BundleItems(step, position, b);
            DistinctTags(items) && FromStep(items, step)
            && forall k :: 0 <= k < |items| ==> items[k].tag.position == position && (items[k].tag.Commit? || items[k].tag.Pull?)
  {
  }

  /** Items of the history tool, at positions up to `last`. */
  ghost predicate FromHistory(items: seq<Item>, step: nat, last: nat) {
    && DistinctTags(items) && FromStep(items, step)
    && forall k :: 0 <= k < |items| ==> items[k].tag.position <= last && (items[k].tag.Commit? || items[k].tag.Pull?)
  }

  lemma {:induction false} HistoryTags(step: nat, ranked: seq<Bundle>)
    ensures FromHistory(HistoryOf(step, ranked), step, |ranked|)
  {
    if ranked == [] {
    } else {
      var before, more := HistoryOf(step, ranked[..|ranked| - 1]), BundleItems(step, |ranked|, ranked[|ranked| - 1]);
      HistoryTags(step, ranked[..|ranked| - 1]);
      BundleTags(step, |ranked|, ranked[|ranked| - 1]);
      hide BundleItems;
      var all := before + more;
      forall i, k | 0 <= i < k < |all| ensures all[i].tag != all[k].tag {
        if i < |before| <= k { assert all[i].tag.position < |ranked| == all[k].tag.position; }
      }
    }
  }

  lemma {:induction false} HistoryOfIsHistory(step: nat, ranked: seq<Bundle>)
    ensures IsHistory(step, ranked, HistoryOf(step, ranked))
  {
    hide OfBundle, BundleItems;
    if ranked == [] {
    } else {
      var last := |ranked| - 1;
      var earlier, more := HistoryOf(step, ranked[..last]), BundleItems(step, |ranked|, ranked[last]);
      HistoryOfIsHistory(step, ranked[..last]);
      HistoryTags(step, ranked[..last]);
      BundleTags(step, |ranked|, ranked[last]);
      BundleIsHistory(step, ranked, last);
      forall x: Item ensures x in earlier + more <==> exists i: nat :: i < |ranked| && OfBundle(x, step, ranked, i) {
        EarlierBundles(x, step, ranked);
      }
      var all := earlier + more;
      forall i, k | 0 <= i < k < |all| ensures Precedes(all[i].tag, all[k].tag) {
        if i < |earlier| <= k { assert earlier[i].tag.position <= last && more[k - |earlier|].tag.position == |ranked|; }
      }
    }
  }

  lemma NextBundle(step: nat, ranked: seq<Bundle>, i: nat)
    requires i < |ranked|
    ensures HistoryOf(step, ranked[..i + 1]) == HistoryOf(step, ranked[..i]) + BundleItems(step, i + 1, ranked[i])
  {
    assert ranked[..i + 1][..i] == ranked[..i];
  }

  lemma NoBundles(step: nat)
    ensures HistoryOf(step, []) == []
  {
  }

  lemma UndatedBundle(step: nat, position: nat, b: Bundle)
    requires !b.dated
    ensures BundleItems(step, position, b) == []
  {
  }

  lemma BundleIs(step: nat, position: nat, b: Bundle, pulls: seq<Item>)
    requires b.dated && |pulls| == |b.pulls| && forall q :: 0 <= q < |pulls| ==> pulls[q] == Item(Pull(step, position, q + 1), b.pulls[q])
    ensures BundleItems(step, position, b) == [Item(Commit(step, position), b.body)] + pulls
  {
    assert pulls == seq(|b.pulls|, p requires 0 <= p < |b.pulls| => Item(Pull(step, position, p + 1), b.pulls[p]));
  }

  /** The loops of the history tool over ranked bundles. */
  method HistoryItems(step: nat, ranked: seq<Bundle>) returns (items: seq<Item>)
    ensures items == HistoryOf(step, ranked)
    ensures IsHistory(step, ranked, items) && DistinctTags(items) && FromStep(items, step)
  {
    hide HistoryOf, BundleItems, DistinctTags, FromStep, IsHistory;
    items := [];
    NoBundles(step);
    assert ranked[..0] == [];
    for i := 0 to |ranked|
      invariant items == HistoryOf(step, ranked[..i])
    {
      NextBundle(step, ranked, i);
      if !ranked[i].dated {
        UndatedBundle(step, i + 1, ranked[i]);
        continue;
      }
      ghost var before := items;
      items := items + [Item(Commit(step, i + 1), ranked[i].body)];
      ghost var pulls: seq<Item> := [];
      for p := 0 to |ranked[i].pulls|
        invariant items == before + ([Item(Commit(step, i + 1), ranked[i].body)] + pulls)
        invariant |pulls| == p && forall q :: 0 <= q < p ==> pulls[q] == Item(Pull(step, i + 1, q + 1), ranked[i].pulls[q])
      {
        items := items + [Item(Pull(step, i + 1, p + 1), ranked[i].pulls[p])];
        pulls := pulls + [Item(Pull(step, i + 1, p + 1), ranked[i].pulls[p])];
      }
      BundleIs(step, i + 1, ranked[i], pulls);
    }
    assert ranked[..|ranked|] == ranked;
    HistoryTags(step, ranked);
    HistoryOfIsHistory(step, ranked);
  }

  // ---------------------------------------------------------------- the run

  type Index = string

  datatype Answerability = Answered | PartiallyAnswered | Insufficient | UnsupportedQuestion | Unavailable

  datatype Settings = Settings(maxToolCalls: nat, maxResultBytes: nat, maxTotalBytes: nat)

  datatype Decision =
    | Final(answer: string, state: Answerability, cited: seq<string>)
    | Call(tool: string, fingerprint: string)
    | NoTool

  datatype ToolOutcome =
    | Found(bodies: seq<string>)
    | Callers(callers: seq<string>)
    | History(bundles: seq<Bundle>)
    | TimedOut
    | ToolError(code: string)

  /** What the outside does in one iteration; `None` for an index is authorization that no longer matches. */
  datatype Turn = Turn(indexBefore: Option<Index>, decision: Option<Decision>, indexForTool: Option<Index>, outcome: ToolOutcome)

  /** The turns by number of steps taken, the final check, and the size of serialized evidence. */
  datatype Outside = Outside(turn: nat -> Turn, finalIndex: Option<Index>, size: seq<Item> -> nat, unavailable: string -> bool)

  datatype Status = Completed | Failed | StepTimedOut | Rejected

  datatype TraceStep = TraceStep(step: nat, fingerprint: string, status: Status, resultCount: nat)

  datatype RunResult = RunResult(state: Answerability, items: seq<Item>, cited: seq<string>, trace: seq<TraceStep>)

  function NoAnswer(state: Answerability, trace: seq<TraceStep>): RunResult {
    RunResult(state, [], [], trace)
  }

  function SumOfSizes(size: seq<Item> -> nat, batches: seq<seq<Item>>): nat {
    if batches == [] then 0 else SumOfSizes(size, batches[..|batches| - 1]) + size(batches[|batches| - 1])
  }

  function Merged(batches: seq<seq<Item>>): seq<Item> {
    if batches == [] then [] else Merged(batches[..|batches| - 1]) + batches[|batches| - 1]
  }

  /** The trace: numbered from one, each call once, and a repeated call only as the last step. */
  ghost predicate TraceOk(s: Settings, trace: seq<TraceStep>) {
    && |trace| <= s.maxToolCalls
    && (forall i :: 0 <= i < |trace| ==> trace[i].step == i + 1)
    && (forall i :: 0 <= i < |trace| && trace[i].status.Rejected? ==> i == |trace| - 1)
    && (forall i, k :: 0 <= i < k < |trace| && !trace[k].status.Rejected? ==> trace[i].fingerprint != trace[k].fingerprint)
  }

  /** The evidence: the batches in order, ids distinct, within both size limits. */
  ghost predicate EvidenceOk(s: Settings, size: seq<Item> -> nat, batches: seq<seq<Item>>, items: seq<Item>, total: nat, steps: nat) {
    && items == Merged(batches) && total == SumOfSizes(size, batches) <= s.maxTotalBytes
    && (forall b :: b in batches ==> size(b) <= s.maxResultBytes)
    && DistinctTags(items)
    && (forall i :: 0 <= i < |items| ==> items[i].tag.step <= steps)
  }

  lemma EvidenceGrows(s: Settings, size: seq<Item> -> nat, batches: seq<seq<Item>>, items: seq<Item>, total: nat, steps: nat,
                      batch: seq<Item>)
    requires EvidenceOk(s, size, batches, items, total, steps) && DistinctTags(batch) && FromStep(batch, steps + 1)
    requires size(batch) <= s.maxResultBytes && total + size(batch) <= s.maxTotalBytes
    ensures EvidenceOk(s, size, batches + [batch], items + batch, total + size(batch), steps + 1)
  {
    assert (batches + [batch])[..|batches|] == batches;
    var all := items + batch;
    forall i, k | 0 <= i < k < |all| ensures all[i].tag != all[k].tag {
      if i < |items| <= k { assert all[i].tag.step <= steps && all[k].tag.step == steps + 1; }
    }
  }

  function Ids(items: seq<Item>): seq<string> {
    seq(|items|, i requires 0 <= i < |items| => Render(items[i].tag))
  }

  lemma IdsDistinct(items: seq<Item>, i: nat, k: nat)
    requires DistinctTags(items) && i < k < |items|
    ensures Ids(items)[i] != Ids(items)[k]
  {
    if Ids(items)[i] == Ids(items)[k] { RenderInjective(items[i].tag, items[k].tag); }
  }

  /** The evidence ids that are cited, in the order of the evidence. */
  function CitedInOrder(items: seq<Item>, cited: seq<string>): (r: seq<string>)
    ensures forall x :: x in r <==> x in cited && x in Ids(items)
  {
    if items == [] then []
    else
      var before := items[..|items| - 1];
      assert Ids(items) == Ids(before) + [Render(items[|items| - 1].tag)];
      CitedInOrder(before, cited) + if Render(items[|items| - 1].tag) in cited then [Render(items[|items| - 1].tag)] else []
  }

  /** `part` stands at these places of `whole`. */
  ghost predicate StandsAt(part: seq<string>, whole: seq<string>, places: seq<nat>) {
    && |places| == |part|
    && (forall i :: 0 <= i < |part| ==> places[i] < |whole| && part[i] == whole[places[i]])
    && (forall i, k :: 0 <= i < k < |part| ==> places[i] < places[k])
  }

  /** A part of the evidence ids, in their order. */
  ghost predicate OrderedPart(part: seq<string>, whole: seq<string>) {
    exists places: seq<nat> :: StandsAt(part, whole, places)
  }

  lemma StandsAtAppend(part: seq<string>, whole: seq<string>, places: seq<nat>, id: string, taken: bool)
    requires StandsAt(part, whole, places)
    ensures StandsAt(part + if taken then [id] else [], whole + [id], if taken then places + [|whole|] else places)
  {
  }

  lemma NothingStands()
    ensures StandsAt([], [], [])
  {
  }

  lemma {:induction false} CitedIsOrderedPart(items: seq<Item>, cited: seq<string>) returns (places: seq<nat>)
    ensures StandsAt(CitedInOrder(items, cited), Ids(items), places)
  {
    hide Render, StandsAt;
    if items == [] {
      places := [];
      NothingStands();
      assert Ids(items) == [];
    } else {
      var before, id := items[..|items| - 1], Render(items[|items| - 1].tag);
      var earlier := CitedIsOrderedPart(before, cited);
      assert Ids(items) == Ids(before) + [id];
      StandsAtAppend(CitedInOrder(before, cited), Ids(before), earlier, id, id in cited);
      places := if id in cited then earlier + [|items| - 1] else earlier;
    }
  }

  /** So no id is cited twice. */
  lemma CitedIdsDistinct(items: seq<Item>, part: seq<string>, i: nat, k: nat)
    requires DistinctTags(items) && OrderedPart(part, Ids(items)) && i < k < |part|
    ensures part[i] != part[k]
  {
    hide Render;
    var places: seq<nat> :| StandsAt(part, Ids(items), places);
    IdsDistinct(items, places[i], places[k]);
  }

  /** An answer cites a non-empty part of the evidence, in order, from the index that the run began with. */
  ghost predicate ResultOk(result: RunResult, index: Index, finalIndex: Option<Index>) {
    result.state.Answered? || result.state.PartiallyAnswered? ==>
      result.cited != [] && OrderedPart(result.cited, Ids(result.items)) && finalIndex == Some(index)
  }

  /** `_finalize` */
  method Finalize(index: Index, finalIndex: Option<Index>, state: Answerability, cited: seq<string>, items: seq<Item>,
                  trace: seq<TraceStep>)
    returns (result: RunResult)
    ensures ResultOk(result, index, finalIndex) && result.trace == trace && (result.items == items || result.items == [])
    ensures result.state.Answered? || result.state.PartiallyAnswered? <==>
              && (state.Answered? || state.PartiallyAnswered?) && finalIndex == Some(index)
              && cited != [] && forall id :: id in cited ==> id in Ids(items)
    ensures forall id :: id in result.cited ==> id in cited
    ensures result.state.Answered? || result.state.PartiallyAnswered? ==>
              result.items == items && result.state == state && forall id :: id in cited ==> id in result.cited
  {
    hide Render;
    if finalIndex != Some(index) {
      return NoAnswer(Unavailable, trace);
    }
    var uniqueIds := E.Unique(cited);
    assert cited != [] ==> cited[0] in uniqueIds;
    assert uniqueIds != [] ==> uniqueIds[0] in cited;
    var ordered: seq<string> := [];
    if state.Answered? || state.PartiallyAnswered? {
      if uniqueIds == [] || exists id :: id in uniqueIds && id !in Ids(items) {
        return NoAnswer(Insufficient, trace);
      }
      ordered := CitedInOrder(items, uniqueIds);
      assert uniqueIds[0] in ordered;
      ghost var places := CitedIsOrderedPart(items, uniqueIds);
      assert OrderedPart(ordered, Ids(items));
    }
    return RunResult(state, items, ordered, trace);
  }

  /** What a call brings; `None` for a failure. */
  function ItemsOf(step: nat, outcome: ToolOutcome): Option<seq<Item>> {
    match outcome
    case Found(bodies) => Some(Positioned(false, step, bodies))
    case Callers(callers) => Some(Positioned(true, step, callers))
    case History(bundles) => Some(HistoryOf(step, bundles))
    case TimedOut => None
    case ToolError(_) => None
  }

  /** The outcome of a call as evidence. */
  method ToolItems(step: nat, outcome: ToolOutcome) returns (items: Option<seq<Item>>)
    ensures items == ItemsOf(step, outcome)
    ensures match outcome
            case Found(bodies) =>
              && items.Some? && |items.value| == |bodies|
              && forall i :: 0 <= i < |bodies| ==> items.value[i] == Item(Code(step, i + 1), bodies[i])
            case Callers(callers) =>
              && items.Some? && |items.value| == |callers|
              && forall i :: 0 <= i < |callers| ==> items.value[i] == Item(Caller(step, i + 1), callers[i])
            case History(bundles) => items.Some? && IsHistory(step, bundles, items.value)
            case TimedOut => items == None
            case ToolError(_) => items == None
    ensures items.Some? ==> DistinctTags(items.value) && FromStep(items.value, step)
  {
    match outcome
    case Found(bodies) => return Some(Positioned(false, step, bodies));
    case Callers(callers) => return Some(Positioned(true, step, callers));
    case History(bundles) =>
      var found := HistoryItems(step, bundles);
      return Some(found);
    case TimedOut => return None;
    case ToolError(_) => return None;
  }

  /** `_validate_evidence_size`; the empty code is success. */
  function SizeError(s: Settings, size: nat, total: nat): (code: string)
    ensures code == "" <==> size <= s.maxResultBytes && total + size <= s.maxTotalBytes
  {
    if size > s.maxResultBytes then "tool_result_too_large"
    else if total + size > s.maxTotalBytes then "total_evidence_too_large"
    else ""
  }

  lemma NoAnswerOk(result: RunResult, index: Index, finalIndex: Option<Index>)
    requires !result.state.Answered? && !result.state.PartiallyAnswered?
    ensures ResultOk(result, index, finalIndex)
  {
  }

  lemma NoEvidence(s: Settings, size: seq<Item> -> nat)
    ensures EvidenceOk(s, size, [], [], 0, 0)
  {
  }

  lemma LaterStep(s: Settings, size: seq<Item> -> nat, batches: seq<seq<Item>>, items: seq<Item>, total: nat, steps: nat)
    requires EvidenceOk(s, size, batches, items, total, steps)
    ensures EvidenceOk(s, size, batches, items, total, steps + 1)
  {
  }

  lemma KnownFingerprint(trace: seq<TraceStep>, fingerprint: string)
    ensures fingerprint !in (set t | t in trace :: t.fingerprint) <==> forall i :: 0 <= i < |trace| ==> trace[i].fingerprint != fingerprint
  {
    if i :| 0 <= i < |trace| && trace[i].fingerprint == fingerprint { assert trace[i] in trace; }
  }

  lemma StepAppended(trace: seq<TraceStep>, t: TraceStep)
    ensures (set x | x in trace + [t] :: x.fingerprint) == (set x | x in trace :: x.fingerprint) + {t.fingerprint}
  {
    assert t in trace + [t];
    forall x | x in trace ensures x in trace + [t] {}
  }

  lemma TraceAppended(s: Settings, trace: seq<TraceStep>, t: TraceStep)
    requires TraceOk(s, trace) && |trace| < s.maxToolCalls && t.step == |trace| + 1
    requires forall i :: 0 <= i < |trace| ==> !trace[i].status.Rejected?
    requires t.status.Rejected? || forall i :: 0 <= i < |trace| ==> trace[i].fingerprint != t.fingerprint
    ensures TraceOk(s, trace + [t])
  {
  }

  lemma NoTrace(s: Settings)
    ensures TraceOk(s, [])
  {
  }

  /** The steps that brought evidence. */
  function CompletedSteps(trace: seq<TraceStep>): (r: seq<TraceStep>)
    ensures forall t :: t in r <==> t in trace && t.status.Completed?
  {
    if trace == [] then []
    else CompletedSteps(trace[..|trace| - 1]) + if trace[|trace| - 1].status.Completed? then [trace[|trace| - 1]] else []
  }

  /** One batch for each completed call: its results, as many as the trace says, with the ids of its step. */
  ghost predicate ResultsOf(trace: seq<TraceStep>, batches: seq<seq<Item>>) {
    && |batches| == |CompletedSteps(trace)|
    && forall k :: 0 <= k < |batches| ==>
         |batches[k]| == CompletedSteps(trace)[k].resultCount && FromStep(batches[k], CompletedSteps(trace)[k].step)
  }

  lemma NoResults()
    ensures ResultsOf([], [])
  {
  }

  lemma CompletedAppended(trace: seq<TraceStep>, t: TraceStep)
    ensures CompletedSteps(trace + [t]) == CompletedSteps(trace) + if t.status.Completed? then [t] else []
  {
    assert (trace + [t])[..|trace|] == trace;
  }

  lemma FailureAppended(trace: seq<TraceStep>, batches: seq<seq<Item>>, t: TraceStep)
    requires ResultsOf(trace, batches) && !t.status.Completed?
    ensures ResultsOf(trace + [t], batches)
  {
    CompletedAppended(trace, t);
  }

  lemma ResultAppended(trace: seq<TraceStep>, batches: seq<seq<Item>>, t: TraceStep, batch: seq<Item>)
    requires ResultsOf(trace, batches) && t.status.Completed? && t.resultCount == |batch| && FromStep(batch, t.step)
    ensures ResultsOf(trace + [t], batches + [batch])
  {
    CompletedAppended(trace, t);
  }

  // ---------------------------------------------------------------- what the turns make of a run

  predicate Answers(state: Answerability) {
    state.Answered? || state.PartiallyAnswered?
  }

  predicate Repeats(trace: seq<TraceStep>, fingerprint: string) {
    exists i :: 0 <= i < |trace| && trace[i].fingerprint == fingerprint
  }

  /** With evidence at hand, authorization is looked up again before the provider is asked. */
  predicate Proceeds(index: Index, turn: Turn, items: seq<Item>) {
    items != [] ==> turn.indexBefore == Some(index)
  }

  predicate WithinBudgets(s: Settings, size: seq<Item> -> nat, before: seq<seq<Item>>, batch: seq<Item>) {
    size(batch) <= s.maxResultBytes && SumOfSizes(size, before) + size(batch) <= s.maxTotalBytes
  }

  /** The turn after the steps `earlier`, with the evidence `before`, is a call that makes this step and brings this batch. */
  ghost predicate Makes(s: Settings, index: Index, outside: Outside, earlier: seq<TraceStep>, before: seq<seq<Item>>, t: TraceStep,
                        batch: Option<seq<Item>>) {
    var turn := outside.turn(|earlier|);
    && (forall i :: 0 <= i < |earlier| ==> !earlier[i].status.Rejected?)
    && Proceeds(index, turn, Merged(before))
    && turn.decision.Some? && turn.decision.value.Call? && t.fingerprint == turn.decision.value.fingerprint
    && t.step == |earlier| + 1
    && if Repeats(earlier, t.fingerprint) then t.status.Rejected? && t.resultCount == 0 && batch == None
       else
         && turn.indexForTool == Some(index)
         && var found := ItemsOf(t.step, turn.outcome);
            if found.Some? && WithinBudgets(s, outside.size, before, found.value)
            then t.status.Completed? && t.resultCount == |found.value| && batch == found
            else t.status == (if turn.outcome.TimedOut? then StepTimedOut else Failed) && t.resultCount == 0 && batch == None
  }

  /** The steps are those that the turns make, one after the other, and the batches those that they bring. */
  ghost predicate Replays(s: Settings, index: Index, outside: Outside, trace: seq<TraceStep>, batches: seq<seq<Item>>)
    decreases |trace|
  {
    if trace == [] then batches == []
    else
      var earlier, t := trace[..|trace| - 1], trace[|trace| - 1];
      if t.status.Completed? then
        && batches != [] && Replays(s, index, outside, earlier, batches[..|batches| - 1])
        && Makes(s, index, outside, earlier, batches[..|batches| - 1], t, Some(batches[|batches| - 1]))
      else Replays(s, index, outside, earlier, batches) && Makes(s, index, outside, earlier, batches, t, None)
  }

  /** The batches that the first `n` steps brought. */
  function Brought(trace: seq<TraceStep>, n: nat): nat
    requires n <= |trace|
  {
    if n == 0 then 0 else Brought(trace, n - 1) + if trace[n - 1].status.Completed? then 1 else 0
  }

  /**
   * A step after the steps `earlier`, with the evidence `before`: the call of its turn, which is asked
   * for on the first index as long as there is evidence; rejected if it was made before; otherwise
   * authorized on the first index, and completed exactly if the tool found something within both budgets.
   */
  ghost predicate IsLawfulStep(s: Settings, index: Index, outside: Outside, earlier: seq<TraceStep>, before: seq<seq<Item>>,
                               t: TraceStep, batch: Option<seq<Item>>) {
    var turn := outside.turn(|earlier|);
    var found := ItemsOf(|earlier| + 1, turn.outcome);
    && t.step == |earlier| + 1 && (forall i :: 0 <= i < |earlier| ==> !earlier[i].status.Rejected?)
    && (Merged(before) != [] ==> turn.indexBefore == Some(index))
    && turn.decision.Some? && turn.decision.value.Call? && t.fingerprint == turn.decision.value.fingerprint
    && (t.status.Rejected? <==> exists i :: 0 <= i < |earlier| && earlier[i].fingerprint == t.fingerprint)
    && (!t.status.Rejected? ==> turn.indexForTool == Some(index))
    && (t.status.Completed? ==>
          && found.Some? && batch == found && t.resultCount == |found.value| && outside.size(found.value) <= s.maxResultBytes
          && SumOfSizes(outside.size, before) + outside.size(found.value) <= s.maxTotalBytes)
    && (t.status.StepTimedOut? ==> turn.outcome.TimedOut?)
    && (t.status.Failed? ==>
          || turn.outcome.ToolError?
          || (found.Some? && (outside.size(found.value) > s.maxResultBytes
                              || SumOfSizes(outside.size, before) + outside.size(found.value) > s.maxTotalBytes)))
  }

  /** Step `n` of a trace, with the evidence that was there before it. */
  ghost predicate IsLawful(s: Settings, index: Index, outside: Outside, trace: seq<TraceStep>, batches: seq<seq<Item>>, n: nat)
    requires n < |trace|
  {
    var m := Brought(trace, n);
    && m <= |batches| && (trace[n].status.Completed? ==> m < |batches|)
    && IsLawfulStep(s, index, outside, trace[..n], batches[..m], trace[n], if trace[n].status.Completed? then Some(batches[m]) else None)
  }

  lemma FailuresBringNothing(step: nat, outcome: ToolOutcome)
    ensures ItemsOf(step, outcome).None? <==> outcome.TimedOut? || outcome.ToolError?
  {
  }

  lemma MadeIsLawful(s: Settings, index: Index, outside: Outside, earlier: seq<TraceStep>, before: seq<seq<Item>>, t: TraceStep,
                     batch: Option<seq<Item>>)
    requires Makes(s, index, outside, earlier, before, t, batch)
    ensures IsLawfulStep(s, index, outside, earlier, before, t, batch)
  {
    FailuresBringNothing(|earlier| + 1, outside.turn(|earlier|).outcome);
    hide ItemsOf, Merged, SumOfSizes;
  }

  lemma {:induction false} BroughtByPrefix(trace: seq<TraceStep>, n: nat, m: nat)
    requires n <= m <= |trace|
    ensures Brought(trace[..m], n) == Brought(trace, n)
  {
    if n == 0 {
    } else {
      BroughtByPrefix(trace, n - 1, m);
    }
  }

  lemma {:induction false} AllBrought(s: Settings, index: Index, outside: Outside, trace: seq<TraceStep>, batches: seq<seq<Item>>)
    requires Replays(s, index, outside, trace, batches)
    ensures Brought(trace, |trace|) == |batches|
    decreases |trace|
  {
    if trace == [] {
    } else {
      var n := |trace| - 1;
      AllBrought(s, index, outside, trace[..n], if trace[n].status.Completed? then batches[..|batches| - 1] else batches);
      BroughtByPrefix(trace, n, n);
    }
  }

  lemma LastIsLawful(s: Settings, index: Index, outside: Outside, trace: seq<TraceStep>, batches: seq<seq<Item>>)
    requires trace != [] && Replays(s, index, outside, trace, batches)
    ensures IsLawful(s, index, outside, trace, batches, |trace| - 1)
  {
    hide IsLawfulStep, Makes;
    var n := |trace| - 1;
    var before := if trace[n].status.Completed? then batches[..|batches| - 1] else batches;
    AllBrought(s, index, outside, trace[..n], before);
    BroughtByPrefix(trace, n, n);
    assert batches[..|before|] == before;
    MadeIsLawful(s, index, outside, trace[..n], before, trace[n], if trace[n].status.Completed? then Some(batches[|batches| - 1]) else None);
  }

  lemma LawfulInPrefix(s: Settings, index: Index, outside: Outside, trace: seq<TraceStep>, batches: seq<seq<Item>>, more: seq<seq<Item>>,
                       n: nat)
    requires n < |trace| - 1 && IsLawful(s, index, outside, trace[..|trace| - 1], batches, n) && batches <= more
    ensures IsLawful(s, index, outside, trace, more, n)
  {
    BroughtByPrefix(trace, n, |trace| - 1);
    hide Brought, IsLawfulStep;
    var m := Brought(trace, n);
    assert batches[..m] == more[..m];
    assert trace[..|trace| - 1][..n] == trace[..n];
  }

  /** Every step of a run is what its turn makes of it. */
  lemma {:induction false} StepsAreLawful(s: Settings, index: Index, outside: Outside, trace: seq<TraceStep>, batches: seq<seq<Item>>, n: nat)
    requires n < |trace| && Replays(s, index, outside, trace, batches)
    ensures IsLawful(s, index, outside, trace, batches, n)
    decreases |trace|
  {
    hide IsLawful, Makes;
    if n == |trace| - 1 {
      LastIsLawful(s, index, outside, trace, batches);
    } else {
      var before := if trace[|trace| - 1].status.Completed? then batches[..|batches| - 1] else batches;
      StepsAreLawful(s, index, outside, trace[..|trace| - 1], before, n);
      LawfulInPrefix(s, index, outside, trace, before, batches, n);
    }
  }

  lemma AllLawful(s: Settings, index: Index, outside: Outside, trace: seq<TraceStep>, batches: seq<seq<Item>>)
    requires Replays(s, index, outside, trace, batches)
    ensures forall n :: 0 <= n < |trace| ==> IsLawful(s, index, outside, trace, batches, n)
  {
    hide IsLawful, Replays;
    forall n | 0 <= n < |trace| ensures IsLawful(s, index, outside, trace, batches, n) {
      StepsAreLawful(s, index, outside, trace, batches, n);
    }
  }

  lemma StepMade(s: Settings, index: Index, outside: Outside, trace: seq<TraceStep>, batches: seq<seq<Item>>, t: TraceStep,
                 batch: Option<seq<Item>>)
    requires Replays(s, index, outside, trace, batches) && Makes(s, index, outside, trace, batches, t, batch)
    requires t.status.Completed? <==> batch.Some?
    ensures Replays(s, index, outside, trace + [t], if batch.Some? then batches + [batch.value] else batches)
  {
    hide Makes;
    assert (trace + [t])[..|trace|] == trace;
    if batch.Some? { assert (batches + [batch.value])[..|batches|] == batches; }
  }

  /** The turn after the last step is read. */
  ghost predicate TurnIsRead(s: Settings, index: Index, outside: Outside, trace: seq<TraceStep>, batches: seq<seq<Item>>) {
    && |trace| < s.maxToolCalls && (forall i :: 0 <= i < |trace| ==> !trace[i].status.Rejected?)
    && Proceeds(index, outside.turn(|trace|), Merged(batches))
  }

  lemma RejectedIsMade(s: Settings, index: Index, outside: Outside, trace: seq<TraceStep>, batches: seq<seq<Item>>, fingerprint: string)
    requires Replays(s, index, outside, trace, batches) && TurnIsRead(s, index, outside, trace, batches)
    requires outside.turn(|trace|).decision.Some? && outside.turn(|trace|).decision.value.Call?
    requires fingerprint == outside.turn(|trace|).decision.value.fingerprint && Repeats(trace, fingerprint)
    ensures Replays(s, index, outside, trace + [TraceStep(|trace| + 1, fingerprint, Rejected, 0)], batches)
  {
    hide Replays, Repeats;
    StepMade(s, index, outside, trace, batches, TraceStep(|trace| + 1, fingerprint, Rejected, 0), None);
  }

  lemma OutcomeIsMade(s: Settings, index: Index, outside: Outside, trace: seq<TraceStep>, batches: seq<seq<Item>>, fingerprint: string)
    requires Replays(s, index, outside, trace, batches) && TurnIsRead(s, index, outside, trace, batches)
    requires outside.turn(|trace|).decision.Some? && outside.turn(|trace|).decision.value.Call?
    requires fingerprint == outside.turn(|trace|).decision.value.fingerprint && !Repeats(trace, fingerprint)
    requires outside.turn(|trace|).indexForTool == Some(index)
    ensures var outcome := outside.turn(|trace|).outcome;
            var found := ItemsOf(|trace| + 1, outcome);
            if found.Some? && WithinBudgets(s, outside.size, batches, found.value)
            then Replays(s, index, outside, trace + [TraceStep(|trace| + 1, fingerprint, Completed, |found.value|)], batches + [found.value])
            else Replays(s, index, outside,
                         trace + [TraceStep(|trace| + 1, fingerprint, if outcome.TimedOut? then StepTimedOut else Failed, 0)], batches)
  {
    hide Replays, Repeats, ItemsOf, WithinBudgets;
    var outcome := outside.turn(|trace|).outcome;
    var found := ItemsOf(|trace| + 1, outcome);
    if found.Some? && WithinBudgets(s, outside.size, batches, found.value) {
      StepMade(s, index, outside, trace, batches, TraceStep(|trace| + 1, fingerprint, Completed, |found.value|), found);
    } else {
      StepMade(s, index, outside, trace, batches,
               TraceStep(|trace| + 1, fingerprint, if outcome.TimedOut? then StepTimedOut else Failed, 0), None);
    }
  }

  lemma NothingMade(s: Settings, index: Index, outside: Outside)
    ensures Replays(s, index, outside, [], [])
  {
  }

  /** It is a final decision that may be answered: it cites evidence, and nothing else, of the index that is still active. */
  ghost predicate IsAnswer(index: Index, finalIndex: Option<Index>, decision: Option<Decision>, items: seq<Item>) {
    && decision.Some? && decision.value.Final? && (decision.value.state.Answered? || decision.value.state.PartiallyAnswered?)
    && finalIndex == Some(index) && decision.value.cited != [] && forall id :: id in decision.value.cited ==> id in Ids(items)
  }

  /** The turn takes no step: no call, or one that is neither repeated nor authorized. */
  ghost predicate TakesNoStep(index: Index, trace: seq<TraceStep>, turn: Turn) {
    || turn.decision == None || !turn.decision.value.Call?
    || (!Repeats(trace, turn.decision.value.fingerprint) && turn.indexForTool != Some(index))
  }

  /** The run goes on as long as it may. */
  ghost predicate IsOver(s: Settings, index: Index, outside: Outside, trace: seq<TraceStep>, batches: seq<seq<Item>>) {
    TurnIsRead(s, index, outside, trace, batches) ==> TakesNoStep(index, trace, outside.turn(|trace|))
  }

  lemma EvidenceIsMerged(s: Settings, size: seq<Item> -> nat, batches: seq<seq<Item>>, items: seq<Item>, total: nat, steps: nat)
    requires EvidenceOk(s, size, batches, items, total, steps)
    ensures items == Merged(batches) && total == SumOfSizes(size, batches)
  {
  }

  /**
   * `_run` from the loop on. `batches` are the results of the completed calls: the trace and the
   * batches are what the turns make of them, as far as the run may go, and the turn that ends it
   * decides whether there is an answer.
   */
  method Run(s: Settings, index: Index, outside: Outside) returns (result: RunResult, ghost batches: seq<seq<Item>>)
    ensures Replays(s, index, outside, result.trace, batches) && IsOver(s, index, outside, result.trace, batches)
    ensures Answers(result.state) <==>
              && TurnIsRead(s, index, outside, result.trace, batches)
              && IsAnswer(index, outside.finalIndex, outside.turn(|result.trace|).decision, Merged(batches))
    ensures result.state.Answered? || result.state.PartiallyAnswered? <==> Answers(result.state)
    ensures result.state.Answered? || result.state.PartiallyAnswered? ==>
              && result.items == Merged(batches)
              && outside.turn(|result.trace|).decision.Some? && outside.turn(|result.trace|).decision.value.Final?
              && var final := outside.turn(|result.trace|).decision.value;
                 result.state == final.state && forall id :: id in result.cited <==> id in final.cited
    ensures forall n :: 0 <= n < |result.trace| ==> IsLawful(s, index, outside, result.trace, batches, n)
    ensures TraceOk(s, result.trace) && ResultsOf(result.trace, batches)
    ensures EvidenceOk(s, outside.size, batches, Merged(batches), SumOfSizes(outside.size, batches), |result.trace|)
    ensures ResultOk(result, index, outside.finalIndex) && (result.items == [] || result.items == Merged(batches))
  {
    hide EvidenceOk, ResultOk, ResultsOf, CompletedSteps, SumOfSizes, Merged, Render, DistinctTags, FromStep, Ids, OrderedPart, Replays,
         ItemsOf, TraceOk, Makes, IsLawful;
    var items: seq<Item> := [];
    var trace: seq<TraceStep> := [];
    var failureCodes: seq<string> := [];
    var fingerprints: set<string> := {};
    var total: nat := 0;
    batches := [];
    NoEvidence(s, outside.size);
    NoResults();
    NothingMade(s, index, outside);
    NoTrace(s);
    EvidenceIsMerged(s, outside.size, batches, items, total, 0);
    while |trace| < s.maxToolCalls
      invariant TraceOk(s, trace) && forall i :: 0 <= i < |trace| ==> !trace[i].status.Rejected?
      invariant fingerprints == set t | t in trace :: t.fingerprint
      invariant EvidenceOk(s, outside.size, batches, items, total, |trace|) && ResultsOf(trace, batches)
      invariant items == Merged(batches) && total == SumOfSizes(outside.size, batches)
      invariant Replays(s, index, outside, trace, batches)
      decreases s.maxToolCalls - |trace|
    {
      var turn := outside.turn(|trace|);
      if items != [] && turn.indexBefore != Some(index) {
        result := NoAnswer(Unavailable, trace);
        NoAnswerOk(result, index, outside.finalIndex);
        AllLawful(s, index, outside, trace, batches);
        return;
      }
      if turn.decision == None || turn.decision.value.NoTool? {
        result := NoAnswer(Unavailable, trace);
        NoAnswerOk(result, index, outside.finalIndex);
        AllLawful(s, index, outside, trace, batches);
        return;
      }
      if turn.decision.value.Final? {
        var final := turn.decision.value;
        result := Finalize(index, outside.finalIndex, final.state, final.cited, items, trace);
        AllLawful(s, index, outside, trace, batches);
        return;
      }
      var step := |trace| + 1;
      var fingerprint := turn.decision.value.fingerprint;
      KnownFingerprint(trace, fingerprint);
      if fingerprint in fingerprints {
        var rejected := TraceStep(step, fingerprint, Rejected, 0);
        TraceAppended(s, trace, rejected);
        FailureAppended(trace, batches, rejected);
        RejectedIsMade(s, index, outside, trace, batches, fingerprint);
        LaterStep(s, outside.size, batches, items, total, |trace|);
        trace := trace + [rejected];
        assert trace[|trace| - 1].status.Rejected?;
        break;
      }
      fingerprints := fingerprints + {fingerprint};
      if turn.indexForTool != Some(index) {
        result := NoAnswer(Unavailable, trace);
        NoAnswerOk(result, index, outside.finalIndex);
        AllLawful(s, index, outside, trace, batches);
        return;
      }
      var found := ToolItems(step, turn.outcome);
      FailuresBringNothing(step, turn.outcome);
      OutcomeIsMade(s, index, outside, trace, batches, fingerprint);
      var code := if turn.outcome.ToolError? then turn.outcome.code else "tool_timeout";
      if found.Some? {
        code := SizeError(s, outside.size(found.value), total);
      }
      if found.None? || code != "" {
        failureCodes := failureCodes + [code];
        var failed := TraceStep(step, fingerprint, if turn.outcome.TimedOut? then StepTimedOut else Failed, 0);
        TraceAppended(s, trace, failed);
        StepAppended(trace, failed);
        FailureAppended(trace, batches, failed);
        trace := trace + [failed];
        LaterStep(s, outside.size, batches, items, total, step - 1);
        continue;
      }
      EvidenceGrows(s, outside.size, batches, items, total, |trace|, found.value);
      var completed := TraceStep(step, fingerprint, Completed, |found.value|);
      TraceAppended(s, trace, completed);
      StepAppended(trace, completed);
      ResultAppended(trace, batches, completed, found.value);
      items, total := items + found.value, total + outside.size(found.value);
      batches, trace := batches + [found.value], trace + [completed];
      EvidenceIsMerged(s, outside.size, batches, items, total, |trace|);
    }
    result := NoAnswer(if exists c :: c in failureCodes && outside.unavailable(c) then Unavailable else Insufficient, trace);
    NoAnswerOk(result, index, outside.finalIndex);
    AllLawful(s, index, outside, trace, batches);
  }
}
