/**
 * Call-site extraction (python_parser.py, `_extract_call_sites`) over a span tree.
 * Offsets are bytes; a row counts the newlines before an offset and a column the bytes
 * since the last one, as tree-sitter points do.
 */
module CallSites {
  import opened Common
  import opened Sorting
  import opened Utf8
  import CallGraph

  type CallSite = CallGraph.CallSite

  datatype Span = Span(start: nat, end: nat)

  datatype Kind = Call(functionSpan: Option<Span>) | Other

  datatype Node = Node(span: Span, kind: Kind, children: seq<Node>)

  /** A function, async function or method; only these can contain a call site. */
  datatype Callable = Callable(qualifiedName: string, startLine: nat, headerEndLine: nat, endLine: nat)

  /**
   * Spans are nested, siblings are ordered and disjoint, and the function of a call is its first
   * child, has text, starts where the call starts, and ends before the call does. Any other node may
   * be empty, as the root of an empty file and the missing nodes of a recovered tree are.
   */
  ghost predicate WellFormed(n: Node) {
    && n.span.start <= n.span.end
    && (forall c :: c in n.children ==> WellFormed(c) && n.span.start <= c.span.start && c.span.end <= n.span.end)
    && (forall i, j :: 0 <= i < j < |n.children| ==> n.children[i].span.end <= n.children[j].span.start)
    && (n.kind.Call? && n.kind.functionSpan.Some? ==>
          && n.children != []
          && n.children[0].span == n.kind.functionSpan.value
          && n.children[0].span.start == n.span.start < n.children[0].span.end
          && n.children[0].span.end < n.span.end)
  }

  function Preorder(n: Node): (r: seq<Node>)
    ensures |r| >= 1 && r[0] == n
    decreases n, 0
  {
    [n] + PreorderAll(n.children)
  }

  function PreorderAll(ns: seq<Node>): seq<Node>
    decreases ns, 0
  {
    if ns == [] then [] else Preorder(ns[0]) + PreorderAll(ns[1..])
  }

  // ---------------------------------------------------------------- points

  function Row(source: seq<Byte>, p: nat): nat
    requires p <= |source|
  {
    if p == 0 then 0 else Row(source, p - 1) + if source[p - 1] == 10 then 1 else 0
  }

  function Column(source: seq<Byte>, p: nat): nat
    requires p <= |source|
  {
    if p == 0 || source[p - 1] == 10 then 0 else Column(source, p - 1) + 1
  }

  lemma {:induction false} RowColumnGrows(source: seq<Byte>, p: nat, q: nat)
    requires p < q <= |source|
    ensures Row(source, p) < Row(source, q)
         || (Row(source, p) == Row(source, q) && Column(source, p) < Column(source, q))
  {
    if p == q - 1 {
    } else {
      RowColumnGrows(source, p, q - 1);
    }
  }

  // ---------------------------------------------------------------- specification

  predicate Closer(a: Callable, b: Callable) {
    var heightA, heightB := a.endLine - a.startLine, b.endLine - b.startLine;
    heightA < heightB || (heightA == heightB && a.startLine > b.startLine)
  }

  /** The innermost enclosing callable: smallest height, then latest start; the first such one. */
  function CallerOf(symbols: seq<Callable>, line: nat): Option<Callable> {
    if symbols == [] then None
    else
      var before := CallerOf(symbols[..|symbols| - 1], line);
      var s := symbols[|symbols| - 1];
      if !(s.headerEndLine <= line <= s.endLine) then before
      else if before.None? || Closer(s, before.value) then Some(s)
      else before
  }

  datatype Settings = Settings(
    source: seq<Byte>, filePath: string, moduleName: string, symbols: seq<Callable>,
    maxCallSites: nat, maxExpressionBytes: nat)

  /** The text of a function node is whole UTF-8 characters of the source. */
  ghost predicate Readable(t: Settings, n: Node) {
    && n.span.start <= n.span.end <= |t.source|
    && (n.kind.Call? && n.kind.functionSpan.Some? ==>
          var f := n.kind.functionSpan.value;
          f.start <= f.end <= |t.source| && Encode(DecodeIgnoringErrors(t.source[f.start..f.end])) == t.source[f.start..f.end])
  }

  ghost predicate AllReadable(t: Settings, ns: seq<Node>) {
    forall n :: n in ns ==> Readable(t, n)
  }

  /** What one node contributes: a call site, an oversized-expression warning, or nothing. */
  datatype Contribution = Site(site: CallSite) | TooLarge | Nothing

  function Contribute(t: Settings, n: Node): Contribution
    requires Readable(t, n)
  {
    if !n.kind.Call? then Nothing
    else
      var line := Row(t.source, n.span.start) + 1;
      var caller := CallerOf(t.symbols, line);
      if n.kind.functionSpan.None? || caller.None? then Nothing
      else
        var f := n.kind.functionSpan.value;
        var expression := DecodeIgnoringErrors(t.source[f.start..f.end]);
        if Size(expression) > t.maxExpressionBytes then TooLarge
        else Site(CallGraph.CallSite(
          t.filePath, t.moduleName, caller.value.qualifiedName, expression, line,
          Row(t.source, n.span.end) + 1, Column(t.source, n.span.start)))
  }

  function SitesOf(t: Settings, ns: seq<Node>): seq<CallSite>
    requires AllReadable(t, ns)
  {
    if ns == [] then []
    else
      var c := Contribute(t, ns[0]);
      (if c.Site? then [c.site] else []) + SitesOf(t, ns[1..])
  }

  const TOO_LARGE := "call_expression_too_large"

  function WarningsOf(t: Settings, ns: seq<Node>): seq<string>
    requires AllReadable(t, ns)
  {
    if ns == [] then []
    else
      (if Contribute(t, ns[0]).TooLarge? then [TOO_LARGE] else []) + WarningsOf(t, ns[1..])
  }

  predicate SiteLe(a: CallSite, b: CallSite) {
    if a.startLine != b.startLine then a.startLine < b.startLine
    else if a.endLine != b.endLine then a.endLine < b.endLine
    else if a.caller != b.caller then StrLe(a.caller, b.caller)
    else StrLe(a.expression, b.expression)
  }

  /** The caller of a line is an innermost callable whose body contains it, and exists if any contains it. */
  lemma {:induction false} CallerIsInnermost(symbols: seq<Callable>, line: nat)
    ensures var caller := CallerOf(symbols, line);
            && (caller.None? <==> forall s :: s in symbols ==> !(s.headerEndLine <= line <= s.endLine))
            && (caller.Some? ==>
                  && caller.value in symbols && caller.value.headerEndLine <= line <= caller.value.endLine
                  && forall s :: s in symbols && s.headerEndLine <= line <= s.endLine ==>
                       || s.endLine - s.startLine > caller.value.endLine - caller.value.startLine
                       || (s.endLine - s.startLine == caller.value.endLine - caller.value.startLine && s.startLine <= caller.value.startLine))
  {
    if symbols == [] {
    } else {
      CallerIsInnermost(symbols[..|symbols| - 1], line);
      assert symbols == symbols[..|symbols| - 1] + [symbols[|symbols| - 1]];
    }
  }

  /** The newlines before an offset. */
  function NewlinesBefore(source: seq<Byte>, p: nat): set<nat>
    requires p <= |source|
  {
    set i: nat | i < p && source[i] == 10
  }

  lemma {:induction false} RowCountsNewlines(source: seq<Byte>, p: nat)
    requires p <= |source|
    ensures Row(source, p) == |NewlinesBefore(source, p)|
  {
    if p == 0 {
      assert NewlinesBefore(source, 0) == {};
    } else {
      RowCountsNewlines(source, p - 1);
      assert NewlinesBefore(source, p) == NewlinesBefore(source, p - 1) + if source[p - 1] == 10 then {p - 1} else {};
    }
  }

  /** The column is the number of bytes since the last newline. */
  lemma {:induction false} ColumnFromNewline(source: seq<Byte>, p: nat)
    requires p <= |source|
    ensures Column(source, p) <= p && (Column(source, p) == p || source[p - Column(source, p) - 1] == 10)
    ensures forall i :: p - Column(source, p) <= i < p ==> source[i] != 10
  {
    if p == 0 || source[p - 1] == 10 {
    } else {
      ColumnFromNewline(source, p - 1);
    }
  }

  /** The text of a node. */
  function TextAt(t: Settings, span: Span): string
    requires span.start <= span.end <= |t.source|
  {
    DecodeIgnoringErrors(t.source[span.start..span.end])
  }

  /** The line of an offset, from one. */
  function LineOf(t: Settings, p: nat): nat
    requires p <= |t.source|
  {
    1 + |NewlinesBefore(t.source, p)|
  }

  /**
   * A call gives a site exactly if it names a function, stands in the body of a callable, and the
   * name is not too long: the name, the callable, the lines of the call and the column it starts at.
   */
  lemma SiteIff(t: Settings, n: Node)
    requires Readable(t, n)
    ensures Contribute(t, n).Site? <==>
              && n.kind.Call? && n.kind.functionSpan.Some? && Size(TextAt(t, n.kind.functionSpan.value)) <= t.maxExpressionBytes
              && exists s :: s in t.symbols && s.headerEndLine <= LineOf(t, n.span.start) <= s.endLine
    ensures Contribute(t, n).TooLarge? <==>
              && n.kind.Call? && n.kind.functionSpan.Some? && Size(TextAt(t, n.kind.functionSpan.value)) > t.maxExpressionBytes
              && exists s :: s in t.symbols && s.headerEndLine <= LineOf(t, n.span.start) <= s.endLine
    ensures Contribute(t, n).Site? ==>
              var site := Contribute(t, n).site;
              && (site.filePath, site.moduleName) == (t.filePath, t.moduleName)
              && site.expression == TextAt(t, n.kind.functionSpan.value)
              && (site.startLine, site.endLine) == (LineOf(t, n.span.start), LineOf(t, n.span.end))
              && site.startColumn <= n.span.start && (forall i :: n.span.start - site.startColumn <= i < n.span.start ==> t.source[i] != 10)
              && (site.startColumn < n.span.start ==> t.source[n.span.start - site.startColumn - 1] == 10)
              && exists s :: s in t.symbols && s.qualifiedName == site.caller && s.headerEndLine <= site.startLine <= s.endLine
  {
    hide Column, Row, DecodeIgnoringErrors, Size, CallerOf, NewlinesBefore;
    RowCountsNewlines(t.source, n.span.start);
    RowCountsNewlines(t.source, n.span.end);
    ColumnFromNewline(t.source, n.span.start);
    CallerIsInnermost(t.symbols, LineOf(t, n.span.start));
  }

  /** In the order of lines, then of caller and expression. */
  predicate Precedes(a: CallSite, b: CallSite) {
    || a.startLine < b.startLine
    || (a.startLine == b.startLine && a.endLine < b.endLine)
    || (a.startLine == b.startLine && a.endLine == b.endLine && a.caller != b.caller && StrLe(a.caller, b.caller))
    || (a.startLine == b.startLine && a.endLine == b.endLine && a.caller == b.caller && StrLe(a.expression, b.expression))
  }

  lemma SiteLeIsOrder()
    ensures TotalPreorder(SiteLe) && forall a, b :: SiteLe(a, b) <==> Precedes(a, b)
  {
    hide StrLe;
    forall a, b ensures SiteLe(a, b) || SiteLe(b, a) {
      StrLeTotal(a.caller, b.caller);
      StrLeTotal(a.expression, b.expression);
    }
    forall a, b, c | SiteLe(a, b) && SiteLe(b, c) ensures SiteLe(a, c) { SiteLeTransitive(a, b, c); }
  }

  lemma SiteLeTransitive(a: CallSite, b: CallSite, c: CallSite)
    requires SiteLe(a, b) && SiteLe(b, c)
    ensures SiteLe(a, c)
  {
    hide StrLe;
    if a.startLine == b.startLine == c.startLine && a.endLine == b.endLine == c.endLine {
      if a.caller == b.caller == c.caller {
        StrLeTransitive(a.expression, b.expression, c.expression);
      } else if a.caller != b.caller && b.caller != c.caller {
        StrLeTransitive(a.caller, b.caller, c.caller);
        if a.caller == c.caller { StrLeAntisymmetric(a.caller, b.caller); }
      }
    }
  }

  lemma SitesSorted(sites: seq<CallSite>)
    ensures var sorted := Sort(SiteLe, sites);
            multiset(sorted) == multiset(sites) && forall i, k :: 0 <= i < k < |sorted| ==> Precedes(sorted[i], sorted[k])
  {
    SiteLeIsOrder();
    SortIsSorted(SiteLe, sites);
    hide Precedes, SiteLe;
  }

  // ---------------------------------------------------------------- the traversal

  function Reversed(ns: seq<Node>): (r: seq<Node>)
    ensures |r| == |ns|
  {
    if ns == [] then [] else Reversed(ns[1..]) + [ns[0]]
  }

  lemma PreorderAllCons(n: Node, rest: seq<Node>)
    ensures PreorderAll([n] + rest) == Preorder(n) + PreorderAll(rest)
  {
    assert ([n] + rest)[0] == n && ([n] + rest)[1..] == rest;
  }

  lemma HeadTail<T>(a: seq<T>, b: seq<T>)
    requires a != []
    ensures a == [a[0]] + a[1..] && a + b == [a[0]] + (a[1..] + b)
  {
  }

  lemma Associative<T>(a: seq<T>, b: seq<T>, c: seq<T>)
    ensures a + (b + c) == a + b + c
  {
  }

  lemma {:induction false} PreorderAllAppend(a: seq<Node>, b: seq<Node>)
    ensures PreorderAll(a + b) == PreorderAll(a) + PreorderAll(b)
  {
    if a == [] {
      assert a + b == b;
    } else {
      hide Preorder, PreorderAll;
      PreorderAllAppend(a[1..], b);
      HeadTail(a, b);
      PreorderAllCons(a[0], a[1..]);
      PreorderAllCons(a[0], a[1..] + b);
      Associative(Preorder(a[0]), PreorderAll(a[1..]), PreorderAll(b));
    }
  }

  lemma {:induction false} ReversedAppend(a: seq<Node>, b: seq<Node>)
    ensures Reversed(a + b) == Reversed(b) + Reversed(a)
  {
    if a == [] {
      assert a + b == b;
    } else {
      ReversedAppend(a[1..], b);
      assert (a + b)[1..] == a[1..] + b;
    }
  }

  lemma {:induction false} ReversedTwice(a: seq<Node>)
    ensures Reversed(Reversed(a)) == a
  {
    if a == [] {
    } else {
      ReversedAppend(Reversed(a[1..]), [a[0]]);
      ReversedTwice(a[1..]);
      assert Reversed([a[0]]) == [a[0]];
    }
  }

  /** Popping `node` and pushing its children in reverse leaves the rest of the preorder. */
  lemma PopAndPush(rest: seq<Node>, node: Node)
    ensures PreorderAll(Reversed(rest + [node])) == [node] + PreorderAll(Reversed(rest + Reversed(node.children)))
  {
    ReversedAppend(rest, [node]);
    ReversedAppend(rest, Reversed(node.children));
    ReversedTwice(node.children);
    PreorderAllAppend([node], Reversed(rest));
    PreorderAllAppend(node.children, Reversed(rest));
    assert Reversed([node]) == [node];
    assert PreorderAll([node]) == Preorder(node) by { assert PreorderAll([node][1..]) == []; }
  }

  lemma TailReadable(t: Settings, ns: seq<Node>)
    requires ns != [] && AllReadable(t, ns)
    ensures Readable(t, ns[0]) && AllReadable(t, ns[1..])
  {
    assert ns[0] in ns;
  }

  /** What visiting the next node adds. */
  lemma VisitOne(t: Settings, todo: seq<Node>, result: seq<CallSite>, warnings: seq<string>)
    requires todo != [] && AllReadable(t, todo) && Readable(t, todo[0]) && AllReadable(t, todo[1..])
    ensures var c := Contribute(t, todo[0]);
            && result + SitesOf(t, todo) == (if c.Site? then result + [c.site] else result) + SitesOf(t, todo[1..])
            && warnings + WarningsOf(t, todo)
               == (if c.TooLarge? then warnings + [TOO_LARGE] else warnings) + WarningsOf(t, todo[1..])
  {
    hide Contribute, Readable, TOO_LARGE;
    var c := Contribute(t, todo[0]);
    var sites, notices := SitesOf(t, todo[1..]), WarningsOf(t, todo[1..]);
    assert SitesOf(t, todo) == (if c.Site? then [c.site] else []) + sites;
    assert WarningsOf(t, todo) == (if c.TooLarge? then [TOO_LARGE] else []) + notices;
    hide SitesOf, WarningsOf;
    if c.Site? { Associative(result, [c.site], sites); } else { assert [] + sites == sites; }
    if c.TooLarge? { Associative(warnings, [TOO_LARGE], notices); } else { assert [] + notices == notices; }
  }

  lemma NothingLeft(t: Settings)
    ensures PreorderAll(Reversed([])) == [] && SitesOf(t, []) == [] && WarningsOf(t, []) == []
  {
  }

  /** The traversal: an explicit stack that visits the nodes in preorder, until the limit is passed. */
  method CollectCallSites(t: Settings, root: Node)
    returns (result: seq<CallSite>, warnings: seq<string>, exceeded: bool)
    requires AllReadable(t, Preorder(root))
    ensures exceeded <==> |SitesOf(t, Preorder(root))| > t.maxCallSites
    ensures !exceeded ==> result == SitesOf(t, Preorder(root)) && warnings == WarningsOf(t, Preorder(root))
  {
    var pending := [root];
    result, warnings, exceeded := [], [], false;
    ghost var all, notices := SitesOf(t, Preorder(root)), WarningsOf(t, Preorder(root));
    ghost var todo := Preorder(root);
    assert PreorderAll(Reversed([root])) == Preorder(root) by {
      assert Reversed([root]) == [root] && PreorderAll([root][1..]) == [];
    }
    hide Preorder, PreorderAll, Contribute, Readable, Reversed, SitesOf, WarningsOf;
    while pending != []
      invariant todo == PreorderAll(Reversed(pending)) && AllReadable(t, todo)
      invariant result + SitesOf(t, todo) == all
      invariant warnings + WarningsOf(t, todo) == notices
      invariant |result| <= t.maxCallSites && !exceeded
      decreases |todo|
    {
      var node := pending[|pending| - 1];
      var rest := pending[..|pending| - 1];
      assert pending == rest + [node];
      PopAndPush(rest, node);
      TailReadable(t, todo);
      VisitOne(t, todo, result, warnings);
      var c := Contribute(t, node);
      if c.Site? {
        result := result + [c.site];
      } else if c.TooLarge? {
        warnings := warnings + [TOO_LARGE];
      }
      pending := rest + Reversed(node.children);
      todo := todo[1..];
      if |result| > t.maxCallSites {
        exceeded := true;
        return;
      }
    }
    NothingLeft(t);
  }

  /** `_extract_call_sites`. */
  method ExtractCallSites(t: Settings, root: Node) returns (sites: seq<CallSite>, warnings: seq<string>)
    requires AllReadable(t, Preorder(root))
    ensures var all := SitesOf(t, Preorder(root));
            if |all| > t.maxCallSites then sites == [] && warnings == ["call_site_count_exceeded"]
            else sites == Sort(SiteLe, all) && warnings == WarningsOf(t, Preorder(root))
    ensures forall i, k :: 0 <= i < k < |sites| ==> Precedes(sites[i], sites[k])
  {
    var result, notices, exceeded := CollectCallSites(t, root);
    if exceeded {
      return [], ["call_site_count_exceeded"];
    }
    SitesSorted(result);
    return Sort(SiteLe, result), notices;
  }

  // ---------------------------------------------------------------- call sites are distinct

  /** Start of a call and end of its function: what its key determines. */
  ghost predicate SamePlace(a: Node, b: Node) {
    && a.kind.Call? && a.kind.functionSpan.Some? && b.kind.Call? && b.kind.functionSpan.Some?
    && a.span.start == b.span.start && a.kind.functionSpan.value.end == b.kind.functionSpan.value.end
  }

  ghost predicate Within(ns: seq<Node>, lo: nat, hi: nat) {
    forall n :: n in ns ==> WellFormed(n) && lo <= n.span.start && n.span.end <= hi
  }

  lemma {:induction false} PreorderWithin(n: Node)
    requires WellFormed(n)
    ensures Within(Preorder(n), n.span.start, n.span.end)
    decreases n, 1
  {
    PreorderAllWithin(n.children, n.span.start, n.span.end);
  }

  lemma {:induction false} PreorderAllWithin(ns: seq<Node>, lo: nat, hi: nat)
    requires Within(ns, lo, hi)
    ensures Within(PreorderAll(ns), lo, hi)
    decreases ns, 0
  {
    if ns == [] {
    } else {
      assert ns[0] in ns;
      PreorderWithin(ns[0]);
      PreorderAllWithin(ns[1..], lo, hi);
    }
  }

  ghost predicate NoSharedPlace(ns: seq<Node>) {
    forall i, j :: 0 <= i < j < |ns| ==> !SamePlace(ns[i], ns[j])
  }

  ghost predicate Apart(a: seq<Node>, b: seq<Node>) {
    forall x, y :: x in a && y in b ==> !SamePlace(x, y)
  }

  lemma NoSharedPlaceAppend(a: seq<Node>, b: seq<Node>)
    requires NoSharedPlace(a) && NoSharedPlace(b) && Apart(a, b)
    ensures NoSharedPlace(a + b)
  {
    forall i, j | 0 <= i < j < |a + b| ensures !SamePlace((a + b)[i], (a + b)[j]) {
      if i < |a| <= j {
        assert a[i] in a && b[j - |a|] in b;
      } else if j < |a| {
        assert !SamePlace(a[i], a[j]);
      } else {
        assert !SamePlace(b[i - |a|], b[j - |a|]);
      }
    }
  }

  /** Distinct call nodes never share start and function end: an outer function text contains the inner call. */
  lemma {:induction false} CallsHaveDistinctPlaces(n: Node)
    requires WellFormed(n)
    ensures NoSharedPlace(Preorder(n))
    decreases n, 1
  {
    ForestHasDistinctPlaces(n.children);
    var below := PreorderAll(n.children);
    forall y | y in below ensures !SamePlace(n, y) {
      if n.kind.Call? && n.kind.functionSpan.Some? && y.span.start == n.span.start {
        var first := n.children[0];
        assert first in n.children;
        PreorderAllAppend([first], n.children[1..]);
        assert n.children == [first] + n.children[1..];
        assert PreorderAll([first]) == Preorder(first) by { assert PreorderAll([first][1..]) == []; }
        PreorderAllWithin(n.children[1..], first.span.end, n.span.end);
        PreorderWithin(first);
      }
    }
    NoSharedPlaceAppend([n], below);
  }

  lemma {:induction false} ForestHasDistinctPlaces(ns: seq<Node>)
    requires forall n :: n in ns ==> WellFormed(n)
    requires forall i, j :: 0 <= i < j < |ns| ==> ns[i].span.end <= ns[j].span.start
    ensures NoSharedPlace(PreorderAll(ns))
    decreases ns, 0
  {
    if ns == [] {
    } else {
      assert ns[0] in ns;
      CallsHaveDistinctPlaces(ns[0]);
      ForestHasDistinctPlaces(ns[1..]);
      PreorderWithin(ns[0]);
      var hi := if |ns| > 1 then ns[|ns| - 1].span.end else ns[0].span.end;
      forall n | n in ns[1..] ensures ns[0].span.end <= n.span.start && n.span.end <= hi {
        var k :| 0 <= k < |ns[1..]| && ns[1..][k] == n;
        assert ns[k + 1] == n;
        assert ns[|ns| - 1] in ns;
        if k + 1 < |ns| - 1 { assert n.span.end <= ns[|ns| - 1].span.start; }
      }
      PreorderAllWithin(ns[1..], ns[0].span.end, hi);
      assert Apart(Preorder(ns[0]), PreorderAll(ns[1..]));
      NoSharedPlaceAppend(Preorder(ns[0]), PreorderAll(ns[1..]));
    }
  }

  /** Equal site keys in one file mean the same start and the same function text. */
  lemma SameKeySamePlace(t: Settings, a: Node, b: Node)
    requires WellFormed(a) && WellFormed(b) && Readable(t, a) && Readable(t, b)
    requires Contribute(t, a).Site? && Contribute(t, b).Site?
    requires CallGraph.KeyOf(Contribute(t, a).site) == CallGraph.KeyOf(Contribute(t, b).site)
    ensures SamePlace(a, b)
  {
    var p, q := a.span.start, b.span.start;
    if p < q { RowColumnGrows(t.source, p, q); }
    if q < p { RowColumnGrows(t.source, q, p); }
    var f, g := a.kind.functionSpan.value, b.kind.functionSpan.value;
    assert |t.source[f.start..f.end]| == |t.source[g.start..g.end]|;
    assert a.children[0] in a.children && b.children[0] in b.children;
  }

  lemma {:induction false} SiteHasNode(t: Settings, ns: seq<Node>, site: CallSite) returns (n: Node)
    requires AllReadable(t, ns) && site in SitesOf(t, ns)
    ensures n in ns && Contribute(t, n) == Site(site)
  {
    if Contribute(t, ns[0]) == Site(site) {
      n := ns[0];
    } else {
      n := SiteHasNode(t, ns[1..], site);
    }
  }

  ghost predicate FreshKey(site: CallSite, sites: seq<CallSite>) {
    forall s :: s in sites ==> CallGraph.KeyOf(s) != CallGraph.KeyOf(site)
  }

  lemma {:induction false} NodesGiveDistinctKeys(t: Settings, ns: seq<Node>)
    requires AllReadable(t, ns) && NoSharedPlace(ns) && forall n :: n in ns ==> WellFormed(n)
    ensures CallGraph.DistinctSiteKeys(SitesOf(t, ns))
  {
    if ns == [] {
    } else {
      NodesGiveDistinctKeys(t, ns[1..]);
      if Contribute(t, ns[0]).Site? {
        var site := Contribute(t, ns[0]).site;
        forall s | s in SitesOf(t, ns[1..]) ensures CallGraph.KeyOf(s) != CallGraph.KeyOf(site) {
          var n := SiteHasNode(t, ns[1..], s);
          var k :| 0 <= k < |ns[1..]| && ns[1..][k] == n;
          assert !SamePlace(ns[0], ns[k + 1]);
          if CallGraph.KeyOf(s) == CallGraph.KeyOf(site) { SameKeySamePlace(t, ns[0], n); }
        }
      }
    }
  }

  lemma {:induction false} InsertDistinct(site: CallSite, sites: seq<CallSite>)
    requires CallGraph.DistinctSiteKeys(sites) && FreshKey(site, sites)
    ensures CallGraph.DistinctSiteKeys(Insert(SiteLe, site, sites))
  {
    if sites != [] && !SiteLe(site, sites[0]) {
      InsertDistinct(site, sites[1..]);
      var r := Insert(SiteLe, site, sites[1..]);
      forall s | s in r ensures CallGraph.KeyOf(s) != CallGraph.KeyOf(sites[0]) {
        assert s in multiset(r);
        assert s == site || s in sites[1..];
        assert sites[0] in sites;
      }
    }
  }

  lemma {:induction false} SortDistinct(sites: seq<CallSite>)
    requires CallGraph.DistinctSiteKeys(sites)
    ensures CallGraph.DistinctSiteKeys(Sort(SiteLe, sites))
  {
    if sites == [] {
    } else {
      SortDistinct(sites[1..]);
      SameElements(sites[1..], Sort(SiteLe, sites[1..]));
      InsertDistinct(sites[0], Sort(SiteLe, sites[1..]));
    }
  }

  /** The call sites that the parser extracts from one file have pairwise distinct keys. */
  lemma ExtractedSitesAreDistinct(t: Settings, root: Node)
    requires WellFormed(root) && AllReadable(t, Preorder(root))
    ensures CallGraph.DistinctSiteKeys(Sort(SiteLe, SitesOf(t, Preorder(root))))
    ensures forall s :: s in Sort(SiteLe, SitesOf(t, Preorder(root))) ==> s.filePath == t.filePath
  {
    CallsHaveDistinctPlaces(root);
    PreorderWithin(root);
    NodesGiveDistinctKeys(t, Preorder(root));
    SortDistinct(SitesOf(t, Preorder(root)));
    SameElements(SitesOf(t, Preorder(root)), Sort(SiteLe, SitesOf(t, Preorder(root))));
    forall s | s in SitesOf(t, Preorder(root)) ensures s.filePath == t.filePath {
      var n := SiteHasNode(t, Preorder(root), s);
    }
  }
}
