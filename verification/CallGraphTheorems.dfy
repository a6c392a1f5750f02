/**
 * What the call graph means, why it does not depend on input order, and why the rows
 * re-read from the database reproduce its counts and fingerprint.
 */
module CallGraphTheorems {
  import opened Common
  import opened Sorting
  import opened CallGraph

  // ---------------------------------------------------------------- the sort key

  lemma StrLeIsOrder()
    ensures forall a, b :: StrLe(a, b) || StrLe(b, a)
    ensures forall a, b :: StrLe(a, b) && StrLe(b, a) ==> a == b
    ensures forall a, b, c :: StrLe(a, b) && StrLe(b, c) ==> StrLe(a, c)
  {
    forall a, b ensures StrLe(a, b) || StrLe(b, a) { StrLeTotal(a, b); }
    forall a, b | StrLe(a, b) && StrLe(b, a) ensures a == b { StrLeAntisymmetric(a, b); }
    forall a, b, c | StrLe(a, b) && StrLe(b, c) ensures StrLe(a, c) { StrLeTransitive(a, b, c); }
  }

  lemma EdgeLeBothWays(a: Edge, b: Edge)
    requires EdgeLe(a, b) && EdgeLe(b, a)
    ensures a.siteFingerprint == b.siteFingerprint
  {
    StrLeIsOrder();
  }

  // ---------------------------------------------------------------- meaning of a resolution

  /** A declarative search: names tried in order with the kind each gives, then a method name. */
  datatype Search = Search(names: seq<string>, kinds: seq<ResolutionType>, methodName: Option<string>)

  function Repeat(n: nat, kind: ResolutionType): (r: seq<ResolutionType>)
    ensures |r| == n && forall i :: 0 <= i < n ==> r[i] == kind
  {
    seq(n, i => kind)
  }

  function SearchFor(n: Naming, expression: string, caller: Symbol, parsed: ParsedFile): (s: Search)
    ensures |s.names| == |s.kinds|
  {
    var parts := Split(expression);
    if n.isIdentifier(expression) then
      var local := LocalCandidates(caller.qualifiedName, parsed.moduleName, expression);
      var imported := DirectImportCandidates(parsed, parsed.imports, expression);
      Search(local + imported, Repeat(|local|, ExactSameFile) + Repeat(|imported|, ExactDirectImport), None)
    else if |parts| < 2 || exists i :: 0 <= i < |parts| && !n.isIdentifier(parts[i]) then
      Search([], [], None)
    else if parts[0] == "self" || parts[0] == "cls" then
      Search([MemberOf(BeforeLastDot(caller.qualifiedName), parts[|parts| - 1])], [ExactSameFile], None)
    else
      var imported := QualifiedImportCandidates(parsed, parsed.imports, parts);
      Search(imported + [MemberOf(parsed.moduleName, Join(parts))],
             Repeat(|imported|, QualifiedModule) + [ExactSameFile], Some(parts[|parts| - 1]))
  }

  /** `i` is the first name that has a match. */
  ghost predicate FirstHit(names: seq<string>, index: Index, i: nat) {
    && i < |names| && Lookup(index, names[i]) != []
    && forall j :: 0 <= j < i ==> Lookup(index, names[j]) == []
  }

  ghost predicate NoHit(names: seq<string>, index: Index) {
    forall j :: 0 <= j < |names| ==> Lookup(index, names[j]) == []
  }

  lemma {:induction false} FirstMatchesFinds(names: seq<string>, index: Index) returns (i: nat)
    ensures FirstMatches(names, index).None? <==> NoHit(names, index)
    ensures FirstMatches(names, index).Some? ==>
              FirstHit(names, index, i) && FirstMatches(names, index).value == Lookup(index, names[i])
  {
    i := 0;
    if names != [] && Lookup(index, names[0]) == [] {
      var k := FirstMatchesFinds(names[1..], index);
      i := k + 1;
      if FirstMatches(names[1..], index).None? {
        forall j | 0 <= j < |names| ensures Lookup(index, names[j]) == [] {
          assert j > 0 ==> names[j] == names[1..][j - 1];
        }
      } else {
        forall j | 0 <= j < i ensures Lookup(index, names[j]) == [] {
          assert j > 0 ==> names[j] == names[1..][j - 1];
        }
      }
    }
  }

  /** The outcome of a search in an index. */
  ghost predicate Finds(s: Search, byQualified: Index, byName: Index, r: Resolution)
    requires |s.names| == |s.kinds|
  {
    && (forall i: nat :: FirstHit(s.names, byQualified, i) ==>
          var matches := Lookup(byQualified, s.names[i]);
          r == if |matches| == 1 then Resolution(Some(matches[0]), s.kinds[i], High) else Resolution(None, Ambiguous, Low))
    && (NoHit(s.names, byQualified) ==>
          if s.methodName.None? then r == Resolution(None, Unresolved, Low)
          else
            var methods := Methods(Lookup(byName, s.methodName.value));
            r == if |methods| == 1 then Resolution(Some(methods[0]), ProbableMethod, Medium)
                 else Resolution(None, if methods == [] then Unresolved else Ambiguous, Low))
  }

  lemma HitInParts(a: seq<string>, b: seq<string>, index: Index)
    ensures NoHit(a + b, index) <==> NoHit(a, index) && NoHit(b, index)
    ensures forall i: nat :: FirstHit(a, index, i) ==> FirstHit(a + b, index, i)
    ensures forall i: nat :: NoHit(a, index) && FirstHit(b, index, i) ==> FirstHit(a + b, index, |a| + i)
  {
    if NoHit(a + b, index) {
      forall j | 0 <= j < |a| ensures Lookup(index, a[j]) == [] { assert (a + b)[j] == a[j]; }
      forall j | 0 <= j < |b| ensures Lookup(index, b[j]) == [] { assert (a + b)[|a| + j] == b[j]; }
    }
  }

  lemma FirstHitIsUnique(names: seq<string>, index: Index, i: nat, j: nat)
    requires FirstHit(names, index, i) && FirstHit(names, index, j)
    ensures i == j
  {
  }

  lemma TwoStageSearch(a: seq<string>, b: seq<string>, index: Index, names: seq<string>,
                       kindA: ResolutionType, kindB: ResolutionType, r: Resolution, kinds: seq<ResolutionType>)
    requires names == a + b && |kinds| == |names|
    requires forall i :: 0 <= i < |names| ==> kinds[i] == if i < |a| then kindA else kindB
    requires FirstMatches(a, index).Some? ==> r == ExactOrAmbiguous(FirstMatches(a, index).value, kindA)
    requires FirstMatches(a, index).None? && FirstMatches(b, index).Some? ==>
               r == ExactOrAmbiguous(FirstMatches(b, index).value, kindB)
    ensures NoHit(names, index) <==> FirstMatches(a, index).None? && FirstMatches(b, index).None?
    ensures forall i: nat :: FirstHit(names, index, i) ==> r == ExactOrAmbiguous(Lookup(index, names[i]), kinds[i])
  {
    var i := FirstMatchesFinds(a, index);
    var j := FirstMatchesFinds(b, index);
    HitInParts(a, b, index);
    forall k: nat | FirstHit(names, index, k)
      ensures r == ExactOrAmbiguous(Lookup(index, names[k]), kinds[k])
    {
      assert !NoHit(names, index);
      FirstHitIsUnique(names, index, k, if FirstMatches(a, index).Some? then i else |a| + j);
    }
  }

  /** `Resolve` is exactly the declarative search. */
  lemma ResolveIsSearch(n: Naming, expression: string, caller: Symbol, parsed: ParsedFile,
                        byQualified: Index, byName: Index)
    ensures Finds(SearchFor(n, expression, caller, parsed), byQualified, byName,
                  Resolve(n, expression, caller, parsed, byQualified, byName))
  {
    var s := SearchFor(n, expression, caller, parsed);
    var r := Resolve(n, expression, caller, parsed, byQualified, byName);
    var parts := Split(expression);
    if n.isIdentifier(expression) {
      var local := LocalCandidates(caller.qualifiedName, parsed.moduleName, expression);
      var imported := DirectImportCandidates(parsed, parsed.imports, expression);
      TwoStageSearch(local, imported, byQualified, s.names, ExactSameFile, ExactDirectImport, r, s.kinds);
    } else if |parts| < 2 || exists i :: 0 <= i < |parts| && !n.isIdentifier(parts[i]) {
    } else if parts[0] == "self" || parts[0] == "cls" {
      assert forall i: nat :: FirstHit(s.names, byQualified, i) ==> i == 0;
      if NoHit(s.names, byQualified) { assert Lookup(byQualified, s.names[0]) == []; }
    } else {
      var imported := QualifiedImportCandidates(parsed, parsed.imports, parts);
      var module' := [MemberOf(parsed.moduleName, Join(parts))];
      var sameModule := Lookup(byQualified, module'[0]);
      assert FirstMatches(module', byQualified) == if sameModule != [] then Some(sameModule) else None by {
        assert FirstMatches(module'[1..], byQualified) == None;
      }
      TwoStageSearch(imported, module', byQualified, s.names, QualifiedModule, ExactSameFile, r, s.kinds);
      if NoHit(s.names, byQualified) {
        HitInParts(imported, module', byQualified);
        var _ := FirstMatchesFinds(imported, byQualified);
        assert Lookup(byQualified, module'[0]) == [];
      }
    }
  }

  /**
   * A call has the callee `s` exactly when `s` is the sole match of the first candidate with
   * any match, or no candidate matches and `s` is the sole method of the called name.
   */
  lemma CalleeIff(n: Naming, expression: string, caller: Symbol, parsed: ParsedFile,
                  byQualified: Index, byName: Index, s: Symbol)
    ensures var q := SearchFor(n, expression, caller, parsed);
            Resolve(n, expression, caller, parsed, byQualified, byName).callee == Some(s) <==>
            || (exists i: nat :: FirstHit(q.names, byQualified, i) && Lookup(byQualified, q.names[i]) == [s])
            || (NoHit(q.names, byQualified) && q.methodName.Some?
                && Methods(Lookup(byName, q.methodName.value)) == [s])
  {
    ResolveIsSearch(n, expression, caller, parsed, byQualified, byName);
    var q := SearchFor(n, expression, caller, parsed);
    var i := FirstMatchesFinds(q.names, byQualified);
    var r := Resolve(n, expression, caller, parsed, byQualified, byName);
    if FirstMatches(q.names, byQualified).Some? {
      assert FirstHit(q.names, byQualified, i);
      assert !NoHit(q.names, byQualified);
      assert r == ExactOrAmbiguous(Lookup(byQualified, q.names[i]), q.kinds[i]);
      forall k: nat | FirstHit(q.names, byQualified, k) ensures k == i {
        FirstHitIsUnique(q.names, byQualified, k, i);
      }
    } else if q.methodName.Some? {
      var methods := Methods(Lookup(byName, q.methodName.value));
      assert |methods| == 1 ==> methods == [methods[0]];
    }
  }

  // ---------------------------------------------------------------- what each kind of call resolves to

  /** A call of a plain name is that of the innermost scope that defines it. */
  lemma LocalCallResolves(n: Naming, symbols: seq<Symbol>, caller: Symbol, parsed: ParsedFile, here: seq<string>, scope: seq<string>,
                          target: string, depth: nat, callee: Symbol)
    requires n.isIdentifier(target) && here != [] && AllPlain(here) && AllPlain(scope)
    requires caller.qualifiedName == Join(here + scope) && parsed.moduleName == Join(here)
    requires depth <= |scope| && SoleNamed(symbols, Join(here + scope[..depth] + [target]), callee)
    requires forall d :: depth < d <= |scope| ==> NoneNamed(symbols, Join(here + scope[..d] + [target]))
    ensures Resolve(n, target, caller, parsed, GroupBy(symbols, QualifiedNameOf), GroupBy(symbols, NameOf))
         == Resolution(Some(callee), ExactSameFile, High)
  {
    hide Join, LocalCandidates, NoneNamed, SoleNamed, GroupBy, FirstMatches;
    LocalScopes(here, scope, target);
    var index := GroupBy(symbols, QualifiedNameOf);
    var names, hit := LocalCandidates(caller.qualifiedName, parsed.moduleName, target), |scope| - depth;
    SoleLookedUp(symbols, names[hit], callee);
    forall j | 0 <= j < hit ensures Lookup(index, names[j]) == [] {
      assert NoneNamed(symbols, Join(here + scope[..|scope| - j] + [target]));
      NoneLookedUp(symbols, names[j]);
    }
    var i := FirstMatchesFinds(names, index);
    assert !NoHit(names, index);
    FirstHitIsUnique(names, index, i, hit);
  }

  /** A dotted expression of at least two identifiers. */
  predicate IsAttribute(n: Naming, parts: seq<string>) {
    && |parts| >= 2 && AllPlain(parts) && !n.isIdentifier(Join(parts))
    && forall i :: 0 <= i < |parts| ==> n.isIdentifier(parts[i])
  }

  lemma AttributeResolves(n: Naming, parts: seq<string>, caller: Symbol, parsed: ParsedFile, byQualified: Index, byName: Index)
    requires IsAttribute(n, parts)
    ensures Resolve(n, Join(parts), caller, parsed, byQualified, byName) == ResolveAttribute(parts, caller, parsed, byQualified, byName)
  {
    hide ResolveAttribute, Join, Split;
    SplitJoin(parts);
  }

  /** A call on anything but a chain of identifiers, such as `run().stop` or `items[0].close`, is nobody's. */
  lemma OtherCallIsUnresolved(n: Naming, parts: seq<string>, part: nat, caller: Symbol, parsed: ParsedFile, byQualified: Index,
                              byName: Index)
    requires AllPlain(parts) && part < |parts| && !n.isIdentifier(Join(parts)) && !n.isIdentifier(parts[part])
    ensures Resolve(n, Join(parts), caller, parsed, byQualified, byName) == Resolution(None, Unresolved, Low)
  {
    hide Join, Split, ResolveAttribute, ResolveIdentifier;
    SplitJoin(parts);
  }

  /** A call on `self` or `cls` is that of the member beside the caller. */
  lemma SelfCallResolves(n: Naming, symbols: seq<Symbol>, caller: Symbol, parsed: ParsedFile, owner: seq<string>, own: string,
                         parts: seq<string>, callee: Symbol)
    requires IsAttribute(n, parts) && (parts[0] == "self" || parts[0] == "cls")
    requires AllPlain(owner) && owner != [] && Plain(own) && caller.qualifiedName == Join(owner + [own])
    requires SoleNamed(symbols, Join(owner + [parts[|parts| - 1]]), callee)
    ensures Resolve(n, Join(parts), caller, parsed, GroupBy(symbols, QualifiedNameOf), GroupBy(symbols, NameOf))
         == Resolution(Some(callee), ExactSameFile, High)
  {
    hide Join, BeforeLastDot, SoleNamed, GroupBy;
    var last := parts[|parts| - 1];
    AttributeResolves(n, parts, caller, parsed, GroupBy(symbols, QualifiedNameOf), GroupBy(symbols, NameOf));
    BeforeLastDotJoin(owner + [own]);
    assert (owner + [own])[..|owner|] == owner;
    JoinAppend(owner, [last]);
    JoinFew(last);
    SoleLookedUp(symbols, Join(owner + [last]), callee);
  }

  /** A call whose head an import binds is that of the name under what was imported. */
  lemma QualifiedCallResolves(n: Naming, symbols: seq<Symbol>, caller: Symbol, parsed: ParsedFile, parts: seq<string>, i: nat, k: nat,
                              here: seq<string>, name: seq<string>, path: seq<string>, callee: Symbol)
    requires IsAttribute(n, parts) && parts[0] != "self" && parts[0] != "cls"
    requires i < |parsed.imports| && BindsHead(parsed.imports[i], k, parts[0])
    requires StandsFor(parsed, parsed.imports[i], k, here, name, path)
    requires forall i', k' :: 0 <= i' <= i && 0 <= k' < |parsed.imports[i'].names| && Earlier(i', k', i, k) ==>
               !BindsHead(parsed.imports[i'], k', parts[0])
    requires SoleNamed(symbols, Join(path + parts[1..]), callee)
    ensures Resolve(n, Join(parts), caller, parsed, GroupBy(symbols, QualifiedNameOf), GroupBy(symbols, NameOf))
         == Resolution(Some(callee), QualifiedModule, High)
  {
    hide Join, BeforeLastDot, SoleNamed, GroupBy, BindsHead, StandsFor, QualifiedImportCandidates;
    AttributeResolves(n, parts, caller, parsed, GroupBy(symbols, QualifiedNameOf), GroupBy(symbols, NameOf));
    QualifiedStandsFor(parsed, i, k, parts, here, name, path);
    SoleLookedUp(symbols, Join(path + parts[1..]), callee);
  }

  /** The methods of this name, by their positions. */
  function MethodsNamed(symbols: seq<Symbol>, name: string): set<nat> {
    set i: nat | i < |symbols| && symbols[i].symbolType == Method && symbols[i].name == name
  }

  lemma MethodsAppend(a: seq<Symbol>, s: Symbol)
    ensures Methods(a + [s]) == Methods(a) + if s.symbolType == Method then [s] else []
  {
    if a == [] {
      assert [] + [s] == [s];
    } else {
      MethodsAppend(a[1..], s);
      assert (a + [s])[1..] == a[1..] + [s];
    }
  }

  lemma MethodsNamedAppend(symbols: seq<Symbol>, s: Symbol, name: string)
    ensures MethodsNamed(symbols + [s], name)
         == MethodsNamed(symbols, name) + if s.symbolType == Method && s.name == name then {|symbols|} else {}
  {
  }

  ghost predicate AllFrom(found: seq<Symbol>, symbols: seq<Symbol>, positions: set<nat>) {
    forall s :: s in found ==> exists i :: i in positions && i < |symbols| && symbols[i] == s
  }

  lemma FromMore(found: seq<Symbol>, symbols: seq<Symbol>, positions: set<nat>, s: Symbol, more: set<nat>)
    requires AllFrom(found, symbols, positions) && positions <= more
    ensures AllFrom(found, symbols + [s], more)
  {
    forall x | x in found ensures exists i :: i in more && i < |symbols + [s]| && (symbols + [s])[i] == x {
      var i :| i in positions && i < |symbols| && symbols[i] == x;
      assert (symbols + [s])[i] == x;
    }
  }

  lemma OneMoreFrom(found: seq<Symbol>, symbols: seq<Symbol>, s: Symbol, positions: set<nat>)
    requires AllFrom(found, symbols + [s], positions) && |symbols| in positions
    ensures AllFrom(found + [s], symbols + [s], positions)
  {
    assert (symbols + [s])[|symbols|] == s;
  }

  lemma {:induction false} MethodsLookedUp(symbols: seq<Symbol>, name: string)
    ensures var found := Methods(Lookup(GroupBy(symbols, NameOf), name));
            |found| == |MethodsNamed(symbols, name)| && AllFrom(found, symbols, MethodsNamed(symbols, name))
  {
    if symbols == [] {
      assert MethodsNamed(symbols, name) == {};
    } else {
      var before, s := symbols[..|symbols| - 1], symbols[|symbols| - 1];
      assert symbols == before + [s];
      MethodsLookedUp(before, name);
      MethodsNamedAppend(before, s, name);
      var group := Lookup(GroupBy(before, NameOf), name);
      MethodsAppend(group, s);
      assert Lookup(GroupBy(symbols, NameOf), name) == if s.name == name then group + [s] else group;
      hide MethodsNamed, Methods, AllFrom, GroupBy, Lookup;
      var positions := MethodsNamed(symbols, name);
      FromMore(Methods(group), before, MethodsNamed(before, name), s, positions);
      if s.symbolType == Method && s.name == name { OneMoreFrom(Methods(group), before, s, positions); }
    }
  }

  lemma GuessedMethod(parts: seq<string>, caller: Symbol, parsed: ParsedFile, byQualified: Index, byName: Index)
    requires |parts| >= 2 && parts[0] != "self" && parts[0] != "cls"
    requires QualifiedImportCandidates(parsed, parsed.imports, parts) == []
    requires Lookup(byQualified, parsed.moduleName + "." + Join(parts)) == []
    ensures var methods := Methods(Lookup(byName, parts[|parts| - 1]));
            ResolveAttribute(parts, caller, parsed, byQualified, byName)
            == if |methods| == 1 then Resolution(Some(methods[0]), ProbableMethod, Medium)
               else Resolution(None, if |methods| > 1 then Ambiguous else Unresolved, Low)
  {
    hide Join, QualifiedImportCandidates, Methods, Lookup;
  }

  /** What no import and no module name explains is a guess: the only method of the name, if there is only one. */
  lemma MethodCallResolves(n: Naming, symbols: seq<Symbol>, caller: Symbol, parsed: ParsedFile, parts: seq<string>)
    requires IsAttribute(n, parts) && parts[0] != "self" && parts[0] != "cls"
    requires forall i, k :: 0 <= i < |parsed.imports| && 0 <= k < |parsed.imports[i].names| ==> !BindsHead(parsed.imports[i], k, parts[0])
    requires NoneNamed(symbols, parsed.moduleName + "." + Join(parts))
    ensures var methods := MethodsNamed(symbols, parts[|parts| - 1]);
            var r := Resolve(n, Join(parts), caller, parsed, GroupBy(symbols, QualifiedNameOf), GroupBy(symbols, NameOf));
            && (methods == {} ==> r == Resolution(None, Unresolved, Low))
            && (|methods| > 1 ==> r == Resolution(None, Ambiguous, Low))
            && (|methods| == 1 ==>
                  && r.callee.Some? && r.kind == ProbableMethod && r.confidence == Medium
                  && exists i :: i in methods && symbols[i] == r.callee.value)
  {
    hide Join, GroupBy, BindsHead, QualifiedImportCandidates, NoneNamed, Methods, MethodsNamed, Resolve, ResolveAttribute, Lookup;
    AttributeResolves(n, parts, caller, parsed, GroupBy(symbols, QualifiedNameOf), GroupBy(symbols, NameOf));
    assert Plain(parts[0]);
    NoQualified(parsed, parsed.imports, parts);
    NoneLookedUp(symbols, parsed.moduleName + "." + Join(parts));
    MethodsLookedUp(symbols, parts[|parts| - 1]);
    GuessedMethod(parts, caller, parsed, GroupBy(symbols, QualifiedNameOf), GroupBy(symbols, NameOf));
    var found := Methods(Lookup(GroupBy(symbols, NameOf), parts[|parts| - 1]));
    assert |found| == 1 ==> found[0] in found;
  }

  /** And before that, a name under the module of the file itself. */
  lemma ModuleCallResolves(n: Naming, symbols: seq<Symbol>, caller: Symbol, parsed: ParsedFile, parts: seq<string>, callee: Symbol)
    requires IsAttribute(n, parts) && parts[0] != "self" && parts[0] != "cls"
    requires forall i, k :: 0 <= i < |parsed.imports| && 0 <= k < |parsed.imports[i].names| ==> !BindsHead(parsed.imports[i], k, parts[0])
    requires SoleNamed(symbols, parsed.moduleName + "." + Join(parts), callee)
    ensures Resolve(n, Join(parts), caller, parsed, GroupBy(symbols, QualifiedNameOf), GroupBy(symbols, NameOf))
         == Resolution(Some(callee), ExactSameFile, High)
  {
    hide Join, SoleNamed, GroupBy, BindsHead, QualifiedImportCandidates;
    AttributeResolves(n, parts, caller, parsed, GroupBy(symbols, QualifiedNameOf), GroupBy(symbols, NameOf));
    assert Plain(parts[0]);
    NoQualified(parsed, parsed.imports, parts);
    SoleLookedUp(symbols, parsed.moduleName + "." + Join(parts), callee);
  }

  // ---------------------------------------------------------------- every site is counted once

  lemma KindMatchesCallee(c: Context, site: CallSite)
    requires EdgeOf(c, site).Some?
    ensures var e := EdgeOf(c, site).value;
            && (e.callee.None? <==> e.kind == Ambiguous || e.kind == Unresolved)
            && (e.callee.None? <==> e.unresolvedName == Some(site.expression))
  {
    hide Resolve, LocalCandidates, DirectImportCandidates, QualifiedImportCandidates, Methods, Lookup, Join, Split,
         BeforeLastDot, MemberOf;
    var (caller, r) := ResolutionOf(c, site).value;
    var parsed := c.files[site.filePath];
    ResolveIsSearch(c.naming, site.expression, caller, parsed, c.byQualified, c.byName);
    var q := SearchFor(c.naming, site.expression, caller, parsed);
    var i := FirstMatchesFinds(q.names, c.byQualified);
    if FirstMatches(q.names, c.byQualified).Some? {
      assert q.kinds[i] in q.kinds;
    }
  }

  /** exact + probable + ambiguous + unresolved covers every edge; the rest were skipped. */
  lemma {:induction false} EverySiteIsCounted(c: Context, sites: seq<CallSite>)
    ensures var es := EdgesOf(c, sites);
            Count(IsExact, es) + Count(IsProbable, es) + Count(IsAmbiguous, es) + Count(IsUnresolved, es)
              + (|sites| - |es|) == |sites|
  {
    if sites == [] {
    } else {
      EverySiteIsCounted(c, sites[..|sites| - 1]);
      var before := EdgesOf(c, sites[..|sites| - 1]);
      var edge := EdgeOf(c, sites[|sites| - 1]);
      if edge.Some? {
        var e := edge.value;
        CountAppend(IsExact, before, e);
        CountAppend(IsProbable, before, e);
        CountAppend(IsAmbiguous, before, e);
        CountAppend(IsUnresolved, before, e);
        KindMatchesCallee(c, sites[|sites| - 1]);
      }
    }
  }

  // ---------------------------------------------------------------- order independence

  /** The same groups, each with its members in any order. */
  ghost predicate SameGroups(a: Index, b: Index) {
    forall k :: multiset(Lookup(a, k)) == multiset(Lookup(b, k))
  }

  lemma SameSmallSequence<T>(xs: seq<T>, ys: seq<T>)
    requires multiset(xs) == multiset(ys)
    ensures |xs| == |ys| && (|xs| <= 1 ==> xs == ys)
  {
    SameElements(xs, ys);
    if |xs| == 1 { assert xs[0] in ys; }
  }

  lemma {:induction false} MethodsMultiset(xs: seq<Symbol>, s: Symbol)
    ensures multiset(Methods(xs))[s] == if s.symbolType == Method then multiset(xs)[s] else 0
  {
    if xs == [] {
    } else {
      MethodsMultiset(xs[1..], s);
      assert xs == [xs[0]] + xs[1..];
    }
  }

  lemma {:induction false} FirstMatchesSameGroups(names: seq<string>, a: Index, b: Index)
    requires SameGroups(a, b)
    ensures FirstMatches(names, a).Some? <==> FirstMatches(names, b).Some?
    ensures FirstMatches(names, a).Some? ==>
              multiset(FirstMatches(names, a).value) == multiset(FirstMatches(names, b).value)
  {
    if names == [] {
    } else {
      SameSmallSequence(Lookup(a, names[0]), Lookup(b, names[0]));
      FirstMatchesSameGroups(names[1..], a, b);
    }
  }

  lemma ResolveSameGroups(n: Naming, expression: string, caller: Symbol, parsed: ParsedFile,
                          qa: Index, na: Index, qb: Index, nb: Index)
    requires SameGroups(qa, qb) && SameGroups(na, nb)
    ensures Resolve(n, expression, caller, parsed, qa, na) == Resolve(n, expression, caller, parsed, qb, nb)
  {
    hide Resolve, SearchFor, Methods, FirstMatches, Lookup;
    var q := SearchFor(n, expression, caller, parsed);
    ResolveIsSearch(n, expression, caller, parsed, qa, na);
    ResolveIsSearch(n, expression, caller, parsed, qb, nb);
    var i := FirstMatchesFinds(q.names, qa);
    forall k ensures Lookup(qa, k) == [] <==> Lookup(qb, k) == [] {
      SameSmallSequence(Lookup(qa, k), Lookup(qb, k));
    }
    if FirstMatches(q.names, qa).Some? {
      assert FirstHit(q.names, qb, i);
      SameSmallSequence(Lookup(qa, q.names[i]), Lookup(qb, q.names[i]));
    } else {
      assert NoHit(q.names, qb);
      if q.methodName.Some? {
        var xs, ys := Lookup(na, q.methodName.value), Lookup(nb, q.methodName.value);
        forall s ensures multiset(Methods(xs))[s] == multiset(Methods(ys))[s] {
          MethodsMultiset(xs, s);
          MethodsMultiset(ys, s);
        }
        SameSmallSequence(Methods(xs), Methods(ys));
      }
    }
  }

  lemma {:induction false} GroupMultiset(symbols: seq<Symbol>, key: Symbol -> string, k: string, s: Symbol)
    ensures multiset(Lookup(GroupBy(symbols, key), k))[s] == if key(s) == k then multiset(symbols)[s] else 0
  {
    if symbols == [] {
    } else {
      var last := symbols[|symbols| - 1];
      GroupMultiset(symbols[..|symbols| - 1], key, k, s);
      assert symbols == symbols[..|symbols| - 1] + [last];
    }
  }

  lemma GroupsIgnoreOrder(a: seq<Symbol>, b: seq<Symbol>, key: Symbol -> string)
    requires multiset(a) == multiset(b)
    ensures SameGroups(GroupBy(a, key), GroupBy(b, key))
  {
    forall k ensures multiset(Lookup(GroupBy(a, key), k)) == multiset(Lookup(GroupBy(b, key), k)) {
      forall s
        ensures multiset(Lookup(GroupBy(a, key), k))[s] == multiset(Lookup(GroupBy(b, key), k))[s]
      {
        GroupMultiset(a, key, k, s);
        GroupMultiset(b, key, k, s);
      }
    }
  }

  /** The same parsed files: equal paths, modules and imports. Call sites are compared separately. */
  ghost predicate SameFiles(a: map<string, ParsedFile>, b: map<string, ParsedFile>) {
    && a.Keys == b.Keys
    && forall p :: p in a ==> a[p].(callSites := []) == b[p].(callSites := [])
  }

  lemma DirectImportIgnoresSites(f: ParsedFile, g: ParsedFile, item: Import, target: string)
    requires f.(callSites := []) == g.(callSites := [])
    ensures DirectFromImport(f, item, target) == DirectFromImport(g, item, target)
  {
    hide DirectFromNames;
  }

  lemma {:induction false} DirectImportsIgnoreSites(f: ParsedFile, g: ParsedFile, imports: seq<Import>, target: string)
    requires f.(callSites := []) == g.(callSites := [])
    ensures DirectImportCandidates(f, imports, target) == DirectImportCandidates(g, imports, target)
  {
    if imports == [] {
    } else {
      hide DirectFromImport;
      DirectImportsIgnoreSites(f, g, imports[..|imports| - 1], target);
      DirectImportIgnoresSites(f, g, imports[|imports| - 1], target);
    }
  }

  lemma QualifiedImportIgnoresSites(f: ParsedFile, g: ParsedFile, item: Import, parts: seq<string>)
    requires f.(callSites := []) == g.(callSites := []) && |parts| >= 1
    ensures QualifiedFromImport(f, item, parts) == QualifiedFromImport(g, item, parts)
  {
    hide PlainFromNames, QualifiedFromNames;
  }

  lemma {:induction false} QualifiedImportsIgnoreSites(f: ParsedFile, g: ParsedFile, imports: seq<Import>, parts: seq<string>)
    requires f.(callSites := []) == g.(callSites := []) && |parts| >= 1
    ensures QualifiedImportCandidates(f, imports, parts) == QualifiedImportCandidates(g, imports, parts)
  {
    if imports == [] {
    } else {
      hide QualifiedFromImport;
      QualifiedImportsIgnoreSites(f, g, imports[..|imports| - 1], parts);
      QualifiedImportIgnoresSites(f, g, imports[|imports| - 1], parts);
    }
  }

  lemma ResolveIgnoresSites(n: Naming, expression: string, caller: Symbol, f: ParsedFile, g: ParsedFile,
                            byQualified: Index, byName: Index)
    requires f.(callSites := []) == g.(callSites := [])
    ensures Resolve(n, expression, caller, f, byQualified, byName)
         == Resolve(n, expression, caller, g, byQualified, byName)
  {
    hide LocalCandidates, DirectImportCandidates, QualifiedImportCandidates, FirstMatches, ExactOrAmbiguous, Methods, Lookup,
         Join, Split, BeforeLastDot, MemberOf;
    DirectImportsIgnoreSites(f, g, f.imports, expression);
    if |Split(expression)| >= 1 { QualifiedImportsIgnoreSites(f, g, f.imports, Split(expression)); }
  }

  ghost predicate SameContexts(a: Context, b: Context) {
    && (a.naming, a.repository, a.version, a.commit) == (b.naming, b.repository, b.version, b.commit)
    && SameFiles(a.files, b.files)
    && SameGroups(a.byQualified, b.byQualified) && SameGroups(a.byName, b.byName)
  }

  lemma EdgeOfSame(a: Context, b: Context, site: CallSite)
    requires SameContexts(a, b)
    ensures EdgeOf(a, site) == EdgeOf(b, site)
  {
    SameSmallSequence(Lookup(a.byQualified, site.caller), Lookup(b.byQualified, site.caller));
    if |Lookup(a.byQualified, site.caller)| == 1 && site.filePath in a.files {
      var caller := Lookup(a.byQualified, site.caller)[0];
      var f, g := a.files[site.filePath], b.files[site.filePath];
      ResolveIgnoresSites(a.naming, site.expression, caller, f, g, a.byQualified, a.byName);
      ResolveSameGroups(a.naming, site.expression, caller, g, a.byQualified, a.byName, b.byQualified, b.byName);
    }
  }

  /** How often an edge occurs depends on how often its site occurs. */
  lemma {:induction false} EdgesOfSplit(c: Context, a: seq<CallSite>, b: seq<CallSite>)
    ensures EdgesOf(c, a + b) == EdgesOf(c, a) + EdgesOf(c, b)
  {
    if b == [] {
      assert a + b == a;
    } else {
      EdgesOfSplit(c, a, b[..|b| - 1]);
      assert (a + b)[..|a + b| - 1] == a + b[..|b| - 1];
    }
  }

  lemma EdgesOfOne(c: Context, site: CallSite)
    ensures EdgesOf(c, [site]) == if EdgeOf(c, site).Some? then [EdgeOf(c, site).value] else []
  {
    assert [site][..0] == [];
  }

  /** Moving a call site to the end keeps the edges. */
  lemma EdgesOfMoveToEnd(c: Context, before: seq<CallSite>, site: CallSite, after: seq<CallSite>)
    ensures multiset(EdgesOf(c, before + [site] + after)) == multiset(EdgesOf(c, before + after + [site]))
  {
    EdgesOfSplit(c, before + [site], after);
    EdgesOfSplit(c, before, [site]);
    EdgesOfSplit(c, before + after, [site]);
    EdgesOfSplit(c, before, after);
  }

  lemma AppendSame(a: Context, b: Context, xs: seq<CallSite>, ys: seq<CallSite>, site: CallSite)
    requires SameContexts(a, b) && multiset(EdgesOf(a, xs)) == multiset(EdgesOf(b, ys))
    ensures multiset(EdgesOf(a, xs + [site])) == multiset(EdgesOf(b, ys + [site]))
  {
    EdgesOfSplit(a, xs, [site]);
    EdgesOfSplit(b, ys, [site]);
    EdgesOfOne(a, site);
    EdgesOfOne(b, site);
    EdgeOfSame(a, b, site);
  }

  lemma {:induction false} EdgesIgnoreOrder(a: Context, b: Context, xs: seq<CallSite>, ys: seq<CallSite>)
    requires SameContexts(a, b) && multiset(xs) == multiset(ys)
    ensures multiset(EdgesOf(a, xs)) == multiset(EdgesOf(b, ys))
    decreases |xs|
  {
    SameElements(xs, ys);
    if xs == [] {
    } else {
      var init, last := xs[..|xs| - 1], xs[|xs| - 1];
      assert xs == init + [last];
      assert last in ys;
      var i :| 0 <= i < |ys| && ys[i] == last;
      var rest := ys[..i] + ys[i + 1..];
      assert ys == ys[..i] + [last] + ys[i + 1..];
      assert multiset(init) == multiset(rest) by {
        assert multiset(rest) == multiset(ys) - multiset{last};
        assert multiset(init) == multiset(xs) - multiset{last};
      }
      EdgesIgnoreOrder(a, b, init, rest);
      EdgesOfMoveToEnd(b, ys[..i], last, ys[i + 1..]);
      AppendSame(a, b, init, rest, last);
    }
  }

  lemma {:induction false} EdgeHasSite(c: Context, sites: seq<CallSite>, e: Edge) returns (site: CallSite)
    requires e in EdgesOf(c, sites)
    ensures site in sites && EdgeOf(c, site) == Some(e)
  {
    var last := sites[|sites| - 1];
    if EdgeOf(c, last) == Some(e) {
      site := last;
    } else {
      site := EdgeHasSite(c, sites[..|sites| - 1], e);
    }
  }

  /** An edge is a function of what its site fingerprint hashes. */
  lemma SameKeySameEdge(c: Context, s: CallSite, t: CallSite)
    requires Injective(c.naming) && EdgeOf(c, s).Some? && EdgeOf(c, t).Some?
    requires EdgeOf(c, s).value.siteFingerprint == EdgeOf(c, t).value.siteFingerprint
    ensures EdgeOf(c, s) == EdgeOf(c, t)
  {
    assert KeyOf(s) == KeyOf(t);
  }

  lemma SortKeyDeterminesEdge(c: Context, sites: seq<CallSite>)
    requires Injective(c.naming)
    ensures KeyDetermines(EdgeLe, EdgesOf(c, sites))
  {
    var es := EdgesOf(c, sites);
    forall a, b | a in es && b in es && EdgeLe(a, b) && EdgeLe(b, a) ensures a == b {
      EdgeLeBothWays(a, b);
      var s := EdgeHasSite(c, sites, a);
      var t := EdgeHasSite(c, sites, b);
      SameKeySameEdge(c, s, t);
    }
  }

  /**
   * Permuting files, symbols or call sites changes nothing: not the edge sequence, not a
   * count, not the fingerprint.
   */
  lemma GraphIgnoresOrder(n: Naming, repository: nat, version: nat, commit: string,
                          files: seq<ParsedFile>, files': seq<ParsedFile>,
                          symbols: seq<Symbol>, symbols': seq<Symbol>)
    requires Injective(n)
    requires multiset(symbols) == multiset(symbols')
    requires multiset(AllSites(files)) == multiset(AllSites(files'))
    requires SameFiles(FileIndex(files), FileIndex(files'))
    ensures GraphOf(n, repository, version, commit, files, symbols)
         == GraphOf(n, repository, version, commit, files', symbols')
  {
    var a := ContextOf(n, repository, version, commit, files, symbols);
    var b := ContextOf(n, repository, version, commit, files', symbols');
    GroupsIgnoreOrder(symbols, symbols', QualifiedNameOf);
    GroupsIgnoreOrder(symbols, symbols', NameOf);
    EdgesIgnoreOrder(a, b, AllSites(files), AllSites(files'));
    SameElements(AllSites(files), AllSites(files'));
    SameElements(EdgesOf(a, AllSites(files)), EdgesOf(b, AllSites(files')));
    EdgeLeIsTotalPreorder();
    SortKeyDeterminesEdge(a, AllSites(files));
    SortIgnoresOrder(EdgeLe, EdgesOf(a, AllSites(files)), EdgesOf(b, AllSites(files')));
  }

  // ---------------------------------------------------------------- files

  ghost predicate DistinctPaths(files: seq<ParsedFile>) {
    forall i, j :: 0 <= i < j < |files| ==> files[i].filePath != files[j].filePath
  }

  lemma {:induction false} IndexHolds(files: seq<ParsedFile>, i: nat)
    requires DistinctPaths(files) && i < |files|
    ensures files[i].filePath in FileIndex(files) && FileIndex(files)[files[i].filePath] == files[i]
  {
    var last := |files| - 1;
    if i == last {
    } else {
      IndexHolds(files[..last], i);
      assert files[i].filePath != files[last].filePath;
    }
  }

  lemma {:induction false} IndexHoldsOnly(files: seq<ParsedFile>, p: string)
    requires p in FileIndex(files)
    ensures FileIndex(files)[p] in files && FileIndex(files)[p].filePath == p
  {
    var last := |files| - 1;
    if p != files[last].filePath {
      IndexHoldsOnly(files[..last], p);
    }
  }

  lemma FileIndexFinds(files: seq<ParsedFile>)
    requires DistinctPaths(files)
    ensures forall f :: f in files ==> f.filePath in FileIndex(files) && FileIndex(files)[f.filePath] == f
    ensures forall p :: p in FileIndex(files) ==> FileIndex(files)[p] in files && FileIndex(files)[p].filePath == p
  {
    forall f | f in files ensures f.filePath in FileIndex(files) && FileIndex(files)[f.filePath] == f {
      var i :| 0 <= i < |files| && files[i] == f;
      IndexHolds(files, i);
    }
    forall p | p in FileIndex(files) ensures FileIndex(files)[p] in files && FileIndex(files)[p].filePath == p {
      IndexHoldsOnly(files, p);
    }
  }

  lemma {:induction false} SitesOfFile(files: seq<ParsedFile>, s: CallSite) returns (i: nat)
    requires s in AllSites(files)
    ensures i < |files| && s in files[i].callSites
  {
    if s in files[|files| - 1].callSites {
      i := |files| - 1;
    } else {
      i := SitesOfFile(files[..|files| - 1], s);
    }
  }

  lemma {:induction false} AllSitesSplit(a: seq<ParsedFile>, b: seq<ParsedFile>)
    ensures AllSites(a + b) == AllSites(a) + AllSites(b)
  {
    if b == [] {
      assert a + b == a;
    } else {
      var init, last := b[..|b| - 1], b[|b| - 1];
      AllSitesSplit(a, init);
      assert (a + b)[..|a + b| - 1] == a + init && (a + b)[|a + b| - 1] == last;
      assert AllSites(a + b) == AllSites(a + init) + last.callSites;
      assert AllSites(b) == AllSites(init) + last.callSites;
    }
  }

  lemma AllSitesOfOne(f: ParsedFile)
    ensures AllSites([f]) == f.callSites
  {
    assert [f][..0] == [];
  }

  lemma {:induction false} AllSitesIgnoreOrder(xs: seq<ParsedFile>, ys: seq<ParsedFile>)
    requires multiset(xs) == multiset(ys)
    ensures multiset(AllSites(xs)) == multiset(AllSites(ys))
    decreases |xs|
  {
    SameElements(xs, ys);
    if xs == [] {
    } else {
      var init, last := xs[..|xs| - 1], xs[|xs| - 1];
      assert last in ys;
      var i :| 0 <= i < |ys| && ys[i] == last;
      var before, after := ys[..i], ys[i + 1..];
      assert ys == before + [last] + after;
      assert multiset(init) == multiset(before + after) by {
        assert xs == init + [last];
        assert multiset(before + after) == multiset(ys) - multiset{last};
        assert multiset(init) == multiset(xs) - multiset{last};
      }
      AllSitesIgnoreOrder(init, before + after);
      AllSitesSplit(before, after);
      AllSitesSplit(before + [last], after);
      AllSitesSplit(before, [last]);
      AllSitesOfOne(last);
    }
  }

  /** With one parsed file per path, the order of files is irrelevant. */
  lemma GraphIgnoresFileAndSymbolOrder(n: Naming, repository: nat, version: nat, commit: string,
                                       files: seq<ParsedFile>, files': seq<ParsedFile>,
                                       symbols: seq<Symbol>, symbols': seq<Symbol>)
    requires Injective(n) && DistinctPaths(files) && DistinctPaths(files')
    requires multiset(symbols) == multiset(symbols') && multiset(files) == multiset(files')
    ensures GraphOf(n, repository, version, commit, files, symbols)
         == GraphOf(n, repository, version, commit, files', symbols')
  {
    FileIndexFinds(files);
    FileIndexFinds(files');
    SameElements(files, files');
    AllSitesIgnoreOrder(files, files');
    GraphIgnoresOrder(n, repository, version, commit, files, files', symbols, symbols');
  }

  /** Distinct sites per file and one file per path give distinct sites overall. */
  lemma {:induction false} SitesAreDistinctAcrossFiles(files: seq<ParsedFile>)
    requires DistinctPaths(files)
    requires forall f :: f in files ==> DistinctSiteKeys(f.callSites) && forall s :: s in f.callSites ==> s.filePath == f.filePath
    ensures DistinctSiteKeys(AllSites(files))
  {
    if files == [] {
    } else {
      var init, last := files[..|files| - 1], files[|files| - 1];
      SitesAreDistinctAcrossFiles(init);
      var sites := AllSites(files);
      forall i, j | 0 <= i < j < |sites| ensures KeyOf(sites[i]) != KeyOf(sites[j]) {
        if i < |AllSites(init)| <= j {
          var k := SitesOfFile(init, AllSites(init)[i]);
          assert files[k] in files && last in files;
          assert sites[j] == last.callSites[j - |AllSites(init)|];
        } else if i >= |AllSites(init)| {
          assert last in files;
          assert sites[i] == last.callSites[i - |AllSites(init)|] && sites[j] == last.callSites[j - |AllSites(init)|];
        } else {
          assert sites[i] == AllSites(init)[i] && sites[j] == AllSites(init)[j];
        }
      }
    }
  }

  // ---------------------------------------------------------------- store and read back

  /** Any result an ORDER BY on the sort key may return for a stored set of rows. */
  ghost predicate OrderedRead(rows: seq<Edge>, stored: set<Edge>) {
    Sorted(EdgeLe, rows) && multiset(rows) == multiset(stored)
  }

  ghost predicate UniqueSites(stored: set<Edge>) {
    forall a, b :: a in stored && b in stored && a.siteFingerprint == b.siteFingerprint ==> a == b
  }

  lemma {:induction false} ReadExists(stored: set<Edge>) returns (rows: seq<Edge>)
    ensures OrderedRead(rows, stored)
    decreases stored
  {
    EdgeLeIsTotalPreorder();
    if stored == {} {
      rows := [];
    } else {
      var e :| e in stored;
      var rest := ReadExists(stored - {e});
      rows := Insert(EdgeLe, e, rest);
      InsertIsSorted(EdgeLe, e, rest);
      assert multiset(stored) == multiset(stored - {e}) + multiset{e};
    }
  }

  /** The unique constraint on site fingerprints leaves an ordered read no freedom. */
  lemma ReadIsUnique(xs: seq<Edge>, ys: seq<Edge>, stored: set<Edge>)
    requires UniqueSites(stored) && OrderedRead(xs, stored) && OrderedRead(ys, stored)
    ensures xs == ys
  {
    EdgeLeIsTotalPreorder();
    forall a, b | a in xs && b in xs && EdgeLe(a, b) && EdgeLe(b, a) ensures a == b {
      EdgeLeBothWays(a, b);
      assert a in multiset(xs) && b in multiset(xs);
    }
    SortedIsUnique(EdgeLe, xs, ys);
  }

  lemma UniqueRowAppended(before: seq<Edge>, e: Edge)
    requires multiset(before) == multiset(set x | x in before) && UniqueSites(set x | x in before)
    requires forall x :: x in before ==> x.siteFingerprint != e.siteFingerprint
    ensures var es := before + [e]; multiset(es) == multiset(set x | x in es) && UniqueSites(set x | x in es)
  {
    assert (set x | x in before + [e]) == (set x | x in before) + {e};
    assert e !in (set x | x in before);
  }

  /** Distinct call sites give distinct rows, so no unique constraint fires. */
  lemma {:induction false} DistinctSitesDistinctRows(c: Context, sites: seq<CallSite>)
    requires Injective(c.naming) && DistinctSiteKeys(sites)
    ensures var es := EdgesOf(c, sites);
            && multiset(es) == multiset(set e | e in es)
            && UniqueSites(set e | e in es)
  {
    var es := EdgesOf(c, sites);
    if sites == [] {
    } else {
      var init := sites[..|sites| - 1];
      var last := sites[|sites| - 1];
      DistinctSitesDistinctRows(c, init);
      var before := EdgesOf(c, init);
      var edge := EdgeOf(c, last);
      if edge.Some? {
        forall e | e in before ensures e.siteFingerprint != edge.value.siteFingerprint {
          var site := EdgeHasSite(c, init, e);
          var k :| 0 <= k < |init| && init[k] == site;
          assert KeyOf(sites[k]) != KeyOf(sites[|sites| - 1]);
        }
        assert es == before + [edge.value];
        hide EdgesOf, EdgeOf;
        UniqueRowAppended(before, edge.value);
      }
    }
  }

  /**
   * Storing the edges as an unordered set and reading them back in the order of
   * `validate_graph` reproduces the edge sequence, every count and the fingerprint.
   */
  lemma StoreAndValidate(n: Naming, repository: nat, version: nat, commit: string,
                         files: seq<ParsedFile>, symbols: seq<Symbol>, rows: seq<Edge>)
    requires Injective(n) && DistinctSiteKeys(AllSites(files))
    requires var g := GraphOf(n, repository, version, commit, files, symbols);
             OrderedRead(rows, set e | e in g.edges)
    ensures var g := GraphOf(n, repository, version, commit, files, symbols);
            rows == g.edges && Summarize(rows) == g.summary
  {
    var c := ContextOf(n, repository, version, commit, files, symbols);
    var es := EdgesOf(c, AllSites(files));
    var g := GraphOf(n, repository, version, commit, files, symbols);
    DistinctSitesDistinctRows(c, AllSites(files));
    SameElements(es, g.edges);
    assert (set e | e in g.edges) == (set e | e in es);
    EdgeLeIsTotalPreorder();
    SortIsSorted(EdgeLe, es);
    ReadIsUnique(rows, g.edges, set e | e in g.edges);
  }

  lemma GroupedAreSymbols(symbols: seq<Symbol>, key: Symbol -> string, k: string, s: Symbol)
    requires s in Lookup(GroupBy(symbols, key), k)
    ensures s in symbols
  {
    GroupMultiset(symbols, key, k, s);
    assert s in multiset(Lookup(GroupBy(symbols, key), k));
    assert s in multiset(symbols);
  }

  /** Every edge refers to given symbols, so the foreign keys of the edge rows hold. */
  lemma EdgesReferToSymbols(c: Context, symbols: seq<Symbol>, sites: seq<CallSite>, e: Edge)
    requires c.byQualified == GroupBy(symbols, QualifiedNameOf) && c.byName == GroupBy(symbols, NameOf)
    requires e in EdgesOf(c, sites)
    ensures exists s :: s in symbols && e.caller == SymbolIdOf(c, s)
    ensures e.callee.Some? ==> exists s :: s in symbols && e.callee.value == SymbolIdOf(c, s)
    ensures e.commit == c.commit
  {
    var site := EdgeHasSite(c, sites, e);
    var (caller, r) := ResolutionOf(c, site).value;
    GroupedAreSymbols(symbols, QualifiedNameOf, site.caller, caller);
    if r.callee.Some? {
      var s := r.callee.value;
      CalleeIff(c.naming, site.expression, caller, c.files[site.filePath], c.byQualified, c.byName, s);
      var q := SearchFor(c.naming, site.expression, caller, c.files[site.filePath]);
      if i: nat :| FirstHit(q.names, c.byQualified, i) && Lookup(c.byQualified, q.names[i]) == [s] {
        GroupedAreSymbols(symbols, QualifiedNameOf, q.names[i], s);
      } else {
        MethodsMultiset(Lookup(c.byName, q.methodName.value), s);
        assert s in multiset(Methods(Lookup(c.byName, q.methodName.value)));
        GroupedAreSymbols(symbols, NameOf, q.methodName.value, s);
      }
      assert e.callee.value == SymbolIdOf(c, s);
    }
  }

  lemma EdgeIdsDiffer(c: Context, s: CallSite, t: CallSite)
    requires Injective(c.naming) && EdgeOf(c, s).Some? && EdgeOf(c, t).Some?
    requires EdgeOf(c, s).value.siteFingerprint != EdgeOf(c, t).value.siteFingerprint
    ensures EdgeOf(c, s).value.id != EdgeOf(c, t).value.id
  {
    hide ResolutionOf, SymbolIdOf;
  }

  lemma NoDuplicates(edges: seq<Edge>, i: nat, k: nat)
    requires multiset(edges) == multiset(set e | e in edges) && i < k < |edges|
    ensures edges[i] != edges[k]
  {
    assert edges == edges[..k] + [edges[k]] + edges[k + 1..];
    assert edges[i] == edges[..k][i];
    assert edges[i] in multiset(edges[..k]);
    assert multiset(edges)[edges[k]] == 1;
    assert edges[k] !in multiset(edges[..k]);
  }

  /** Neither edge ids nor site fingerprints repeat among the edges of a graph. */
  lemma EdgeRowsAreUnique(n: Naming, repository: nat, version: nat, commit: string,
                          files: seq<ParsedFile>, symbols: seq<Symbol>)
    requires Injective(n) && DistinctSiteKeys(AllSites(files))
    ensures var edges := GraphOf(n, repository, version, commit, files, symbols).edges;
            forall i, k :: 0 <= i < k < |edges| ==>
              edges[i].id != edges[k].id && edges[i].siteFingerprint != edges[k].siteFingerprint
  {
    var c := ContextOf(n, repository, version, commit, files, symbols);
    var sites := AllSites(files);
    var edges := GraphOf(n, repository, version, commit, files, symbols).edges;
    DistinctSitesDistinctRows(c, sites);
    SameElements(EdgesOf(c, sites), edges);
    assert (set e | e in edges) == (set e | e in EdgesOf(c, sites));
    hide GraphOf, DistinctSiteKeys, EdgeOf;
    forall i, k | 0 <= i < k < |edges|
      ensures edges[i].id != edges[k].id && edges[i].siteFingerprint != edges[k].siteFingerprint
    {
      NoDuplicates(edges, i, k);
      var a := EdgeHasSite(c, sites, edges[i]);
      var b := EdgeHasSite(c, sites, edges[k]);
      EdgeIdsDiffer(c, a, b);
    }
  }

  lemma GraphEdgesReferToSymbols(n: Naming, repository: nat, version: nat, commit: string,
                                 files: seq<ParsedFile>, symbols: seq<Symbol>, e: Edge)
    requires e in GraphOf(n, repository, version, commit, files, symbols).edges
    ensures var c := ContextOf(n, repository, version, commit, files, symbols);
            && (exists s :: s in symbols && e.caller == SymbolIdOf(c, s))
            && (e.callee.Some? ==> exists s :: s in symbols && e.callee.value == SymbolIdOf(c, s))
            && e.commit == commit
  {
    var c := ContextOf(n, repository, version, commit, files, symbols);
    SameElements(EdgesOf(c, AllSites(files)), GraphOf(n, repository, version, commit, files, symbols).edges);
    EdgesReferToSymbols(c, symbols, AllSites(files), e);
  }
}
