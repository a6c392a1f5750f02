/**
 * Construction of the static Python call graph (call_graph.py) and the recomputation
 * that validates the stored rows (validate_graph).
 *
 * The hashes are parameters of type `Naming`: SHA-256 and UUIDv5 enter the proofs only
 * through `Injective`. The graph fingerprint is modelled by the list that is hashed.
 */
module CallGraph {
  import opened Common
  import opened Sorting

  datatype SymbolType = Function | AsyncFunction | Class | Method | ModuleSymbol

  datatype Symbol = Symbol(
    filePath: string, symbolType: SymbolType, name: string, qualifiedName: string,
    startLine: nat, contentHash: string)

  datatype ImportAlias = ImportAlias(name: string, alias: Option<string>)

  datatype Import = Import(imported: Option<string>, relativeLevel: nat, names: seq<ImportAlias>)

  datatype CallSite = CallSite(
    filePath: string, moduleName: string, caller: string, expression: string,
    startLine: nat, endLine: nat, startColumn: nat)

  /** `packageFile` says that the stem of the path is `__init__`. */
  datatype ParsedFile = ParsedFile(
    filePath: string, moduleName: string, packageFile: bool, imports: seq<Import>, callSites: seq<CallSite>)

  datatype ResolutionType =
    | ExactSameFile | ExactDirectImport | QualifiedModule | ProbableMethod | Ambiguous | Unresolved

  datatype Confidence = High | Medium | Low

  datatype Resolution = Resolution(callee: Option<Symbol>, kind: ResolutionType, confidence: Confidence)

  /** What a symbol id hashes, and what a call-site fingerprint hashes. */
  datatype SymbolIdentity = SymbolIdentity(
    repository: nat, version: nat, filePath: string, qualifiedName: string, startLine: nat, contentHash: string)

  datatype SiteKey = SiteKey(
    filePath: string, caller: string, expression: string, startLine: nat, endLine: nat, startColumn: nat)

  datatype Naming = Naming(
    isIdentifier: string -> bool,
    symbolId: SymbolIdentity -> string,
    siteDigest: SiteKey -> string,
    edgeId: (nat, nat, string, string) -> string)

  ghost predicate Injective(n: Naming) {
    && (forall a, b :: n.symbolId(a) == n.symbolId(b) ==> a == b)
    && (forall a, b :: n.siteDigest(a) == n.siteDigest(b) ==> a == b)
    && (forall r, v, x, f, r', v', x', f' :: n.edgeId(r, v, x, f) == n.edgeId(r', v', x', f') ==> (r, v, x, f) == (r', v', x', f'))
  }

  datatype Edge = Edge(
    id: string, caller: string, callee: Option<string>, unresolvedName: Option<string>, filePath: string,
    callLine: nat, callEndLine: nat, expression: string, siteFingerprint: string,
    kind: ResolutionType, confidence: Confidence, commit: string)

  datatype FingerprintLine = FingerprintLine(
    id: string, caller: string, callee: Option<string>, siteFingerprint: string,
    kind: ResolutionType, confidence: Confidence)

  /** The counts and the fingerprint that a build row stores. */
  datatype GraphSummary = GraphSummary(
    callSites: nat, exact: nat, ambiguous: nat, unresolved: nat, fingerprint: seq<FingerprintLine>)

  datatype Graph = Graph(edges: seq<Edge>, summary: GraphSummary, warnings: nat)

  type Index = map<string, seq<Symbol>>

  // ---------------------------------------------------------------- dotted names

  function Split(s: string): (r: seq<string>)
    ensures |r| >= 1
  {
    if s == [] then [""]
    else
      var rest := Split(s[1..]);
      if s[0] == '.' then [""] + rest else [[s[0]] + rest[0]] + rest[1..]
  }

  function Join(parts: seq<string>): string {
    if parts == [] then ""
    else if |parts| == 1 then parts[0]
    else parts[0] + "." + Join(parts[1..])
  }

  /** `s.rpartition(".")[0]` */
  function BeforeLastDot(s: string): (r: string)
    ensures s != [] ==> |r| < |s|
  {
    if s == [] then ""
    else if s[|s| - 1] == '.' then s[..|s| - 1]
    else BeforeLastDot(s[..|s| - 1])
  }

  function StripDots(s: string): string
    decreases |s|
  {
    if s != [] && s[0] == '.' then StripDots(s[1..])
    else if s != [] && s[|s| - 1] == '.' then StripDots(s[..|s| - 1])
    else s
  }

  function MemberOf(scope: string, name: string): string {
    scope + "." + name
  }

  predicate StartsWith(s: string, prefix: string) {
    |prefix| <= |s| && s[..|prefix|] == prefix
  }

  function NonEmpty(parts: seq<string>): seq<string> {
    if parts == [] then []
    else (if parts[0] == "" then [] else [parts[0]]) + NonEmpty(parts[1..])
  }

  /** `".".join(filter(None, parts))` */
  function JoinNonEmpty(parts: seq<string>): string {
    Join(NonEmpty(parts))
  }

  // ---------------------------------------------------------------- candidates

  function LocalCandidates(parent: string, moduleName: string, target: string): seq<string>
    decreases |parent|
  {
    if parent == "" || !(parent == moduleName || StartsWith(parent, moduleName + ".")) then []
    else if parent == moduleName then [MemberOf(parent, target)]
    else [MemberOf(parent, target)] + LocalCandidates(BeforeLastDot(parent), moduleName, target)
  }

  lemma FurtherCandidates(parent: string, moduleName: string, target: string) returns (rest: seq<string>)
    requires parent != "" && (parent == moduleName || StartsWith(parent, moduleName + "."))
    ensures rest == if parent == moduleName then [] else LocalCandidates(BeforeLastDot(parent), moduleName, target)
    ensures LocalCandidates(parent, moduleName, target) == [MemberOf(parent, target)] + rest
  {
    rest := if parent == moduleName then [] else LocalCandidates(BeforeLastDot(parent), moduleName, target);
  }

  lemma NoFurtherCandidates(parent: string, moduleName: string, target: string)
    requires parent == "" || !(parent == moduleName || StartsWith(parent, moduleName + "."))
    ensures LocalCandidates(parent, moduleName, target) == []
  {
  }

  method CollectLocalCandidates(caller: Symbol, moduleName: string, target: string) returns (candidates: seq<string>)
    ensures candidates == LocalCandidates(caller.qualifiedName, moduleName, target)
  {
    hide LocalCandidates, StartsWith, MemberOf, BeforeLastDot;
    var parent := caller.qualifiedName;
    candidates := [];
    while parent != "" && (parent == moduleName || StartsWith(parent, moduleName + "."))
      invariant candidates + LocalCandidates(parent, moduleName, target)
             == LocalCandidates(caller.qualifiedName, moduleName, target)
      decreases |parent|
    {
      ghost var rest := FurtherCandidates(parent, moduleName, target);
      assert candidates + ([MemberOf(parent, target)] + rest) == (candidates + [MemberOf(parent, target)]) + rest;
      candidates := candidates + [MemberOf(parent, target)];
      if parent == moduleName {
        return;
      }
      parent := BeforeLastDot(parent);
    }
    NoFurtherCandidates(parent, moduleName, target);
  }

  function PackageOf(parsed: ParsedFile): string {
    if parsed.packageFile then parsed.moduleName else BeforeLastDot(parsed.moduleName)
  }

  function AbsoluteModule(parsed: ParsedFile, item: Import): string {
    var name := if item.imported.Some? then item.imported.value else "";
    if item.relativeLevel == 0 then name
    else
      var package := PackageOf(parsed);
      var parts := if package == "" then [] else Split(package);
      var ascend := item.relativeLevel - 1;
      var base := if ascend == 0 then parts
                  else if ascend <= |parts| then parts[..|parts| - ascend] else [];
      StripDots(Join(base + Split(name)))
  }

  function Binding(a: ImportAlias): string {
    if a.alias.Some? && a.alias.value != "" then a.alias.value else a.name
  }

  function DirectCandidate(base: string, a: ImportAlias, target: string): seq<string> {
    if a.name == "*" || Binding(a) != target then [] else [JoinNonEmpty([base, a.name])]
  }

  function DirectFromNames(base: string, names: seq<ImportAlias>, target: string): seq<string> {
    if names == [] then []
    else DirectFromNames(base, names[..|names| - 1], target) + DirectCandidate(base, names[|names| - 1], target)
  }

  function DirectFromImport(parsed: ParsedFile, item: Import, target: string): seq<string> {
    if item.imported.None? && item.relativeLevel == 0 then []
    else DirectFromNames(AbsoluteModule(parsed, item), item.names, target)
  }

  function DirectImportCandidates(parsed: ParsedFile, imports: seq<Import>, target: string): seq<string> {
    if imports == [] then []
    else
      DirectImportCandidates(parsed, imports[..|imports| - 1], target) +
      DirectFromImport(parsed, imports[|imports| - 1], target)
  }

  method CollectDirectImportCandidates(parsed: ParsedFile, target: string) returns (result: seq<string>)
    ensures result == DirectImportCandidates(parsed, parsed.imports, target)
  {
    hide AbsoluteModule, DirectCandidate;
    result := [];
    for i := 0 to |parsed.imports|
      invariant result == DirectImportCandidates(parsed, parsed.imports[..i], target)
    {
      var item := parsed.imports[i];
      assert parsed.imports[..i + 1][..i] == parsed.imports[..i];
      if item.imported.None? && item.relativeLevel == 0 {
        continue;
      }
      var base := AbsoluteModule(parsed, item);
      var found := [];
      for k := 0 to |item.names|
        invariant found == DirectFromNames(base, item.names[..k], target)
      {
        assert item.names[..k + 1][..k] == item.names[..k];
        found := found + DirectCandidate(base, item.names[k], target);
      }
      assert item.names[..|item.names|] == item.names;
      result := result + found;
    }
    assert parsed.imports[..|parsed.imports|] == parsed.imports;
  }

  /** `import a.b` binds `a`; `import a.b as c` binds `c` to `a.b`. */
  function PlainCandidate(a: ImportAlias, parts: seq<string>): seq<string>
    requires |parts| >= 1
  {
    var aliased := a.alias.Some? && a.alias.value != "";
    var binding := if aliased then a.alias.value else Split(a.name)[0];
    if binding != parts[0] then []
    else [Join([if aliased then a.name else parts[0]] + parts[1..])]
  }

  function QualifiedCandidate(base: string, a: ImportAlias, parts: seq<string>): seq<string>
    requires |parts| >= 1
  {
    if a.name == "*" || Binding(a) != parts[0] then [] else [JoinNonEmpty([base, a.name] + parts[1..])]
  }

  function PlainFromNames(names: seq<ImportAlias>, parts: seq<string>): seq<string>
    requires |parts| >= 1
  {
    if names == [] then []
    else PlainFromNames(names[..|names| - 1], parts) + PlainCandidate(names[|names| - 1], parts)
  }

  function QualifiedFromNames(base: string, names: seq<ImportAlias>, parts: seq<string>): seq<string>
    requires |parts| >= 1
  {
    if names == [] then []
    else QualifiedFromNames(base, names[..|names| - 1], parts) + QualifiedCandidate(base, names[|names| - 1], parts)
  }

  function QualifiedFromImport(parsed: ParsedFile, item: Import, parts: seq<string>): seq<string>
    requires |parts| >= 1
  {
    if item.imported.None? && item.relativeLevel == 0 then PlainFromNames(item.names, parts)
    else QualifiedFromNames(AbsoluteModule(parsed, item), item.names, parts)
  }

  function QualifiedImportCandidates(parsed: ParsedFile, imports: seq<Import>, parts: seq<string>): seq<string>
    requires |parts| >= 1
  {
    if imports == [] then []
    else
      QualifiedImportCandidates(parsed, imports[..|imports| - 1], parts) +
      QualifiedFromImport(parsed, imports[|imports| - 1], parts)
  }

  /** The inner loop over the names of one import. */
  method CollectFromNames(plain: bool, base: string, names: seq<ImportAlias>, parts: seq<string>) returns (found: seq<string>)
    requires |parts| >= 1
    ensures found == if plain then PlainFromNames(names, parts) else QualifiedFromNames(base, names, parts)
  {
    hide PlainCandidate, QualifiedCandidate;
    found := [];
    for k := 0 to |names|
      invariant found == if plain then PlainFromNames(names[..k], parts) else QualifiedFromNames(base, names[..k], parts)
    {
      assert names[..k + 1][..k] == names[..k];
      found := found + if plain then PlainCandidate(names[k], parts) else QualifiedCandidate(base, names[k], parts);
    }
    assert names[..|names|] == names;
  }

  method CollectQualifiedImportCandidates(parsed: ParsedFile, parts: seq<string>) returns (result: seq<string>)
    requires |parts| >= 1
    ensures result == QualifiedImportCandidates(parsed, parsed.imports, parts)
  {
    hide AbsoluteModule, PlainFromNames, QualifiedFromNames;
    result := [];
    for i := 0 to |parsed.imports|
      invariant result == QualifiedImportCandidates(parsed, parsed.imports[..i], parts)
    {
      var item := parsed.imports[i];
      assert parsed.imports[..i + 1][..i] == parsed.imports[..i];
      var plain := item.imported.None? && item.relativeLevel == 0;
      var base := if plain then "" else AbsoluteModule(parsed, item);
      var found := CollectFromNames(plain, base, item.names, parts);
      result := result + found;
    }
    assert parsed.imports[..|parsed.imports|] == parsed.imports;
  }

  // ---------------------------------------------------------------- what the candidates mean

  /** A component of a dotted name. */
  predicate Plain(s: string) {
    s != "" && '.' !in s
  }

  predicate AllPlain(parts: seq<string>) {
    forall i :: 0 <= i < |parts| ==> Plain(parts[i])
  }

  lemma {:induction false} JoinAppend(a: seq<string>, b: seq<string>)
    ensures Join(a + b) == if a == [] then Join(b) else if b == [] then Join(a) else Join(a) + "." + Join(b)
  {
    if a == [] {
      assert a + b == b;
    } else if b == [] {
      assert a + b == a;
    } else {
      JoinAppend(a[1..], b);
      assert (a + b)[1..] == a[1..] + b;
      if |a| > 1 {
        assert Join(a) + "." + Join(b) == a[0] + "." + (Join(a[1..]) + "." + Join(b));
      }
    }
  }

  lemma {:induction false} SplitDotFree(s: string)
    requires '.' !in s
    ensures Split(s) == [s]
  {
    if s == [] {
    } else {
      SplitDotFree(s[1..]);
      assert [s[0]] + s[1..] == s;
    }
  }

  lemma {:induction false} SplitFirst(s: string, rest: string)
    requires '.' !in s
    ensures Split(s + "." + rest) == [s] + Split(rest)
  {
    if s == [] {
      assert s + "." + rest == ['.'] + rest;
      assert (['.'] + rest)[1..] == rest;
    } else {
      SplitFirst(s[1..], rest);
      assert (s + "." + rest)[1..] == s[1..] + "." + rest;
      assert [s[0]] + s[1..] == s;
    }
  }

  lemma {:induction false} SplitJoin(parts: seq<string>)
    requires AllPlain(parts) && parts != []
    ensures Split(Join(parts)) == parts
  {
    if |parts| == 1 {
      SplitDotFree(parts[0]);
    } else {
      SplitJoin(parts[1..]);
      SplitFirst(parts[0], Join(parts[1..]));
    }
  }

  lemma {:induction false} BeforeLastDotDotFree(s: string)
    requires '.' !in s
    ensures BeforeLastDot(s) == ""
  {
    if s == [] {
    } else {
      BeforeLastDotDotFree(s[..|s| - 1]);
    }
  }

  lemma {:induction false} BeforeLastDotAppend(s: string, last: string)
    requires '.' !in last
    ensures BeforeLastDot(s + "." + last) == s
  {
    var whole := s + "." + last;
    if last == [] {
      assert whole[..|whole| - 1] == s;
    } else {
      BeforeLastDotAppend(s, last[..|last| - 1]);
      assert whole[..|whole| - 1] == s + "." + last[..|last| - 1];
    }
  }

  lemma JoinFew(s: string)
    ensures Join([]) == "" && Join([s]) == s
  {
  }

  /** Leaving the last component of a dotted name. */
  lemma BeforeLastDotJoin(parts: seq<string>)
    requires AllPlain(parts) && parts != []
    ensures BeforeLastDot(Join(parts)) == Join(parts[..|parts| - 1])
  {
    hide Join, BeforeLastDot;
    var before, last := parts[..|parts| - 1], parts[|parts| - 1];
    assert parts == before + [last];
    assert Plain(last);
    JoinAppend(before, [last]);
    JoinFew(last);
    if before == [] {
      BeforeLastDotDotFree(last);
    } else {
      BeforeLastDotAppend(Join(before), last);
    }
  }

  lemma {:induction false} JoinEnds(parts: seq<string>)
    requires AllPlain(parts) && parts != []
    ensures Join(parts) != "" && Join(parts)[0] != '.' && Join(parts)[|Join(parts)| - 1] != '.'
  {
    if |parts| == 1 {
      assert Plain(parts[0]);
    } else {
      JoinEnds(parts[1..]);
      assert Plain(parts[0]);
    }
  }

  lemma StripDotsJoin(parts: seq<string>)
    requires AllPlain(parts)
    ensures StripDots(Join(parts)) == Join(parts) && StripDots(Join(parts + [""])) == Join(parts)
  {
    if parts == [] {
    } else {
      JoinEnds(parts);
      JoinAppend(parts, [""]);
      var s := Join(parts);
      assert s + "." + "" == s + ".";
      assert (s + ".")[..|s|] == s;
    }
  }

  /** The package that relative imports of a file start from, by the parts of its module name. */
  lemma PackageParts(parsed: ParsedFile, here: seq<string>)
    requires AllPlain(here) && parsed.moduleName == Join(here)
    ensures var parts := if parsed.packageFile || here == [] then here else here[..|here| - 1];
            && PackageOf(parsed) == Join(parts)
            && (if PackageOf(parsed) == "" then [] else Split(PackageOf(parsed))) == parts
  {
    var parts := if parsed.packageFile || here == [] then here else here[..|here| - 1];
    if here != [] { BeforeLastDotJoin(here); }
    if parts != [] {
      SplitJoin(parts);
      JoinEnds(parts);
    }
  }

  lemma PlainPrefix(parts: seq<string>, some: seq<string>)
    requires AllPlain(parts) && some <= parts
    ensures AllPlain(some)
  {
  }

  lemma BaseAndName(base: seq<string>, name: seq<string>)
    requires AllPlain(base) && AllPlain(name)
    ensures StripDots(Join(base + Split(Join(name)))) == Join(base + name)
  {
    hide StripDots;
    if name == [] {
      assert Split("") == [""];
      StripDotsJoin(base);
      assert base + name == base;
    } else {
      SplitJoin(name);
      StripDotsJoin(base + name);
    }
  }

  /**
   * Relative imports as in PEP 328: one dot is the package of the file, each further dot one package
   * up, and above the topmost package there is nothing; the name of the module follows.
   */
  lemma RelativeImport(parsed: ParsedFile, item: Import, here: seq<string>, name: seq<string>)
    requires AllPlain(here) && parsed.moduleName == Join(here)
    requires AllPlain(name) && Join(name) == if item.imported.Some? then item.imported.value else ""
    ensures item.relativeLevel == 0 ==> AbsoluteModule(parsed, item) == Join(name)
    ensures item.relativeLevel >= 1 ==>
              var package := if parsed.packageFile || here == [] then here else here[..|here| - 1];
              var up := item.relativeLevel - 1;
              AbsoluteModule(parsed, item) == Join((if up <= |package| then package[..|package| - up] else []) + name)
  {
    hide Join, Split, StripDots, PackageOf, AllPlain;
    if item.relativeLevel >= 1 {
      PackageParts(parsed, here);
      var package := if parsed.packageFile || here == [] then here else here[..|here| - 1];
      var up := item.relativeLevel - 1;
      var base := if up <= |package| then package[..|package| - up] else [];
      assert up == 0 ==> base == package;
      PlainPrefix(here, base);
      BaseAndName(base, name);
    }
  }

  lemma StartsWithModule(here: seq<string>, scope: seq<string>)
    requires AllPlain(here) && AllPlain(scope) && here != []
    ensures Join(here + scope) != ""
    ensures scope == [] <==> Join(here + scope) == Join(here)
    ensures scope != [] ==> StartsWith(Join(here + scope), Join(here) + ".")
  {
    JoinAppend(here, scope);
    JoinEnds(here);
    if scope == [] { assert here + scope == here; }
  }

  lemma InScope(here: seq<string>, scope: seq<string>, target: string)
    requires here != []
    ensures MemberOf(Join(here + scope), target) == Join(here + scope + [target])
  {
    hide Join;
    JoinAppend(here + scope, [target]);
    JoinFew(target);
  }

  /** A plain name is looked up in the scope of the caller, then in each enclosing one, and last in the module. */
  lemma {:induction false} LocalScopes(here: seq<string>, scope: seq<string>, target: string)
    requires AllPlain(here) && AllPlain(scope) && here != []
    ensures var names := LocalCandidates(Join(here + scope), Join(here), target);
            && |names| == |scope| + 1
            && forall k :: 0 <= k <= |scope| ==> names[k] == Join(here + scope[..|scope| - k] + [target])
  {
    hide Join, BeforeLastDot, StartsWith;
    StartsWithModule(here, scope);
    InScope(here, scope, target);
    assert scope[..|scope|] == scope;
    if scope == [] {
    } else {
      var outer := scope[..|scope| - 1];
      BeforeLastDotJoin(here + scope);
      assert (here + scope)[..|here + scope| - 1] == here + outer;
      LocalScopes(here, outer, target);
      forall j | 0 <= j <= |outer| ensures scope[..j] == outer[..j] {}
    }
  }

  lemma {:induction false} NonEmptyPlain(parts: seq<string>)
    requires AllPlain(parts)
    ensures NonEmpty(parts) == parts
  {
    if parts == [] {
    } else {
      NonEmptyPlain(parts[1..]);
      assert Plain(parts[0]);
    }
  }

  /** The module and the name that an alias of a `from` import stands for, as one dotted name. */
  lemma ImportedName(base: seq<string>, rest: seq<string>)
    requires AllPlain(base) && AllPlain(rest)
    ensures JoinNonEmpty([Join(base)] + rest) == Join(base + rest)
  {
    NonEmptyPlain(rest);
    if base == [] {
      assert base + rest == rest;
      assert ([Join(base)] + rest)[1..] == rest;
    } else {
      JoinEnds(base);
      assert ([Join(base)] + rest)[1..] == rest;
      JoinAppend(base, rest);
      JoinAppend([Join(base)], rest);
    }
  }

  /** An alias of an import that binds a name in the importing file. */
  predicate Binds(item: Import, k: nat, target: string) {
    && k < |item.names| && item.names[k].name != "*" && (item.imported.Some? || item.relativeLevel > 0)
    && target == match item.names[k].alias
                 case Some(alias) => if alias == "" then item.names[k].name else alias
                 case None => item.names[k].name
  }

  /** Earlier in the file: an earlier import, or an earlier alias of the same. */
  predicate Earlier(i: nat, k: nat, i': nat, k': nat) {
    i < i' || (i == i' && k < k')
  }

  lemma BoundFrom(item: Import, k: nat, target: string)
    requires Binds(item, k, target)
    ensures k < |item.names| && (item.imported.Some? || item.relativeLevel > 0)
  {
  }

  lemma CandidateIff(base: string, item: Import, k: nat, target: string)
    requires k < |item.names| && (item.imported.Some? || item.relativeLevel > 0)
    ensures DirectCandidate(base, item.names[k], target)
         == if Binds(item, k, target) then [JoinNonEmpty([base, item.names[k].name])] else []
  {
    hide JoinNonEmpty;
  }

  lemma {:induction false} NoNames(base: string, item: Import, names: seq<ImportAlias>, target: string)
    requires |names| <= |item.names| && names == item.names[..|names|] && (item.imported.Some? || item.relativeLevel > 0)
    requires forall k :: 0 <= k < |names| ==> !Binds(item, k, target)
    ensures DirectFromNames(base, names, target) == []
  {
    hide Binds, DirectCandidate, JoinNonEmpty;
    if names == [] {
    } else {
      NoNames(base, item, names[..|names| - 1], target);
      CandidateIff(base, item, |names| - 1, target);
    }
  }

  lemma {:induction false} NamesBefore(base: string, item: Import, names: seq<ImportAlias>, k: nat, target: string)
    requires k < |names| <= |item.names| && names == item.names[..|names|] && Binds(item, k, target)
    requires forall k' :: 0 <= k' < k ==> !Binds(item, k', target)
    ensures DirectFromNames(base, names, target) != []
    ensures DirectFromNames(base, names, target)[0] == JoinNonEmpty([base, names[k].name])
  {
    BoundFrom(item, k, target);
    hide Binds, DirectCandidate, JoinNonEmpty;
    CandidateIff(base, item, |names| - 1, target);
    var before := names[..|names| - 1];
    if k < |before| {
      NamesBefore(base, item, before, k, target);
    } else {
      NoNames(base, item, before, target);
    }
  }

  lemma {:induction false} NoImports(parsed: ParsedFile, imports: seq<Import>, target: string)
    requires forall i, k :: 0 <= i < |imports| && 0 <= k < |imports[i].names| ==> !Binds(imports[i], k, target)
    ensures DirectImportCandidates(parsed, imports, target) == []
  {
    hide AbsoluteModule;
    if imports == [] {
    } else {
      var item := imports[|imports| - 1];
      NoImports(parsed, imports[..|imports| - 1], target);
      if item.imported.Some? || item.relativeLevel > 0 { NoNames(AbsoluteModule(parsed, item), item, item.names, target); }
    }
  }

  lemma BoundInside(item: Import, k: nat, target: string)
    requires Binds(item, k, target)
    ensures k < |item.names|
  {
  }

  lemma OneImport(parsed: ParsedFile, item: Import, k: nat, target: string)
    requires Binds(item, k, target) && forall k' :: 0 <= k' < k ==> !Binds(item, k', target)
    ensures DirectFromImport(parsed, item, target) != []
    ensures DirectFromImport(parsed, item, target)[0] == JoinNonEmpty([AbsoluteModule(parsed, item), item.names[k].name])
  {
    BoundFrom(item, k, target);
    hide Binds, AbsoluteModule, JoinNonEmpty, DirectFromNames;
    assert item.names[..|item.names|] == item.names;
    NamesBefore(AbsoluteModule(parsed, item), item, item.names, k, target);
  }

  /** The first import that binds a name says what the name stands for first. */
  lemma {:induction false} FirstBinding(parsed: ParsedFile, imports: seq<Import>, i: nat, k: nat, target: string)
    requires i < |imports| && Binds(imports[i], k, target)
    requires forall i', k' :: 0 <= i' <= i && 0 <= k' < |imports[i'].names| && Earlier(i', k', i, k) ==> !Binds(imports[i'], k', target)
    ensures DirectImportCandidates(parsed, imports, target) != []
    ensures DirectImportCandidates(parsed, imports, target)[0]
         == JoinNonEmpty([AbsoluteModule(parsed, imports[i]), imports[i].names[k].name])
  {
    hide AbsoluteModule, Binds;
    var before, last := imports[..|imports| - 1], imports[|imports| - 1];
    if i < |before| {
      FirstBinding(parsed, before, i, k, target);
    } else {
      NoImports(parsed, before, target);
      forall k' | 0 <= k' < k ensures !Binds(last, k', target) { BoundInside(last, k, target); }
      OneImport(parsed, last, k, target);
    }
  }

  /** An alias of an import that binds the first component of an attribute call. */
  predicate BindsHead(item: Import, k: nat, head: string) {
    && k < |item.names|
    && if item.imported.Some? || item.relativeLevel > 0 then Binds(item, k, head)
       else if item.names[k].alias.Some? && item.names[k].alias.value != "" then item.names[k].alias.value == head
       else item.names[k].name == head || StartsWith(item.names[k].name, head + ".")
  }

  lemma EmptyComponent(rest: string)
    ensures Split(rest)[0] == "" <==> rest == [] || rest[0] == '.'
  {
  }

  lemma StartsWithTail(s: string, prefix: string)
    requires s != [] && prefix != [] && s[0] == prefix[0]
    ensures StartsWith(s, prefix) <==> StartsWith(s[1..], prefix[1..])
  {
    if |prefix| <= |s| {
      assert s[..|prefix|] == [s[0]] + s[1..][..|prefix| - 1];
      assert prefix == [prefix[0]] + prefix[1..];
    }
  }

  lemma {:induction false} FirstComponent(name: string, head: string)
    requires Plain(head)
    ensures Split(name)[0] == head <==> name == head || StartsWith(name, head + ".")
  {
    if |head| == 1 {
      if name != [] && name[0] == head[0] {
        assert name == head <==> name[1..] == [];
        assert |name| > 1 ==> name[..2] == [name[0], name[1]];
        assert head + "." == [head[0], '.'];
        EmptyComponent(name[1..]);
      }
    } else if name != [] && name[0] == head[0] {
      FirstComponent(name[1..], head[1..]);
      assert name == [name[0]] + name[1..] && head == [head[0]] + head[1..];
      StartsWithTail(name, head + ".");
      assert (head + ".")[1..] == head[1..] + ".";
    }
  }

  /** The path of names that an alias stands for: its module, from the package of the file on, and its name. */
  ghost predicate StandsFor(parsed: ParsedFile, item: Import, k: nat, here: seq<string>, name: seq<string>, path: seq<string>) {
    && k < |item.names| && AllPlain(here) && AllPlain(name) && parsed.moduleName == Join(here)
    && if item.imported.Some? || item.relativeLevel > 0 then
         var package := if parsed.packageFile || here == [] then here else here[..|here| - 1];
         var base := if item.relativeLevel == 0 || item.relativeLevel > |package| then []
                     else package[..|package| - (item.relativeLevel - 1)];
         && Join(name) == (if item.imported.Some? then item.imported.value else "") && Plain(item.names[k].name)
         && path == base + name + [item.names[k].name]
       else
         && name != [] && Join(name) == item.names[k].name
         && path == if item.names[k].alias.Some? && item.names[k].alias.value != "" then name else [name[0]]
  }

  lemma BaseOfImport(parsed: ParsedFile, item: Import, k: nat, here: seq<string>, name: seq<string>, path: seq<string>)
    requires StandsFor(parsed, item, k, here, name, path) && (item.imported.Some? || item.relativeLevel > 0)
    ensures path != [] && AllPlain(path) && path[|path| - 1] == item.names[k].name
    ensures AbsoluteModule(parsed, item) == Join(path[..|path| - 1])
  {
    hide Join, AbsoluteModule;
    RelativeImport(parsed, item, here, name);
    var package := if parsed.packageFile || here == [] then here else here[..|here| - 1];
    var up := item.relativeLevel - 1;
    assert item.relativeLevel == 0 ==> [] + name == name;
    assert item.relativeLevel > 0 && up == |package| ==> package[..|package| - up] == [];
    assert path == path[..|path| - 1] + [item.names[k].name];
  }

  /** The first binding of a name in a file decides which symbol the name is looked up as first. */
  lemma DirectStandsFor(parsed: ParsedFile, i: nat, k: nat, target: string, here: seq<string>, name: seq<string>, path: seq<string>)
    requires i < |parsed.imports| && Binds(parsed.imports[i], k, target)
    requires StandsFor(parsed, parsed.imports[i], k, here, name, path)
    requires forall i', k' :: 0 <= i' <= i && 0 <= k' < |parsed.imports[i'].names| && Earlier(i', k', i, k) ==>
               !Binds(parsed.imports[i'], k', target)
    ensures DirectImportCandidates(parsed, parsed.imports, target) != []
    ensures DirectImportCandidates(parsed, parsed.imports, target)[0] == Join(path)
  {
    var item := parsed.imports[i];
    FirstBinding(parsed, parsed.imports, i, k, target);
    BaseOfImport(parsed, item, k, here, name, path);
    hide Join, AbsoluteModule, StandsFor;
    ImportedName(path[..|path| - 1], [item.names[k].name]);
    assert path == path[..|path| - 1] + [item.names[k].name];
    assert [Join(path[..|path| - 1])] + [item.names[k].name] == [Join(path[..|path| - 1]), item.names[k].name];
  }

  lemma PlainIff(item: Import, k: nat, parts: seq<string>)
    requires k < |item.names| && item.imported.None? && item.relativeLevel == 0 && |parts| >= 1 && Plain(parts[0])
    ensures |PlainCandidate(item.names[k], parts)| == if BindsHead(item, k, parts[0]) then 1 else 0
  {
    FirstComponent(item.names[k].name, parts[0]);
    hide Split, Join, StartsWith, Binds;
  }

  lemma QualifiedIff(base: string, item: Import, k: nat, parts: seq<string>)
    requires k < |item.names| && (item.imported.Some? || item.relativeLevel > 0) && |parts| >= 1
    ensures QualifiedCandidate(base, item.names[k], parts)
         == if BindsHead(item, k, parts[0]) then [JoinNonEmpty([base, item.names[k].name] + parts[1..])] else []
  {
    hide JoinNonEmpty, StartsWith;
  }

  lemma {:induction false} NoPlainNames(item: Import, names: seq<ImportAlias>, parts: seq<string>)
    requires |names| <= |item.names| && names == item.names[..|names|] && item.imported.None? && item.relativeLevel == 0
    requires |parts| >= 1 && Plain(parts[0]) && forall k :: 0 <= k < |names| ==> !BindsHead(item, k, parts[0])
    ensures PlainFromNames(names, parts) == []
  {
    hide BindsHead, PlainCandidate;
    if names == [] {
    } else {
      NoPlainNames(item, names[..|names| - 1], parts);
      PlainIff(item, |names| - 1, parts);
    }
  }

  lemma {:induction false} NoQualifiedNames(base: string, item: Import, names: seq<ImportAlias>, parts: seq<string>)
    requires |names| <= |item.names| && names == item.names[..|names|] && (item.imported.Some? || item.relativeLevel > 0)
    requires |parts| >= 1 && forall k :: 0 <= k < |names| ==> !BindsHead(item, k, parts[0])
    ensures QualifiedFromNames(base, names, parts) == []
  {
    hide BindsHead, QualifiedCandidate, JoinNonEmpty;
    if names == [] {
    } else {
      NoQualifiedNames(base, item, names[..|names| - 1], parts);
      QualifiedIff(base, item, |names| - 1, parts);
    }
  }

  lemma {:induction false} NoQualified(parsed: ParsedFile, imports: seq<Import>, parts: seq<string>)
    requires |parts| >= 1 && Plain(parts[0])
    requires forall i, k :: 0 <= i < |imports| && 0 <= k < |imports[i].names| ==> !BindsHead(imports[i], k, parts[0])
    ensures QualifiedImportCandidates(parsed, imports, parts) == []
  {
    hide AbsoluteModule, BindsHead;
    if imports == [] {
    } else {
      var item := imports[|imports| - 1];
      NoQualified(parsed, imports[..|imports| - 1], parts);
      assert item.names[..|item.names|] == item.names;
      if item.imported.Some? || item.relativeLevel > 0 {
        NoQualifiedNames(AbsoluteModule(parsed, item), item, item.names, parts);
      } else {
        NoPlainNames(item, item.names, parts);
      }
    }
  }

  lemma {:induction false} PlainNamesBefore(item: Import, names: seq<ImportAlias>, k: nat, parts: seq<string>)
    requires k < |names| <= |item.names| && names == item.names[..|names|] && item.imported.None? && item.relativeLevel == 0
    requires |parts| >= 1 && Plain(parts[0]) && BindsHead(item, k, parts[0])
    requires forall k' :: 0 <= k' < k ==> !BindsHead(item, k', parts[0])
    ensures PlainFromNames(names, parts) != [] && PlainCandidate(names[k], parts) != []
    ensures PlainFromNames(names, parts)[0] == PlainCandidate(names[k], parts)[0]
  {
    hide BindsHead, PlainCandidate;
    var before := names[..|names| - 1];
    PlainIff(item, k, parts);
    if k < |before| {
      PlainNamesBefore(item, before, k, parts);
    } else {
      NoPlainNames(item, before, parts);
    }
  }

  lemma {:induction false} QualifiedNamesBefore(base: string, item: Import, names: seq<ImportAlias>, k: nat, parts: seq<string>)
    requires k < |names| <= |item.names| && names == item.names[..|names|] && (item.imported.Some? || item.relativeLevel > 0)
    requires |parts| >= 1 && BindsHead(item, k, parts[0])
    requires forall k' :: 0 <= k' < k ==> !BindsHead(item, k', parts[0])
    ensures QualifiedFromNames(base, names, parts) != []
    ensures QualifiedFromNames(base, names, parts)[0] == JoinNonEmpty([base, names[k].name] + parts[1..])
  {
    hide BindsHead, QualifiedCandidate, JoinNonEmpty;
    QualifiedIff(base, item, |names| - 1, parts);
    var before := names[..|names| - 1];
    if k < |before| {
      QualifiedNamesBefore(base, item, before, k, parts);
    } else {
      NoQualifiedNames(base, item, before, parts);
    }
  }

  /** What a plain import makes of an attribute call. */
  lemma PlainStandsFor(item: Import, k: nat, parts: seq<string>, parsed: ParsedFile, here: seq<string>, name: seq<string>, path: seq<string>)
    requires StandsFor(parsed, item, k, here, name, path) && item.imported.None? && item.relativeLevel == 0
    requires AllPlain(parts) && |parts| >= 1 && BindsHead(item, k, parts[0])
    ensures PlainCandidate(item.names[k], parts) == [Join(path + parts[1..])]
  {
    var a := item.names[k];
    SplitJoin(name);
    FirstComponent(a.name, parts[0]);
    hide Join;
    JoinFew(a.name);
    JoinAppend([a.name], parts[1..]);
    JoinAppend(name, parts[1..]);
    assert name + [] == name;
  }

  lemma QualifiedPath(path: seq<string>, own: string, rest: seq<string>)
    requires path != [] && AllPlain(path) && path[|path| - 1] == own && AllPlain(rest)
    ensures JoinNonEmpty([Join(path[..|path| - 1]), own] + rest) == Join(path + rest)
  {
    hide Join, JoinNonEmpty, Plain;
    var base := path[..|path| - 1];
    ImportedName(base, [own] + rest);
    assert [Join(base)] + ([own] + rest) == [Join(base), own] + rest;
    assert base + ([own] + rest) == path + rest;
  }

  lemma HeadBoundInside(item: Import, k: nat, head: string)
    requires BindsHead(item, k, head)
    ensures k < |item.names|
  {
  }

  /** One `from` import in which the head of an attribute call is bound. */
  lemma OneQualifiedFrom(parsed: ParsedFile, item: Import, k: nat, parts: seq<string>, here: seq<string>, name: seq<string>, path: seq<string>)
    requires StandsFor(parsed, item, k, here, name, path) && AllPlain(parts) && |parts| >= 1 && BindsHead(item, k, parts[0])
    requires forall k' :: 0 <= k' < k ==> !BindsHead(item, k', parts[0])
    requires item.imported.Some? || item.relativeLevel > 0
    ensures QualifiedFromImport(parsed, item, parts) != [] && QualifiedFromImport(parsed, item, parts)[0] == Join(path + parts[1..])
  {
    HeadBoundInside(item, k, parts[0]);
    assert AllPlain(parts[1..]);
    hide Join, JoinNonEmpty, AbsoluteModule, BindsHead, QualifiedFromNames, PlainFromNames, StandsFor, AllPlain;
    assert item.names[..|item.names|] == item.names;
    QualifiedNamesBefore(AbsoluteModule(parsed, item), item, item.names, k, parts);
    BaseOfImport(parsed, item, k, here, name, path);
    QualifiedPath(path, item.names[k].name, parts[1..]);
  }

  /** One import in which the head of an attribute call is bound. */
  lemma OneQualified(parsed: ParsedFile, item: Import, k: nat, parts: seq<string>, here: seq<string>, name: seq<string>, path: seq<string>)
    requires StandsFor(parsed, item, k, here, name, path) && AllPlain(parts) && |parts| >= 1 && BindsHead(item, k, parts[0])
    requires forall k' :: 0 <= k' < k ==> !BindsHead(item, k', parts[0])
    ensures QualifiedFromImport(parsed, item, parts) != [] && QualifiedFromImport(parsed, item, parts)[0] == Join(path + parts[1..])
  {
    HeadBoundInside(item, k, parts[0]);
    assert Plain(parts[0]);
    hide Join, AbsoluteModule, BindsHead, PlainCandidate, PlainFromNames, QualifiedFromNames, StandsFor, Plain, AllPlain;
    if item.imported.Some? || item.relativeLevel > 0 {
      OneQualifiedFrom(parsed, item, k, parts, here, name, path);
    } else {
      assert item.names[..|item.names|] == item.names;
      PlainNamesBefore(item, item.names, k, parts);
      PlainStandsFor(item, k, parts, parsed, here, name, path);
    }
  }

  lemma {:induction false} FirstHead(parsed: ParsedFile, imports: seq<Import>, i: nat, k: nat, parts: seq<string>,
                                     here: seq<string>, name: seq<string>, path: seq<string>)
    requires i < |imports| && AllPlain(parts) && |parts| >= 1 && BindsHead(imports[i], k, parts[0])
    requires StandsFor(parsed, imports[i], k, here, name, path)
    requires forall i', k' :: 0 <= i' <= i && 0 <= k' < |imports[i'].names| && Earlier(i', k', i, k) ==>
               !BindsHead(imports[i'], k', parts[0])
    ensures QualifiedImportCandidates(parsed, imports, parts) != []
    ensures QualifiedImportCandidates(parsed, imports, parts)[0] == Join(path + parts[1..])
  {
    assert Plain(parts[0]);
    hide AbsoluteModule, BindsHead, StandsFor, Join, Plain, AllPlain, QualifiedFromImport;
    var before, last := imports[..|imports| - 1], imports[|imports| - 1];
    if i < |before| {
      FirstHead(parsed, before, i, k, parts, here, name, path);
    } else {
      NoQualified(parsed, before, parts);
      forall k' | 0 <= k' < k ensures !BindsHead(last, k', parts[0]) { HeadBoundInside(last, k, parts[0]); }
      OneQualified(parsed, last, k, parts, here, name, path);
    }
  }

  /** The first binding of the head of an attribute call decides which symbol the call is looked up as first. */
  lemma QualifiedStandsFor(parsed: ParsedFile, i: nat, k: nat, parts: seq<string>, here: seq<string>, name: seq<string>, path: seq<string>)
    requires i < |parsed.imports| && AllPlain(parts) && |parts| >= 1 && BindsHead(parsed.imports[i], k, parts[0])
    requires StandsFor(parsed, parsed.imports[i], k, here, name, path)
    requires forall i', k' :: 0 <= i' <= i && 0 <= k' < |parsed.imports[i'].names| && Earlier(i', k', i, k) ==>
               !BindsHead(parsed.imports[i'], k', parts[0])
    ensures QualifiedImportCandidates(parsed, parsed.imports, parts) != []
    ensures QualifiedImportCandidates(parsed, parsed.imports, parts)[0] == Join(path + parts[1..])
  {
    FirstHead(parsed, parsed.imports, i, k, parts, here, name, path);
  }

  // ---------------------------------------------------------------- resolution

  function Lookup(index: Index, name: string): seq<Symbol> {
    if name in index then index[name] else []
  }

  /** The matches of the first candidate that has any (`_first_unique`). */
  function FirstMatches(candidates: seq<string>, index: Index): Option<seq<Symbol>> {
    if candidates == [] then None
    else if Lookup(index, candidates[0]) != [] then Some(Lookup(index, candidates[0]))
    else FirstMatches(candidates[1..], index)
  }

  function ExactOrAmbiguous(matches: seq<Symbol>, kind: ResolutionType): Resolution {
    if |matches| == 1 then Resolution(Some(matches[0]), kind, High)
    else Resolution(None, if matches == [] then Unresolved else Ambiguous, Low)
  }

  function Methods(symbols: seq<Symbol>): seq<Symbol> {
    if symbols == [] then []
    else (if symbols[0].symbolType == Method then [symbols[0]] else []) + Methods(symbols[1..])
  }

  function ResolveIdentifier(expression: string, caller: Symbol, parsed: ParsedFile, byQualified: Index): Resolution {
    var here := FirstMatches(LocalCandidates(caller.qualifiedName, parsed.moduleName, expression), byQualified);
    if here.Some? then ExactOrAmbiguous(here.value, ExactSameFile)
    else
      var imported := FirstMatches(DirectImportCandidates(parsed, parsed.imports, expression), byQualified);
      if imported.Some? then ExactOrAmbiguous(imported.value, ExactDirectImport)
      else Resolution(None, Unresolved, Low)
  }

  function ResolveAttribute(parts: seq<string>, caller: Symbol, parsed: ParsedFile, byQualified: Index, byName: Index)
    : Resolution
    requires |parts| >= 2
  {
    var last := parts[|parts| - 1];
    if parts[0] == "self" || parts[0] == "cls" then
      ExactOrAmbiguous(Lookup(byQualified, MemberOf(BeforeLastDot(caller.qualifiedName), last)), ExactSameFile)
    else
      var imported := FirstMatches(QualifiedImportCandidates(parsed, parsed.imports, parts), byQualified);
      if imported.Some? then ExactOrAmbiguous(imported.value, QualifiedModule)
      else
        var sameModule := Lookup(byQualified, MemberOf(parsed.moduleName, Join(parts)));
        if sameModule != [] then ExactOrAmbiguous(sameModule, ExactSameFile)
        else
          var methods := Methods(Lookup(byName, last));
          if |methods| == 1 then Resolution(Some(methods[0]), ProbableMethod, Medium)
          else Resolution(None, if |methods| > 1 then Ambiguous else Unresolved, Low)
  }

  function Resolve(n: Naming, expression: string, caller: Symbol, parsed: ParsedFile, byQualified: Index, byName: Index)
    : Resolution
  {
    if n.isIdentifier(expression) then ResolveIdentifier(expression, caller, parsed, byQualified)
    else
      var parts := Split(expression);
      if |parts| < 2 || exists i :: 0 <= i < |parts| && !n.isIdentifier(parts[i])
      then Resolution(None, Unresolved, Low)
      else ResolveAttribute(parts, caller, parsed, byQualified, byName)
  }

  // ---------------------------------------------------------------- grouping

  function QualifiedNameOf(s: Symbol): string {
    s.qualifiedName
  }

  function NameOf(s: Symbol): string {
    s.name
  }

  function GroupBy(symbols: seq<Symbol>, key: Symbol -> string): Index {
    if symbols == [] then map[]
    else
      var before := GroupBy(symbols[..|symbols| - 1], key);
      var s := symbols[|symbols| - 1];
      before[key(s) := Lookup(before, key(s)) + [s]]
  }

  method Group(symbols: seq<Symbol>, key: Symbol -> string) returns (output: Index)
    ensures output == GroupBy(symbols, key)
  {
    output := map[];
    for i := 0 to |symbols|
      invariant output == GroupBy(symbols[..i], key)
    {
      var symbol := symbols[i];
      var value := key(symbol);
      assert symbols[..i + 1][..i] == symbols[..i];
      if value !in output {
        output := output[value := []];
      }
      output := output[value := output[value] + [symbol]];
    }
    assert symbols[..|symbols|] == symbols;
  }

  /** `{parsed.file_path: parsed for parsed in files}`: the last file with a path wins. */
  function FileIndex(files: seq<ParsedFile>): map<string, ParsedFile> {
    if files == [] then map[]
    else FileIndex(files[..|files| - 1])[files[|files| - 1].filePath := files[|files| - 1]]
  }

  function AllSites(files: seq<ParsedFile>): seq<CallSite> {
    if files == [] then [] else AllSites(files[..|files| - 1]) + files[|files| - 1].callSites
  }

  // ---------------------------------------------------------------- edges

  datatype Context = Context(
    naming: Naming, repository: nat, version: nat, commit: string,
    files: map<string, ParsedFile>, byQualified: Index, byName: Index)

  function SymbolIdOf(c: Context, s: Symbol): string {
    c.naming.symbolId(
      SymbolIdentity(c.repository, c.version, s.filePath, s.qualifiedName, s.startLine, s.contentHash))
  }

  function KeyOf(site: CallSite): SiteKey {
    SiteKey(site.filePath, site.caller, site.expression, site.startLine, site.endLine, site.startColumn)
  }

  /** No two sites hash the same fields. */
  ghost predicate DistinctSiteKeys(sites: seq<CallSite>) {
    forall i, j :: 0 <= i < j < |sites| ==> KeyOf(sites[i]) != KeyOf(sites[j])
  }

  function ResolutionOf(c: Context, site: CallSite): Option<(Symbol, Resolution)> {
    var callers := Lookup(c.byQualified, site.caller);
    if |callers| != 1 || site.filePath !in c.files then None
    else Some((callers[0],
               Resolve(c.naming, site.expression, callers[0], c.files[site.filePath], c.byQualified, c.byName)))
  }

  /** The edge of one call site; `None` when the site is skipped. */
  function EdgeOf(c: Context, site: CallSite): Option<Edge> {
    var found := ResolutionOf(c, site);
    if found.None? then None
    else
      var (caller, resolution) := found.value;
      var callerId := SymbolIdOf(c, caller);
      var calleeId := if resolution.callee.None? then None else Some(SymbolIdOf(c, resolution.callee.value));
      var siteFingerprint := c.naming.siteDigest(KeyOf(site));
      Some(Edge(
        c.naming.edgeId(c.repository, c.version, callerId, siteFingerprint),
        callerId, calleeId, if calleeId.Some? then None else Some(site.expression), site.filePath,
        site.startLine, site.endLine, site.expression, siteFingerprint,
        resolution.kind, resolution.confidence, c.commit))
  }

  function EdgesOf(c: Context, sites: seq<CallSite>): (r: seq<Edge>)
    ensures |r| <= |sites|
  {
    if sites == [] then []
    else
      var before := EdgesOf(c, sites[..|sites| - 1]);
      var edge := EdgeOf(c, sites[|sites| - 1]);
      if edge.None? then before else before + [edge.value]
  }

  /** The sort key of `build` and the ORDER BY of `validate_graph`. */
  predicate EdgeLe(a: Edge, b: Edge) {
    if a.filePath != b.filePath then StrLe(a.filePath, b.filePath)
    else if a.callLine != b.callLine then a.callLine < b.callLine
    else if a.callEndLine != b.callEndLine then a.callEndLine < b.callEndLine
    else if a.caller != b.caller then StrLe(a.caller, b.caller)
    else if a.expression != b.expression then StrLe(a.expression, b.expression)
    else StrLe(a.siteFingerprint, b.siteFingerprint)
  }

  predicate IsExact(e: Edge) {
    e.callee.Some? && e.kind != ProbableMethod
  }

  predicate IsAmbiguous(e: Edge) {
    e.kind == Ambiguous
  }

  predicate IsUnresolved(e: Edge) {
    e.kind == Unresolved
  }

  predicate IsProbable(e: Edge) {
    e.kind == ProbableMethod
  }

  function Count(p: Edge -> bool, edges: seq<Edge>): nat {
    if edges == [] then 0
    else Count(p, edges[..|edges| - 1]) + if p(edges[|edges| - 1]) then 1 else 0
  }

  function LineOf(e: Edge): FingerprintLine {
    FingerprintLine(e.id, e.caller, e.callee, e.siteFingerprint, e.kind, e.confidence)
  }

  function FingerprintOf(rows: seq<Edge>): (r: seq<FingerprintLine>)
    ensures |r| == |rows|
  {
    seq(|rows|, i requires 0 <= i < |rows| => LineOf(rows[i]))
  }

  /** What `validate_graph` recomputes from the rows it reads. */
  function Summarize(rows: seq<Edge>): GraphSummary {
    GraphSummary(|rows|, Count(IsExact, rows), Count(IsAmbiguous, rows), Count(IsUnresolved, rows),
                 FingerprintOf(rows))
  }

  function ContextOf(n: Naming, repository: nat, version: nat, commit: string,
                     files: seq<ParsedFile>, symbols: seq<Symbol>): Context
  {
    Context(n, repository, version, commit, FileIndex(files),
            GroupBy(symbols, QualifiedNameOf), GroupBy(symbols, NameOf))
  }

  /** The graph that `build` must return, with every count taken from the sorted edges. */
  function GraphOf(n: Naming, repository: nat, version: nat, commit: string,
                   files: seq<ParsedFile>, symbols: seq<Symbol>): Graph
  {
    var sites := AllSites(files);
    var edges := EdgesOf(ContextOf(n, repository, version, commit, files, symbols), sites);
    var ordered := Sort(EdgeLe, edges);
    Graph(ordered, Summarize(ordered), Count(IsAmbiguous, ordered) + |sites| - |edges|)
  }

  method CollectSites(files: seq<ParsedFile>) returns (sites: seq<CallSite>, index: map<string, ParsedFile>)
    ensures sites == AllSites(files) && index == FileIndex(files)
  {
    sites, index := [], map[];
    for i := 0 to |files|
      invariant sites == AllSites(files[..i]) && index == FileIndex(files[..i])
    {
      assert files[..i + 1][..i] == files[..i];
      sites := sites + files[i].callSites;
      index := index[files[i].filePath := files[i]];
    }
    assert files[..|files|] == files;
  }

  lemma CountAppend(p: Edge -> bool, edges: seq<Edge>, e: Edge)
    ensures Count(p, edges + [e]) == Count(p, edges) + if p(e) then 1 else 0
  {
    assert (edges + [e])[..|edges|] == edges;
  }

  datatype Tally = Tally(exact: nat, ambiguous: nat, unresolved: nat, skipped: nat)

  /** The loop of `build` over the call sites, with its running counters. */
  method ResolveSites(c: Context, sites: seq<CallSite>) returns (edges: seq<Edge>, tally: Tally)
    ensures edges == EdgesOf(c, sites)
    ensures tally == Tally(Count(IsExact, edges), Count(IsAmbiguous, edges), Count(IsUnresolved, edges),
                           |sites| - |edges|)
  {
    edges := [];
    var exact, ambiguous, unresolved, skipped := 0, 0, 0, 0;
    for i := 0 to |sites|
      invariant edges == EdgesOf(c, sites[..i])
      invariant exact == Count(IsExact, edges)
      invariant ambiguous == Count(IsAmbiguous, edges)
      invariant unresolved == Count(IsUnresolved, edges)
      invariant skipped == i - |edges|
    {
      assert sites[..i + 1][..i] == sites[..i];
      var edge := EdgeOf(c, sites[i]);
      if edge.None? {
        skipped := skipped + 1;
        continue;
      }
      CountAppend(IsExact, edges, edge.value);
      CountAppend(IsAmbiguous, edges, edge.value);
      CountAppend(IsUnresolved, edges, edge.value);
      exact := exact + if IsExact(edge.value) then 1 else 0;
      ambiguous := ambiguous + if IsAmbiguous(edge.value) then 1 else 0;
      unresolved := unresolved + if IsUnresolved(edge.value) then 1 else 0;
      edges := edges + [edge.value];
    }
    assert sites[..|sites|] == sites;
    tally := Tally(exact, ambiguous, unresolved, skipped);
  }

  lemma {:induction false} CountFirst(p: Edge -> bool, edges: seq<Edge>)
    requires edges != []
    ensures Count(p, edges) == (if p(edges[0]) then 1 else 0) + Count(p, edges[1..])
  {
    if |edges| == 1 {
    } else {
      CountFirst(p, edges[..|edges| - 1]);
      assert edges[..|edges| - 1][1..] == edges[1..][..|edges| - 2];
    }
  }

  lemma {:induction false} InsertKeepsCount(p: Edge -> bool, x: Edge, edges: seq<Edge>)
    ensures Count(p, Insert(EdgeLe, x, edges)) == Count(p, edges) + if p(x) then 1 else 0
  {
    var r := Insert(EdgeLe, x, edges);
    CountFirst(p, r);
    if edges == [] {
    } else {
      CountFirst(p, edges);
      if !EdgeLe(x, edges[0]) {
        InsertKeepsCount(p, x, edges[1..]);
      } else {
        assert r[1..] == edges;
      }
    }
  }

  lemma {:induction false} SortKeepsCount(p: Edge -> bool, edges: seq<Edge>)
    ensures Count(p, Sort(EdgeLe, edges)) == Count(p, edges)
  {
    if edges == [] {
    } else {
      CountFirst(p, edges);
      SortKeepsCount(p, edges[1..]);
      InsertKeepsCount(p, edges[0], Sort(EdgeLe, edges[1..]));
    }
  }

  // ---------------------------------------------------------------- what a call through an import becomes

  /** `s` is the only symbol with this qualified name. */
  ghost predicate SoleNamed(symbols: seq<Symbol>, qualifiedName: string, s: Symbol) {
    exists i :: 0 <= i < |symbols| && symbols[i] == s && s.qualifiedName == qualifiedName
                && forall k :: 0 <= k < |symbols| && k != i ==> symbols[k].qualifiedName != qualifiedName
  }

  ghost predicate NoneNamed(symbols: seq<Symbol>, qualifiedName: string) {
    forall k :: 0 <= k < |symbols| ==> symbols[k].qualifiedName != qualifiedName
  }

  lemma {:induction false} NoneLookedUp(symbols: seq<Symbol>, name: string)
    requires NoneNamed(symbols, name)
    ensures Lookup(GroupBy(symbols, QualifiedNameOf), name) == []
  {
    if symbols == [] {
    } else {
      NoneLookedUp(symbols[..|symbols| - 1], name);
    }
  }

  lemma {:induction false} SoleLookedUp(symbols: seq<Symbol>, name: string, s: Symbol)
    requires SoleNamed(symbols, name, s)
    ensures Lookup(GroupBy(symbols, QualifiedNameOf), name) == [s]
  {
    var i :| 0 <= i < |symbols| && symbols[i] == s && forall k :: 0 <= k < |symbols| && k != i ==> symbols[k].qualifiedName != name;
    var before := symbols[..|symbols| - 1];
    if i < |before| {
      assert before[i] == s;
      SoleLookedUp(before, name, s);
    } else {
      NoneLookedUp(before, name);
    }
  }

  /** The file is the only one with its path, and has the call site. */
  predicate SiteOf(files: seq<ParsedFile>, f: nat, site: CallSite) {
    && f < |files| && site in files[f].callSites && site.filePath == files[f].filePath
    && forall k :: 0 <= k < |files| && k != f ==> files[k].filePath != files[f].filePath
  }

  lemma {:induction false} FileFound(files: seq<ParsedFile>, f: nat)
    requires f < |files| && forall k :: 0 <= k < |files| && k != f ==> files[k].filePath != files[f].filePath
    ensures files[f].filePath in FileIndex(files) && FileIndex(files)[files[f].filePath] == files[f]
  {
    if f < |files| - 1 { FileFound(files[..|files| - 1], f); }
  }

  lemma {:induction false} SiteFound(files: seq<ParsedFile>, f: nat, site: CallSite)
    requires f < |files| && site in files[f].callSites
    ensures site in AllSites(files)
  {
    if f < |files| - 1 { SiteFound(files[..|files| - 1], f, site); }
  }

  lemma {:induction false} EdgeFound(c: Context, sites: seq<CallSite>, site: CallSite)
    requires site in sites && EdgeOf(c, site).Some?
    ensures EdgeOf(c, site).value in EdgesOf(c, sites)
  {
    hide EdgeOf;
    var before := sites[..|sites| - 1];
    if sites[|sites| - 1] != site {
      assert site in before;
      EdgeFound(c, before, site);
    }
  }

  /** The row of a call: who calls whom, where, and how sure that is. */
  ghost predicate EdgeFor(n: Naming, repository: nat, version: nat, commit: string, site: CallSite, caller: Symbol, r: Resolution, e: Edge) {
    && e.caller == n.symbolId(
         SymbolIdentity(repository, version, caller.filePath, caller.qualifiedName, caller.startLine, caller.contentHash))
    && (r.callee.Some? ==>
          && e.unresolvedName == None
          && var s := r.callee.value;
             e.callee == Some(n.symbolId(
               SymbolIdentity(repository, version, s.filePath, s.qualifiedName, s.startLine, s.contentHash))))
    && (r.callee.None? ==> e.callee == None && e.unresolvedName == Some(site.expression))
    && (e.kind, e.confidence, e.commit) == (r.kind, r.confidence, commit)
    && (e.filePath, e.callLine, e.callEndLine, e.expression) == (site.filePath, site.startLine, site.endLine, site.expression)
    && e.siteFingerprint == n.siteDigest(
         SiteKey(site.filePath, site.caller, site.expression, site.startLine, site.endLine, site.startColumn))
    && e.id == n.edgeId(repository, version, e.caller, e.siteFingerprint)
  }

  /** Every call of a known caller has a row with its resolution. */
  lemma SiteHasEdge(n: Naming, repository: nat, version: nat, commit: string, files: seq<ParsedFile>, symbols: seq<Symbol>,
                    f: nat, site: CallSite, caller: Symbol)
    requires SiteOf(files, f, site) && SoleNamed(symbols, site.caller, caller)
    ensures var r := Resolve(n, site.expression, caller, files[f], GroupBy(symbols, QualifiedNameOf), GroupBy(symbols, NameOf));
            exists e :: e in GraphOf(n, repository, version, commit, files, symbols).edges
                        && EdgeFor(n, repository, version, commit, site, caller, r, e)
  {
    hide Resolve, GroupBy, Sort, EdgesOf;
    var c := ContextOf(n, repository, version, commit, files, symbols);
    FileFound(files, f);
    SiteFound(files, f, site);
    SoleLookedUp(symbols, site.caller, caller);
    EdgeFound(c, AllSites(files), site);
    SameElements(EdgesOf(c, AllSites(files)), Sort(EdgeLe, EdgesOf(c, AllSites(files))));
    assert EdgeOf(c, site).value in GraphOf(n, repository, version, commit, files, symbols).edges;
  }

  /** A call of a plain name that alias `k` of import `i` bound first in its file, and that no scope of the caller defines. */
  datatype ImportedCall = ImportedCall(
    file: nat, site: CallSite, caller: Symbol, scope: seq<string>,
    i: nat, k: nat, here: seq<string>, name: seq<string>, path: seq<string>, callee: Symbol)

  ghost predicate IsImportedCall(n: Naming, files: seq<ParsedFile>, symbols: seq<Symbol>, call: ImportedCall) {
    && SiteOf(files, call.file, call.site) && n.isIdentifier(call.site.expression)
    && SoleNamed(symbols, call.site.caller, call.caller)
    && var parsed, target := files[call.file], call.site.expression;
       && call.here != [] && AllPlain(call.scope) && call.caller.qualifiedName == Join(call.here + call.scope)
       && (forall d :: 0 <= d <= |call.scope| ==> NoneNamed(symbols, Join(call.here + call.scope[..d] + [target])))
       && call.i < |parsed.imports| && Binds(parsed.imports[call.i], call.k, target)
       && StandsFor(parsed, parsed.imports[call.i], call.k, call.here, call.name, call.path)
       && (forall i, k :: 0 <= i <= call.i && 0 <= k < |parsed.imports[i].names| && Earlier(i, k, call.i, call.k) ==>
             !Binds(parsed.imports[i], k, target))
       && SoleNamed(symbols, Join(call.path), call.callee)
  }

  lemma {:induction false} NoMatches(names: seq<string>, index: Index)
    requires forall j :: 0 <= j < |names| ==> Lookup(index, names[j]) == []
    ensures FirstMatches(names, index) == None
  {
    if names == [] {
    } else {
      NoMatches(names[1..], index);
    }
  }

  lemma NoLocalMatch(symbols: seq<Symbol>, here: seq<string>, scope: seq<string>, target: string)
    requires AllPlain(here) && AllPlain(scope) && here != []
    requires forall d :: 0 <= d <= |scope| ==> NoneNamed(symbols, Join(here + scope[..d] + [target]))
    ensures FirstMatches(LocalCandidates(Join(here + scope), Join(here), target), GroupBy(symbols, QualifiedNameOf)) == None
  {
    hide Join, LocalCandidates, NoneNamed;
    LocalScopes(here, scope, target);
    var names := LocalCandidates(Join(here + scope), Join(here), target);
    forall j | 0 <= j < |names| ensures Lookup(GroupBy(symbols, QualifiedNameOf), names[j]) == [] {
      assert NoneNamed(symbols, Join(here + scope[..|scope| - j] + [target]));
      NoneLookedUp(symbols, names[j]);
    }
    NoMatches(names, GroupBy(symbols, QualifiedNameOf));
  }

  /** It resolves to the symbol that the import names, for certain. */
  lemma ImportedCallResolves(n: Naming, files: seq<ParsedFile>, symbols: seq<Symbol>, call: ImportedCall)
    requires IsImportedCall(n, files, symbols, call)
    ensures Resolve(n, call.site.expression, call.caller, files[call.file], GroupBy(symbols, QualifiedNameOf), GroupBy(symbols, NameOf))
         == Resolution(Some(call.callee), ExactDirectImport, High)
  {
    var parsed := files[call.file];
    assert AllPlain(call.here) && parsed.moduleName == Join(call.here);
    hide Join, LocalCandidates, DirectImportCandidates, NoneNamed, SoleNamed, StandsFor, GroupBy;
    DirectStandsFor(parsed, call.i, call.k, call.site.expression, call.here, call.name, call.path);
    NoLocalMatch(symbols, call.here, call.scope, call.site.expression);
    SoleLookedUp(symbols, Join(call.path), call.callee);
  }

  /** In the built graph every such call has a row that refers to that symbol as an exact direct import. */
  ghost predicate ImportsResolve(n: Naming, repository: nat, version: nat, commit: string, files: seq<ParsedFile>, symbols: seq<Symbol>,
                                 edges: seq<Edge>)
  {
    forall call :: IsImportedCall(n, files, symbols, call) ==>
      exists e :: e in edges
                  && EdgeFor(n, repository, version, commit, call.site, call.caller,
                             Resolution(Some(call.callee), ExactDirectImport, High), e)
  }

  lemma GraphResolvesImports(n: Naming, repository: nat, version: nat, commit: string, files: seq<ParsedFile>, symbols: seq<Symbol>)
    ensures ImportsResolve(n, repository, version, commit, files, symbols, GraphOf(n, repository, version, commit, files, symbols).edges)
  {
    hide Resolve, GroupBy, GraphOf, EdgeFor;
    forall call | IsImportedCall(n, files, symbols, call)
      ensures exists e :: e in GraphOf(n, repository, version, commit, files, symbols).edges
                          && EdgeFor(n, repository, version, commit, call.site, call.caller,
                                     Resolution(Some(call.callee), ExactDirectImport, High), e)
    {
      ImportedCallResolves(n, files, symbols, call);
      SiteHasEdge(n, repository, version, commit, files, symbols, call.file, call.site, call.caller);
    }
  }

  // ---------------------------------------------------------------- counts, order and fingerprint

  /** The edges of these kinds, by their positions; only a certain or guessed resolution has a callee. */
  function OfKinds(edges: seq<Edge>, kinds: set<ResolutionType>, withCallee: bool): set<nat> {
    set i: nat | i < |edges| && edges[i].kind in kinds && (withCallee ==> edges[i].callee.Some?)
  }

  const CERTAIN := {ExactSameFile, ExactDirectImport, QualifiedModule, Ambiguous, Unresolved}

  lemma KindAppended(edges: seq<Edge>, e: Edge, kinds: set<ResolutionType>, withCallee: bool)
    ensures OfKinds(edges + [e], kinds, withCallee)
         == OfKinds(edges, kinds, withCallee) + if e.kind in kinds && (withCallee ==> e.callee.Some?) then {|edges|} else {}
  {
  }

  lemma {:induction false} CountIsOfKinds(p: Edge -> bool, edges: seq<Edge>, kinds: set<ResolutionType>, withCallee: bool)
    requires forall e :: p(e) <==> e.kind in kinds && (withCallee ==> e.callee.Some?)
    ensures Count(p, edges) == |OfKinds(edges, kinds, withCallee)|
  {
    if edges == [] {
      assert OfKinds(edges, kinds, withCallee) == {};
    } else {
      var before, e := edges[..|edges| - 1], edges[|edges| - 1];
      CountIsOfKinds(p, before, kinds, withCallee);
      KindAppended(before, e, kinds, withCallee);
      assert edges == before + [e];
    }
  }

  lemma CountsAreOfKinds(edges: seq<Edge>)
    ensures Count(IsExact, edges) == |OfKinds(edges, CERTAIN, true)|
    ensures Count(IsAmbiguous, edges) == |OfKinds(edges, {Ambiguous}, false)|
    ensures Count(IsUnresolved, edges) == |OfKinds(edges, {Unresolved}, false)|
  {
    hide Count, OfKinds;
    forall e: Edge ensures IsExact(e) <==> e.kind in CERTAIN && e.callee.Some? { assert e.kind == ProbableMethod || e.kind in CERTAIN; }
    CountIsOfKinds(IsExact, edges, CERTAIN, true);
    CountIsOfKinds(IsAmbiguous, edges, {Ambiguous}, false);
    CountIsOfKinds(IsUnresolved, edges, {Unresolved}, false);
  }

  predicate LaterKeys(a: Edge, b: Edge) {
    || (a.caller != b.caller && StrLe(a.caller, b.caller))
    || (a.caller == b.caller && a.expression != b.expression && StrLe(a.expression, b.expression))
    || (a.caller == b.caller && a.expression == b.expression && StrLe(a.siteFingerprint, b.siteFingerprint))
  }

  /** Earlier in the order of files and lines, then of caller, expression and site. */
  predicate Precedes(a: Edge, b: Edge) {
    || (a.filePath != b.filePath && StrLe(a.filePath, b.filePath))
    || (a.filePath == b.filePath && a.callLine < b.callLine)
    || (a.filePath == b.filePath && a.callLine == b.callLine && a.callEndLine < b.callEndLine)
    || (a.filePath == b.filePath && a.callLine == b.callLine && a.callEndLine == b.callEndLine && LaterKeys(a, b))
  }

  lemma StrOrder(a: string, b: string, c: string)
    ensures StrLe(a, b) || StrLe(b, a)
    ensures StrLe(a, b) && StrLe(b, a) ==> a == b
    ensures StrLe(b, c) && StrLe(c, b) ==> b == c
    ensures StrLe(a, b) && StrLe(b, c) ==> StrLe(a, c)
    ensures StrLe(c, a) && StrLe(b, c) ==> StrLe(b, a)
    ensures StrLe(c, a) && StrLe(a, b) ==> StrLe(c, b)
  {
    StrLeTotal(a, b);
    if StrLe(a, b) && StrLe(b, a) { StrLeAntisymmetric(a, b); }
    if StrLe(b, c) && StrLe(c, b) { StrLeAntisymmetric(b, c); }
    if StrLe(a, b) && StrLe(b, c) { StrLeTransitive(a, b, c); }
    if StrLe(c, a) && StrLe(b, c) { StrLeTransitive(b, c, a); }
    if StrLe(c, a) && StrLe(a, b) { StrLeTransitive(c, a, b); }
  }

  lemma EdgeLeIsOrder(a: Edge, b: Edge, c: Edge)
    ensures EdgeLe(a, b) <==> Precedes(a, b)
    ensures EdgeLe(a, b) || EdgeLe(b, a)
    ensures EdgeLe(a, b) && EdgeLe(b, c) ==> EdgeLe(a, c)
  {
    hide StrLe;
    StrOrder(a.filePath, b.filePath, c.filePath);
    StrOrder(a.caller, b.caller, c.caller);
    StrOrder(a.expression, b.expression, c.expression);
    StrOrder(a.siteFingerprint, b.siteFingerprint, c.siteFingerprint);
  }

  ghost predicate InOrder(edges: seq<Edge>) {
    forall i, k :: 0 <= i < k < |edges| ==> Precedes(edges[i], edges[k])
  }

  lemma EdgeLeIsTotalPreorder()
    ensures TotalPreorder(EdgeLe)
  {
    forall a, b ensures EdgeLe(a, b) || EdgeLe(b, a) { EdgeLeIsOrder(a, b, b); }
    forall a, b, c | EdgeLe(a, b) && EdgeLe(b, c) ensures EdgeLe(a, c) { EdgeLeIsOrder(a, b, c); }
  }

  lemma SortedIsInOrder(edges: seq<Edge>)
    requires Sorted(EdgeLe, edges)
    ensures InOrder(edges)
  {
    forall i, k | 0 <= i < k < |edges| ensures Precedes(edges[i], edges[k]) {
      assert EdgeLe(edges[i], edges[k]);
      EdgeLeIsOrder(edges[i], edges[k], edges[k]);
    }
  }

  lemma SortedEdges(edges: seq<Edge>)
    ensures InOrder(Sort(EdgeLe, edges))
  {
    EdgeLeIsTotalPreorder();
    SortIsSorted(EdgeLe, edges);
    SortedIsInOrder(Sort(EdgeLe, edges));
  }

  /** The fingerprint covers who calls whom where, and how sure that is, edge by edge, and nothing else. */
  lemma FingerprintIff(a: seq<Edge>, b: seq<Edge>)
    ensures FingerprintOf(a) == FingerprintOf(b) <==>
              && |a| == |b|
              && forall i :: 0 <= i < |a| ==>
                   && (a[i].id, a[i].caller, a[i].callee) == (b[i].id, b[i].caller, b[i].callee)
                   && (a[i].siteFingerprint, a[i].kind, a[i].confidence) == (b[i].siteFingerprint, b[i].kind, b[i].confidence)
  {
    if FingerprintOf(a) == FingerprintOf(b) {
      forall i | 0 <= i < |a| ensures LineOf(a[i]) == LineOf(b[i]) { assert FingerprintOf(a)[i] == FingerprintOf(b)[i]; }
    }
  }

  /** Edges in order, with their counts; every ambiguous or skipped call is a warning. */
  ghost predicate IsCounted(g: Graph, sites: nat) {
    && InOrder(g.edges)
    && g.summary.callSites == |g.edges| && g.summary.exact == |OfKinds(g.edges, CERTAIN, true)|
    && g.summary.ambiguous == |OfKinds(g.edges, {Ambiguous}, false)|
    && g.summary.unresolved == |OfKinds(g.edges, {Unresolved}, false)|
    && g.warnings == g.summary.ambiguous + sites - |g.edges|
  }

  lemma CountedInOrder(ordered: seq<Edge>, sites: nat)
    requires |ordered| <= sites && InOrder(ordered)
    ensures IsCounted(Graph(ordered, Summarize(ordered), Count(IsAmbiguous, ordered) + sites - |ordered|), sites)
  {
    hide OfKinds, Count, InOrder, FingerprintOf;
    CountsAreOfKinds(ordered);
  }

  lemma GraphIsCounted(n: Naming, repository: nat, version: nat, commit: string, files: seq<ParsedFile>, symbols: seq<Symbol>)
    ensures IsCounted(GraphOf(n, repository, version, commit, files, symbols), |AllSites(files)|)
  {
    hide EdgesOf, InOrder, Summarize, Count, IsCounted, ContextOf, AllSites;
    var edges := EdgesOf(ContextOf(n, repository, version, commit, files, symbols), AllSites(files));
    var ordered := Sort(EdgeLe, edges);
    SortedEdges(edges);
    CountedInOrder(ordered, |AllSites(files)|);
    assert GraphOf(n, repository, version, commit, files, symbols)
        == Graph(ordered, Summarize(ordered), Count(IsAmbiguous, ordered) + |AllSites(files)| - |ordered|);
  }

  /**
   * `PythonCallGraphBuilder.build`. Its counters agree with the recomputation from the
   * sorted edges.
   */
  method Build(n: Naming, repository: nat, version: nat, commit: string,
               files: seq<ParsedFile>, symbols: seq<Symbol>, maxTotalCallSites: nat)
    returns (r: Result<Graph, string>)
    ensures |AllSites(files)| > maxTotalCallSites ==> r == Failure("call_site_count_exceeded")
    ensures |AllSites(files)| <= maxTotalCallSites ==>
              r == Success(GraphOf(n, repository, version, commit, files, symbols))
    ensures r.Success? ==> IsCounted(r.value, |AllSites(files)|)
    ensures r.Success? ==> ImportsResolve(n, repository, version, commit, files, symbols, r.value.edges)
  {
    hide Count, Sort, EdgesOf, EdgeOf, FingerprintOf, FileIndex, AllSites, GroupBy, ImportsResolve, IsCounted;
    GraphIsCounted(n, repository, version, commit, files, symbols);
    GraphResolvesImports(n, repository, version, commit, files, symbols);
    var sites, index := CollectSites(files);
    if |sites| > maxTotalCallSites {
      return Failure("call_site_count_exceeded");
    }
    var byQualified := Group(symbols, QualifiedNameOf);
    var byName := Group(symbols, NameOf);
    var c := Context(n, repository, version, commit, index, byQualified, byName);
    var edges, tally := ResolveSites(c, sites);
    var ordered := Sort(EdgeLe, edges);
    SortKeepsCount(IsExact, edges);
    SortKeepsCount(IsAmbiguous, edges);
    SortKeepsCount(IsUnresolved, edges);
    var summary := GraphSummary(|ordered|, tally.exact, tally.ambiguous, tally.unresolved, FingerprintOf(ordered));
    return Success(Graph(ordered, summary, tally.ambiguous + tally.skipped));
  }
}
