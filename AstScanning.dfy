/** The syntax-tree scanner (repo_scanner/scanner/scanners/ast_scanner.py):
    a Python file is parsed, a visitor walks the tree collecting imported
    module names and class names, and each becomes an indicator. */
module AstScanning {
  import opened Wrappers
  import opened Records
  import opened Text
  import opened Seqs

  /** The part of Python's syntax tree the visitor looks at. `Import` lists
      the alias names of `import a, b`; `ImportFrom` holds the module of
      `from m import ...`, absent for `from . import ...`; every other node
      kind is `Other`, with its children in field order. */
  datatype PyNode =
    | Import(names: seq<string>)
    | ImportFrom(moduleName: Option<string>)
    | ClassDef(name: string, body: seq<PyNode>)
    | Other(children: seq<PyNode>)

  /** What `ast.parse` does with a text; the parser itself is not part of this model. */
  datatype ParseOutcome =
    | Parsed(tree: PyNode)
    | SyntaxError
    | OtherError(message: string)

  /** The two lists a `PythonAnalyzer` appends to. */
  datatype Analyzer = Analyzer(imports: seq<string>, classes: seq<string>)

  /** `PythonAnalyzer.visit`: the node's own names are appended first
      (`visit_Import`, `visit_ImportFrom`, `visit_ClassDef`), then
      `generic_visit` walks the children in order. */
  function Visit(a: Analyzer, n: PyNode): Analyzer
    decreases n
  {
    match n
    case Import(names) => a.(imports := a.imports + names)
    case ImportFrom(m) => if m.Some? && m.value != "" then a.(imports := a.imports + [m.value]) else a
    case ClassDef(name, body) => VisitAll(a.(classes := a.classes + [name]), body)
    case Other(children) => VisitAll(a, children)
  }

  /** `generic_visit` over a list of children. */
  function VisitAll(a: Analyzer, ns: seq<PyNode>): Analyzer
    decreases ns
  {
    if ns == [] then a else VisitAll(Visit(a, ns[0]), ns[1..])
  }

  /** A fresh analyzer run over a whole tree. */
  function Analyze(tree: PyNode): Analyzer
  {
    Visit(Analyzer([], []), tree)
  }

  /** The names a node itself contributes, without its children. */
  function OwnImports(n: PyNode): seq<string>
  {
    match n
    case Import(names) => names
    case ImportFrom(m) => if m.Some? && m.value != "" then [m.value] else []
    case _ => []
  }

  function OwnClasses(n: PyNode): seq<string>
  {
    if n.ClassDef? then [n.name] else []
  }

  /** All nodes of a tree, each before its children (the order of the walk). */
  function Preorder(n: PyNode): seq<PyNode>
    decreases n
  {
    match n
    case ClassDef(_, body) => [n] + PreorderAll(body)
    case Other(children) => [n] + PreorderAll(children)
    case _ => [n]
  }

  function PreorderAll(ns: seq<PyNode>): seq<PyNode>
    decreases ns
  {
    if ns == [] then [] else Preorder(ns[0]) + PreorderAll(ns[1..])
  }

  /** Every import, read off the nodes in walk order. */
  function TreeImports(tree: PyNode): seq<string>
  {
    FlatMap(OwnImports, Preorder(tree))
  }

  /** Every class name, read off the nodes in walk order. */
  function TreeClasses(tree: PyNode): seq<string>
  {
    FlatMap(OwnClasses, Preorder(tree))
  }

  /** A node with children lists itself, then its children's nodes. */
  lemma PreorderOfParent(n: PyNode, ns: seq<PyNode>)
    requires (n.ClassDef? && ns == n.body) || (n.Other? && ns == n.children)
    ensures FlatMap(OwnImports, Preorder(n)) == FlatMap(OwnImports, PreorderAll(ns))
    ensures FlatMap(OwnClasses, Preorder(n)) == OwnClasses(n) + FlatMap(OwnClasses, PreorderAll(ns))
  {
    assert Preorder(n) == [n] + PreorderAll(ns);
    FlatMapCons(OwnImports, n, PreorderAll(ns));
    FlatMapCons(OwnClasses, n, PreorderAll(ns));
  }

  /** The visitor appends exactly the node's own names and those of all its
      descendants, in walk order, to whatever the lists already held. */
  lemma {:induction false} VisitCollects(a: Analyzer, n: PyNode)
    ensures Visit(a, n).imports == a.imports + FlatMap(OwnImports, Preorder(n))
    ensures Visit(a, n).classes == a.classes + FlatMap(OwnClasses, Preorder(n))
    decreases n, 1
  {
    if n.ClassDef? {
      VisitClassCollects(a, n);
    } else if n.Other? {
      VisitOtherCollects(a, n);
    } else {
      FlatMapCons(OwnImports, n, []);
      FlatMapCons(OwnClasses, n, []);
    }
  }

  /** The same for a class definition: its name, then everything in its body. */
  lemma {:induction false} VisitClassCollects(a: Analyzer, n: PyNode)
    requires n.ClassDef?
    ensures Visit(a, n).imports == a.imports + FlatMap(OwnImports, Preorder(n))
    ensures Visit(a, n).classes == a.classes + FlatMap(OwnClasses, Preorder(n))
    decreases n, 0
  {
    var start := a.(classes := a.classes + [n.name]);
    VisitAllCollects(start, n.body);
    PreorderOfParent(n, n.body);
    var rest := FlatMap(OwnClasses, PreorderAll(n.body));
    assert OwnClasses(n) == [n.name];
    assert (a.classes + [n.name]) + rest == a.classes + ([n.name] + rest);
  }

  /** The same for any other node with children: everything below it. */
  lemma {:induction false} VisitOtherCollects(a: Analyzer, n: PyNode)
    requires n.Other?
    ensures Visit(a, n).imports == a.imports + FlatMap(OwnImports, Preorder(n))
    ensures Visit(a, n).classes == a.classes + FlatMap(OwnClasses, Preorder(n))
    decreases n, 0
  {
    VisitAllCollects(a, n.children);
    PreorderOfParent(n, n.children);
    assert OwnClasses(n) == [];
    assert [] + FlatMap(OwnClasses, PreorderAll(n.children)) == FlatMap(OwnClasses, PreorderAll(n.children));
  }

  lemma {:induction false} VisitAllCollects(a: Analyzer, ns: seq<PyNode>)
    ensures VisitAll(a, ns).imports == a.imports + FlatMap(OwnImports, PreorderAll(ns))
    ensures VisitAll(a, ns).classes == a.classes + FlatMap(OwnClasses, PreorderAll(ns))
    decreases ns, 2
  {
    if ns != [] {
      var a' := Visit(a, ns[0]);
      assert VisitAll(a, ns) == VisitAll(a', ns[1..]);
      VisitCollects(a, ns[0]);
      VisitAllCollects(a', ns[1..]);
      PreorderAllSplit(ns);
      var i1, i2 := FlatMap(OwnImports, Preorder(ns[0])), FlatMap(OwnImports, PreorderAll(ns[1..]));
      var c1, c2 := FlatMap(OwnClasses, Preorder(ns[0])), FlatMap(OwnClasses, PreorderAll(ns[1..]));
      assert (a.imports + i1) + i2 == a.imports + (i1 + i2);
      assert (a.classes + c1) + c2 == a.classes + (c1 + c2);
    }
  }

  /** The names under a list of nodes are those under its first node, then
      those under the rest. */
  lemma PreorderAllSplit(ns: seq<PyNode>)
    requires ns != []
    ensures FlatMap(OwnImports, PreorderAll(ns)) ==
      FlatMap(OwnImports, Preorder(ns[0])) + FlatMap(OwnImports, PreorderAll(ns[1..]))
    ensures FlatMap(OwnClasses, PreorderAll(ns)) ==
      FlatMap(OwnClasses, Preorder(ns[0])) + FlatMap(OwnClasses, PreorderAll(ns[1..]))
  {
    assert PreorderAll(ns) == Preorder(ns[0]) + PreorderAll(ns[1..]);
    FlatMapAppend(OwnImports, Preorder(ns[0]), PreorderAll(ns[1..]));
    FlatMapAppend(OwnClasses, Preorder(ns[0]), PreorderAll(ns[1..]));
  }

  /** What the analyzer collects from a tree: the imports and the class names
      of all its nodes, nested ones included, in walk order. */
  lemma AnalyzeCollects(tree: PyNode)
    ensures Analyze(tree) == Analyzer(TreeImports(tree), TreeClasses(tree))
  {
    VisitCollects(Analyzer([], []), tree);
  }

  /** A class definition anywhere in the tree, however deeply nested, is found,
      and so is every import under it. */
  lemma NestedFound(tree: PyNode, n: PyNode)
    requires n in Preorder(tree)
    ensures n.ClassDef? ==> n.name in Analyze(tree).classes
    ensures forall x :: x in OwnImports(n) ==> x in Analyze(tree).imports
  {
    AnalyzeCollects(tree);
    if n.ClassDef? {
      FlatMapMember(OwnClasses, Preorder(tree), n.name);
    }
    forall x | x in OwnImports(n) ensures x in Analyze(tree).imports {
      FlatMapMember(OwnImports, Preorder(tree), x);
    }
  }

  /** `import a, b` records one name per alias; `from m import ...` records
      `m`; `from . import ...` records nothing. */
  lemma ImportForms(a: Analyzer, names: seq<string>, m: string)
    requires m != ""
    ensures Visit(a, Import(names)).imports == a.imports + names
    ensures Visit(a, ImportFrom(Some(m))).imports == a.imports + [m]
    ensures Visit(a, ImportFrom(None)) == a
    ensures Visit(a, ImportFrom(Some(""))) == a
  {
  }

  function ImportIndicator(path: string, name: string): Indicator
  {
    Indicator("ast_import", name, Some(path))
  }

  function ClassIndicator(path: string, name: string): Indicator
  {
    Indicator("ast_class", name, Some(path))
  }

  /** `ASTScanner.scan`: nothing for a path not ending in ".py" or a text
      the parser rejects; otherwise one `ast_import` indicator per import,
      then one `ast_class` indicator per class, each in walk order. */
  method Scan(path: string, content: string, parse: string -> ParseOutcome) returns (inds: seq<Indicator>)
    ensures !EndsWith(path, ".py") || !parse(content).Parsed? ==> inds == []
    ensures EndsWith(path, ".py") && parse(content).Parsed? ==>
      var imports, classes := TreeImports(parse(content).tree), TreeClasses(parse(content).tree);
      |inds| == |imports| + |classes| &&
      (forall i :: 0 <= i < |imports| ==> inds[i] == ImportIndicator(path, imports[i])) &&
      (forall j :: 0 <= j < |classes| ==> inds[|imports| + j] == ClassIndicator(path, classes[j]))
  {
    inds := [];
    if EndsWith(path, ".py") {
      var outcome := parse(content);
      if outcome.Parsed? {
        var analyzer := Analyze(outcome.tree);
        AnalyzeCollects(outcome.tree);
        var imports, classes := analyzer.imports, analyzer.classes;
        for i := 0 to |imports|
          invariant |inds| == i
          invariant forall k :: 0 <= k < i ==> inds[k] == ImportIndicator(path, imports[k])
        {
          inds := inds + [ImportIndicator(path, imports[i])];
        }
        for j := 0 to |classes|
          invariant |inds| == |imports| + j
          invariant forall k :: 0 <= k < |imports| ==> inds[k] == ImportIndicator(path, imports[k])
          invariant forall k :: 0 <= k < j ==> inds[|imports| + k] == ClassIndicator(path, classes[k])
        {
          inds := inds + [ClassIndicator(path, classes[j])];
        }
      }
    }
  }

  /** The shape of dummy_repo/server.py: `import socket`, `from mcp.server
      import ...`, and a function whose body holds assignments, two nested
      decorated functions and a call, none of them an import or a class. */
  function ServerFixture(): PyNode
  {
    Other([
      Import(["socket"]),
      ImportFrom(Some("mcp.server")),
      Other([Other([]), Other([]), Other([Other([]), Other([])]), Other([Other([]), Other([])]), Other([])])
    ])
  }

  /** A tree made of `Other` nodes only: no import and no class anywhere. */
  predicate Plain(n: PyNode)
    decreases n
  {
    n.Other? && forall i :: 0 <= i < |n.children| ==> Plain(n.children[i])
  }

  lemma {:induction false} PlainVisit(a: Analyzer, n: PyNode)
    requires Plain(n)
    ensures Visit(a, n) == a
    decreases n
  {
    PlainVisitAll(a, n.children);
  }

  lemma {:induction false} PlainVisitAll(a: Analyzer, ns: seq<PyNode>)
    requires forall i :: 0 <= i < |ns| ==> Plain(ns[i])
    ensures VisitAll(a, ns) == a
    decreases ns
  {
    if ns != [] {
      PlainVisit(a, ns[0]);
      PlainVisitAll(a, ns[1..]);
    }
  }

  /** The fixture yields exactly the imports "socket" and "mcp.server" and no class. */
  lemma ServerFixtureFindings()
    ensures Analyze(ServerFixture()) == Analyzer(["socket", "mcp.server"], [])
  {
    var root := ServerFixture();
    var body := root.children[2];
    assert Plain(body);
    var a1 := Analyzer(["socket"], []);
    var a2 := Analyzer(["socket", "mcp.server"], []);
    PlainVisit(a2, body);
    var cs := root.children;
    assert VisitAll(a2, cs[2..]) == a2 by {
      assert cs[2..][1..] == [];
    }
    assert VisitAll(a1, cs[1..]) == a2 by {
      assert cs[1..][0] == ImportFrom(Some("mcp.server")) && cs[1..][1..] == cs[2..];
      assert Visit(a1, cs[1..][0]) == a2;
    }
    assert Analyze(root) == VisitAll(Visit(Analyzer([], []), cs[0]), cs[1..]);
    assert Visit(Analyzer([], []), cs[0]) == a1;
  }
}
