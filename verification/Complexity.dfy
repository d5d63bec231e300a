/**
 The code complexity analyzer (`scripts/code_complexity.py`): a visitor that keeps its nesting
 depth in two counters while it walks a syntax tree, and one that collects function records.
 */
module Complexity {
  import opened Wrappers

  /** The node kinds the visitors treat specially; asynchronous loops and the like are `Plain`. */
  datatype Kind = If | For | While | With | Try | ExceptHandler | Match | MatchCase
                | FunctionDef | AsyncFunctionDef | ClassDef | Plain

  /**
   `located`: the node has a `lineno`. `inBody`: the node is a statement of its parent's `body`.
   Children are in visiting order.
   */
  datatype Node = Node(
    kind: Kind, name: string, located: bool, line: nat, endLine: Option<nat>, inBody: bool, children: seq<Node>)

  datatype FunctionInfo = FunctionInfo(file: string, name: string, line: int, lines: int, maxDepth: nat)

  predicate IsBlock(k: Kind) {
    k.If? || k.For? || k.While? || k.With? || k.Try? || k.ExceptHandler? || k.Match? || k.MatchCase?
  }

  predicate IsFunction(k: Kind) {
    k.FunctionDef? || k.AsyncFunctionDef?
  }

  function Max(a: nat, b: nat): nat {
    if a < b then b else a
  }

  // ---------------------------------------------------------------------------
  // Nesting depth

  function Depth(n: Node): nat {
    DepthOfAll(n.children) + if IsBlock(n.kind) then 1 else 0
  }

  function DepthOfAll(ns: seq<Node>): nat {
    if ns == [] then 0 else Max(DepthOfAll(ns[..|ns| - 1]), Depth(ns[|ns| - 1]))
  }

  /** Child indices leading down from a node. */
  ghost predicate IsPath(n: Node, path: seq<nat>)
    decreases path
  {
    path == [] || (path[0] < |n.children| && IsPath(n.children[path[0]], path[1..]))
  }

  /** How many blocks a path passes through, both ends included. */
  ghost function BlocksOn(n: Node, path: seq<nat>): nat
    requires IsPath(n, path)
    decreases path
  {
    (if IsBlock(n.kind) then 1 else 0) + if path == [] then 0 else BlocksOn(n.children[path[0]], path[1..])
  }

  lemma {:induction false} DepthOfMember(ns: seq<Node>, i: nat)
    requires i < |ns|
    ensures Depth(ns[i]) <= DepthOfAll(ns)
  {
    if i < |ns| - 1 {
      DepthOfMember(ns[..|ns| - 1], i);
      assert ns[..|ns| - 1][i] == ns[i];
    }
  }

  lemma {:induction false} DeepestMember(ns: seq<Node>) returns (i: nat)
    requires DepthOfAll(ns) > 0
    ensures i < |ns| && Depth(ns[i]) == DepthOfAll(ns)
  {
    i := |ns| - 1;
    if Depth(ns[i]) != DepthOfAll(ns) {
      i := DeepestMember(ns[..|ns| - 1]);
    }
  }

  lemma {:induction false} NoPathIsDeeper(n: Node, path: seq<nat>)
    requires IsPath(n, path)
    ensures BlocksOn(n, path) <= Depth(n)
    decreases path
  {
    if path != [] {
      NoPathIsDeeper(n.children[path[0]], path[1..]);
      DepthOfMember(n.children, path[0]);
    }
  }

  lemma {:induction false} SomePathIsAsDeep(n: Node) returns (path: seq<nat>)
    ensures IsPath(n, path) && BlocksOn(n, path) == Depth(n)
  {
    path := [];
    if DepthOfAll(n.children) > 0 {
      var i := DeepestMember(n.children);
      var rest := SomePathIsAsDeep(n.children[i]);
      path := [i] + rest;
      assert path[1..] == rest;
    }
  }

  /** The recursive depth is the number of blocks on the deepest chain below a node. */
  lemma DepthIsDeepestChain(n: Node)
    ensures forall path | IsPath(n, path) :: BlocksOn(n, path) <= Depth(n)
    ensures exists path :: IsPath(n, path) && BlocksOn(n, path) == Depth(n)
  {
    forall path | IsPath(n, path)
      ensures BlocksOn(n, path) <= Depth(n)
    {
      NoPathIsDeeper(n, path);
    }
    var path := SomePathIsAsDeep(n);
  }

  class DepthVisitor {
    var maxDepth: nat
    var currentDepth: nat

    ghost predicate Valid()
      reads this
    {
      currentDepth <= maxDepth
    }

    constructor ()
      ensures Valid() && maxDepth == currentDepth == 0
    {
      maxDepth, currentDepth := 0, 0;
    }

    /** The counter comes back to where it was; the maximum has met the deepest block below. */
    method Visit(n: Node)
      requires Valid()
      modifies this
      ensures Valid() && currentDepth == old(currentDepth)
      ensures maxDepth == Max(old(maxDepth), old(currentDepth) + Depth(n))
      decreases n, 1
    {
      if IsBlock(n.kind) {
        VisitBlock(n);
      } else {
        GenericVisit(n);
      }
    }

    method VisitBlock(n: Node)
      requires Valid() && IsBlock(n.kind)
      modifies this
      ensures Valid() && currentDepth == old(currentDepth)
      ensures maxDepth == Max(old(maxDepth), old(currentDepth) + Depth(n))
      decreases n, 0, 1
    {
      currentDepth := currentDepth + 1;
      maxDepth := Max(maxDepth, currentDepth);
      GenericVisit(n);
      currentDepth := currentDepth - 1;
    }

    method GenericVisit(n: Node)
      requires Valid()
      modifies this
      ensures Valid() && currentDepth == old(currentDepth)
      ensures maxDepth == Max(old(maxDepth), old(currentDepth) + DepthOfAll(n.children))
      decreases n, 0, 0
    {
      for i := 0 to |n.children|
        invariant Valid() && currentDepth == old(currentDepth)
        invariant maxDepth == Max(old(maxDepth), old(currentDepth) + DepthOfAll(n.children[..i]))
      {
        assert n.children[..i + 1][..i] == n.children[..i];
        Visit(n.children[i]);
      }
      assert n.children[..|n.children|] == n.children;
    }
  }

  // ---------------------------------------------------------------------------
  // Function records

  /** The nodes with a line number in a tree. */
  function Located(n: Node): nat {
    LocatedInAll(n.children) + if n.located then 1 else 0
  }

  function LocatedInAll(ns: seq<Node>): nat {
    if ns == [] then 0 else LocatedInAll(ns[..|ns| - 1]) + Located(ns[|ns| - 1])
  }

  /** `_get_function_lines` */
  function FunctionLines(n: Node): int {
    if n.endLine.Some? && n.endLine.value != 0 then n.endLine.value - n.line + 1 else Located(n)
  }

  function RecordOf(file: string, n: Node, prefix: string): FunctionInfo {
    FunctionInfo(file, prefix + n.name, n.line, FunctionLines(n), Depth(n))
  }

  /** One record for each function directly in a class body, named after the class. */
  function MethodRecords(file: string, owner: string, ns: seq<Node>): seq<FunctionInfo> {
    if ns == [] then []
    else
      var n := ns[|ns| - 1];
      MethodRecords(file, owner, ns[..|ns| - 1])
      + if n.inBody && IsFunction(n.kind) then [RecordOf(file, n, owner + ".")] else []
  }

  function OwnRecords(file: string, n: Node): seq<FunctionInfo> {
    if IsFunction(n.kind) then [RecordOf(file, n, "")]
    else if n.kind.ClassDef? then MethodRecords(file, n.name, n.children)
    else []
  }

  function Records(file: string, n: Node): seq<FunctionInfo> {
    OwnRecords(file, n) + RecordsOfAll(file, n.children)
  }

  function RecordsOfAll(file: string, ns: seq<Node>): seq<FunctionInfo> {
    if ns == [] then [] else RecordsOfAll(file, ns[..|ns| - 1]) + Records(file, ns[|ns| - 1])
  }

  class FunctionAnalyzer {
    const file: string
    var functions: seq<FunctionInfo>

    constructor (file: string)
      ensures this.file == file && functions == []
    {
      this.file := file;
      functions := [];
    }

    method GetMaxDepth(n: Node) returns (depth: nat)
      ensures depth == Depth(n)
    {
      var visitor := new DepthVisitor();
      visitor.Visit(n);
      depth := visitor.maxDepth;
    }

    method AnalyzeFunction(n: Node, prefix: string)
      modifies this
      ensures functions == old(functions) + [RecordOf(file, n, prefix)]
    {
      var depth := GetMaxDepth(n);
      functions := functions + [FunctionInfo(file, prefix + n.name, n.line, FunctionLines(n), depth)];
    }

    method Visit(n: Node)
      modifies this
      ensures functions == old(functions) + Records(file, n)
      decreases n, 1
    {
      if IsFunction(n.kind) {
        AnalyzeFunction(n, "");
      } else if n.kind.ClassDef? {
        VisitMethods(n);
      }
      assert functions == old(functions) + OwnRecords(file, n);
      GenericVisit(n);
      assert functions == old(functions) + (OwnRecords(file, n) + RecordsOfAll(file, n.children));
    }

    method VisitMethods(n: Node)
      modifies this
      ensures functions == old(functions) + MethodRecords(file, n.name, n.children)
    {
      for i := 0 to |n.children|
        invariant functions == old(functions) + MethodRecords(file, n.name, n.children[..i])
      {
        assert n.children[..i + 1][..i] == n.children[..i];
        if n.children[i].inBody && IsFunction(n.children[i].kind) {
          AnalyzeFunction(n.children[i], n.name + ".");
        }
      }
      assert n.children[..|n.children|] == n.children;
    }

    method GenericVisit(n: Node)
      modifies this
      ensures functions == old(functions) + RecordsOfAll(file, n.children)
      decreases n, 0
    {
      for i := 0 to |n.children|
        invariant functions == old(functions) + RecordsOfAll(file, n.children[..i])
      {
        assert n.children[..i + 1][..i] == n.children[..i];
        Visit(n.children[i]);
      }
      assert n.children[..|n.children|] == n.children;
    }
  }

  // Counting

  ghost function FunctionsIn(n: Node): nat {
    (if IsFunction(n.kind) then 1 else 0) + FunctionsInAll(n.children)
  }

  ghost function FunctionsInAll(ns: seq<Node>): nat {
    if ns == [] then 0 else FunctionsInAll(ns[..|ns| - 1]) + FunctionsIn(ns[|ns| - 1])
  }

  /** Functions that are statements of a class body. */
  ghost function MethodsIn(n: Node): nat {
    (if n.kind.ClassDef? then DirectMethods(n.children) else 0) + MethodsInAll(n.children)
  }

  ghost function MethodsInAll(ns: seq<Node>): nat {
    if ns == [] then 0 else MethodsInAll(ns[..|ns| - 1]) + MethodsIn(ns[|ns| - 1])
  }

  ghost function DirectMethods(ns: seq<Node>): nat {
    if ns == [] then 0
    else
      DirectMethods(ns[..|ns| - 1]) + if ns[|ns| - 1].inBody && IsFunction(ns[|ns| - 1].kind) then 1 else 0
  }

  lemma {:induction false} MethodRecordsCount(file: string, owner: string, ns: seq<Node>)
    ensures |MethodRecords(file, owner, ns)| == DirectMethods(ns)
  {
    if ns != [] {
      MethodRecordsCount(file, owner, ns[..|ns| - 1]);
    }
  }

  /** One record per function, and one more for each that sits directly in a class body. */
  lemma {:induction false} RecordsCount(file: string, n: Node)
    ensures |Records(file, n)| == FunctionsIn(n) + MethodsIn(n)
    decreases n, 1
  {
    MethodRecordsCount(file, n.name, n.children);
    RecordsOfAllCount(file, n.children);
  }

  lemma {:induction false} RecordsOfAllCount(file: string, ns: seq<Node>)
    ensures |RecordsOfAll(file, ns)| == FunctionsInAll(ns) + MethodsInAll(ns)
    decreases ns, 0
  {
    if ns != [] {
      RecordsOfAllCount(file, ns[..|ns| - 1]);
      RecordsCount(file, ns[|ns| - 1]);
    }
  }

  /** Every function anywhere in the tree has its plain record, every method also its prefixed one. */
  ghost predicate At(n: Node, path: seq<nat>, m: Node)
    decreases path
  {
    if path == [] then n == m else path[0] < |n.children| && At(n.children[path[0]], path[1..], m)
  }

  lemma {:induction false} RecordsOfMember(file: string, ns: seq<Node>, i: nat)
    requires i < |ns|
    ensures forall r <- Records(file, ns[i]) :: r in RecordsOfAll(file, ns)
  {
    if i < |ns| - 1 {
      RecordsOfMember(file, ns[..|ns| - 1], i);
    }
  }

  lemma {:induction false} MethodRecordIn(file: string, owner: string, ns: seq<Node>, i: nat)
    requires i < |ns| && ns[i].inBody && IsFunction(ns[i].kind)
    ensures RecordOf(file, ns[i], owner + ".") in MethodRecords(file, owner, ns)
  {
    if i < |ns| - 1 {
      MethodRecordIn(file, owner, ns[..|ns| - 1], i);
    }
  }

  lemma {:induction false} EveryFunctionIsReported(file: string, n: Node, path: seq<nat>, m: Node)
    requires At(n, path, m)
    ensures m.kind.FunctionDef? || m.kind.AsyncFunctionDef? ==>
              FunctionInfo(file, m.name, m.line, FunctionLines(m), Depth(m)) in Records(file, n)
    ensures m.kind.ClassDef? ==>
              forall i | 0 <= i < |m.children| && m.children[i].inBody && IsFunction(m.children[i].kind) ::
                var f := m.children[i];
                FunctionInfo(file, m.name + "." + f.name, f.line, FunctionLines(f), Depth(f)) in Records(file, n)
    decreases path
  {
    if path == [] {
      assert "" + m.name == m.name;
      if m.kind.ClassDef? {
        forall i | 0 <= i < |m.children| && m.children[i].inBody && IsFunction(m.children[i].kind)
          ensures RecordOf(file, m.children[i], m.name + ".") in Records(file, n)
          ensures m.name + "." + m.children[i].name == RecordOf(file, m.children[i], m.name + ".").name
        {
          MethodRecordIn(file, m.name, m.children, i);
        }
      }
    } else {
      EveryFunctionIsReported(file, n.children[path[0]], path[1..], m);
      RecordsOfMember(file, n.children, path[0]);
    }
  }

  // ---------------------------------------------------------------------------
  // Single nodes

  /** A node deepens the nesting by one if it is one of the eight block kinds, and not otherwise. */
  lemma KindsThatDeepen(n: Node)
    ensures Depth(n) == DepthOfAll(n.children)
                        + if n.kind in {If, For, While, With, Try, ExceptHandler, Match, MatchCase} then 1 else 0
    ensures n.children == [] ==> DepthOfAll(n.children) == 0
    ensures |n.children| == 1 ==> DepthOfAll(n.children) == Depth(n.children[0])
  {
    if |n.children| == 1 {
      assert n.children[..0] == [];
    }
  }

  /** A node without children is recorded iff it is a function, synchronous or not. */
  lemma KindsThatAreRecorded(file: string, n: Node)
    requires n.children == []
    ensures |Records(file, n)| == if n.kind in {FunctionDef, AsyncFunctionDef} then 1 else 0
  {
    RecordsCount(file, n);
  }

  /** A function is reported before all that is inside it, a class's methods before all else in it. */
  lemma OuterComesFirst(file: string, n: Node)
    ensures n.kind in {FunctionDef, AsyncFunctionDef} ==>
              && Records(file, n) != []
              && Records(file, n)[0] == FunctionInfo(file, n.name, n.line, FunctionLines(n), Depth(n))
              && Records(file, n)[1..] == RecordsOfAll(file, n.children)
    ensures n.kind == ClassDef ==>
              && DirectMethods(n.children) <= |Records(file, n)|
              && Records(file, n)[DirectMethods(n.children)..] == RecordsOfAll(file, n.children)
  {
    MethodRecordsCount(file, n.name, n.children);
    assert "" + n.name == n.name;
  }

  /** From first to last line, both included; without a last line, the number of nodes that have a line. */
  lemma LinesOfFunction(n: Node, last: nat)
    ensures n.endLine == Some(last) && last > 0 ==> FunctionLines(n) == last + 1 - n.line
    ensures n.endLine == None || n.endLine == Some(0) ==> FunctionLines(n) == Located(n)
    ensures n.children == [] ==> Located(n) == if n.located then 1 else 0
  {
  }

  /** The count goes over the whole tree. */
  lemma {:induction false} LocatedAdds(a: seq<Node>, b: seq<Node>)
    ensures LocatedInAll(a + b) == LocatedInAll(a) + LocatedInAll(b)
  {
    if b == [] {
      assert a + b == a;
    } else {
      assert (a + b)[..|a + b| - 1] == a + b[..|b| - 1];
      LocatedAdds(a, b[..|b| - 1]);
    }
  }
}
