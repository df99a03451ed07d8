/** The abstract syntax tree of src/ast.rs. */
module Syntax {

  /** Rust's `i64`. */
  newtype i64 = x: int | -0x8000_0000_0000_0000 <= x < 0x8000_0000_0000_0000

  const I64_MAX: int := 0x7FFF_FFFF_FFFF_FFFF

  datatype ComparisonOperator = Equal | NotEqual | GreaterEqual | LesserEqual

  datatype BinaryOperator = Plus | Minus

  /**
   * A statement or expression node. Every child is owned by its parent (a `Box`
   * in the original), so a node is a finite tree. Dafny needs distinct names for
   * destructors of different types, so the `target` of an assignment is called
   * `place`, the `value` of an integer literal `literal`, and the `op` of the two
   * operator nodes `comparison` and `operator`.
   */
  datatype Node =
    | Declaration(target: string, value: Node)
    | Assignment(place: Node, value: Node)
    | Variable(name: string)
    | IntLiteral(literal: i64)
    | While(condition: Node, body: seq<Node>)
    | ComparisonOp(lhs: Node, rhs: Node, comparison: ComparisonOperator)
    | BinaryOp(lhs: Node, rhs: Node, operator: BinaryOperator)

  /** The parse result: top-level nodes in source order. */
  datatype Ast = Ast(nodes: seq<Node>)

  /** `Ast::new`: a program with no statements yet. */
  function NewAst(): (a: Ast)
    ensures |a.nodes| == 0
  {
    Ast([])
  }

  /**
   * The direct children of a node, in field order. Together with the node
   * itself they account for every node of its tree.
   */
  function Children(n: Node): (cs: seq<Node>)
    ensures Size(n) == 1 + SizeOfAll(cs)
    ensures n.ComparisonOp? || n.BinaryOp? ==> cs == [n.lhs, n.rhs]
    ensures n.Assignment? ==> cs == [n.place, n.value]
    ensures n.Declaration? ==> cs == [n.value]
    ensures n.While? ==> cs == [n.condition] + n.body
  {
    match n
    case Declaration(_, v) =>
      SizeOfAllCons(v, []);
      [v]
    case Assignment(p, v) =>
      SizeOfAllCons(p, [v]);
      SizeOfAllCons(v, []);
      [p, v]
    case Variable(_) => []
    case IntLiteral(_) => []
    case While(c, body) =>
      SizeOfAllCons(c, body);
      [c] + body
    case ComparisonOp(l, r, _) =>
      SizeOfAllCons(l, [r]);
      SizeOfAllCons(r, []);
      [l, r]
    case BinaryOp(l, r, _) =>
      SizeOfAllCons(l, [r]);
      SizeOfAllCons(r, []);
      [l, r]
  }

  /** The size of a sequence with one more tree in front. */
  lemma SizeOfAllCons(m: Node, ns: seq<Node>)
    ensures SizeOfAll([m] + ns) == Size(m) + SizeOfAll(ns)
  {
    assert ([m] + ns)[1..] == ns;
  }

  /** Number of nodes in a tree. */
  function Size(n: Node): nat
    decreases n, 1
  {
    match n
    case Declaration(_, v) => 1 + Size(v)
    case Assignment(p, v) => 1 + Size(p) + Size(v)
    case Variable(_) => 1
    case IntLiteral(_) => 1
    case While(c, body) => 1 + Size(c) + SizeOfAll(body)
    case ComparisonOp(l, r, _) => 1 + Size(l) + Size(r)
    case BinaryOp(l, r, _) => 1 + Size(l) + Size(r)
  }

  /** Total number of nodes in a sequence of trees. */
  function SizeOfAll(ns: seq<Node>): nat
    decreases ns, 0
  {
    if ns == [] then 0 else Size(ns[0]) + SizeOfAll(ns[1..])
  }

  lemma {:induction false} SizeOfAllBounds(ns: seq<Node>, k: nat)
    requires k < |ns|
    ensures Size(ns[k]) <= SizeOfAll(ns)
    decreases ns
  {
    if k > 0 {
      SizeOfAllBounds(ns[1..], k - 1);
    }
  }

  /** The tree is well founded: every child is strictly smaller than its parent. */
  lemma ChildrenAreSmaller(n: Node)
    ensures forall k | 0 <= k < |Children(n)| :: Size(Children(n)[k]) < Size(n)
  {
    var cs := Children(n);
    forall k | 0 <= k < |cs|
      ensures Size(cs[k]) < Size(n)
    {
      SizeOfAllBounds(cs, k);
    }
  }
}
