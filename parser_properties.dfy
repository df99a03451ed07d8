/**
 * Properties of the parser of src/parser.rs, stated over the functions that
 * its methods are proved against: the shapes each rule accepts, what it builds,
 * where it leaves the cursor, and the consequences of `parse_statement`
 * stopping on its right operand.
 */
module ParserProperties {
  import opened Wrappers
  import opened Syntax
  import opened Numerals
  import opened Lexing
  import opened Parsing

  /** `expect` and `match_single` agree, and so do `expect_multiple` and `match_multiple`. */
  lemma ChecksAgreeWithMatches(ts: seq<Token>, i: nat, kind: TokenKind, kinds: seq<TokenKind>)
    requires i < |ts|
    ensures Expect(ts, i, kind).Ok? <==> MatchSingle(ts, i, kind)
    ensures Expect(ts, i, kind).Err? ==> Expect(ts, i, kind).error == Unexpected([kind], ts[i].kind)
    ensures ExpectMultiple(ts, i, kinds).Ok? <==> MatchMultiple(ts, i, kinds)
    ensures ExpectMultiple(ts, i, kinds).Err? ==> ExpectMultiple(ts, i, kinds).error == Unexpected(kinds, ts[i].kind)
    ensures ExpectMultiple(ts, i, [kind]) == Expect(ts, i, kind)
    ensures MatchMultiple(ts, i, kinds) <==> exists k | k in kinds :: MatchSingle(ts, i, k)
  {
    if MatchMultiple(ts, i, kinds) {
      assert MatchSingle(ts, i, ts[i].kind);
    }
  }

  /** A token that `parse_condition` and `parse_statement` accept as an operand. */
  predicate OperandAt(ts: seq<Token>, i: nat)
    requires i < |ts|
  {
    IsOperand(ts[i].kind) && ts[i].value.Some?
    && (ts[i].kind == TokenKind.IntLiteral ==> ParseI64(ts[i].value.value).Some?)
  }

  /** The node an accepted operand becomes. */
  function OperandNode(ts: seq<Token>, i: nat): Node
    requires i < |ts| && OperandAt(ts, i)
  {
    if ts[i].kind == Identifier then Variable(ts[i].value.value)
    else Node.IntLiteral(ParseI64(ts[i].value.value).value)
  }

  lemma OperandShape(ts: seq<Token>, i: nat, otherwise: ParseError)
    requires i < |ts|
    ensures Operand(ts, i, otherwise).Ok? <==> OperandAt(ts, i)
    ensures Operand(ts, i, otherwise).Ok? ==> Operand(ts, i, otherwise).value == OperandNode(ts, i)
    ensures !IsOperand(ts[i].kind) ==> Operand(ts, i, otherwise) == Err(otherwise)
  {
  }

  /**
   * `parse_let` succeeds exactly on `let`, a name, `=` and an integer literal in
   * range, builds the declaration of that name and stops on the literal.
   */
  lemma LetShape(ts: seq<Token>, i: nat)
    requires EndsWithEof(ts) && i < |ts|
    ensures LetAt(ts, i).Ok? <==>
      i + 3 < |ts| && ts[i].kind == Let && ts[i + 1].kind == Identifier && ts[i + 1].value.Some?
      && ts[i + 2].kind == Eq && ts[i + 3].kind == TokenKind.IntLiteral && OperandAt(ts, i + 3)
    ensures LetAt(ts, i).Ok? ==>
      LetAt(ts, i).value == Parsed(Declaration(ts[i + 1].value.value, OperandNode(ts, i + 3)), i + 3)
  {
  }

  /** `let = 5`: a declaration without a name fails on the `=`. */
  lemma LetWithoutName(ts: seq<Token>, i: nat)
    requires EndsWithEof(ts) && i + 1 < |ts| && ts[i].kind == Let && ts[i + 1].kind == Eq
    ensures LetAt(ts, i) == Err(Unexpected([Identifier], Eq))
  {
  }

  /**
   * On a token the lexer made from a digit-led run, `parse_int_literal`
   * succeeds exactly when the run is all digits and at most the largest `i64`,
   * and then yields the run's value.
   */
  lemma LexedIntLiteral(ts: seq<Token>, i: nat, run: string)
    requires i < |ts| && ts[i] == Classify(run) && StartsWithDigit(run)
    ensures ParseIntLiteral(ts, i).Ok? <==> AllDigits(run) && DigitsValue(run) <= I64_MAX
    ensures ParseIntLiteral(ts, i).Ok? ==>
      ParseIntLiteral(ts, i).value.IntLiteral? && ParseIntLiteral(ts, i).value.literal as int == DigitsValue(run)
    ensures ParseIntLiteral(ts, i).Err? ==> ParseIntLiteral(ts, i).error == BadIntLiteral(run)
  {
  }

  /**
   * `parse_condition` succeeds exactly on operand, `==`, operand, builds an
   * equality and stops on the right operand.
   */
  lemma ConditionShape(ts: seq<Token>, i: nat)
    requires EndsWithEof(ts) && i < |ts|
    ensures ConditionAt(ts, i).Ok? <==>
      i + 2 < |ts| && OperandAt(ts, i) && ts[i + 1].kind == DoubleEq && OperandAt(ts, i + 2)
    ensures ConditionAt(ts, i).Ok? ==>
      ConditionAt(ts, i).value == Parsed(ComparisonOp(OperandNode(ts, i), OperandNode(ts, i + 2), Equal), i + 2)
  {
    var otherwise := NotImplemented(ts[i].kind);
    OperandShape(ts, i, otherwise);
    if Operand(ts, i, otherwise).Ok? && ts[i + 1].kind == DoubleEq {
      OperandShape(ts, i + 2, NotImplemented(ts[i + 2].kind));
    }
  }

  /** The operator a `+` or `-` token stands for. */
  function OperatorOf(k: TokenKind): BinaryOperator
    requires k == TokenKind.Plus || k == TokenKind.Minus
  {
    if k == TokenKind.Plus then BinaryOperator.Plus else BinaryOperator.Minus
  }

  /**
   * `parse_statement` succeeds exactly on operand, `+` or `-`, operand, builds
   * the binary operation and stops on the right operand.
   */
  lemma StatementShape(ts: seq<Token>, i: nat)
    requires EndsWithEof(ts) && i < |ts|
    ensures StatementAt(ts, i).Ok? <==>
      i + 2 < |ts| && OperandAt(ts, i) && (ts[i + 1].kind == TokenKind.Plus || ts[i + 1].kind == TokenKind.Minus)
      && OperandAt(ts, i + 2)
    ensures StatementAt(ts, i).Ok? ==>
      StatementAt(ts, i).value
        == Parsed(BinaryOp(OperandNode(ts, i), OperandNode(ts, i + 2), OperatorOf(ts[i + 1].kind)), i + 2)
  {
    var otherwise := Unexpected([Identifier, TokenKind.IntLiteral], ts[i].kind);
    OperandShape(ts, i, otherwise);
    if Operand(ts, i, otherwise).Ok? && Operator(ts, i + 1).Ok? {
      OperandShape(ts, i + 2, Unexpected([Identifier, TokenKind.IntLiteral], ts[i + 2].kind));
    }
  }

  /**
   * A body that starts on an operand never parses: every statement stops on
   * its right operand, which is never `}`, so the next statement starts there,
   * until one of them fails.
   */
  lemma {:induction false} BodyFromOperandFails(ts: seq<Token>, j: nat)
    requires EndsWithEof(ts) && j < |ts| && IsOperand(ts[j].kind)
    ensures BodyAt(ts, j).Err?
    decreases |ts| - j
  {
    var st := StatementAt(ts, j);
    if st.Ok? {
      BodyFromOperandFails(ts, st.value.cursor);
    }
  }

  /** `parse_body` succeeds exactly when it starts on `}`; the body is then empty and the cursor stays. */
  lemma BodyOnlyEmpty(ts: seq<Token>, i: nat)
    requires EndsWithEof(ts) && i < |ts|
    ensures BodyAt(ts, i).Ok? <==> ts[i].kind == RBrace
    ensures BodyAt(ts, i).Ok? ==> BodyAt(ts, i).value == Parsed([], i)
  {
    if ts[i].kind != RBrace {
      var st := StatementAt(ts, i);
      if st.Ok? {
        BodyFromOperandFails(ts, st.value.cursor);
      }
    }
  }

  /**
   * `parse_while` succeeds exactly on `while`, a condition, `{` and at once `}`,
   * builds a loop with an empty body and stops on the `}`, five tokens on.
   */
  lemma WhileOnlyEmpty(ts: seq<Token>, i: nat)
    requires EndsWithEof(ts) && i < |ts|
    ensures WhileAt(ts, i).Ok? <==>
      ts[i].kind == TokenKind.While && ConditionAt(ts, i + 1).Ok?
      && ts[i + 4].kind == LBrace && ts[i + 5].kind == RBrace
    ensures WhileAt(ts, i).Ok? ==>
      WhileAt(ts, i).value == Parsed(Node.While(ConditionAt(ts, i + 1).value.value, []), i + 5)
  {
    if ts[i].kind == TokenKind.While {
      var cond := ConditionAt(ts, i + 1);
      if cond.Ok? && ts[i + 4].kind == LBrace {
        BodyOnlyEmpty(ts, i + 5);
      }
    }
  }

  /** The nodes that `parse` can put at the top level. */
  predicate TopLevel(n: Node) {
    n.Declaration? || n == Node.IntLiteral(1)
    || (n.While? && n.condition.ComparisonOp? && n.condition.comparison == Equal && n.body == [])
  }

  /** Every node of `ns` is one `TopLevel` allows. */
  predicate AllTopLevel(ns: seq<Node>) {
    forall k | 0 <= k < |ns| :: TopLevel(ns[k])
  }

  /** A program `parse` can return: top-level nodes only, the placeholder last. */
  predicate ProgramShaped(ns: seq<Node>) {
    |ns| > 0 && ns[|ns| - 1] == Node.IntLiteral(1) && AllTopLevel(ns)
  }

  /** Putting a top-level node in front keeps a program's shape; so does a lone placeholder. */
  lemma ShapedCons(n: Node, rest: seq<Node>)
    requires TopLevel(n)
    requires ProgramShaped(rest) || (rest == [] && n == Node.IntLiteral(1))
    ensures ProgramShaped([n] + rest)
  {
    var ns := [n] + rest;
    assert forall k | 0 < k < |ns| :: ns[k] == rest[k - 1];
  }

  /**
   * One round of `parse` that succeeds: the node it reads is one `TopLevel`
   * allows, the rounds after the skipped token succeed too, and a node that
   * ends on the final `Eof` is the placeholder and the last one.
   */
  lemma ProgramRound(ts: seq<Token>, i: nat) returns (n: Node, c: nat)
    requires EndsWithEof(ts) && i < |ts| && ProgramFrom(ts, i).Ok?
    ensures i <= c < |ts| && TopLevel(n)
    ensures c == |ts| - 1 ==> n == Node.IntLiteral(1) && ProgramFrom(ts, c + 1) == Ok([])
    ensures ProgramFrom(ts, c + 1).Ok? && ProgramFrom(ts, i).value == [n] + ProgramFrom(ts, c + 1).value
  {
    var p := NodeAt(ts, i).value;
    n, c := p.value, p.cursor;
    if ts[i].kind == TokenKind.While {
      WhileOnlyEmpty(ts, i);
      ConditionShape(ts, i + 1);
    }
  }

  /**
   * A successful `parse` from a position inside the tokens ends with the
   * placeholder `IntLiteral(1)` that the final `Eof` turns into, and each of its
   * nodes is a declaration, an equality loop with an empty body, or that
   * placeholder.
   */
  lemma {:induction false} ProgramShape(ts: seq<Token>, i: nat)
    requires EndsWithEof(ts) && i < |ts| && ProgramFrom(ts, i).Ok?
    ensures ProgramShaped(ProgramFrom(ts, i).value)
    decreases |ts| - i
  {
    var n, c := ProgramRound(ts, i);
    var rest := ProgramFrom(ts, c + 1).value;
    if c + 1 < |ts| {
      ProgramShape(ts, c + 1);
      ShapedCons(n, rest);
    } else {
      assert c == |ts| - 1 && rest == [];
      ShapedCons(n, rest);
    }
  }
}
