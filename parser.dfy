/**
 * The parser of src/parser.rs: a cursor `idx` over the tokens of one source
 * text and one method per grammar rule. Each method is proved against a
 * function over the token sequence that gives the rule's result and the
 * position where the cursor stops. A panic of the original becomes an `Err`.
 * After a panic the original's cursor is gone with the program, so the model
 * leaves the cursor after a failure unspecified.
 */
module Parsing {
  import opened Wrappers
  import opened Syntax
  import opened Numerals
  import opened Lexing
  import LexerProperties

  /** The panics of the parser, with what was expected and what was found. */
  datatype ParseError =
    | Unexpected(expected: seq<TokenKind>, found: TokenKind)   // `expect`, `expect_multiple`, `parse_statement`
    | NotImplemented(found: TokenKind)                        // `parse_condition`: "Not Implemented"
    | MissingValue(found: TokenKind)                          // `unwrap` of a token without text
    | BadIntLiteral(text: string)                             // `unwrap` of a failed `i64::from_str_radix`

  /** What a grammar rule returns, and the position of the cursor when it returns. */
  datatype Parsed<+T> = Parsed(value: T, cursor: nat)

  /** Token sequences as the lexer produces them end with the `Eof` token. */
  predicate EndsWithEof(ts: seq<Token>) {
    |ts| > 0 && ts[|ts| - 1].kind == Eof
  }

  /** The kinds that can stand as an operand of a condition or a statement. */
  predicate IsOperand(k: TokenKind) {
    k == Identifier || k == TokenKind.IntLiteral
  }

  /** `expect`: panics unless the current token has kind `kind`. */
  function Expect(ts: seq<Token>, i: nat, kind: TokenKind): Result<(), ParseError>
    requires i < |ts|
  {
    if ts[i].kind != kind then Err(Unexpected([kind], ts[i].kind)) else Ok(())
  }

  /** `expect_multiple`: panics unless the current token has one of the kinds `kinds`. */
  function ExpectMultiple(ts: seq<Token>, i: nat, kinds: seq<TokenKind>): Result<(), ParseError>
    requires i < |ts|
  {
    if ts[i].kind !in kinds then Err(Unexpected(kinds, ts[i].kind)) else Ok(())
  }

  /** `match_single`. */
  function MatchSingle(ts: seq<Token>, i: nat, kind: TokenKind): bool
    requires i < |ts|
  {
    ts[i].kind == kind
  }

  /** `match_multiple`. */
  function MatchMultiple(ts: seq<Token>, i: nat, kinds: seq<TokenKind>): bool
    requires i < |ts|
  {
    ts[i].kind in kinds
  }

  /** The `value.as_ref().unwrap()` of the current token. */
  function TextOf(ts: seq<Token>, i: nat): Result<string, ParseError>
    requires i < |ts|
  {
    match ts[i].value
    case Some(text) => Ok(text)
    case None => Err(MissingValue(ts[i].kind))
  }

  /** `parse_variable`: the current token's text as a variable. */
  function ParseVariable(ts: seq<Token>, i: nat): Result<Node, ParseError>
    requires i < |ts|
  {
    var name :- TextOf(ts, i);
    Ok(Variable(name))
  }

  /** `parse_int_literal`: the current token's text read as a decimal `i64`. */
  function ParseIntLiteral(ts: seq<Token>, i: nat): Result<Node, ParseError>
    requires i < |ts|
  {
    var text :- TextOf(ts, i);
    match ParseI64(text)
    case Some(n) => Ok(Node.IntLiteral(n))
    case None => Err(BadIntLiteral(text))
  }

  /**
   * An operand of `parse_condition` or `parse_statement`: a variable or an
   * integer literal. The two rules panic differently on any other token, so the
   * error to report is passed in.
   */
  function Operand(ts: seq<Token>, i: nat, otherwise: ParseError): (r: Result<Node, ParseError>)
    requires i < |ts|
    ensures r.Ok? ==> IsOperand(ts[i].kind)
  {
    match ts[i].kind
    case Identifier => ParseVariable(ts, i)
    case IntLiteral => ParseIntLiteral(ts, i)
    case _ => Err(otherwise)
  }

  /** The comparison operator of `parse_condition`: only `==` is implemented. */
  function Comparison(ts: seq<Token>, i: nat): Result<ComparisonOperator, ParseError>
    requires i < |ts|
  {
    match ts[i].kind
    case DoubleEq => Ok(Equal)
    case _ => Err(NotImplemented(ts[i].kind))
  }

  /** The operator of `parse_statement`: `+` or `-`. */
  function Operator(ts: seq<Token>, i: nat): Result<BinaryOperator, ParseError>
    requires i < |ts|
  {
    match ts[i].kind
    case Plus => Ok(BinaryOperator.Plus)
    case Minus => Ok(BinaryOperator.Minus)
    case _ => Err(Unexpected([TokenKind.Plus, TokenKind.Minus], ts[i].kind))
  }

  /** `parse_let` from position `i`: `let`, a name, `=`, an integer literal; it stops on the literal. */
  function LetAt(ts: seq<Token>, i: nat): (r: Result<Parsed<Node>, ParseError>)
    requires EndsWithEof(ts) && i < |ts|
    ensures r.Ok? ==> r.value.cursor == i + 3 < |ts| - 1
  {
    var _ :- Expect(ts, i, Let);
    var _ :- Expect(ts, i + 1, Identifier);
    var target :- TextOf(ts, i + 1);
    var _ :- Expect(ts, i + 2, Eq);
    var _ :- Expect(ts, i + 3, TokenKind.IntLiteral);
    var value :- ParseIntLiteral(ts, i + 3);
    Ok(Parsed(Declaration(target, value), i + 3))
  }

  /** `parse_condition` from position `i`: operand, `==`, operand; it stops on the right operand. */
  function ConditionAt(ts: seq<Token>, i: nat): (r: Result<Parsed<Node>, ParseError>)
    requires EndsWithEof(ts) && i < |ts|
    ensures r.Ok? ==> r.value.cursor == i + 2 < |ts| - 1 && IsOperand(ts[i + 2].kind)
  {
    var lhs :- Operand(ts, i, NotImplemented(ts[i].kind));
    var op :- Comparison(ts, i + 1);
    var rhs :- Operand(ts, i + 2, NotImplemented(ts[i + 2].kind));
    Ok(Parsed(ComparisonOp(lhs, rhs, op), i + 2))
  }

  /** `parse_statement` from position `i`: operand, `+` or `-`, operand; it stops on the right operand. */
  function StatementAt(ts: seq<Token>, i: nat): (r: Result<Parsed<Node>, ParseError>)
    requires EndsWithEof(ts) && i < |ts|
    ensures r.Ok? ==> r.value.cursor == i + 2 < |ts| - 1 && IsOperand(ts[i + 2].kind)
  {
    var lhs :- Operand(ts, i, Unexpected([Identifier, TokenKind.IntLiteral], ts[i].kind));
    var op :- Operator(ts, i + 1);
    var rhs :- Operand(ts, i + 2, Unexpected([Identifier, TokenKind.IntLiteral], ts[i + 2].kind));
    Ok(Parsed(BinaryOp(lhs, rhs, op), i + 2))
  }

  /** Puts `ns` in front of the nodes of a successful body. */
  function PrependBody(ns: seq<Node>, r: Result<Parsed<seq<Node>>, ParseError>): Result<Parsed<seq<Node>>, ParseError> {
    match r
    case Ok(p) => Ok(Parsed(ns + p.value, p.cursor))
    case Err(e) => Err(e)
  }

  /**
   * `parse_body` from position `i`: statements until the current token is `}`.
   * No token is skipped after a statement, so the next one starts on the
   * previous statement's right operand.
   */
  function BodyAt(ts: seq<Token>, i: nat): (r: Result<Parsed<seq<Node>>, ParseError>)
    requires EndsWithEof(ts) && i < |ts|
    ensures r.Ok? ==> i <= r.value.cursor < |ts| - 1 && ts[r.value.cursor].kind == RBrace
    decreases |ts| - i
  {
    if ts[i].kind == RBrace then Ok(Parsed([], i))
    else
      var st :- StatementAt(ts, i);
      PrependBody([st.value], BodyAt(ts, st.cursor))
  }

  /** `parse_while` from position `i`: `while`, a condition, `{`, a body; it stops on the `}`. */
  function WhileAt(ts: seq<Token>, i: nat): (r: Result<Parsed<Node>, ParseError>)
    requires EndsWithEof(ts) && i < |ts|
    ensures r.Ok? ==> i + 5 <= r.value.cursor < |ts| - 1
  {
    var _ :- Expect(ts, i, TokenKind.While);
    var cond :- ConditionAt(ts, i + 1);
    var _ :- Expect(ts, cond.cursor + 1, LBrace);
    var body :- BodyAt(ts, cond.cursor + 2);
    Ok(Parsed(Node.While(cond.value, body.value), body.cursor))
  }

  /**
   * One round of the loop of `parse` at position `i`: a declaration, a loop, or
   * for any other token the placeholder `IntLiteral(1)` without moving.
   */
  function NodeAt(ts: seq<Token>, i: nat): (r: Result<Parsed<Node>, ParseError>)
    requires EndsWithEof(ts) && i < |ts|
    ensures r.Ok? ==> i <= r.value.cursor < |ts|
  {
    match ts[i].kind
    case Let => LetAt(ts, i)
    case While => WhileAt(ts, i)
    case _ => Ok(Parsed(Node.IntLiteral(1), i))
  }

  /** Puts `ns` in front of the nodes of a successful program. */
  function PrependProgram(ns: seq<Node>, r: Result<seq<Node>, ParseError>): Result<seq<Node>, ParseError> {
    match r
    case Ok(rest) => Ok(ns + rest)
    case Err(e) => Err(e)
  }

  /** The loop of `parse` from position `i`: one node per round, then one token skipped. */
  function ProgramFrom(ts: seq<Token>, i: nat): Result<seq<Node>, ParseError>
    requires EndsWithEof(ts)
    decreases |ts| - i, 1
  {
    if i >= |ts| then Ok([]) else ProgramAfter(ts, i, NodeAt(ts, i))
  }

  /** The rest of a round of `parse` at `i` whose node read gave `r`. */
  function ProgramAfter(ts: seq<Token>, i: nat, r: Result<Parsed<Node>, ParseError>): Result<seq<Node>, ParseError>
    requires EndsWithEof(ts) && i < |ts|
    requires r.Ok? ==> i <= r.value.cursor
    decreases |ts| - i, 0
  {
    match r
    case Err(e) => Err(e)
    case Ok(node) => PrependProgram([node.value], ProgramFrom(ts, node.cursor + 1))
  }

  /** What `parse` returns when called with the cursor at `i`. */
  function ParseFrom(ts: seq<Token>, i: nat): Result<Ast, ParseError>
    requires EndsWithEof(ts)
  {
    var nodes :- ProgramFrom(ts, i);
    Ok(Ast(nodes))
  }

  /** A method ends as the function `spec` says: the same result and, on success, the same cursor. */
  predicate Follows<T(==)>(spec: Result<Parsed<T>, ParseError>, r: Result<T, ParseError>, cursor: nat) {
    match spec
    case Ok(p) => r == Ok(p.value) && cursor == p.cursor
    case Err(e) => r == Err(e)
  }

  /** One round of the loop of `parse` that succeeds keeps the loop's account of the nodes so far. */
  lemma ProgramStep(ts: seq<Token>, start: nat, i: nat, ns: seq<Node>, node: Node, cursor: nat)
    requires EndsWithEof(ts) && i < |ts|
    ensures Follows(NodeAt(ts, i), Ok(node), cursor)
            && ProgramFrom(ts, start) == PrependProgram(ns, ProgramFrom(ts, i))
        ==> ProgramFrom(ts, start) == PrependProgram(ns + [node], ProgramFrom(ts, cursor + 1))
  {
    if Follows(NodeAt(ts, i), Ok(node), cursor) {
      var rest := ProgramFrom(ts, cursor + 1);
      ProgramUnfold(ts, i, Parsed(node, cursor));
      assert ProgramFrom(ts, i) == PrependProgram([node], rest);
      PrependProgramTwice(ns, [node], rest);
    }
  }

  /** A round that reads `p` puts its node in front of the rounds after the skipped token. */
  lemma ProgramUnfold(ts: seq<Token>, i: nat, p: Parsed<Node>)
    requires EndsWithEof(ts) && i < |ts| && NodeAt(ts, i) == Ok(p)
    ensures ProgramFrom(ts, i) == PrependProgram([p.value], ProgramFrom(ts, p.cursor + 1))
  {
  }

  lemma PrependBodyNothing(r: Result<Parsed<seq<Node>>, ParseError>)
    ensures PrependBody([], r) == r
  {
    if r.Ok? {
      assert [] + r.value.value == r.value.value;
    }
  }

  lemma PrependProgramNothing(r: Result<seq<Node>, ParseError>)
    ensures PrependProgram([], r) == r
  {
    if r.Ok? {
      assert [] + r.value == r.value;
    }
  }

  lemma PrependBodyTwice(ns: seq<Node>, ms: seq<Node>, r: Result<Parsed<seq<Node>>, ParseError>)
    ensures PrependBody(ns, PrependBody(ms, r)) == PrependBody(ns + ms, r)
  {
    if r.Ok? {
      assert ns + (ms + r.value.value) == (ns + ms) + r.value.value;
    }
  }

  lemma PrependProgramTwice(ns: seq<Node>, ms: seq<Node>, r: Result<seq<Node>, ParseError>)
    ensures PrependProgram(ns, PrependProgram(ms, r)) == PrependProgram(ns + ms, r)
  {
    if r.Ok? {
      assert ns + (ms + r.value) == (ns + ms) + r.value;
    }
  }

  /** `Parser`: the tokens of one source text and a cursor into them. */
  class Parser {
    const tokens: seq<Token>
    var idx: nat

    predicate Valid() {
      EndsWithEof(tokens)
    }

    /** A parser at the start of `tokens`. */
    constructor FromTokens(tokens: seq<Token>)
      requires EndsWithEof(tokens)
      ensures this.tokens == tokens && idx == 0 && Valid()
    {
      this.tokens := tokens;
      idx := 0;
    }

    /** `advance`: moves the cursor one token on. */
    method Advance()
      modifies this
      ensures idx == old(idx) + 1
    {
      idx := idx + 1;
    }

    /** `parse_let`. */
    method ParseLet() returns (r: Result<Node, ParseError>)
      requires Valid() && idx < |tokens|
      modifies this
      ensures Follows(LetAt(tokens, old(idx)), r, idx)
    {
      var _ :- Expect(tokens, idx, Let);
      Advance();
      var _ :- Expect(tokens, idx, Identifier);
      var target :- TextOf(tokens, idx);
      Advance();
      var _ :- Expect(tokens, idx, Eq);
      Advance();
      var _ :- Expect(tokens, idx, TokenKind.IntLiteral);
      var value :- ParseIntLiteral(tokens, idx);
      return Ok(Declaration(target, value));
    }

    /** `parse_condition`. */
    method ParseCondition() returns (r: Result<Node, ParseError>)
      requires Valid() && idx < |tokens|
      modifies this
      ensures Follows(ConditionAt(tokens, old(idx)), r, idx)
    {
      var lhs :- Operand(tokens, idx, NotImplemented(tokens[idx].kind));
      Advance();
      var op :- Comparison(tokens, idx);
      Advance();
      var rhs :- Operand(tokens, idx, NotImplemented(tokens[idx].kind));
      return Ok(ComparisonOp(lhs, rhs, op));
    }

    /** `parse_statement`. */
    method ParseStatement() returns (r: Result<Node, ParseError>)
      requires Valid() && idx < |tokens|
      modifies this
      ensures Follows(StatementAt(tokens, old(idx)), r, idx)
    {
      var lhs :- Operand(tokens, idx, Unexpected([Identifier, TokenKind.IntLiteral], tokens[idx].kind));
      Advance();
      var op :- Operator(tokens, idx);
      Advance();
      var rhs :- Operand(tokens, idx, Unexpected([Identifier, TokenKind.IntLiteral], tokens[idx].kind));
      return Ok(BinaryOp(lhs, rhs, op));
    }

    /** `parse_body`. */
    method ParseBody() returns (r: Result<seq<Node>, ParseError>)
      requires Valid() && idx < |tokens|
      modifies this
      ensures Follows(BodyAt(tokens, old(idx)), r, idx)
    {
      var nodes: seq<Node> := [];
      PrependBodyNothing(BodyAt(tokens, idx));
      while !MatchSingle(tokens, idx, RBrace)
        invariant idx < |tokens|
        invariant BodyAt(tokens, old(idx)) == PrependBody(nodes, BodyAt(tokens, idx))
        decreases |tokens| - idx
      {
        var node :- ParseStatement();
        PrependBodyTwice(nodes, [node], BodyAt(tokens, idx));
        nodes := nodes + [node];
      }
      assert nodes + [] == nodes;
      return Ok(nodes);
    }

    /** `parse_while`. */
    method ParseWhile() returns (r: Result<Node, ParseError>)
      requires Valid() && idx < |tokens|
      modifies this
      ensures Follows(WhileAt(tokens, old(idx)), r, idx)
    {
      var _ :- Expect(tokens, idx, TokenKind.While);
      Advance();
      var cond :- ParseCondition();
      Advance();
      var _ :- Expect(tokens, idx, LBrace);
      Advance();
      var body :- ParseBody();
      return Ok(Node.While(cond, body));
    }

    /** The `match` on the current token inside the loop of `parse`. */
    method ParseNode() returns (r: Result<Node, ParseError>)
      requires Valid() && idx < |tokens|
      modifies this
      ensures Follows(NodeAt(tokens, old(idx)), r, idx)
    {
      match tokens[idx].kind {
        case Let =>
          r := ParseLet();
        case While =>
          r := ParseWhile();
        case _ =>
          r := Ok(Node.IntLiteral(1));
      }
    }

    /** `parse`: nodes until the cursor passes the last token. */
    method Parse() returns (r: Result<Ast, ParseError>)
      requires Valid()
      modifies this
      ensures r == ParseFrom(tokens, old(idx))
      ensures r.Ok? ==> idx >= |tokens|
    {
      var ast := NewAst();
      PrependProgramNothing(ProgramFrom(tokens, idx));
      while idx < |tokens|
        invariant ProgramFrom(tokens, old(idx)) == PrependProgram(ast.nodes, ProgramFrom(tokens, idx))
        decreases |tokens| - idx
      {
        ghost var start := idx;
        var node :- ParseNode();
        ProgramStep(tokens, old(idx), start, ast.nodes, node, idx);
        ast := ast.(nodes := ast.nodes + [node]);
        idx := idx + 1;
      }
      assert ast.nodes + [] == ast.nodes;
      return Ok(ast);
    }
  }

  /** `Parser::new`: tokenises the source; a failure of the lexer is a failure here. */
  method New(source: string) returns (r: Result<Parser, LexError>)
    ensures r.Ok? <==> Scan(source).Ok?
    ensures r.Ok? ==> fresh(r.value) && r.value.tokens == Scan(source).value
                      && r.value.idx == 0 && r.value.Valid()
  {
    var tokens :- Tokenise(source);
    LexerProperties.SuccessShape(source);
    var parser := new Parser.FromTokens(tokens);
    return Ok(parser);
  }
}
