/**
 * Worked token sequences for the parser of src/parser.rs, showing the two
 * behaviours of the original that a reader would not expect: the final `Eof`
 * becomes a node of its own, and a loop body that holds a statement fails.
 */
module ParserExamples {
  import opened Wrappers
  import opened Syntax
  import opened Numerals
  import opened Lexing
  import opened Parsing
  import opened ParserProperties

  /** The tokens of an empty source: the `Eof` alone. */
  lemma EmptyProgramExample()
    ensures ParseFrom([EofToken], 0) == Ok(Ast([Node.IntLiteral(1)]))
  {
    var ts := [EofToken];
    assert NodeAt(ts, 0) == Ok(Parsed(Node.IntLiteral(1), 0));
    assert ProgramFrom(ts, 1) == Ok([]);
    assert [Node.IntLiteral(1)] + [] == [Node.IntLiteral(1)];
    assert ProgramFrom(ts, 0) == ProgramAfter(ts, 0, Ok(Parsed(Node.IntLiteral(1), 0))) == Ok([Node.IntLiteral(1)]);
  }

  /** The literal `1` parses to one. */
  lemma OneParses()
    ensures ParseI64("1") == Some(1)
  {
    assert DigitsValue("1") == 1;
  }

  /** The condition `x == 1` that both loops below start with. */
  lemma XEqualsOne(ts: seq<Token>)
    requires EndsWithEof(ts) && 4 < |ts|
    requires ts[1] == Token(Identifier, Some("x")) && ts[2] == Token(DoubleEq, Some("=="))
    requires ts[3] == Token(TokenKind.IntLiteral, Some("1"))
    ensures ConditionAt(ts, 1) == Ok(Parsed(ComparisonOp(Variable("x"), Node.IntLiteral(1), Equal), 3))
  {
    OneParses();
    ConditionShape(ts, 1);
  }

  /** The tokens of `while x == 1 { }`. */
  function EmptyLoopTokens(): (ts: seq<Token>)
    ensures EndsWithEof(ts)
  {
    [Token(TokenKind.While, Some("while")), Token(Identifier, Some("x")), Token(DoubleEq, Some("==")),
     Token(TokenKind.IntLiteral, Some("1")), Token(LBrace, Some("{")), Token(RBrace, Some("}")), EofToken]
  }

  /** The loop itself: `x == 1` with an empty body, ending on the `}`. */
  lemma EmptyLoopNode()
    ensures NodeAt(EmptyLoopTokens(), 0)
      == Ok(Parsed(Node.While(ComparisonOp(Variable("x"), Node.IntLiteral(1), Equal), []), 5))
  {
    var ts := EmptyLoopTokens();
    XEqualsOne(ts);
    WhileOnlyEmpty(ts, 0);
  }

  /** After the `}` comes only the `Eof`, which becomes the placeholder. */
  lemma EmptyLoopRest()
    ensures ProgramFrom(EmptyLoopTokens(), 6) == Ok([Node.IntLiteral(1)])
  {
    var ts := EmptyLoopTokens();
    assert ProgramFrom(ts, 7) == Ok([]);
    assert [Node.IntLiteral(1)] + [] == [Node.IntLiteral(1)];
  }

  /** `while x == 1 { }` parses to the loop and the placeholder. */
  lemma EmptyLoopExample()
    ensures ParseFrom(EmptyLoopTokens(), 0) == Ok(Ast([
      Node.While(ComparisonOp(Variable("x"), Node.IntLiteral(1), Equal), []),
      Node.IntLiteral(1)]))
  {
    var ts := EmptyLoopTokens();
    EmptyLoopNode();
    EmptyLoopRest();
    var w := Node.While(ComparisonOp(Variable("x"), Node.IntLiteral(1), Equal), []);
    assert ProgramFrom(ts, 0) == PrependProgram([w], ProgramFrom(ts, 6));
    assert [w] + [Node.IntLiteral(1)] == [w, Node.IntLiteral(1)];
  }

  /** The tokens of `while x == 1 { x + 1 }`. */
  function BusyLoopTokens(): (ts: seq<Token>)
    ensures EndsWithEof(ts)
  {
    [Token(TokenKind.While, Some("while")), Token(Identifier, Some("x")), Token(DoubleEq, Some("==")),
     Token(TokenKind.IntLiteral, Some("1")), Token(LBrace, Some("{")),
     Token(Identifier, Some("x")), Token(TokenKind.Plus, Some("+")), Token(TokenKind.IntLiteral, Some("1")),
     Token(RBrace, Some("}")), EofToken]
  }

  /**
   * The statement `x + 1` stops on the `1`, so the body reads a second
   * statement from there and fails on the `}` where it wants an operator.
   */
  lemma BusyLoopBody()
    ensures BodyAt(BusyLoopTokens(), 5) == Err(Unexpected([TokenKind.Plus, TokenKind.Minus], RBrace))
  {
    var ts := BusyLoopTokens();
    OneParses();
    assert StatementAt(ts, 7) == Err(Unexpected([TokenKind.Plus, TokenKind.Minus], RBrace));
    assert BodyAt(ts, 7) == Err(Unexpected([TokenKind.Plus, TokenKind.Minus], RBrace));
    StatementShape(ts, 5);
  }

  /** `while x == 1 { x + 1 }` does not parse. */
  lemma BusyLoopExample()
    ensures ParseFrom(BusyLoopTokens(), 0) == Err(Unexpected([TokenKind.Plus, TokenKind.Minus], RBrace))
  {
    var ts := BusyLoopTokens();
    BusyLoopBody();
    XEqualsOne(ts);
    assert WhileAt(ts, 0) == Err(Unexpected([TokenKind.Plus, TokenKind.Minus], RBrace));
  }
}
