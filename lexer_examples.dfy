/**
 * Worked inputs for the lexer of src/lexer.rs, each followed run by run
 * through the scan.
 */
module LexerExamples {
  import opened Wrappers
  import opened Lexing
  import opened LexerProperties

  /** A digit-led run is one integer literal whatever follows the digit. */
  lemma NumeralRunExample()
    ensures Scan("12ab ") == Ok([Token(IntLiteral, Some("12ab")), EofToken])
  {
    var s := "12ab ";
    assert RunEnd(s, 0) == 4 by {
      assert RunEnd(s, 3) == 4;
      assert RunEnd(s, 1) == 4;
    }
    ScanRunLexes(s, 0, 0, 4);
    assert s[0..4] == "12ab";
    assert ScanFrom(s, 5) == Ok([EofToken]);
    var t := Token(IntLiteral, Some("12ab"));
    assert Classify("12ab") == t;
    assert [t] + [EofToken] == [t, EofToken];
  }

  /** The second run of the no-split input: `==` is one token, not two `Eq`s. */
  lemma DoubleEqRun()
    ensures ScanFrom("x=1 == ", 4) == Ok([Token(DoubleEq, Some("==")), EofToken])
  {
    var s := "x=1 == ";
    assert RunEnd(s, 4) == 6 by {
      assert RunEnd(s, 5) == 6;
    }
    ScanRunLexes(s, 4, 4, 6);
    assert s[4..6] == "==";
    assert ScanFrom(s, 7) == Ok([EofToken]);
    var t := Token(DoubleEq, Some("=="));
    assert Classify("==") == t;
    assert [t] + [EofToken] == [t, EofToken];
  }

  /** The first run of the no-split input. */
  lemma IdentifierRun()
    ensures ScanFrom("x=1 == ", 0) == Prepend([Token(Identifier, Some("x=1"))], ScanFrom("x=1 == ", 4))
  {
    var s := "x=1 == ";
    assert RunEnd(s, 0) == 3 by {
      assert RunEnd(s, 2) == 3;
      assert RunEnd(s, 1) == 3;
    }
    assert s[0..3] == "x=1";
    XEqualsOneIsIdentifier();
    ScanRunLexes(s, 0, 0, 3);
  }

  /** `x=1` is not in the keyword table, so it becomes an identifier. */
  lemma XEqualsOneIsIdentifier()
    ensures Classify("x=1") == Token(Identifier, Some("x=1"))
  {
    assert KeywordKind("x=1") == None;
  }

  /** Runs are not split at operator characters: `x=1` is a single identifier. */
  lemma NoSplitExample()
    ensures Scan("x=1 == ") == Ok([Token(Identifier, Some("x=1")), Token(DoubleEq, Some("==")), EofToken])
  {
    IdentifierRun();
    DoubleEqRun();
    var t := Token(Identifier, Some("x=1"));
    var rest := [Token(DoubleEq, Some("==")), EofToken];
    assert [t] + rest == [t, Token(DoubleEq, Some("==")), EofToken];
  }

  /** The last two runs of `let x = 5`: the numeral reaches the end and fails. */
  lemma NumeralAtEndFails()
    ensures ScanFrom("let x = 5", 6) == Err(UnterminatedNumeral("5"))
  {
    var s := "let x = 5";
    assert RunEnd(s, 8) == 9;
    ScanRunFails(s, 8, 8);
    assert s[8..] == "5";
    assert RunEnd(s, 6) == 7;
    ScanRunLexes(s, 6, 6, 7);
  }

  /** The first run of `let x = 5`. */
  lemma LetRun()
    ensures ScanFrom("let x = 5", 0) == Prepend([Token(Let, Some("let"))], ScanFrom("let x = 5", 4))
  {
    var s := "let x = 5";
    assert RunEnd(s, 0) == 3 by {
      assert RunEnd(s, 2) == 3;
      assert RunEnd(s, 1) == 3;
    }
    ScanRunLexes(s, 0, 0, 3);
    assert s[0..3] == "let";
  }

  /** `let x = 5` without a final newline fails on the numeral. */
  lemma MissingNewlineExample()
    ensures Scan("let x = 5") == Err(UnterminatedNumeral("5"))
  {
    var s := "let x = 5";
    NumeralAtEndFails();
    assert RunEnd(s, 4) == 5;
    ScanRunLexes(s, 4, 4, 5);
    LetRun();
  }

  /** Two whitespace characters at the end fail the whitespace skip. */
  lemma TwoNewlinesExample()
    ensures Scan("x\n\n") == Err(TrailingWhitespace)
  {
    assert ScanFrom("x\n\n", 2) == Err(TrailingWhitespace);
  }
}
