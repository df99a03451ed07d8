/**
 * The lexer of src/lexer.rs: it splits the source at whitespace and classifies
 * each run of non-whitespace characters.
 */
module Lexing {
  import opened Wrappers
  import opened Numerals

  datatype TokenKind =
    | Let | Identifier | While | IntLiteral | DoubleEq | Colon | If | Else
    | Eq | Plus | PlusEq | Minus | MinusEq | LBrace | RBrace | Eof

  /** Every token except the end sentinel carries the text it was read from. */
  datatype Token = Token(kind: TokenKind, value: Option<string>)

  const EofToken: Token := Token(Eof, None)

  /** The two `unwrap` calls of the lexer that can meet the end of the input. */
  datatype LexError =
    | TrailingWhitespace                  // the whitespace skip ran off the end
    | UnterminatedNumeral(text: string)   // a digit-led run ended exactly at the end

  /**
   * `char::is_whitespace`: the characters with the Unicode White_Space property,
   * U+0009 to U+000D, U+0020, U+0085, U+00A0, U+1680, U+2000 to U+200A, U+2028,
   * U+2029, U+202F, U+205F and U+3000.
   */
  predicate IsWhitespace(c: char) {
    c == '\t' || c == '\n' || c == '\U{B}' || c == '\U{C}' || c == '\r' || c == ' '
    || c == '\U{85}' || c == '\U{A0}' || c == '\U{1680}'
    || c == '\U{2000}' || c == '\U{2001}' || c == '\U{2002}' || c == '\U{2003}'
    || c == '\U{2004}' || c == '\U{2005}' || c == '\U{2006}' || c == '\U{2007}'
    || c == '\U{2008}' || c == '\U{2009}' || c == '\U{200A}'
    || c == '\U{2028}' || c == '\U{2029}' || c == '\U{202F}' || c == '\U{205F}' || c == '\U{3000}'
  }

  /** The kinds the spelling table maps to. */
  predicate InTable(k: TokenKind) {
    !(k.Identifier? || k.IntLiteral? || k.Eof?)
  }

  /** The spelling of each kind in the table. */
  function Spelling(k: TokenKind): (s: string)
    requires InTable(k)
    ensures 0 < |s| <= 5 && !IsDigit(s[0])
  {
    match k
    case While => "while"
    case Let => "let"
    case If => "if"
    case Else => "else"
    case Eq => "="
    case DoubleEq => "=="
    case Plus => "+"
    case PlusEq => "+="
    case Minus => "-"
    case MinusEq => "-="
    case Colon => ":"
    case LBrace => "{"
    case RBrace => "}"
  }

  /**
   * The lookup in the spelling table of `tokenise` (`HashMap::get`): the kind
   * stored under `text`, or `None` when `text` is not a key.
   */
  function KeywordKind(text: string): Option<TokenKind> {
    match text
    case "while" => Some(While)
    case "let" => Some(Let)
    case "if" => Some(If)
    case "else" => Some(Else)
    case "=" => Some(Eq)
    case "==" => Some(DoubleEq)
    case "+" => Some(Plus)
    case "+=" => Some(PlusEq)
    case "-" => Some(Minus)
    case "-=" => Some(MinusEq)
    case ":" => Some(Colon)
    case "{" => Some(LBrace)
    case "}" => Some(RBrace)
    case _ => None
  }

  /** A run that starts with a decimal digit is lexed as an integer literal. */
  predicate StartsWithDigit(run: string) {
    |run| > 0 && IsDigit(run[0])
  }

  /** The token a run becomes: a digit-led run is an integer literal, whatever follows. */
  function Classify(run: string): (t: Token)
    ensures t.value == Some(run)
  {
    if StartsWithDigit(run) then Token(IntLiteral, Some(run))
    else Token(KeywordKind(run).GetOr(Identifier), Some(run))
  }

  /** The position of the first non-whitespace character at or after `i`, or the end. */
  function SpaceEnd(s: string, i: nat): (j: nat)
    requires i <= |s|
    ensures i <= j <= |s|
    ensures j < |s| ==> !IsWhitespace(s[j])
    decreases |s| - i
  {
    if i == |s| || !IsWhitespace(s[i]) then i else SpaceEnd(s, i + 1)
  }

  /** The position of the first whitespace character at or after `i`, or the end. */
  function RunEnd(s: string, i: nat): (j: nat)
    requires i <= |s|
    ensures i <= j <= |s|
    ensures j < |s| ==> IsWhitespace(s[j])
    ensures i < |s| && !IsWhitespace(s[i]) ==> i < j
    decreases |s| - i
  {
    if i == |s| || IsWhitespace(s[i]) then i else RunEnd(s, i + 1)
  }

  /** Puts `ts` in front of a successful result; a failure stays a failure. */
  function Prepend(ts: seq<Token>, r: Result<seq<Token>, LexError>): Result<seq<Token>, LexError> {
    match r
    case Ok(rest) => Ok(ts + rest)
    case Err(e) => Err(e)
  }

  /**
   * What `tokenise` does from cursor `i` on: skip whitespace (failing if that
   * reaches the end), take one maximal run, classify it, step over the single
   * character that ended it, and go on. A digit-led run that reaches the end
   * fails; any other run may end the input. Once the cursor is at or past the
   * end, the `Eof` token closes the result.
   */
  function ScanFrom(s: string, i: nat): Result<seq<Token>, LexError>
    requires i <= |s| + 1
    decreases |s| + 1 - i
  {
    if i >= |s| then Ok([EofToken])
    else
      var j := SpaceEnd(s, i);
      if j == |s| then Err(TrailingWhitespace)
      else
        var e := RunEnd(s, j);
        if e == |s| && IsDigit(s[j]) then Err(UnterminatedNumeral(s[j..e]))
        else Prepend([Classify(s[j..e])], ScanFrom(s, e + 1))
  }

  /** The result of `tokenise` on a whole source text. */
  function Scan(source: string): Result<seq<Token>, LexError> {
    ScanFrom(source, 0)
  }

  lemma PrependNothing(r: Result<seq<Token>, LexError>)
    ensures Prepend([], r) == r
  {
    if r.Ok? {
      assert [] + r.value == r.value;
    }
  }

  lemma PrependTwice(ts: seq<Token>, us: seq<Token>, r: Result<seq<Token>, LexError>)
    ensures Prepend(ts, Prepend(us, r)) == Prepend(ts + us, r)
  {
    if r.Ok? {
      assert ts + (us + r.value) == (ts + us) + r.value;
    }
  }

  /**
   * The whitespace skip of `tokenise`: step over whitespace from `start`.
   * `None` is the case where the skip runs off the end of the input, where the
   * `unwrap` of the next character fails.
   */
  method SkipWhitespace(source: string, start: nat) returns (r: Option<nat>)
    requires start < |source|
    ensures r.None? <==> SpaceEnd(source, start) == |source|
    ensures r.Some? ==> r.value == SpaceEnd(source, start)
  {
    var n := |source|;
    var idx := start;
    var current := source[idx];
    while IsWhitespace(current)
      invariant start <= idx < n && current == source[idx]
      invariant SpaceEnd(source, start) == SpaceEnd(source, idx)
      decreases n - idx
    {
      idx := idx + 1;
      if idx >= n {
        return None;
      }
      current := source[idx];
    }
    return Some(idx);
  }

  /**
   * The digit-led run of `tokenise`: collect characters up to the next
   * whitespace. `None` is the case where the run reaches the end of the input,
   * where the `unwrap` of the next character fails.
   */
  method ReadNumeral(source: string, wordStart: nat) returns (identifier: string, r: Option<nat>)
    requires wordStart < |source|
    ensures identifier == source[wordStart..RunEnd(source, wordStart)]
    ensures r.None? <==> RunEnd(source, wordStart) == |source|
    ensures r.Some? ==> r.value == RunEnd(source, wordStart)
  {
    var n := |source|;
    var idx := wordStart;
    var current := source[idx];
    identifier := [];
    while !IsWhitespace(current) && idx < n
      invariant wordStart <= idx < n && current == source[idx]
      invariant identifier == source[wordStart..idx]
      invariant RunEnd(source, wordStart) == RunEnd(source, idx)
      decreases n - idx
    {
      assert source[wordStart..idx + 1] == source[wordStart..idx] + [current];
      identifier := identifier + [current];
      idx := idx + 1;
      if idx >= n {
        return identifier, None;
      }
      current := source[idx];
    }
    return identifier, Some(idx);
  }

  /**
   * Any other run of `tokenise`: collect characters up to the next whitespace
   * or the end of the input, where `unwrap_or(' ')` stands in for the missing
   * character.
   */
  method ReadWord(source: string, wordStart: nat) returns (identifier: string, end: nat)
    requires wordStart < |source|
    ensures end == RunEnd(source, wordStart)
    ensures identifier == source[wordStart..end]
  {
    var n := |source|;
    var idx := wordStart;
    var current := source[idx];
    identifier := [];
    while !IsWhitespace(current) && idx < n
      invariant wordStart <= idx <= n
      invariant idx < n ==> current == source[idx]
      invariant idx == n ==> current == ' '
      invariant identifier == source[wordStart..idx]
      invariant RunEnd(source, wordStart) == RunEnd(source, idx)
      decreases n - idx
    {
      assert source[wordStart..idx + 1] == source[wordStart..idx] + [current];
      identifier := identifier + [current];
      idx := idx + 1;
      current := if idx < n then source[idx] else ' ';
    }
    return identifier, idx;
  }

  /**
   * One run of `tokenise` from `wordStart`, read by the numeral branch or the
   * identifier branch as its first character says, then classified. `None` is
   * the numeral branch running off the end of the input.
   */
  method ReadRun(source: string, wordStart: nat) returns (r: Option<(Token, nat)>)
    requires wordStart < |source| && !IsWhitespace(source[wordStart])
    ensures r.None? <==> RunEnd(source, wordStart) == |source| && IsDigit(source[wordStart])
    ensures r.Some? ==> r.value == (Classify(source[wordStart..RunEnd(source, wordStart)]), RunEnd(source, wordStart))
  {
    if IsDigit(source[wordStart]) {
      var identifier, ended := ReadNumeral(source, wordStart);
      if ended.None? {
        return None;
      }
      assert identifier[0] == source[wordStart];
      return Some((Token(IntLiteral, Some(identifier)), ended.value));
    } else {
      var identifier, end := ReadWord(source, wordStart);
      var kind := KeywordKind(identifier).GetOr(Identifier);
      assert identifier[0] == source[wordStart];
      return Some((Token(kind, Some(identifier)), end));
    }
  }

  /**
   * `tokenise`: alternate whitespace skips and runs until the cursor passes the
   * end, then close the list with `Eof`. Each failing `unwrap` becomes an `Err`.
   */
  method Tokenise(source: string) returns (r: Result<seq<Token>, LexError>)
    ensures r == Scan(source)
  {
    var n := |source|;
    var tokens: seq<Token> := [];
    var idx: nat := 0;
    PrependNothing(ScanFrom(source, 0));
    while idx < n
      invariant idx <= n + 1
      invariant Prepend(tokens, ScanFrom(source, idx)) == Scan(source)
      decreases n + 1 - idx
    {
      var next := NextToken(source, idx);
      if next.Err? {
        return Err(next.error);
      }
      var (token, end) := next.value;
      PrependTwice(tokens, [token], ScanFrom(source, end));
      tokens := tokens + [token];
      idx := end;
    }
    tokens := tokens + [EofToken];
    return Ok(tokens);
  }

  /**
   * One turn of the loop of `tokenise` from the cursor `idx`: skip whitespace,
   * read a run and classify it, giving the token and the cursor after the single
   * character that closed the run.
   */
  method NextToken(source: string, idx: nat) returns (r: Result<(Token, nat), LexError>)
    requires idx < |source|
    ensures StepOf(source, idx, r)
    ensures r.Ok? ==> var j := SpaceEnd(source, idx);
      j < |source| && r.value == (Classify(source[j..RunEnd(source, j)]), RunEnd(source, j) + 1)
  {
    var skipped := SkipWhitespace(source, idx);
    if skipped.None? {
      ScanSpaceFails(source, idx);
      return Err(TrailingWhitespace);
    }
    var wordStart := skipped.value;
    var run := ReadRun(source, wordStart);
    if run.None? {
      ScanRunFails(source, idx, wordStart);
      return Err(UnterminatedNumeral(source[wordStart..]));
    }
    var (token, end) := run.value;
    ScanRunLexes(source, idx, wordStart, end);
    return Ok((token, end + 1));
  }

  /**
   * `r` is one step of the scan from `idx`: a failure the scan from `idx` also
   * ends in, or a token the scan from `idx` puts in front of the scan from the
   * later cursor.
   */
  predicate StepOf(s: string, idx: nat, r: Result<(Token, nat), LexError>)
    requires idx < |s|
  {
    match r
    case Err(e) => ScanFrom(s, idx) == Err(e)
    case Ok((t, next)) => idx < next <= |s| + 1 && ScanFrom(s, idx) == Prepend([t], ScanFrom(s, next))
  }

  /** A whitespace skip that reaches the end of the source fails the scan. */
  lemma ScanSpaceFails(s: string, start: nat)
    requires start < |s| && SpaceEnd(s, start) == |s|
    ensures ScanFrom(s, start) == Err(TrailingWhitespace)
  {
  }

  /** A digit-led run that reaches the end of the source fails the scan. */
  lemma ScanRunFails(s: string, start: nat, wordStart: nat)
    requires start <= wordStart < |s|
    requires SpaceEnd(s, start) == wordStart && RunEnd(s, wordStart) == |s| && IsDigit(s[wordStart])
    ensures ScanFrom(s, start) == Err(UnterminatedNumeral(s[wordStart..]))
  {
    assert s[wordStart..RunEnd(s, wordStart)] == s[wordStart..];
  }

  /** Any other run from `wordStart` to `end` becomes the next token. */
  lemma ScanRunLexes(s: string, start: nat, wordStart: nat, end: nat)
    requires start <= wordStart < end <= |s|
    requires SpaceEnd(s, start) == wordStart && RunEnd(s, wordStart) == end
    requires !(end == |s| && IsDigit(s[wordStart]))
    ensures ScanFrom(s, start) == Prepend([Classify(s[wordStart..end])], ScanFrom(s, end + 1))
  {
  }
}
