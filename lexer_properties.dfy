/**
 * Properties of the lexer of src/lexer.rs, stated against an independent
 * description of its result: the whitespace-separated words of the source and
 * the length of the whitespace at its end.
 */
module LexerProperties {
  import opened Wrappers
  import opened Numerals
  import opened Lexing

  /** The maximal non-whitespace runs of `s` from position `i` on, in source order. */
  function WordsFrom(s: string, i: nat): (ws: seq<string>)
    requires i <= |s|
    decreases |s| - i
  {
    if i == |s| then []
    else
      var j := SpaceEnd(s, i);
      if j == |s| then []
      else
        var e := RunEnd(s, j);
        [s[j..e]] + WordsFrom(s, e)
  }

  function Words(s: string): seq<string> {
    WordsFrom(s, 0)
  }

  /** A non-empty text without whitespace, as every run is. */
  predicate IsWord(w: string) {
    |w| > 0 && forall k | 0 <= k < |w| :: !IsWhitespace(w[k])
  }

  predicate AllWords(ws: seq<string>) {
    ws == [] || (IsWord(ws[0]) && AllWords(ws[1..]))
  }

  lemma {:induction false} AllWordsAt(ws: seq<string>, n: nat)
    requires AllWords(ws) && n < |ws|
    ensures IsWord(ws[n])
  {
    if n > 0 {
      AllWordsAt(ws[1..], n - 1);
    }
  }

  /** The token of each word, in order. */
  function Classified(ws: seq<string>): (ts: seq<Token>)
    ensures |ts| == |ws|
  {
    if ws == [] then [] else [Classify(ws[0])] + Classified(ws[1..])
  }

  lemma {:induction false} ClassifiedAt(ws: seq<string>, k: nat)
    requires k < |ws|
    ensures Classified(ws)[k] == Classify(ws[k])
  {
    if k > 0 {
      ClassifiedAt(ws[1..], k - 1);
    }
  }

  /** The number of whitespace characters that end `s[..k]`. */
  function TrailFrom(s: string, k: nat): nat
    requires k <= |s|
  {
    if k == 0 || !IsWhitespace(s[k - 1]) then 0 else 1 + TrailFrom(s, k - 1)
  }

  function TrailingSpace(s: string): nat {
    TrailFrom(s, |s|)
  }

  function Last(ws: seq<string>): string
    requires ws != []
  {
    ws[|ws| - 1]
  }

  /** What the lexer yields for `s`: the verdict on its words, or only `Eof` for the empty source. */
  function Outcome(s: string): Result<seq<Token>, LexError> {
    OutcomeFrom(s, 0)
  }

  /**
   * The verdict on the words `ws` of a non-empty source that ends in `t`
   * whitespace characters: it fails when the source ends in two or more
   * whitespace characters, or is whitespace only; it fails when the last word is
   * a numeral with nothing after it; otherwise it yields one token per word and
   * then `Eof`.
   */
  function Verdict(ws: seq<string>, t: nat): Result<seq<Token>, LexError>
  {
    if ws == [] || t >= 2 then Err(TrailingWhitespace)
    else if t == 0 && StartsWithDigit(Last(ws)) then Err(UnterminatedNumeral(Last(ws)))
    else Ok(Classified(ws) + [EofToken])
  }

  /** `Outcome` for the suffix from a cursor that is still inside the source. */
  function OutcomeFrom(s: string, i: nat): Result<seq<Token>, LexError>
    requires i <= |s|
  {
    if i == |s| then Ok([EofToken]) else Verdict(WordsFrom(s, i), TrailingSpace(s))
  }

  /** A word in front of further words adds its token in front of theirs. */
  lemma VerdictCons(run: string, rest: seq<string>, t: nat)
    requires rest != []
    ensures Verdict([run] + rest, t) == Prepend([Classify(run)], Verdict(rest, t))
  {
    var ws := [run] + rest;
    assert ws[1..] == rest;
    assert Last(ws) == Last(rest);
    assert Classified(ws) == [Classify(run)] + Classified(rest);
    assert [Classify(run)] + (Classified(rest) + [EofToken])
        == ([Classify(run)] + Classified(rest)) + [EofToken];
  }

  /** Everything `SpaceEnd` steps over is whitespace, so it stops at the first non-whitespace character. */
  lemma {:induction false} SpaceEndAll(s: string, i: nat)
    requires i <= |s|
    ensures forall k | i <= k < SpaceEnd(s, i) :: IsWhitespace(s[k])
    decreases |s| - i
  {
    if i < |s| && IsWhitespace(s[i]) {
      SpaceEndAll(s, i + 1);
    }
  }

  /** Nothing `RunEnd` steps over is whitespace, so it stops at the first whitespace character. */
  lemma {:induction false} RunEndAll(s: string, i: nat)
    requires i <= |s|
    ensures forall k | i <= k < RunEnd(s, i) :: !IsWhitespace(s[k])
    decreases |s| - i
  {
    if i < |s| && !IsWhitespace(s[i]) {
      RunEndAll(s, i + 1);
    }
  }

  /** A run is exactly the non-whitespace stretch that a whitespace character or the end closes. */
  lemma {:induction false} RunEndIs(s: string, i: nat, j: nat)
    requires i <= j <= |s|
    requires forall k | i <= k < j :: !IsWhitespace(s[k])
    requires j < |s| ==> IsWhitespace(s[j])
    ensures RunEnd(s, i) == j
    decreases j - i
  {
    if i < j {
      RunEndIs(s, i + 1, j);
    }
  }

  /** Every word is non-empty and free of whitespace. */
  lemma {:induction false} WordsAreWords(s: string, i: nat)
    requires i <= |s|
    ensures AllWords(WordsFrom(s, i))
    decreases |s| - i
  {
    if i < |s| && SpaceEnd(s, i) < |s| {
      var j := SpaceEnd(s, i);
      var e := RunEnd(s, j);
      RunEndAll(s, j);
      WordsAreWords(s, e);
      var ws := WordsFrom(s, i);
      assert ws == [s[j..e]] + WordsFrom(s, e);
      assert ws[1..] == WordsFrom(s, e);
    }
  }

  /** The whitespace character that ends a run starts no word of its own. */
  lemma WordsSkipSpace(s: string, e: nat)
    requires e < |s| && IsWhitespace(s[e])
    ensures WordsFrom(s, e) == WordsFrom(s, e + 1)
  {
  }

  lemma {:induction false} TrailAtLeast(s: string, k: nat, m: nat)
    requires k <= m <= |s|
    requires forall x | k <= x < m :: IsWhitespace(s[x])
    ensures TrailFrom(s, m) >= m - k
    decreases m
  {
    if k < m {
      TrailAtLeast(s, k, m - 1);
    }
  }

  /** A source that is whitespace from `k` on ends in at least `|s| - k` whitespace characters. */
  lemma AllSpaceTrailing(s: string, k: nat)
    requires k <= |s| && SpaceEnd(s, k) == |s|
    ensures TrailingSpace(s) >= |s| - k
  {
    SpaceEndAll(s, k);
    TrailAtLeast(s, k, |s|);
  }

  /** The cursor `i` is in the source and a run `s[j..e]` starts after the whitespace at `i`. */
  predicate RunAt(s: string, i: nat, j: nat, e: nat) {
    HasRun(s, i) && j == SpaceEnd(s, i) && e == RunEnd(s, j)
  }

  lemma RunAtWords(s: string, i: nat, j: nat, e: nat)
    requires RunAt(s, i, j, e)
    ensures j < e
    ensures WordsFrom(s, i) == [s[j..e]] + WordsFrom(s, e)
  {
  }

  /** No run starts at or after `i`. */
  lemma OutcomeNoRun(s: string, i: nat)
    requires i <= |s| && (i == |s| || SpaceEnd(s, i) == |s|)
    ensures ScanFrom(s, i) == OutcomeFrom(s, i)
  {
  }

  /** The last run reaches the end of the source. */
  lemma OutcomeAtEnd(s: string, i: nat, j: nat, e: nat)
    requires RunAt(s, i, j, e) && e == |s|
    ensures ScanFrom(s, i) == OutcomeFrom(s, i)
  {
    RunAtWords(s, i, j, e);
    if IsDigit(s[j]) {
      ScanRunFails(s, i, j);
      assert s[j..] == s[j..e];
    } else {
      ScanRunLexes(s, i, j, e);
    }
    RunEndAll(s, j);
    assert !IsWhitespace(s[e - 1]);
    assert TrailingSpace(s) == 0;
    assert WordsFrom(s, i) == [s[j..e]];
    assert Classified([s[j..e]]) == [Classify(s[j..e])];
    assert s[j..e][0] == s[j];
  }

  /** The last run is followed by exactly one whitespace character. */
  lemma OutcomeOneSpace(s: string, i: nat, j: nat, e: nat)
    requires RunAt(s, i, j, e) && e + 1 == |s|
    ensures ScanFrom(s, i) == OutcomeFrom(s, i)
  {
    RunAtWords(s, i, j, e);
    ScanRunLexes(s, i, j, e);
    RunEndAll(s, j);
    assert !IsWhitespace(s[e - 1]);
    assert TrailFrom(s, e) == 0;
    assert TrailingSpace(s) == 1;
    WordsSkipSpace(s, e);
    assert WordsFrom(s, i) == [s[j..e]];
    assert Classified([s[j..e]]) == [Classify(s[j..e])];
  }

  /** The run is followed by whitespace only, at least two characters of it. */
  lemma OutcomeSpaceOnly(s: string, i: nat, j: nat, e: nat)
    requires RunAt(s, i, j, e) && e + 1 < |s| && SpaceEnd(s, e + 1) == |s|
    ensures ScanFrom(s, i) == OutcomeFrom(s, i)
  {
    RunAtWords(s, i, j, e);
    ScanRunLexes(s, i, j, e);
    WordsSkipSpace(s, e);
    assert SpaceEnd(s, e) == |s|;
    AllSpaceTrailing(s, e);
  }

  /** The reference outcome from a run that more of the source follows, in terms of what follows. */
  lemma OutcomeAfterRun(s: string, i: nat, j: nat, e: nat)
    requires RunAt(s, i, j, e) && e + 1 < |s|
    ensures OutcomeFrom(s, i) == Verdict([s[j..e]] + WordsFrom(s, e + 1), TrailingSpace(s))
    ensures OutcomeFrom(s, e + 1) == Verdict(WordsFrom(s, e + 1), TrailingSpace(s))
  {
    RunAtWords(s, i, j, e);
    WordsSkipSpace(s, e);
  }

  /** A run after the cursor gives at least one word. */
  lemma WordsNotEmpty(s: string, i: nat)
    requires i < |s| && SpaceEnd(s, i) < |s|
    ensures WordsFrom(s, i) != []
  {
    var j := SpaceEnd(s, i);
    RunAtWords(s, i, j, RunEnd(s, j));
  }

  /** A run starts at or after the cursor `i`. */
  predicate HasRun(s: string, i: nat) {
    i < |s| && SpaceEnd(s, i) < |s|
  }

  /** The cursor after the run that starts at or after `i` and the one character that ends it. */
  function After(s: string, i: nat): (n: nat)
    requires HasRun(s, i)
    ensures i < n <= |s| + 1
  {
    RunEnd(s, SpaceEnd(s, i)) + 1
  }

  /** The token of the run that starts at or after `i`. */
  function HeadToken(s: string, i: nat): Token
    requires HasRun(s, i)
  {
    var j := SpaceEnd(s, i);
    Classify(s[j..RunEnd(s, j)])
  }

  /** Another run follows the one that starts at or after `i`. */
  predicate MoreAfter(s: string, i: nat) {
    HasRun(s, i) && After(s, i) < |s| && SpaceEnd(s, After(s, i)) < |s|
  }

  /** The scan takes one run when another follows it. */
  lemma ScanStep(s: string, i: nat)
    requires MoreAfter(s, i)
    ensures ScanFrom(s, i) == Prepend([HeadToken(s, i)], ScanFrom(s, After(s, i)))
  {
    var j := SpaceEnd(s, i);
    ScanRunLexes(s, i, j, RunEnd(s, j));
  }

  /** The reference outcome takes one word when another follows it. */
  lemma OutcomeStep(s: string, i: nat)
    requires MoreAfter(s, i)
    ensures OutcomeFrom(s, i) == Prepend([HeadToken(s, i)], OutcomeFrom(s, After(s, i)))
  {
    var j := SpaceEnd(s, i);
    var e := RunEnd(s, j);
    OutcomeAfterRun(s, i, j, e);
    WordsNotEmpty(s, e + 1);
    VerdictCons(s[j..e], WordsFrom(s, e + 1), TrailingSpace(s));
  }

  /** When no further run follows, the scan and the reference outcome agree directly. */
  lemma OutcomeLast(s: string, i: nat)
    requires i <= |s| && !MoreAfter(s, i)
    ensures ScanFrom(s, i) == OutcomeFrom(s, i)
  {
    if HasRun(s, i) {
      var j := SpaceEnd(s, i);
      var e := RunEnd(s, j);
      if e == |s| {
        OutcomeAtEnd(s, i, j, e);
      } else if e + 1 == |s| {
        OutcomeOneSpace(s, i, j, e);
      } else {
        OutcomeSpaceOnly(s, i, j, e);
      }
    } else {
      OutcomeNoRun(s, i);
    }
  }

  lemma {:induction false} ScanFromOutcome(s: string, i: nat)
    requires i <= |s|
    ensures ScanFrom(s, i) == OutcomeFrom(s, i)
    decreases |s| - i
  {
    if MoreAfter(s, i) {
      ScanFromOutcome(s, After(s, i));
      ScanStep(s, i);
      OutcomeStep(s, i);
    } else {
      OutcomeLast(s, i);
    }
  }

  /** The scan agrees with the word-based description on every source. */
  lemma LexOutcome(s: string)
    ensures Scan(s) == Outcome(s)
  {
    ScanFromOutcome(s, 0);
  }

  /** The empty source yields only the end sentinel. */
  lemma EmptySource()
    ensures Scan([]) == Ok([EofToken])
  {
  }

  /**
   * A successful result holds one token per word, in source order, each
   * classified from its word, then `Eof`; no earlier token is `Eof` and every
   * earlier token carries a non-empty, whitespace-free text.
   */
  lemma SuccessShape(s: string)
    requires Scan(s).Ok?
    ensures var ts := Scan(s).value;
      |ts| == |Words(s)| + 1 && ts[|ts| - 1] == EofToken
      && forall k | 0 <= k < |ts| - 1 ::
           ts[k] == Classify(Words(s)[k]) && ts[k].kind != Eof
           && ts[k].value.Some? && IsWord(ts[k].value.value)
  {
    LexOutcome(s);
    var ws := Words(s);
    WordsAreWords(s, 0);
    forall k | 0 <= k < |ws|
      ensures Classified(ws)[k] == Classify(ws[k]) && Classify(ws[k]).kind != Eof && IsWord(ws[k])
    {
      ClassifiedAt(ws, k);
      ClassifyNotEof(ws[k]);
      AllWordsAt(ws, k);
    }
  }

  /** The lexer fails with `TrailingWhitespace` exactly when a whitespace skip reaches the end. */
  lemma TrailingWhitespaceFails(s: string)
    ensures Scan(s) == Err(TrailingWhitespace)
        <==> TrailingSpace(s) >= 2 || (|s| > 0 && Words(s) == [])
  {
    LexOutcome(s);
    if |s| > 0 && Words(s) == [] {
      AllSpaceTrailing(s, 0);
    }
  }

  /**
   * The lexer fails on a numeral exactly when the source ends with no whitespace
   * after a digit-led last word; the failure carries that word.
   */
  lemma UnterminatedNumeralFails(s: string, text: string)
    ensures Scan(s) == Err(UnterminatedNumeral(text))
        <==> TrailingSpace(s) == 0 && Words(s) != [] && StartsWithDigit(Last(Words(s)))
             && text == Last(Words(s))
  {
    LexOutcome(s);
  }

  /** A last word that is not a numeral may end the source. */
  lemma WordAtEndSucceeds(s: string)
    requires TrailingSpace(s) == 0 && Words(s) != [] && !StartsWithDigit(Last(Words(s)))
    ensures Scan(s) == Ok(Classified(Words(s)) + [EofToken])
  {
    LexOutcome(s);
  }

  /** The non-whitespace characters of `s` from position `i` on. */
  function NonSpaceFrom(s: string, i: nat): string
    requires i <= |s|
    decreases |s| - i
  {
    if i == |s| then []
    else if IsWhitespace(s[i]) then NonSpaceFrom(s, i + 1)
    else [s[i]] + NonSpaceFrom(s, i + 1)
  }

  function NonSpace(s: string): string {
    NonSpaceFrom(s, 0)
  }

  /** The texts of the tokens, one after another; `Eof` adds nothing. */
  function Text(ts: seq<Token>): string {
    if ts == [] then [] else ts[0].value.GetOr([]) + Text(ts[1..])
  }

  function Joined(ws: seq<string>): string {
    if ws == [] then [] else ws[0] + Joined(ws[1..])
  }

  lemma {:induction false} NonSpaceSkip(s: string, i: nat)
    requires i <= |s|
    ensures NonSpaceFrom(s, i) == NonSpaceFrom(s, SpaceEnd(s, i))
    decreases |s| - i
  {
    if i < |s| && IsWhitespace(s[i]) {
      NonSpaceSkip(s, i + 1);
    }
  }

  lemma {:induction false} NonSpaceRun(s: string, j: nat)
    requires j <= |s|
    ensures NonSpaceFrom(s, j) == s[j..RunEnd(s, j)] + NonSpaceFrom(s, RunEnd(s, j))
    decreases |s| - j
  {
    var e := RunEnd(s, j);
    if j < |s| && !IsWhitespace(s[j]) {
      assert e == RunEnd(s, j + 1);
      NonSpaceRun(s, j + 1);
      assert NonSpaceFrom(s, j) == [s[j]] + NonSpaceFrom(s, j + 1);
      assert s[j..e] == [s[j]] + s[j + 1..e];
      assert [s[j]] + (s[j + 1..e] + NonSpaceFrom(s, e)) == ([s[j]] + s[j + 1..e]) + NonSpaceFrom(s, e);
    } else {
      assert s[j..e] + NonSpaceFrom(s, e) == NonSpaceFrom(s, e);
    }
  }

  lemma {:induction false} WordsSpellNonSpace(s: string, i: nat)
    requires i <= |s|
    ensures Joined(WordsFrom(s, i)) == NonSpaceFrom(s, i)
    decreases |s| - i
  {
    NonSpaceSkip(s, i);
    if i < |s| && SpaceEnd(s, i) < |s| {
      var j := SpaceEnd(s, i);
      var e := RunEnd(s, j);
      NonSpaceRun(s, j);
      WordsSpellNonSpace(s, e);
      assert WordsFrom(s, i) == [s[j..e]] + WordsFrom(s, e);
      assert ([s[j..e]] + WordsFrom(s, e))[1..] == WordsFrom(s, e);
    } else if i < |s| {
      assert NonSpaceFrom(s, |s|) == [];
    }
  }

  lemma {:induction false} TextOfClassified(ws: seq<string>)
    ensures Text(Classified(ws) + [EofToken]) == Joined(ws)
  {
    if ws == [] {
      assert Classified(ws) + [EofToken] == [EofToken];
      assert Text([EofToken]) == [] + Text([]);
    } else {
      TextOfClassified(ws[1..]);
      assert (Classified(ws) + [EofToken])[1..] == Classified(ws[1..]) + [EofToken];
    }
  }

  /** Concatenating the token texts gives back the source with its whitespace removed. */
  lemma TextIsSourceWithoutWhitespace(s: string)
    requires Scan(s).Ok?
    ensures Text(Scan(s).value) == NonSpace(s)
  {
    LexOutcome(s);
    TextOfClassified(Words(s));
    WordsSpellNonSpace(s, 0);
  }

  /** The words `ws`, each followed by one space. */
  function Spaced(ws: seq<string>): string {
    if ws == [] then [] else ws[0] + [' '] + Spaced(ws[1..])
  }

  /** A word followed by a space at the cursor: no whitespace to skip, and the run is the word. */
  lemma SpacedRun(s: string, i: nat, w: string)
    requires i + |w| < |s| && s[i..i + |w|] == w && s[i + |w|] == ' ' && IsWord(w)
    ensures SpaceEnd(s, i) == i && RunEnd(s, i) == i + |w|
  {
    var e := i + |w|;
    forall k | i <= k < e
      ensures !IsWhitespace(s[k])
    {
      assert s[k] == s[i..e][k - i] == w[k - i];
    }
    assert s[i] == w[0];
    RunEndIs(s, i, e);
  }

  /** A word followed by a space at the cursor is the first word from there. */
  lemma FirstSpacedWord(s: string, i: nat, w: string)
    requires i + |w| < |s| && s[i..i + |w|] == w && s[i + |w|] == ' ' && IsWord(w)
    ensures WordsFrom(s, i) == [w] + WordsFrom(s, i + |w| + 1)
  {
    var e := i + |w|;
    SpacedRun(s, i, w);
    RunAtWords(s, i, i, e);
    WordsSkipSpace(s, e);
  }

  /** Text in front of `t` shifts where the whitespace skip stops by its length. */
  lemma {:induction false} SpaceEndShift(p: string, t: string, k: nat)
    requires k <= |t|
    ensures SpaceEnd(p + t, |p| + k) == |p| + SpaceEnd(t, k)
    decreases |t| - k
  {
    if k < |t| {
      assert (p + t)[|p| + k] == t[k];
      if IsWhitespace(t[k]) {
        SpaceEndShift(p, t, k + 1);
      }
    }
  }

  /** Text in front of `t` shifts where a run ends by its length. */
  lemma {:induction false} RunEndShift(p: string, t: string, k: nat)
    requires k <= |t|
    ensures RunEnd(p + t, |p| + k) == |p| + RunEnd(t, k)
    decreases |t| - k
  {
    if k < |t| {
      assert (p + t)[|p| + k] == t[k];
      if !IsWhitespace(t[k]) {
        RunEndShift(p, t, k + 1);
      }
    }
  }

  /** Text in front of `t` shifts every slice of `t` by its length. */
  lemma SliceShift(p: string, t: string, a: nat, b: nat)
    requires a <= b <= |t|
    ensures (p + t)[|p| + a..|p| + b] == t[a..b]
  {
  }

  /** With text in front of `t`, the run after the cursor is still the same word. */
  lemma WordsShiftStep(p: string, t: string, k: nat, j: nat, e: nat)
    requires RunAt(t, k, j, e)
    ensures WordsFrom(p + t, |p| + k) == [t[j..e]] + WordsFrom(p + t, |p| + e)
  {
    SpaceEndShift(p, t, k);
    RunEndShift(p, t, j);
    RunAtWords(p + t, |p| + k, |p| + j, |p| + e);
    SliceShift(p, t, j, e);
  }

  /** Text in front of `t` does not change the words of `t` from a cursor inside `t`. */
  lemma {:induction false} WordsShift(p: string, t: string, k: nat)
    requires k <= |t|
    ensures WordsFrom(p + t, |p| + k) == WordsFrom(t, k)
    decreases |t| - k
  {
    if k == |t| {
      assert |p| + k == |p + t|;
    } else if SpaceEnd(t, k) == |t| {
      SpaceEndShift(p, t, k);
      assert WordsFrom(p + t, |p| + k) == [];
    } else {
      var j := SpaceEnd(t, k);
      var e := RunEnd(t, j);
      RunAtWords(t, k, j, e);
      WordsShiftStep(p, t, k, j, e);
      WordsShift(p, t, e);
    }
  }

  /** The words of `Spaced(ws)` are `ws`. */
  lemma {:induction false} SpacedWords(ws: seq<string>)
    requires AllWords(ws)
    ensures Words(Spaced(ws)) == ws
    decreases |ws|
  {
    if ws != [] {
      var w, rest := ws[0], ws[1..];
      var p, t := w + [' '], Spaced(rest);
      var u := p + t;
      assert IsWord(w) && AllWords(rest);
      assert Spaced(ws) == u;
      assert u[0..|w|] == w && u[|w|] == ' ';
      FirstSpacedWord(u, 0, w);
      WordsShift(p, t, 0);
      SpacedWords(rest);
      calc {
        Words(u);
        [w] + WordsFrom(u, |p|);
        [w] + Words(t);
        ws;
      }
    }
  }

  /** `Spaced(ws)` ends in one space after the last character of the last word. */
  lemma {:induction false} SpacedEnd(ws: seq<string>)
    requires ws != [] && AllWords(ws)
    ensures var s := Spaced(ws); |s| >= 2 && s[|s| - 1] == ' ' && !IsWhitespace(s[|s| - 2])
    decreases |ws|
  {
    var s := Spaced(ws);
    var w := ws[0];
    assert IsWord(w);
    var t := Spaced(ws[1..]);
    assert s == (w + [' ']) + t;
    if ws[1..] == [] {
      assert t == [];
      assert s[|s| - 2] == w[|w| - 1];
    } else {
      SpacedEnd(ws[1..]);
      assert s[|s| - 1] == t[|t| - 1] && s[|s| - 2] == t[|t| - 2];
    }
  }

  /** Non-empty spaced words end in exactly one whitespace character. */
  lemma SpacedTrail(ws: seq<string>)
    requires ws != [] && AllWords(ws)
    ensures TrailingSpace(Spaced(ws)) == 1
  {
    var s := Spaced(ws);
    SpacedEnd(ws);
    assert TrailFrom(s, |s| - 1) == 0;
  }

  /** Words, each followed by one space, lex to their tokens and then `Eof`. */
  lemma RelexSpaced(ws: seq<string>)
    requires AllWords(ws)
    ensures Scan(Spaced(ws)) == Ok(Classified(ws) + [EofToken])
  {
    var s := Spaced(ws);
    LexOutcome(s);
    SpacedWords(ws);
    if ws != [] {
      SpacedTrail(ws);
      assert |s| > 0;
      assert Outcome(s) == Verdict(ws, 1);
    } else {
      assert Classified(ws) + [EofToken] == [EofToken];
    }
  }

  /** The text of each token, in order; a token without one gives the empty text. */
  function Texts(ts: seq<Token>): (ws: seq<string>)
    ensures |ws| == |ts|
  {
    if ts == [] then [] else [ts[0].value.GetOr([])] + Texts(ts[1..])
  }

  lemma {:induction false} TextsOfClassified(ws: seq<string>)
    ensures Texts(Classified(ws)) == ws
  {
    if ws != [] {
      TextsOfClassified(ws[1..]);
      assert Classified(ws)[1..] == Classified(ws[1..]);
    }
  }

  /**
   * Lexing is idempotent: the texts of the tokens before `Eof`, each followed
   * by one space, lex to the same tokens again.
   */
  lemma Relex(s: string)
    requires Scan(s).Ok?
    ensures var ts := Scan(s).value;
      |ts| > 0 && Scan(Spaced(Texts(ts[..|ts| - 1]))) == Scan(s)
  {
    LexOutcome(s);
    var ws := Words(s);
    var ts := Scan(s).value;
    assert ts == Classified(ws) + [EofToken];
    assert ts[..|ts| - 1] == Classified(ws);
    TextsOfClassified(ws);
    WordsAreWords(s, 0);
    RelexSpaced(ws);
  }

  /**
   * The spelling table is one-to-one: each kind in it is found under its
   * spelling, and any text found is the spelling of its kind, which is never
   * `Identifier`, `IntLiteral` or `Eof`.
   */
  lemma TableRoundTrip(k: TokenKind, text: string)
    ensures InTable(k) ==> KeywordKind(Spelling(k)) == Some(k)
    ensures KeywordKind(text) == Some(k) ==> InTable(k) && text == Spelling(k)
  {
  }

  /** A run longer than every spelling in the table, and not digit-led, is an identifier. */
  lemma LongRunIsIdentifier(run: string)
    requires |run| > 5 && !StartsWithDigit(run)
    ensures Classify(run) == Token(Identifier, Some(run))
  {
    if KeywordKind(run).Some? {
      TableRoundTrip(KeywordKind(run).value, run);
    }
  }

  /** No run is classified as the end sentinel. */
  lemma ClassifyNotEof(run: string)
    ensures Classify(run).kind != Eof
  {
    if !StartsWithDigit(run) && KeywordKind(run).Some? {
      TableRoundTrip(KeywordKind(run).value, run);
    }
  }
}
