/**
  The lexer of the evaluator: one token of lookahead over a NUL-terminated
  character string. This module gives the behaviour of one call of the
  scanner as a function of the string and the cursor; the class in
  evaluator.dfy carries the cursor as mutable state and is proved to follow it.
 */
module Lexer {

  /** Token kinds of the evaluator. A number carries the run of characters
      the scanner consumed (its numeric value is left abstract). */
  datatype Token =
    | TEnd
    | TNumber(lexeme: string)
    | TPlus
    | TMinus
    | TMult
    | TDiv
    | TPow
    | TLParen
    | TRParen

  /** What one scan produces: the token, the cursor after it, and whether
      an unrecognised character was met. */
  datatype Step = Step(tok: Token, pos: nat, err: bool)

  /** The character at index i of the C string whose contents are src:
      the terminating NUL sits at index |src| (and past it, which the
      scanner never reaches). */
  function At(src: string, i: nat): char
  {
    if i < |src| then src[i] else '\0'
  }

  predicate IsDigit(c: char) { '0' <= c <= '9' }

  /** Characters that make up a number token: digits and any number of dots. */
  predicate IsNumChar(c: char) { IsDigit(c) || c == '.' }

  predicate IsOpChar(c: char)
  {
    c == '+' || c == '-' || c == '*' || c == '/' || c == '^' || c == '(' || c == ')'
  }

  /** Characters the scanner accepts inside the input (besides the terminator). */
  predicate IsLexChar(c: char) { c == ' ' || IsNumChar(c) || IsOpChar(c) }

  /** A lexeme the number scan can produce: a non-empty run of digits and dots. */
  predicate ValidLexeme(s: string)
  {
    |s| > 0 && forall i | 0 <= i < |s| :: IsNumChar(s[i])
  }

  /** The single-character tokens of the switch in next_token. */
  function OpToken(c: char): Token
    requires IsOpChar(c)
  {
    match c
    case '+' => TPlus
    case '-' => TMinus
    case '*' => TMult
    case '/' => TDiv
    case '^' => TPow
    case '(' => TLParen
    case ')' => TRParen
  }

  /** Where skip_space leaves the cursor: past a run of ' ' characters only. */
  function SkipSpaces(src: string, p: nat): (q: nat)
    ensures p <= q
    ensures p <= |src| ==> q <= |src|
    ensures At(src, q) != ' '
    decreases |src| - p
  {
    if At(src, p) == ' ' then SkipSpaces(src, p + 1) else p
  }

  /** skip_space passes over ' ' characters only. */
  lemma {:induction false} SkippedAreSpaces(src: string, p: nat)
    ensures forall i | p <= i < SkipSpaces(src, p) :: At(src, i) == ' '
    decreases |src| - p
  {
    if At(src, p) == ' ' {
      SkippedAreSpaces(src, p + 1);
    }
  }

  /** Where the number scan stops: the end of the maximal run of digits and dots. */
  function NumberEnd(src: string, p: nat): (q: nat)
    ensures p <= q
    ensures p <= |src| ==> q <= |src|
    ensures !IsNumChar(At(src, q))
    decreases |src| - p
  {
    if IsNumChar(At(src, p)) then NumberEnd(src, p + 1) else p
  }

  /** Every character the number scan passes over is a digit or a dot. */
  lemma {:induction false} NumberRun(src: string, p: nat)
    ensures forall i | p <= i < NumberEnd(src, p) :: IsNumChar(At(src, i))
    decreases |src| - p
  {
    if IsNumChar(At(src, p)) {
      NumberRun(src, p + 1);
    }
  }

  /** One call of next_token from cursor p. */
  function Lex(src: string, p: nat): (r: Step)
    // the cursor only moves forward, and never past the terminating NUL
    ensures p <= r.pos
    ensures p <= |src| ==> r.pos <= |src|
    // at the terminator: T_END, the cursor stays on the NUL
    ensures var q := SkipSpaces(src, p);
      At(src, q) == '\0' ==> r == Step(TEnd, q, false)
    // any other character is consumed: the cursor strictly advances
    ensures var q := SkipSpaces(src, p);
      At(src, q) != '\0' ==> q < r.pos
    // a number is the maximal run of digits and dots
    ensures var q := SkipSpaces(src, p);
      IsNumChar(At(src, q)) ==>
        && q < r.pos <= |src|
        && !r.err
        && r.tok == TNumber(src[q..r.pos])
        && !IsNumChar(At(src, r.pos))
    ensures r.tok.TNumber? ==> ValidLexeme(r.tok.lexeme)
    // each operator or parenthesis is one character wide
    ensures var q := SkipSpaces(src, p);
      IsOpChar(At(src, q)) ==> r == Step(OpToken(At(src, q)), q + 1, false)
    // any other character is an error reported as T_END, one character wide
    ensures var q := SkipSpaces(src, p);
      At(src, q) != '\0' && !IsLexChar(At(src, q)) ==> r == Step(TEnd, q + 1, true)
    // errors are reported only as T_END; without an error every consumed
    // character is a lexical one and T_END means the terminator
    ensures r.err ==> r.tok == TEnd
    ensures !r.err && r.tok == TEnd ==> At(src, r.pos) == '\0'
  {
    var q := SkipSpaces(src, p);
    var c := At(src, q);
    if c == '\0' then
      Step(TEnd, q, false)
    else if IsNumChar(c) then
      var e := NumberEnd(src, q);
      NumberRun(src, q);
      assert forall i | 0 <= i < e - q :: src[q..e][i] == At(src, q + i);
      Step(TNumber(src[q..e]), e, false)
    else if IsOpChar(c) then
      Step(OpToken(c), q + 1, false)
    else
      Step(TEnd, q + 1, true)
  }

  /** Without an error, every character a scan consumes is a lexical one. */
  lemma LexConsumesLexChars(src: string, p: nat)
    ensures !Lex(src, p).err ==> forall i | p <= i < Lex(src, p).pos :: IsLexChar(At(src, i))
  {
    var q := SkipSpaces(src, p);
    SkippedAreSpaces(src, p);
    if IsNumChar(At(src, q)) {
      NumberRun(src, q);
    }
  }

  /** Spaces in front of the cursor do not change the next token. */
  lemma {:induction false} LexSkipsSpaces(src: string, p: nat, k: nat)
    requires forall i | p <= i < p + k :: At(src, i) == ' '
    ensures Lex(src, p) == Lex(src, p + k)
    decreases k
  {
    if k > 0 {
      assert At(src, p) == ' ';
      assert SkipSpaces(src, p) == SkipSpaces(src, p + 1);
      LexSkipsSpaces(src, p + 1, k - 1);
    }
  }

  /** The number scan takes any count of dots: "1.2.3" is one token, and so is ".". */
  lemma NumberScanTakesAnyDots()
    ensures Lex("1.2.3", 0) == Step(TNumber("1.2.3"), 5, false)
    ensures Lex(".", 0) == Step(TNumber("."), 1, false)
    ensures Lex("12 3", 0) == Step(TNumber("12"), 2, false)
  {
  }
}
