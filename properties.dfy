/**
  Consequences of the model for whole inputs: which strings the driver
  rejects, what an accepted string must consist of, and how concrete inputs
  group (precedence, the place of the unary sign, left associativity).
 */
module Properties {
  import opened Lexer
  import opened Grammar
  import opened Printer

  /** Tokens that cannot start an operand: anything but a sign, a number or '('. */
  predicate BadStart(t: Token)
  {
    t.TEnd? || t.TMult? || t.TDiv? || t.TPow? || t.TRParen?
  }

  /** An operand that starts with a token that cannot start one flags an error,
      at every level of the ladder, and the error survives the rest of the parse. */
  lemma {:induction false} BadStartFlagsError(src: string, s: State)
    requires BadStart(s.tok)
    ensures Unary(src, s).st.err
    ensures Power(src, s).st.err
    ensures Term(src, s).st.err
    ensures Expression(src, s).st.err
  {
  }

  /** skip_space runs to the terminator over a string of blanks. */
  lemma {:induction false} SkipToEnd(src: string, p: nat)
    requires p <= |src|
    requires forall i | p <= i < |src| :: src[i] == ' '
    ensures SkipSpaces(src, p) == |src|
    decreases |src| - p
  {
  }

  /** An opening parenthesis whose expression is not followed by ')' flags an
      error, at every level of the ladder. */
  lemma {:induction false} UnmatchedParenFlagsError(src: string, s: State)
    requires s.tok.TLParen?
    requires !Expression(src, Next(src, s)).st.tok.TRParen?
    ensures Unary(src, s).st.err
    ensures Power(src, s).st.err
    ensures Term(src, s).st.err
    ensures Expression(src, s).st.err
  {
    assert Unary(src, s) == Primary(src, s);
    assert Primary(src, s).st.err;
    var f := Unary(src, s);
    assert Power(src, s) == PowLoop(src, f.st, f.e);
    var g := Power(src, s);
    assert Term(src, s) == TermLoop(src, g.st, g.e);
    var h := Term(src, s);
    assert Expression(src, s) == ExprLoop(src, h.st, h.e);
  }

  /** An empty or all-blank input is a syntax error: there is no operand. */
  lemma BlankRejected(src: string)
    requires forall i | 0 <= i < |src| :: src[i] == ' '
    ensures Evaluation(src) == SyntaxError
  {
    SkipToEnd(src, 0);
    var s := Next(src, Start);
    assert s.tok == TEnd;
    BadStartFlagsError(src, s);
  }

  /** An input that is accepted consists, up to its first NUL, of blanks,
      digits, dots, operators and parentheses only: any other character sets
      the error flag that the driver checks. */
  lemma AcceptedInputIsLexical(src: string)
    requires Evaluation(src).Accepted?
    ensures exists n: nat | n <= |src| :: CleanPrefix(src, n) && At(src, n) == '\0'
  {
  }

  /** Without an embedded NUL, every character of an accepted input is lexical. */
  lemma AcceptedCharacters(src: string)
    requires '\0' !in src
    requires Evaluation(src).Accepted?
    ensures forall i | 0 <= i < |src| :: IsLexChar(src[i])
  {
    AcceptedInputIsLexical(src);
    var n: nat :| n <= |src| && CleanPrefix(src, n) && At(src, n) == '\0';
    assert forall i | 0 <= i < |src| :: At(src, i) != '\0' by {
      forall i | 0 <= i < |src|
        ensures At(src, i) != '\0'
      {
        assert src[i] in src;
      }
    }
    forall i | 0 <= i < |src|
      ensures IsLexChar(src[i])
    {
      assert At(src, i) == src[i];
    }
  }

  /** Inputs the driver rejects: a missing operand, two operands without an
      operator, an unclosed parenthesis, a dangling operator, and a character
      the scanner does not know. */
  lemma RejectedExamples()
    ensures Evaluation("") == SyntaxError
    ensures Evaluation("1 2") == SyntaxError
    ensures Evaluation("(1+2") == SyntaxError
    ensures Evaluation("1 +") == SyntaxError
    ensures Evaluation("1 & 2") == SyntaxError
  {
    BlankRejected("");
    OperandsWithoutOperator();
    UnclosedParenthesis();
    DanglingOperator();
    UnknownCharacter();
  }

  lemma OperandsWithoutOperator()
    ensures Evaluation("1 2") == SyntaxError
  {
    var src := "1 2";
    assert NumberEnd(src, 1) == 1;
    assert src[0..1] == "1";
    var s0 := Next(src, Start);
    assert s0 == State(1, TNumber("1"), false);
    assert NumberEnd(src, 3) == 3 && NumberEnd(src, 2) == 3;
    assert SkipSpaces(src, 1) == 2;
    assert src[2..3] == "2";
    var s1 := Next(src, s0);
    assert s1 == State(3, TNumber("2"), false);
    assert Unary(src, s0) == Parsed(Num("1"), s1);
    assert Expression(src, s0).st == s1;
  }

  lemma UnclosedParenthesis()
    ensures Evaluation("(1+2") == SyntaxError
  {
    var src := "(1+2";
    var s0 := Next(src, Start);
    assert s0 == State(1, TLParen, false);
    assert NumberEnd(src, 2) == 2;
    assert src[1..2] == "1";
    var s1 := Next(src, s0);
    assert s1 == State(2, TNumber("1"), false);
    var s2 := Next(src, s1);
    assert s2 == State(3, TPlus, false);
    assert NumberEnd(src, 4) == 4 && NumberEnd(src, 3) == 4;
    assert src[3..4] == "2";
    var s3 := Next(src, s2);
    assert s3 == State(4, TNumber("2"), false);
    var s4 := Next(src, s3);
    assert s4 == State(4, TEnd, false);
    assert Unary(src, s1) == Parsed(Num("1"), s2);
    assert Term(src, s1) == Parsed(Num("1"), s2);
    assert Unary(src, s3) == Parsed(Num("2"), s4);
    assert Term(src, s3) == Parsed(Num("2"), s4);
    assert Expression(src, s1).st == s4;
    assert Primary(src, s0).st.err;
  }

  lemma DanglingOperator()
    ensures Evaluation("1 +") == SyntaxError
  {
    var src := "1 +";
    assert NumberEnd(src, 1) == 1;
    assert src[0..1] == "1";
    var s0 := Next(src, Start);
    assert s0 == State(1, TNumber("1"), false);
    assert SkipSpaces(src, 1) == 2;
    var s1 := Next(src, s0);
    assert s1 == State(3, TPlus, false);
    var s2 := Next(src, s1);
    assert s2 == State(3, TEnd, false);
    BadStartFlagsError(src, s2);
    assert Term(src, s0) == Parsed(Num("1"), s1);
    assert ExprLoop(src, s1, Num("1")).st.err;
  }

  lemma UnknownCharacter()
    ensures Evaluation("1 & 2") == SyntaxError
  {
    var src := "1 & 2";
    assert NumberEnd(src, 1) == 1;
    assert src[0..1] == "1";
    var s0 := Next(src, Start);
    assert s0 == State(1, TNumber("1"), false);
    assert SkipSpaces(src, 1) == 2;
    var s1 := Next(src, s0);
    assert s1 == State(3, TEnd, true);
    assert Unary(src, s0) == Parsed(Num("1"), s1);
  }

  /** A tab is not a blank to skip_space: it is an unknown character. */
  lemma TabIsUnknown()
    ensures Lex("\t1", 0) == Step(TEnd, 1, true)
    ensures Evaluation("\t1") == SyntaxError
  {
  }

  // Grouping of concrete inputs, read off the round trip: each string below
  // is the printed form of the tree it evaluates to.

  /** Multiplication binds tighter than addition. */
  lemma PrecedenceExample()
    ensures Evaluation("3 + 4 * 2") == Accepted(Bin(Add, Num("3"), Bin(Mul, Num("4"), Num("2"))))
  {
    var e := Bin(Add, Num("3"), Bin(Mul, Num("4"), Num("2")));
    assert ValidLexeme("3") && ValidLexeme("4") && ValidLexeme("2");
    assert Print(e, 0) == "3 + 4 * 2";
    EvaluationOfPrint(e);
  }

  /** '^' folds to the left: "2 ^ 3 ^ 2" is (2 ^ 3) ^ 2. */
  lemma PowerFoldsLeft()
    ensures Evaluation("2 ^ 3 ^ 2") == Accepted(Bin(Pow, Bin(Pow, Num("2"), Num("3")), Num("2")))
  {
    var e := Bin(Pow, Bin(Pow, Num("2"), Num("3")), Num("2"));
    assert ValidLexeme("2") && ValidLexeme("3");
    assert Print(e, 0) == "2 ^ 3 ^ 2";
    EvaluationOfPrint(e);
  }

  /** The sign is parsed inside the operand of '^': "-3 ^ 2" is (-3) ^ 2. */
  lemma SignInsidePower()
    ensures Evaluation("-3 ^ 2") == Accepted(Bin(Pow, Neg(Num("3")), Num("2")))
  {
    var e := Bin(Pow, Neg(Num("3")), Num("2"));
    assert ValidLexeme("2") && ValidLexeme("3");
    assert Print(e, 0) == "-3 ^ 2";
    EvaluationOfPrint(e);
  }

  /** '/' folds to the left: "8 / 4 / 2" is (8 / 4) / 2. */
  lemma DivisionFoldsLeft()
    ensures Evaluation("8 / 4 / 2") == Accepted(Bin(Div, Bin(Div, Num("8"), Num("4")), Num("2")))
  {
    var e := Bin(Div, Bin(Div, Num("8"), Num("4")), Num("2"));
    assert ValidLexeme("8") && ValidLexeme("4") && ValidLexeme("2");
    assert Print(e, 0) == "8 / 4 / 2";
    EvaluationOfPrint(e);
  }

  /** Division by zero is not a syntax error: the evaluator accepts "1 / 0". */
  lemma DivisionByZeroAccepted()
    ensures Evaluation("1 / 0") == Accepted(Bin(Div, Num("1"), Num("0")))
  {
    var e := Bin(Div, Num("1"), Num("0"));
    assert ValidLexeme("1") && ValidLexeme("0");
    assert Print(e, 0) == "1 / 0";
    EvaluationOfPrint(e);
  }

  /** Parentheses override precedence: "2 * (3 + 4)" multiplies by the sum. */
  lemma ParenthesesGroup()
    ensures Evaluation("2 * (3 + 4)") == Accepted(Bin(Mul, Num("2"), Bin(Add, Num("3"), Num("4"))))
  {
    var e := Bin(Mul, Num("2"), Bin(Add, Num("3"), Num("4")));
    assert ValidLexeme("2") && ValidLexeme("3") && ValidLexeme("4");
    assert Print(e.right, 0) == "3 + 4";
    assert Print(e, 0) == "2 * (3 + 4)";
    EvaluationOfPrint(e);
  }

  /** A parenthesised difference as the base of a power. */
  lemma ParenthesisedBase()
    ensures Evaluation("(1 - 5) ^ 2") == Accepted(Bin(Pow, Bin(Sub, Num("1"), Num("5")), Num("2")))
  {
    var e := Bin(Pow, Bin(Sub, Num("1"), Num("5")), Num("2"));
    assert ValidLexeme("1") && ValidLexeme("5") && ValidLexeme("2");
    assert Print(e.left, 0) == "1 - 5";
    assert Print(e, 0) == "(1 - 5) ^ 2";
    EvaluationOfPrint(e);
  }

  /** Any expression opened by '(' and never closed is rejected. */
  lemma UnclosedRejected(e: Expr)
    requires WellFormed(e)
    ensures Evaluation("(" + Print(e, 0)) == SyntaxError
  {
    var w := Print(e, 0);
    var src := "(" + w;
    assert src[1..1 + |w|] == w;
    PrintedThenBlanks(src, 1, e);
    assert At(src, 0) == '(';
    PrimedAtOp(src, 0, '(', false);
    var s := Next(src, Start);
    assert Next(src, s) == Primed(src, 1, false);
    UnmatchedParenFlagsError(src, s);
  }

  /** Printed text followed by nothing but blanks parses, from its first
      character, as exactly its tree, and leaves the scan at the end. */
  lemma PrintedThenBlanks(src: string, p: nat, e: Expr)
    requires WellFormed(e) && Occurs(src, p, Print(e, 0))
    requires forall i | p + |Print(e, 0)| <= i < |src| :: src[i] == ' '
    ensures Expression(src, Primed(src, p, false)) == Parsed(e, State(|src|, TEnd, false))
  {
    var q := p + |Print(e, 0)|;
    PrintLayout(src, p, e, 0);
    LexSkipsSpaces(src, q, |src| - q);
    PrimedSkipsBlanks(src, q, |src| - q, false);
    PrimedAtEnd(src, |src|, false);
    ExprPrefix(src, p, q, e, false);
  }

  /** A leading '+' is dropped: "+" followed by any printed operand evaluates
      to that operand. */
  lemma UnaryPlusDropped(e: Expr)
    requires WellFormed(e)
    ensures Evaluation("+" + Print(e, 3)) == Accepted(e)
  {
    var src := "+" + Print(e, 3);
    var q := |src|;
    PlusOperand(e);
    assert At(src, 0) == '+';
    UnaryPlusStep(src, 0, q, e, false);
    PowFallStep(src, 0, q, e, false);
    TermFallStep(src, 0, q, e, false);
    ExprFallStep(src, 0, q, e, false);
  }

  /** The operand after the leading `+` of `UnaryPlusDropped`. */
  lemma PlusOperand(e: Expr)
    requires WellFormed(e)
    ensures
      var src := "+" + Print(e, 3);
      && Unary(src, Primed(src, 1, false)) == Parsed(e, Primed(src, |src|, false))
      && Primed(src, |src|, false) == State(|src|, TEnd, false)
  {
    var w := Print(e, 3);
    var src := "+" + w;
    assert src[1..1 + |w|] == w;
    PrintLayout(src, 1, e, 3);
    PrimedAtEnd(src, |src|, false);
    UnaryPrefix(src, 1, |src|, e, false);
  }

  /** Printing a tree in canonical form and evaluating the text preserves its
      value under every interpretation of the operators. */
  lemma PrintPreservesValue<R>(e: Expr, ops: Ops<R>)
    requires WellFormed(e)
    ensures Evaluation(Print(e, 0)).Accepted?
    ensures Value(Evaluation(Print(e, 0)).e, ops) == Value(e, ops)
  {
    EvaluationOfPrint(e);
  }

  // The same groupings without blanks, followed token by token.

  /** The scans of "2^3^2", one call of next_token at a time. */
  lemma UnspacedPowerTokens()
    ensures Next("2^3^2", Start) == State(1, TNumber("2"), false)
    ensures Next("2^3^2", State(1, TNumber("2"), false)) == State(2, TPow, false)
    ensures Next("2^3^2", State(2, TPow, false)) == State(3, TNumber("3"), false)
    ensures Next("2^3^2", State(3, TNumber("3"), false)) == State(4, TPow, false)
    ensures Next("2^3^2", State(4, TPow, false)) == State(5, TNumber("2"), false)
    ensures Next("2^3^2", State(5, TNumber("2"), false)) == State(5, TEnd, false)
  {
    var src := "2^3^2";
    assert NumberEnd(src, 1) == 1 && NumberEnd(src, 3) == 3 && NumberEnd(src, 5) == 5;
    assert src[0..1] == "2" && src[2..3] == "3" && src[4..5] == "2";
  }

  /** "2^3^2" is (2 ^ 3) ^ 2. */
  lemma UnspacedPowerFoldsLeft()
    ensures Evaluation("2^3^2") == Accepted(Bin(Pow, Bin(Pow, Num("2"), Num("3")), Num("2")))
  {
    UnspacedPowerTokens();
    var src := "2^3^2";
    var s0 := State(1, TNumber("2"), false);
    var s1 := State(2, TPow, false);
    var s3 := State(4, TPow, false);
    var s5 := State(5, TEnd, false);
    var e := Bin(Pow, Bin(Pow, Num("2"), Num("3")), Num("2"));
    assert Unary(src, s0) == Parsed(Num("2"), s1);
    assert Unary(src, State(3, TNumber("3"), false)) == Parsed(Num("3"), s3);
    assert Unary(src, State(5, TNumber("2"), false)) == Parsed(Num("2"), s5);
    assert PowLoop(src, s3, Bin(Pow, Num("2"), Num("3"))) == Parsed(e, s5);
    assert Power(src, s0) == Parsed(e, s5);
    assert Term(src, s0) == Parsed(e, s5);
    assert Expression(src, s0) == Parsed(e, s5);
  }

  /** The scans of "-3^2". */
  lemma UnspacedSignTokens()
    ensures Next("-3^2", Start) == State(1, TMinus, false)
    ensures Next("-3^2", State(1, TMinus, false)) == State(2, TNumber("3"), false)
    ensures Next("-3^2", State(2, TNumber("3"), false)) == State(3, TPow, false)
    ensures Next("-3^2", State(3, TPow, false)) == State(4, TNumber("2"), false)
    ensures Next("-3^2", State(4, TNumber("2"), false)) == State(4, TEnd, false)
  {
    var src := "-3^2";
    assert NumberEnd(src, 2) == 2 && NumberEnd(src, 4) == 4;
    assert src[1..2] == "3" && src[3..4] == "2";
  }

  /** "-3^2" is (-3) ^ 2. */
  lemma UnspacedSignInsidePower()
    ensures Evaluation("-3^2") == Accepted(Bin(Pow, Neg(Num("3")), Num("2")))
  {
    UnspacedSignTokens();
    var src := "-3^2";
    var s0 := State(1, TMinus, false);
    var s2 := State(3, TPow, false);
    var s4 := State(4, TEnd, false);
    var e := Bin(Pow, Neg(Num("3")), Num("2"));
    assert Unary(src, State(2, TNumber("3"), false)) == Parsed(Num("3"), s2);
    assert Unary(src, s0) == Parsed(Neg(Num("3")), s2);
    assert Unary(src, State(4, TNumber("2"), false)) == Parsed(Num("2"), s4);
    assert Power(src, s0) == Parsed(e, s4);
    assert Term(src, s0) == Parsed(e, s4);
    assert Expression(src, s0) == Parsed(e, s4);
  }

  /** "8/4/2" is (8 / 4) / 2. */
  lemma UnspacedDivisionFoldsLeft()
    ensures Evaluation("8/4/2") == Accepted(Bin(Div, Bin(Div, Num("8"), Num("4")), Num("2")))
  {
    var src := "8/4/2";
    assert NumberEnd(src, 1) == 1 && NumberEnd(src, 3) == 3 && NumberEnd(src, 5) == 5;
    assert src[0..1] == "8" && src[2..3] == "4" && src[4..5] == "2";
    var s0 := Next(src, Start);
    assert s0 == State(1, TNumber("8"), false);
    var s1 := Next(src, s0);
    assert s1 == State(2, TDiv, false);
    var s2 := Next(src, s1);
    assert s2 == State(3, TNumber("4"), false);
    var s3 := Next(src, s2);
    assert s3 == State(4, TDiv, false);
    var s4 := Next(src, s3);
    assert s4 == State(5, TNumber("2"), false);
    var s5 := Next(src, s4);
    assert s5 == State(5, TEnd, false);
    var e := Bin(Div, Bin(Div, Num("8"), Num("4")), Num("2"));
    assert Power(src, s0) == Parsed(Num("8"), s1);
    assert Power(src, s2) == Parsed(Num("4"), s3);
    assert Power(src, s4) == Parsed(Num("2"), s5);
    assert TermLoop(src, s3, Bin(Div, Num("8"), Num("4"))) == Parsed(e, s5);
    assert Term(src, s0) == Parsed(e, s5);
    assert Expression(src, s0) == Parsed(e, s5);
  }

  /** Blanks before and after a whole input change nothing: the canonical
      text of a tree, with a blank on each side, is still accepted as that
      tree. */
  lemma BlanksAround(e: Expr)
    requires WellFormed(e)
    ensures Evaluation(" " + Print(e, 0) + " ") == Accepted(e)
  {
    var w := Print(e, 0);
    var src := " " + w + " ";
    assert src[1..1 + |w|] == w;
    PrintedThenBlanks(src, 1, e);
    assert At(src, 0) == ' ';
    PrimedSkipsBlanks(src, 0, 1, false);
  }
}
