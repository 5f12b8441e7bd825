/**
  Grouping and associativity of the ladder, stated as a round trip: printing a
  tree with the fewest parentheses the ladder needs and evaluating the text
  gives the tree back. Because the printer puts parentheses only around a
  binary operator that binds more loosely than its context, the round trip
  pins down precedence (unary inside '^' operands, then '^', then '*' and
  '/', then '+' and '-') and left associativity at every level.
 */
module Printer {
  import opened Lexer
  import opened Grammar

  /** Position of an operator on the ladder: 0 for + and -, 1 for * and /, 2 for ^
      (3 is the unary level). */
  function Level(op: BinOp): nat
  {
    match op
    case Add => 0
    case Sub => 0
    case Mul => 1
    case Div => 1
    case Pow => 2
  }

  function OpChar(op: BinOp): char
  {
    match op
    case Add => '+'
    case Sub => '-'
    case Mul => '*'
    case Div => '/'
    case Pow => '^'
  }

  /** The text of e where the ladder expects `level` (0 expression, 1 term, 2
      power, 3 unary), with one space on each side of a binary operator. A
      binary operator is parenthesised exactly when it sits below its own
      level; the left operand is printed at the operator's level and the right
      operand one level higher, which is what left-to-right folding demands. */
  function Print(e: Expr, level: nat): string
    decreases e, level
  {
    match e
    case Num(lexeme) => lexeme
    case Neg(x) => "-" + Print(x, 3)
    case Bin(op, l, r) =>
      var k := Level(op);
      if level <= k then Print(l, k) + [' ', OpChar(op), ' '] + Print(r, k + 1)
      else "(" + Print(e, 0) + ")"
  }

  /** The length of Print(e, level), computed without building the text. */
  function Width(e: Expr, level: nat): nat
    decreases e, level
  {
    match e
    case Num(lexeme) => |lexeme|
    case Neg(x) => 1 + Width(x, 3)
    case Bin(op, l, r) =>
      var k := Level(op);
      if level <= k then Width(l, k) + 3 + Width(r, k + 1)
      else Width(e, 0) + 2
  }

  /** w sits in src at p. */
  predicate Occurs(src: string, p: nat, w: string)
  {
    p + |w| <= |src| && src[p..p + |w|] == w
  }

  /** Print(e, level) sits in src at p, described character by character. */
  predicate TextAt(src: string, p: nat, e: Expr, level: nat)
    decreases e, level
  {
    match e
    case Num(lexeme) => Occurs(src, p, lexeme)
    case Neg(x) => At(src, p) == '-' && TextAt(src, p + 1, x, 3)
    case Bin(op, l, r) =>
      var k := Level(op);
      if level <= k then
        var x := p + Width(l, k);
        && TextAt(src, p, l, k)
        && At(src, x) == ' ' && At(src, x + 1) == OpChar(op) && At(src, x + 2) == ' '
        && TextAt(src, x + 3, r, k + 1)
      else
        At(src, p) == '(' && TextAt(src, p + 1, e, 0) && At(src, p + 1 + Width(e, 0)) == ')'
  }

  /** A well-formed e printed at `level` occupies src from p up to q, and
      the character at q cannot extend a number. */
  predicate Fits(src: string, p: nat, q: nat, e: Expr, level: nat)
  {
    && WellFormed(e) && TextAt(src, p, e, level) && q == p + Width(e, level)
    && !IsNumChar(At(src, q))
  }

  /** The state in which the lexer has just been called at p. */
  function Primed(src: string, p: nat, err: bool): State
  {
    Next(src, State(p, TEnd, err))
  }

  /** Tokens after which an expression-level operand is complete. */
  predicate EndsExpression(t: Token)
  {
    !t.TPow? && !t.TMult? && !t.TDiv?
  }

  /** Proof measure for the fall-through from one level to the next on the
      same tree: the number of steps to the level where the tree is handled. */
  function Rank(e: Expr, level: nat): nat
    requires level <= 3
  {
    if e.Bin? then (Level(e.op) + 4 - level) % 4 else 3 - level
  }

  // Text layout

  lemma {:induction false} OccursConcat(src: string, p: nat, a: string, b: string)
    requires Occurs(src, p, a + b)
    ensures Occurs(src, p, a) && Occurs(src, p + |a|, b)
  {
    assert src[p..p + |a|] == (a + b)[..|a|];
    assert src[p + |a|..p + |a| + |b|] == (a + b)[|a|..];
  }

  lemma {:induction false} OccursChar(src: string, p: nat, c: char)
    requires Occurs(src, p, [c])
    ensures At(src, p) == c
  {
  }

  lemma {:induction false} OccursOpChars(src: string, p: nat, c: char)
    requires Occurs(src, p, [' ', c, ' '])
    ensures At(src, p) == ' ' && At(src, p + 1) == c && At(src, p + 2) == ' '
  {
  }

  /** The printed text has the layout TextAt describes, and Width is its length. */
  lemma {:induction false} PrintLayout(src: string, p: nat, e: Expr, level: nat)
    requires Occurs(src, p, Print(e, level))
    ensures TextAt(src, p, e, level) && |Print(e, level)| == Width(e, level)
    decreases e, level, 1
  {
    match e
    case Num(lexeme) =>
    case Neg(x) => NegLayout(src, p, e, level);
    case Bin(op, l, r) =>
      if level <= Level(op) {
        BinPrintLayout(src, p, e, level);
      } else {
        ParenLayout(src, p, e, level);
      }
  }

  lemma {:induction false} NegLayout(src: string, p: nat, e: Expr, level: nat)
    requires e.Neg? && Occurs(src, p, Print(e, level))
    ensures TextAt(src, p, e, level) && |Print(e, level)| == Width(e, level)
    decreases e, level, 0
  {
    OccursConcat(src, p, "-", Print(e.operand, 3));
    OccursChar(src, p, '-');
    PrintLayout(src, p + 1, e.operand, 3);
  }

  lemma {:induction false} BinPrintLayout(src: string, p: nat, e: Expr, level: nat)
    requires e.Bin? && level <= Level(e.op) && Occurs(src, p, Print(e, level))
    ensures TextAt(src, p, e, level) && |Print(e, level)| == Width(e, level)
    decreases e, level, 0
  {
    var k := Level(e.op);
    BinTextCase(src, p, e, level);
    PrintLayout(src, p, e.left, k);
    PrintLayout(src, p + |Print(e.left, k)| + 3, e.right, k + 1);
  }

  /** Where the operands of a printed binary operation lie, and how their
      layouts make up the layout of the whole. */
  lemma {:induction false} BinTextCase(src: string, p: nat, e: Expr, level: nat)
    requires e.Bin? && level <= Level(e.op) && Occurs(src, p, Print(e, level))
    ensures Occurs(src, p, Print(e.left, Level(e.op)))
    ensures Occurs(src, p + |Print(e.left, Level(e.op))| + 3, Print(e.right, Level(e.op) + 1))
    ensures
      var k := Level(e.op);
      var x := p + |Print(e.left, k)|;
      && TextAt(src, p, e.left, k) && |Print(e.left, k)| == Width(e.left, k)
      && TextAt(src, x + 3, e.right, k + 1) && |Print(e.right, k + 1)| == Width(e.right, k + 1)
      ==> TextAt(src, p, e, level) && |Print(e, level)| == Width(e, level)
  {
    var k := Level(e.op);
    var a := Print(e.left, k);
    var m := [' ', OpChar(e.op), ' '];
    OccursConcat(src, p, a + m, Print(e.right, k + 1));
    OccursConcat(src, p, a, m);
    OccursOpChars(src, p + |a|, OpChar(e.op));
  }

  lemma {:induction false} ParenLayout(src: string, p: nat, e: Expr, level: nat)
    requires e.Bin? && Level(e.op) < level && Occurs(src, p, Print(e, level))
    ensures TextAt(src, p, e, level) && |Print(e, level)| == Width(e, level)
    decreases e, level, 0
  {
    var w := Print(e, 0);
    assert Print(e, level) == "(" + w + ")";
    OccursConcat(src, p, "(" + w, ")");
    OccursConcat(src, p, "(", w);
    OccursChar(src, p, '(');
    OccursChar(src, p + 1 + |w|, ')');
    PrintLayout(src, p + 1, e, 0);
  }

  /** The pieces of a binary operation printed at its own level k, whose
      left operand ends at x. */
  lemma {:induction false} BinLayout(src: string, p: nat, q: nat, x: nat, e: Expr, k: nat)
    requires e.Bin? && Level(e.op) == k && Fits(src, p, q, e, k)
    requires x == p + Width(e.left, k)
    ensures At(src, x) == ' ' && At(src, x + 1) == OpChar(e.op) && At(src, x + 2) == ' '
    ensures Fits(src, p, x, e.left, k)
    ensures Fits(src, x + 3, q, e.right, k + 1)
  {
  }

  /** Below its own level a tree prints the same one level higher. */
  lemma {:induction false} FallLayout(src: string, p: nat, q: nat, e: Expr, level: nat)
    requires level < 3 && !(e.Bin? && Level(e.op) == level)
    requires Fits(src, p, q, e, level)
    ensures Fits(src, p, q, e, level + 1)
  {
  }

  /** The pieces of a tree printed at the unary level. */
  lemma {:induction false} UnaryLayout(src: string, p: nat, q: nat, e: Expr)
    requires Fits(src, p, q, e, 3)
    ensures e.Num? ==> ValidLexeme(e.lexeme) && Occurs(src, p, e.lexeme) && q == p + |e.lexeme|
    ensures e.Neg? ==> At(src, p) == '-' && Fits(src, p + 1, q, e.operand, 3)
    ensures e.Bin? ==>
      && At(src, p) == '(' && At(src, p + 1 + Width(e, 0)) == ')'
      && Fits(src, p + 1, p + 1 + Width(e, 0), e, 0) && q == p + 1 + Width(e, 0) + 1
  {
  }

  // What the lexer finds in printed text

  /** An operator character at p is scanned as its own one-character token. */
  lemma {:induction false} PrimedAtOp(src: string, p: nat, c: char, err: bool)
    requires At(src, p) == c && IsOpChar(c)
    ensures Primed(src, p, err) == State(p + 1, OpToken(c), err)
    ensures Lex(src, p).tok == OpToken(c)
  {
  }

  /** A binary operator with a space on each side, seen from the first space. */
  lemma {:induction false} PrimedAtSpacedOp(src: string, x: nat, c: char, err: bool)
    requires At(src, x) == ' ' && At(src, x + 1) == c && At(src, x + 2) == ' ' && IsOpChar(c)
    ensures Lex(src, x).tok == OpToken(c)
    ensures Primed(src, x, err) == State(x + 2, OpToken(c), err)
    ensures Next(src, Primed(src, x, err)) == Primed(src, x + 3, err)
  {
    assert SkipSpaces(src, x + 1) == x + 1;
    assert SkipSpaces(src, x) == x + 1;
    assert SkipSpaces(src, x + 2) == SkipSpaces(src, x + 3);
  }

  /** A valid lexeme at p followed by a non-number character is one number token. */
  lemma {:induction false} PrimedAtNumber(src: string, p: nat, l: string, err: bool)
    requires ValidLexeme(l) && Occurs(src, p, l)
    requires !IsNumChar(At(src, p + |l|))
    ensures Primed(src, p, err) == State(p + |l|, TNumber(l), err)
  {
    assert forall i | 0 <= i < |l| :: At(src, p + i) == l[i] by {
      forall i | 0 <= i < |l| ensures At(src, p + i) == l[i] {
        assert src[p..p + |l|][i] == src[p + i];
      }
    }
    assert At(src, p + 0) == l[0];
    assert SkipSpaces(src, p) == p;
  }

  /** A binary operator is determined by its level and its character. */
  lemma {:induction false} OpOfLevel(e: Expr)
    requires e.Bin?
    ensures Level(e.op) == 2 ==> e == Bin(Pow, e.left, e.right)
    ensures Level(e.op) == 1 ==> OpChar(e.op) in {'*', '/'} && e == Bin(if OpChar(e.op) == '*' then Mul else Div, e.left, e.right)
    ensures Level(e.op) == 0 ==> OpChar(e.op) in {'+', '-'} && e == Bin(if OpChar(e.op) == '+' then Add else Sub, e.left, e.right)
  {
  }

  /** The operator token that follows an operand ends it at the operand's level. */
  lemma {:induction false} OpTokenEnds(op: BinOp)
    ensures IsOpChar(OpChar(op))
    ensures Level(op) == 0 ==> EndsExpression(OpToken(OpChar(op)))
    ensures Level(op) == 1 ==> !OpToken(OpChar(op)).TPow?
  {
  }

  /** What the operands of a binary operation printed at its own level k
      need, and the operator token the lexer finds between them. */
  lemma {:induction false} BinPieces(src: string, p: nat, q: nat, x: nat, e: Expr, k: nat, err: bool)
    requires e.Bin? && Level(e.op) == k && Fits(src, p, q, e, k)
    requires x == p + Width(e.left, k)
    ensures Fits(src, p, x, e.left, k)
    ensures Fits(src, x + 3, q, e.right, k + 1)
    ensures Primed(src, x, err).tok == OpToken(OpChar(e.op))
    ensures Next(src, Primed(src, x, err)) == Primed(src, x + 3, err)
    ensures k == 0 ==> EndsExpression(Lex(src, x).tok)
    ensures k == 1 ==> !Lex(src, x).tok.TPow?
  {
    BinLayout(src, p, q, x, e, k);
    OpTokenEnds(e.op);
    PrimedAtSpacedOp(src, x, OpChar(e.op), err);
  }

  // One step of each production over printed text, with the results of the
  // nested productions taken as hypotheses.

  lemma {:induction false} UnaryNumStep(src: string, p: nat, q: nat, l: string, err: bool)
    requires ValidLexeme(l) && Occurs(src, p, l) && q == p + |l|
    requires !IsNumChar(At(src, q))
    ensures Unary(src, Primed(src, p, err)) == Parsed(Num(l), Primed(src, q, err))
  {
    PrimedAtNumber(src, p, l, err);
    var s := Primed(src, p, err);
    assert Primary(src, s) == Parsed(Num(l), Next(src, s));
  }

  /** A leading '+' is dropped: the operand after it is the result. */
  lemma {:induction false} UnaryPlusStep(src: string, p: nat, q: nat, x: Expr, err: bool)
    requires At(src, p) == '+'
    requires Unary(src, Primed(src, p + 1, err)) == Parsed(x, Primed(src, q, err))
    ensures Unary(src, Primed(src, p, err)) == Parsed(x, Primed(src, q, err))
  {
    PrimedAtOp(src, p, '+', err);
  }

  lemma {:induction false} UnaryNegStep(src: string, p: nat, q: nat, x: Expr, err: bool)
    requires At(src, p) == '-'
    requires Unary(src, Primed(src, p + 1, err)) == Parsed(x, Primed(src, q, err))
    ensures Unary(src, Primed(src, p, err)) == Parsed(Neg(x), Primed(src, q, err))
  {
    PrimedAtOp(src, p, '-', err);
  }

  lemma {:induction false} UnaryParenStep(src: string, p: nat, t: nat, e: Expr, err: bool)
    requires At(src, p) == '(' && At(src, t) == ')'
    requires Expression(src, Primed(src, p + 1, err)) == ExprLoop(src, Primed(src, t, err), e)
    ensures Unary(src, Primed(src, p, err)) == Parsed(e, Primed(src, t + 1, err))
  {
    PrimedAtOp(src, p, '(', err);
    PrimedAtOp(src, t, ')', err);
    var s := Primed(src, p, err);
    var st := Primed(src, t, err);
    assert ExprLoop(src, st, e) == Parsed(e, st);
    assert Next(src, s) == Primed(src, p + 1, err);
    assert Primary(src, s) == Parsed(e, Next(src, st));
  }

  lemma {:induction false} PowFallStep(src: string, p: nat, q: nat, e: Expr, err: bool)
    requires Unary(src, Primed(src, p, err)) == Parsed(e, Primed(src, q, err))
    ensures Power(src, Primed(src, p, err)) == PowLoop(src, Primed(src, q, err), e)
  {
  }

  lemma {:induction false} PowBinStep(src: string, s: State, sx: State, sq: State, e: Expr)
    requires e.Bin? && Level(e.op) == 2
    requires Power(src, s) == PowLoop(src, sx, e.left)
    requires sx.tok == OpToken(OpChar(e.op))
    requires Unary(src, Next(src, sx)) == Parsed(e.right, sq)
    ensures Power(src, s) == PowLoop(src, sq, e)
  {
    OpOfLevel(e);
  }

  lemma {:induction false} TermFallStep(src: string, p: nat, q: nat, e: Expr, err: bool)
    requires Power(src, Primed(src, p, err)) == PowLoop(src, Primed(src, q, err), e)
    requires !Lex(src, q).tok.TPow?
    ensures Term(src, Primed(src, p, err)) == TermLoop(src, Primed(src, q, err), e)
  {
  }

  lemma {:induction false} TermBinStep(src: string, s: State, sx: State, sq: State, e: Expr)
    requires e.Bin? && Level(e.op) == 1
    requires Term(src, s) == TermLoop(src, sx, e.left)
    requires sx.tok == OpToken(OpChar(e.op))
    requires Power(src, Next(src, sx)) == PowLoop(src, sq, e.right)
    requires !sq.tok.TPow?
    ensures Term(src, s) == TermLoop(src, sq, e)
  {
    assert PowLoop(src, sq, e.right) == Parsed(e.right, sq);
    OpOfLevel(e);
  }

  lemma {:induction false} ExprFallStep(src: string, p: nat, q: nat, e: Expr, err: bool)
    requires Term(src, Primed(src, p, err)) == TermLoop(src, Primed(src, q, err), e)
    requires EndsExpression(Lex(src, q).tok)
    ensures Expression(src, Primed(src, p, err)) == ExprLoop(src, Primed(src, q, err), e)
  {
  }

  lemma {:induction false} ExprBinStep(src: string, s: State, sx: State, sq: State, e: Expr)
    requires e.Bin? && Level(e.op) == 0
    requires Expression(src, s) == ExprLoop(src, sx, e.left)
    requires sx.tok == OpToken(OpChar(e.op))
    requires Term(src, Next(src, sx)) == TermLoop(src, sq, e.right)
    requires EndsExpression(sq.tok)
    ensures Expression(src, s) == ExprLoop(src, sq, e)
  {
    assert TermLoop(src, sq, e.right) == Parsed(e.right, sq);
    OpOfLevel(e);
  }

  // The binary case of each level: where the operands lie, and how the
  // production folds them once the operands themselves are known to parse.

  lemma {:induction false} ExprBinCase(src: string, p: nat, q: nat, x: nat, e: Expr, err: bool)
    requires e.Bin? && Level(e.op) == 0
    requires Fits(src, p, q, e, 0) && EndsExpression(Lex(src, q).tok)
    requires x == p + Width(e.left, 0)
    ensures Fits(src, p, x, e.left, 0) && EndsExpression(Lex(src, x).tok)
    ensures Fits(src, x + 3, q, e.right, 1) && !Lex(src, q).tok.TPow?
    ensures
      && Expression(src, Primed(src, p, err)) == ExprLoop(src, Primed(src, x, err), e.left)
      && Term(src, Primed(src, x + 3, err)) == TermLoop(src, Primed(src, q, err), e.right)
      ==> Expression(src, Primed(src, p, err)) == ExprLoop(src, Primed(src, q, err), e)
  {
    BinPieces(src, p, q, x, e, 0, err);
    if Expression(src, Primed(src, p, err)) == ExprLoop(src, Primed(src, x, err), e.left)
      && Term(src, Primed(src, x + 3, err)) == TermLoop(src, Primed(src, q, err), e.right)
    {
      ExprBinStep(src, Primed(src, p, err), Primed(src, x, err), Primed(src, q, err), e);
    }
  }

  lemma {:induction false} TermBinCase(src: string, p: nat, q: nat, x: nat, e: Expr, err: bool)
    requires e.Bin? && Level(e.op) == 1
    requires Fits(src, p, q, e, 1) && !Lex(src, q).tok.TPow?
    requires x == p + Width(e.left, 1)
    ensures Fits(src, p, x, e.left, 1) && !Lex(src, x).tok.TPow?
    ensures Fits(src, x + 3, q, e.right, 2)
    ensures
      && Term(src, Primed(src, p, err)) == TermLoop(src, Primed(src, x, err), e.left)
      && Power(src, Primed(src, x + 3, err)) == PowLoop(src, Primed(src, q, err), e.right)
      ==> Term(src, Primed(src, p, err)) == TermLoop(src, Primed(src, q, err), e)
  {
    BinPieces(src, p, q, x, e, 1, err);
    if Term(src, Primed(src, p, err)) == TermLoop(src, Primed(src, x, err), e.left)
      && Power(src, Primed(src, x + 3, err)) == PowLoop(src, Primed(src, q, err), e.right)
    {
      TermBinStep(src, Primed(src, p, err), Primed(src, x, err), Primed(src, q, err), e);
    }
  }

  lemma {:induction false} PowBinCase(src: string, p: nat, q: nat, x: nat, e: Expr, err: bool)
    requires e.Bin? && Level(e.op) == 2
    requires Fits(src, p, q, e, 2)
    requires x == p + Width(e.left, 2)
    ensures Fits(src, p, x, e.left, 2)
    ensures Fits(src, x + 3, q, e.right, 3)
    ensures
      && Power(src, Primed(src, p, err)) == PowLoop(src, Primed(src, x, err), e.left)
      && Unary(src, Primed(src, x + 3, err)) == Parsed(e.right, Primed(src, q, err))
      ==> Power(src, Primed(src, p, err)) == PowLoop(src, Primed(src, q, err), e)
  {
    BinPieces(src, p, q, x, e, 2, err);
    if Power(src, Primed(src, p, err)) == PowLoop(src, Primed(src, x, err), e.left)
      && Unary(src, Primed(src, x + 3, err)) == Parsed(e.right, Primed(src, q, err))
    {
      PowBinStep(src, Primed(src, p, err), Primed(src, x, err), Primed(src, q, err), e);
    }
  }

  // The four levels, by mutual induction on the tree. At each level the
  // operation of that level is handled by its own lemma; any other tree falls
  // through to the next level.

  /** Expression level: parsing the printed e, which ends at q, consumes
      exactly its text and leaves the loop of parse_expression with e as its
      running operand. */
  lemma {:induction false} ExprPrefix(src: string, p: nat, q: nat, e: Expr, err: bool)
    requires Fits(src, p, q, e, 0) && EndsExpression(Lex(src, q).tok)
    ensures Expression(src, Primed(src, p, err)) == ExprLoop(src, Primed(src, q, err), e)
    decreases e, Rank(e, 0), 1
  {
    if e.Bin? && Level(e.op) == 0 {
      ExprBinPrefix(src, p, q, e, err);
    } else {
      FallLayout(src, p, q, e, 0);
      TermPrefix(src, p, q, e, err);
      ExprFallStep(src, p, q, e, err);
    }
  }

  /** A + or - operation: its left operand is parsed by the same loop. */
  lemma {:induction false} ExprBinPrefix(src: string, p: nat, q: nat, e: Expr, err: bool)
    requires e.Bin? && Level(e.op) == 0
    requires Fits(src, p, q, e, 0) && EndsExpression(Lex(src, q).tok)
    ensures Expression(src, Primed(src, p, err)) == ExprLoop(src, Primed(src, q, err), e)
    decreases e, Rank(e, 0), 0
  {
    var x := p + Width(e.left, 0);
    ExprBinCase(src, p, q, x, e, err);
    ExprPrefix(src, p, x, e.left, err);
    TermPrefix(src, x + 3, q, e.right, err);
  }

  /** Term level, for a text not followed by '^'. */
  lemma {:induction false} TermPrefix(src: string, p: nat, q: nat, e: Expr, err: bool)
    requires Fits(src, p, q, e, 1) && !Lex(src, q).tok.TPow?
    ensures Term(src, Primed(src, p, err)) == TermLoop(src, Primed(src, q, err), e)
    decreases e, Rank(e, 1), 1
  {
    if e.Bin? && Level(e.op) == 1 {
      TermBinPrefix(src, p, q, e, err);
    } else {
      FallLayout(src, p, q, e, 1);
      PowPrefix(src, p, q, e, err);
      TermFallStep(src, p, q, e, err);
    }
  }

  /** A * or / operation. */
  lemma {:induction false} TermBinPrefix(src: string, p: nat, q: nat, e: Expr, err: bool)
    requires e.Bin? && Level(e.op) == 1
    requires Fits(src, p, q, e, 1) && !Lex(src, q).tok.TPow?
    ensures Term(src, Primed(src, p, err)) == TermLoop(src, Primed(src, q, err), e)
    decreases e, Rank(e, 1), 0
  {
    var x := p + Width(e.left, 1);
    TermBinCase(src, p, q, x, e, err);
    TermPrefix(src, p, x, e.left, err);
    PowPrefix(src, x + 3, q, e.right, err);
  }

  /** Power level. */
  lemma {:induction false} PowPrefix(src: string, p: nat, q: nat, e: Expr, err: bool)
    requires Fits(src, p, q, e, 2)
    ensures Power(src, Primed(src, p, err)) == PowLoop(src, Primed(src, q, err), e)
    decreases e, Rank(e, 2), 1
  {
    if e.Bin? && Level(e.op) == 2 {
      PowBinPrefix(src, p, q, e, err);
    } else {
      FallLayout(src, p, q, e, 2);
      UnaryPrefix(src, p, q, e, err);
      PowFallStep(src, p, q, e, err);
    }
  }

  /** A ^ operation. */
  lemma {:induction false} PowBinPrefix(src: string, p: nat, q: nat, e: Expr, err: bool)
    requires e.Bin? && Level(e.op) == 2
    requires Fits(src, p, q, e, 2)
    ensures Power(src, Primed(src, p, err)) == PowLoop(src, Primed(src, q, err), e)
    decreases e, Rank(e, 2), 0
  {
    var x := p + Width(e.left, 2);
    PowBinCase(src, p, q, x, e, err);
    PowPrefix(src, p, x, e.left, err);
    UnaryPrefix(src, x + 3, q, e.right, err);
  }

  /** Unary level: a number, a negation, or a parenthesised operation. */
  lemma {:induction false} UnaryPrefix(src: string, p: nat, q: nat, e: Expr, err: bool)
    requires Fits(src, p, q, e, 3)
    ensures Unary(src, Primed(src, p, err)) == Parsed(e, Primed(src, q, err))
    decreases e, Rank(e, 3), 1
  {
    UnaryLayout(src, p, q, e);
    match e
    case Num(l) =>
      UnaryNumStep(src, p, q, l, err);
    case Neg(x) =>
      UnaryPrefix(src, p + 1, q, x, err);
      UnaryNegStep(src, p, q, x, err);
    case Bin(op, l, r) =>
      var t := p + 1 + Width(e, 0);
      PrimedAtOp(src, t, ')', err);
      ExprPrefix(src, p + 1, t, e, err);
      UnaryParenStep(src, p, t, e, err);
  }

  // The round trip

  /** The text has ended at q: the lexer reports T_END without an error. */
  /** Blanks in front of the cursor do not change the primed state. */
  lemma PrimedSkipsBlanks(src: string, p: nat, k: nat, err: bool)
    requires forall i | p <= i < p + k :: At(src, i) == ' '
    ensures Primed(src, p, err) == Primed(src, p + k, err)
  {
    LexSkipsSpaces(src, p, k);
  }

  lemma {:induction false} PrimedAtEnd(src: string, q: nat, err: bool)
    requires q == |src|
    ensures Primed(src, q, err) == State(q, TEnd, err)
    ensures !IsNumChar(At(src, q)) && Lex(src, q).tok == TEnd
  {
  }

  /** Printing a well-formed tree and evaluating the text gives the tree back. */
  lemma {:induction false} EvaluationOfPrint(e: Expr)
    requires WellFormed(e)
    ensures Evaluation(Print(e, 0)) == Accepted(e)
  {
    var src := Print(e, 0);
    assert Occurs(src, 0, src);
    PrintLayout(src, 0, e, 0);
    PrimedAtEnd(src, |src|, false);
    ExprPrefix(src, 0, |src|, e, false);
  }

  /** Whatever the evaluator accepts, it accepts again, as the same tree, when
      printed back in canonical form with single spaces around operators. */
  lemma {:induction false} NormalFormRoundTrip(s: string)
    requires Evaluation(s).Accepted?
    ensures Evaluation(Print(Evaluation(s).e, 0)) == Evaluation(s)
  {
    EvaluationOfPrint(Evaluation(s).e);
  }
}
