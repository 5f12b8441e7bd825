/**
  The precedence ladder of the evaluator as pure functions over the parser
  state (cursor, current token, error flag):

    expression := term (('+' | '-') term)*
    term       := power (('*' | '/') power)*
    power      := unary ('^' unary)*
    unary      := '+' unary | '-' unary | primary
    primary    := NUMBER | '(' expression ')'

  Each production returns the expression tree it recognised instead of a
  floating-point value; Value evaluates a tree under abstract operators.
  The methods of the Evaluator class are proved equal to these functions.
 */
module Grammar {
  import opened Lexer

  datatype BinOp = Add | Sub | Mul | Div | Pow

  /** What a production computes, kept as a tree so that grouping is visible. */
  datatype Expr =
    | Num(lexeme: string)
    | Neg(operand: Expr)
    | Bin(op: BinOp, left: Expr, right: Expr)

  /** The global parser state: cursor, current token, error flag. */
  datatype State = State(pos: nat, tok: Token, err: bool)

  /** A production's result and the state it leaves behind. */
  datatype Parsed = Parsed(e: Expr, st: State)

  /** The verdict of the driver. */
  datatype Outcome = Accepted(e: Expr) | SyntaxError

  /** The value a production returns on a syntax error (the C code returns 0). */
  const Zero: Expr := Num("0")

  /** The state the driver starts from: cursor 0, error flag cleared. The
      current token is not reset by the driver; next_token never reads it. */
  const Start: State := State(0, TEnd, false)

  /** Every number in the tree is a lexeme the scanner can produce. */
  predicate WellFormed(e: Expr)
  {
    match e
    case Num(lexeme) => ValidLexeme(lexeme)
    case Neg(x) => WellFormed(x)
    case Bin(_, l, r) => WellFormed(l) && WellFormed(r)
  }

  /** Termination measure: characters left, plus one while the lookahead
      token has not been consumed. Consuming any token other than T_END
      makes it strictly smaller. */
  function Measure(src: string, s: State): nat
  {
    (if s.pos < |src| then |src| - s.pos else 0) + (if s.tok.TEnd? then 0 else 1)
  }

  /** All characters before the cursor are lexical ones. */
  predicate CleanPrefix(src: string, n: nat)
  {
    forall i | 0 <= i < n :: IsLexChar(At(src, i))
  }

  /** A state the scanner can have produced: number tokens are valid runs, and
      unless the error flag is set, everything scanned so far was lexical and
      T_END stands for the terminator. */
  predicate Lexed(src: string, s: State)
  {
    && (s.tok.TNumber? ==> ValidLexeme(s.tok.lexeme))
    && (s.err || (CleanPrefix(src, s.pos) && (s.tok.TEnd? ==> At(src, s.pos) == '\0')))
  }

  /** What every production guarantees about the state it leaves: the measure
      does not grow, the cursor moves forward and stays within the string, the
      error flag is sticky, and a scanner-produced state stays one. */
  predicate Advances(src: string, s: State, t: State)
  {
    && Measure(src, t) <= Measure(src, s)
    && s.pos <= t.pos
    && (s.pos <= |src| ==> t.pos <= |src|)
    && (s.err ==> t.err)
    && (Lexed(src, s) ==> Lexed(src, t))
  }

  /** next_token: scan from the cursor; an unrecognised character sets the flag. */
  function Next(src: string, s: State): (t: State)
    ensures Advances(src, s, t)
    ensures !s.tok.TEnd? ==> Measure(src, t) < Measure(src, s)
    ensures s.err || CleanPrefix(src, s.pos) ==> Lexed(src, t)
  {
    var l := Lex(src, s.pos);
    LexConsumesLexChars(src, s.pos);
    State(l.pos, l.tok, s.err || l.err)
  }

  /** parse_primary */
  function Primary(src: string, s: State): (r: Parsed)
    decreases Measure(src, s), 0
    ensures Advances(src, s, r.st)
    ensures Lexed(src, s) ==> WellFormed(r.e)
    // only a number or a parenthesis can start a primary without an error
    ensures !r.st.err ==> s.tok.TNumber? || s.tok.TLParen?
    // any other token is left unconsumed, and the error flag is set
    ensures !s.tok.TNumber? && !s.tok.TLParen? ==> r == Parsed(Zero, s.(err := true))
  {
    match s.tok
    case TNumber(lexeme) => Parsed(Num(lexeme), Next(src, s))
    case TLParen =>
      var inner := Expression(src, Next(src, s));
      if inner.st.tok.TRParen? then Parsed(inner.e, Next(src, inner.st))
      else Parsed(Zero, inner.st.(err := true))
    case _ => Parsed(Zero, s.(err := true))
  }

  /** parse_unary: a '+' is dropped, a '-' negates; both recurse. */
  function Unary(src: string, s: State): (r: Parsed)
    decreases Measure(src, s), 1
    ensures Advances(src, s, r.st)
    ensures Lexed(src, s) ==> WellFormed(r.e)
  {
    if s.tok.TPlus? then Unary(src, Next(src, s))
    else if s.tok.TMinus? then
      var x := Unary(src, Next(src, s));
      Parsed(Neg(x.e), x.st)
    else Primary(src, s)
  }

  /** The loop of parse_pow, with the running left operand. */
  function PowLoop(src: string, s: State, left: Expr): (r: Parsed)
    decreases Measure(src, s), 1
    ensures Advances(src, s, r.st)
    ensures Lexed(src, s) && WellFormed(left) ==> WellFormed(r.e)
  {
    if s.tok.TPow? then
      var right := Unary(src, Next(src, s));
      PowLoop(src, right.st, Bin(Pow, left, right.e))
    else Parsed(left, s)
  }

  /** parse_pow */
  function Power(src: string, s: State): (r: Parsed)
    decreases Measure(src, s), 2
    ensures Advances(src, s, r.st)
    ensures Lexed(src, s) ==> WellFormed(r.e)
  {
    var first := Unary(src, s);
    PowLoop(src, first.st, first.e)
  }

  /** The loop of parse_term. */
  function TermLoop(src: string, s: State, left: Expr): (r: Parsed)
    decreases Measure(src, s), 2
    ensures Advances(src, s, r.st)
    ensures Lexed(src, s) && WellFormed(left) ==> WellFormed(r.e)
  {
    if s.tok.TMult? || s.tok.TDiv? then
      var op := if s.tok.TMult? then Mul else Div;
      var right := Power(src, Next(src, s));
      TermLoop(src, right.st, Bin(op, left, right.e))
    else Parsed(left, s)
  }

  /** parse_term */
  function Term(src: string, s: State): (r: Parsed)
    decreases Measure(src, s), 3
    ensures Advances(src, s, r.st)
    ensures Lexed(src, s) ==> WellFormed(r.e)
  {
    var first := Power(src, s);
    TermLoop(src, first.st, first.e)
  }

  /** The loop of parse_expression. */
  function ExprLoop(src: string, s: State, left: Expr): (r: Parsed)
    decreases Measure(src, s), 3
    ensures Advances(src, s, r.st)
    ensures Lexed(src, s) && WellFormed(left) ==> WellFormed(r.e)
  {
    if s.tok.TPlus? || s.tok.TMinus? then
      var op := if s.tok.TPlus? then Add else Sub;
      var right := Term(src, Next(src, s));
      ExprLoop(src, right.st, Bin(op, left, right.e))
    else Parsed(left, s)
  }

  /** parse_expression */
  function Expression(src: string, s: State): (r: Parsed)
    decreases Measure(src, s), 4
    ensures Advances(src, s, r.st)
    ensures Lexed(src, s) ==> WellFormed(r.e)
  {
    var first := Term(src, s);
    ExprLoop(src, first.st, first.e)
  }

  /** The driver: prime the lexer, parse one expression, and accept exactly
      when no error was flagged and the whole input was consumed. */
  function Evaluation(src: string): (r: Outcome)
    ensures r.Accepted? ==> WellFormed(r.e)
  {
    var top := Expression(src, Next(src, Start));
    if top.st.err || !top.st.tok.TEnd? then SyntaxError else Accepted(top.e)
  }

  /** The arithmetic a tree denotes, over abstract operators: the numeric
      value of a lexeme, negation, and the five binary operators. */
  datatype Ops<!R> = Ops(num: string -> R, neg: R -> R, bin: (BinOp, R, R) -> R)

  function Value<R>(e: Expr, ops: Ops<R>): R
  {
    match e
    case Num(lexeme) => ops.num(lexeme)
    case Neg(x) => ops.neg(Value(x, ops))
    case Bin(op, l, r) => ops.bin(op, Value(l, ops), Value(r, ops))
  }
}
