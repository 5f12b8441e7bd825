/**
  The evaluator as the C program runs it: the source string, the cursor, the
  current token and the error flag are mutable fields, and each C function is
  a method that updates them in place. Every method is proved to compute
  exactly what the corresponding function of Lexer or Grammar describes.
 */
module ExprEval {
  import opened Lexer
  import opened Grammar

  class Evaluator {
    var src: string
    var pos: nat
    var curtok: Token
    var errorFlag: bool

    /** The parser state the fields hold. */
    function St(): State
      reads this
    {
      State(pos, curtok, errorFlag)
    }

    /** The zero-initialised globals of the C program. */
    constructor ()
      ensures src == [] && pos == 0 && curtok == TEnd && !errorFlag
    {
      src := [];
      pos := 0;
      curtok := TEnd;
      errorFlag := false;
    }

    /** skip_space: advance over ' ' characters, and only those. */
    method SkipSpace()
      modifies this`pos
      ensures pos == SkipSpaces(src, old(pos))
      ensures old(pos) <= pos && At(src, pos) != ' '
      ensures forall i | old(pos) <= i < pos :: At(src, i) == ' '
    {
      while At(src, pos) == ' '
        invariant old(pos) <= pos
        invariant SkipSpaces(src, pos) == SkipSpaces(src, old(pos))
        decreases |src| - pos
      {
        pos := pos + 1;
      }
      SkippedAreSpaces(src, old(pos));
    }

    /** next_token */
    method NextToken()
      modifies this`pos, this`curtok, this`errorFlag
      ensures St() == Next(src, old(St()))
    {
      SkipSpace();
      var c := At(src, pos);
      if c == '\0' {
        curtok := TEnd;
        return;
      }
      if IsNumChar(c) {
        var start := pos;
        while IsNumChar(At(src, pos))
          invariant start <= pos <= |src|
          invariant NumberEnd(src, pos) == NumberEnd(src, start)
          modifies this`pos
          decreases |src| - pos
        {
          pos := pos + 1;
        }
        assert pos == NumberEnd(src, start);
        curtok := TNumber(src[start..pos]);
        return;
      }
      pos := pos + 1;
      match c
      case '+' => curtok := TPlus;
      case '-' => curtok := TMinus;
      case '*' => curtok := TMult;
      case '/' => curtok := TDiv;
      case '^' => curtok := TPow;
      case '(' => curtok := TLParen;
      case ')' => curtok := TRParen;
      case _ =>
        errorFlag := true;
        curtok := TEnd;
    }

    /** parse_primary */
    method ParsePrimary() returns (e: Expr)
      modifies this`pos, this`curtok, this`errorFlag
      decreases Measure(src, St()), 0
      ensures Parsed(e, St()) == Primary(src, old(St()))
    {
      if curtok.TNumber? {
        e := Num(curtok.lexeme);
        NextToken();
        return;
      }
      if curtok.TLParen? {
        NextToken();
        var inner := ParseExpression();
        if !curtok.TRParen? {
          errorFlag := true;
          e := Zero;
          return;
        }
        NextToken();
        e := inner;
        return;
      }
      errorFlag := true;
      e := Zero;
    }

    /** parse_unary */
    method ParseUnary() returns (e: Expr)
      modifies this`pos, this`curtok, this`errorFlag
      decreases Measure(src, St()), 1
      ensures Parsed(e, St()) == Unary(src, old(St()))
    {
      if curtok.TPlus? {
        NextToken();
        e := ParseUnary();
        return;
      }
      if curtok.TMinus? {
        NextToken();
        var x := ParseUnary();
        e := Neg(x);
        return;
      }
      e := ParsePrimary();
    }

    /** parse_pow: fold '^' to the left over unary operands. */
    method ParsePow() returns (e: Expr)
      modifies this`pos, this`curtok, this`errorFlag
      decreases Measure(src, St()), 2
      ensures Parsed(e, St()) == Power(src, old(St()))
    {
      var left := ParseUnary();
      while curtok.TPow?
        invariant PowLoop(src, St(), left) == Power(src, old(St()))
        invariant Measure(src, St()) <= Measure(src, old(St()))
        decreases Measure(src, St())
      {
        NextToken();
        var right := ParseUnary();
        left := Bin(Pow, left, right);
      }
      e := left;
    }

    /** parse_term: fold '*' and '/' to the left over power operands. */
    method ParseTerm() returns (e: Expr)
      modifies this`pos, this`curtok, this`errorFlag
      decreases Measure(src, St()), 3
      ensures Parsed(e, St()) == Term(src, old(St()))
    {
      var left := ParsePow();
      while curtok.TMult? || curtok.TDiv?
        invariant TermLoop(src, St(), left) == Term(src, old(St()))
        invariant Measure(src, St()) <= Measure(src, old(St()))
        decreases Measure(src, St())
      {
        var op := if curtok.TMult? then Mul else Div;
        NextToken();
        var right := ParsePow();
        left := Bin(op, left, right);
      }
      e := left;
    }

    /** parse_expression: fold '+' and '-' to the left over term operands. */
    method ParseExpression() returns (e: Expr)
      modifies this`pos, this`curtok, this`errorFlag
      decreases Measure(src, St()), 4
      ensures Parsed(e, St()) == Expression(src, old(St()))
    {
      var left := ParseTerm();
      while curtok.TPlus? || curtok.TMinus?
        invariant ExprLoop(src, St(), left) == Expression(src, old(St()))
        invariant Measure(src, St()) <= Measure(src, old(St()))
        decreases Measure(src, St())
      {
        var op := if curtok.TPlus? then Add else Sub;
        NextToken();
        var right := ParseTerm();
        left := Bin(op, left, right);
      }
      e := left;
    }

    /** The driver of main for one input line: reset the cursor and the error
        flag, prime the lexer, parse, and check the accept condition. The
        verdict depends on s alone, whatever state an earlier call left. */
    method Evaluate(s: string) returns (r: Outcome)
      modifies this
      ensures r == Evaluation(s)
      ensures src == s
      ensures St() == Expression(s, Next(s, Start)).st
    {
      src := s;
      pos := 0;
      errorFlag := false;
      NextToken();
      var e := ParseExpression();
      if errorFlag || !curtok.TEnd? {
        r := SyntaxError;
      } else {
        r := Accepted(e);
      }
    }
  }
}
