/**
 * What the grammar of syntax_analyzer.cpp accepts and rejects, as the code
 * is written: operands are names or bracketed expressions only, `goto`
 * takes the keyword `label`, `if` needs its `else`, relational operators do
 * not chain, and a program ends with two closing braces.
 */
module GrammarFacts {
  import opened Wrappers
  import opened TokenKinds
  import opened Grammar

  /** The position `multiplierOperand` reaches after skipping NOTs and signs. */
  function OperandStart(ts: seq<Token>, p: int): (r: int)
    requires -1 <= p <= |ts|
    ensures p <= r <= |ts|
    ensures KindAt(ts, r) != PLUS && KindAt(ts, r) != MINUS
  {
    SkipWhile(ts, SkipWhile(ts, p, {NOT}), {PLUS, MINUS})
  }

  /**
   * An operand that is neither a name nor a bracket fails with "expected
   * constant" at every precedence level, literals included: the signs are
   * skipped before `value()`, so `constant()` never sees one, and its
   * unsigned case never succeeds.
   */
  lemma {:induction false} LevelRejectsNonNames(ts: seq<Token>, n: int, p: int)
    requires 1 <= n <= 7 && -1 <= p <= |ts|
    requires KindAt(ts, OperandStart(ts, p)) != IDENTIFIER && KindAt(ts, OperandStart(ts, p)) != LEFT_BRACKET
    ensures Level(ts, n, p) == Err(ExpectedConstant)
    decreases n
  {
    if n > 1 {
      LevelRejectsNonNames(ts, n - 1, p);
    }
  }

  /** So an expression statement that starts with a number, signed or not, is rejected. */
  lemma NumberStatementRejected(ts: seq<Token>, p: int)
    requires -1 <= p <= |ts|
    requires KindAt(ts, OperandStart(ts, p)) == NUMBER || KindAt(ts, OperandStart(ts, p)) == STRING_CONST
    ensures Grammar.Statement(ts, p) == Err(ExpectedConstant)
  {
    LevelRejectsNonNames(ts, 7, p);
  }

  /** `read ( name ) ;` and nothing else, ending on the semicolon. */
  lemma ReadShape(ts: seq<Token>, p: int)
    requires 0 <= p < |ts| && KindAt(ts, p) == READ
    ensures Grammar.Statement(ts, p).Ok? <==>
      KindAt(ts, p + 1) == LEFT_BRACKET && KindAt(ts, p + 2) == IDENTIFIER
      && KindAt(ts, p + 3) == RIGHT_BRACKET && KindAt(ts, p + 4) == SEMICOLON
    ensures Grammar.Statement(ts, p).Ok? ==> Grammar.Statement(ts, p).value == p + 4
  {
  }

  /** `goto label ;`: the target is the keyword `label` itself, so a name is rejected. */
  lemma GotoShape(ts: seq<Token>, p: int)
    requires 0 <= p < |ts| && KindAt(ts, p) == GOTO
    ensures Grammar.Statement(ts, p).Ok? <==> KindAt(ts, p + 1) == LABEL && KindAt(ts, p + 2) == SEMICOLON
    ensures KindAt(ts, p + 1) == IDENTIFIER ==> Grammar.Statement(ts, p) == Err(UnexpectedToken)
  {
  }

  /** `label :` is a whole statement. */
  lemma LabelShape(ts: seq<Token>, p: int)
    requires 0 <= p < |ts| && KindAt(ts, p) == LABEL
    ensures Grammar.Statement(ts, p) == if KindAt(ts, p + 1) == COLON then Ok(p + 1) else Err(UnexpectedToken)
  {
  }

  /**
   * An accepted `if` statement is `if ( expression ) statement else
   * statement`: ELSE is the token right after the first branch, and the whole
   * statement ends where the second branch ends.
   */
  lemma IfNeedsElse(ts: seq<Token>, p: int)
    requires 0 <= p < |ts| && KindAt(ts, p) == IF && Grammar.Statement(ts, p).Ok?
    ensures var q2 := Level(ts, 7, p + 2).value;
      var q4 := Grammar.Statement(ts, q2 + 1).value;
      && KindAt(ts, p + 1) == LEFT_BRACKET && KindAt(ts, q2) == RIGHT_BRACKET
      && KindAt(ts, q4 + 1) == ELSE
      && Grammar.Statement(ts, p) == Grammar.Statement(ts, q4 + 2)
  {
  }

  /**
   * `andOperand` takes at most one relational operator, so in `a < b < c`
   * the expression stops at the second `<`.
   */
  lemma ComparisonsDoNotChain(ts: seq<Token>, p: int, q1: int, q2: int)
    requires -1 <= p <= |ts|
    requires Level(ts, 3, p) == Ok(q1) && IsCompare(KindAt(ts, q1))
    requires Level(ts, 3, Advance(ts, q1)) == Ok(q2) && IsCompare(KindAt(ts, q2))
    ensures Level(ts, 7, p) == Ok(q2)
  {
    assert Level(ts, 4, p) == Ok(q2);
    assert Rest(ts, 5, q2) == Ok(q2);
    assert Level(ts, 5, p) == Ok(q2);
    assert Rest(ts, 6, q2) == Ok(q2);
    assert Level(ts, 6, p) == Ok(q2);
    assert Rest(ts, 7, q2) == Ok(q2);
  }

  /** An expression statement with a chained comparison is rejected at the second operator. */
  lemma ChainedComparisonRejected(ts: seq<Token>, p: int, q1: int, q2: int)
    requires 0 <= p < |ts|
    requires KindAt(ts, p) !in {READ, WRITE, WHILE, IF, LABEL, GOTO, BEGIN}
    requires Level(ts, 3, p) == Ok(q1) && IsCompare(KindAt(ts, q1))
    requires Level(ts, 3, Advance(ts, q1)) == Ok(q2) && IsCompare(KindAt(ts, q2))
    ensures Grammar.Statement(ts, p) == Err(UnexpectedToken)
  {
    ComparisonsDoNotChain(ts, p, q1, q2);
  }

  const Start := Token(START, START)
  const Open := Token(BEGIN, BEGIN - FINAL)
  const Close := Token(END, END - FINAL)

  /** The shortest program: `program { } }`, two closing braces and then end of input. */
  lemma ShortestProgram()
    ensures Analyze([Start, Open, Close, Close]) == Ok(4)
    ensures Analyze([Start, Open, Close]).Err?
  {
  }
}
