/**
 * The recursive-descent `Parser` of syntax_analyzer.cpp as functions over
 * the token stream.
 *
 * The stream is the sequence of tokens the scanner hands out; once it is
 * exhausted every further `getToken` yields FINAL, as the scanner does at end
 * of file. A parser position `p` is the index of `m_token` in the stream:
 * -1 before the first `getToken` (where `m_token` is the default token) and
 * at most `|ts|`, which stands for the endless FINAL tail. Every parsing
 * function takes the position of the current token and returns the position
 * of the current token when the C++ function returns, or the error it throws.
 */
module Grammar {
  import opened Wrappers
  import opened TokenKinds

  /** The three `std::runtime_error`s of the parser. */
  datatype SyntaxError = UnexpectedToken | ExpectedNumber | ExpectedConstant

  type Parse = Result<int, SyntaxError>

  const EndToken := Token(FINAL, 0)

  /** `m_token` at position `p`: the default token before the first read, FINAL after the last. */
  function TokenAt(ts: seq<Token>, p: int): Token {
    if 0 <= p < |ts| then ts[p]
    else if p < 0 then Token(NULL_TOKEN, 0)
    else EndToken
  }

  function KindAt(ts: seq<Token>, p: int): int {
    TokenAt(ts, p).kind
  }

  /** `getToken()`: the next position, which stays at the FINAL tail once there. */
  function Advance(ts: seq<Token>, p: int): (q: int)
    ensures p <= q <= p + 1
    ensures q == p <==> p >= |ts|
  {
    if p < |ts| then p + 1 else p
  }

  /** `getToken(expected)`: read the next token and check its kind. */
  function Expect(ts: seq<Token>, p: int, k: int): (r: Parse)
    ensures r.Ok? <==> KindAt(ts, Advance(ts, p)) == k
    ensures r.Ok? ==> r.value == Advance(ts, p)
    ensures r.Err? ==> r.error == UnexpectedToken
  {
    var q := Advance(ts, p);
    if KindAt(ts, q) == k then Ok(q) else Err(UnexpectedToken)
  }

  /** `checkToken(expected)`: check the current token and stay on it. */
  function Check(ts: seq<Token>, p: int, k: int): (r: Parse)
    ensures r.Ok? <==> KindAt(ts, p) == k
    ensures r.Ok? ==> r.value == p
    ensures r.Err? ==> r.error == UnexpectedToken
  {
    if KindAt(ts, p) == k then Ok(p) else Err(UnexpectedToken)
  }

  /** A token that ends a statement: what `statement()` leaves current when it succeeds. */
  predicate IsTerminator(k: int) {
    k == SEMICOLON || k == COLON || k == END
  }

  /** The relational operators `andOperand` accepts, EQUAL through GEQ. */
  predicate IsCompare(k: int) {
    EQUAL <= k <= GEQ
  }

  /**
   * The operator the loop of precedence level n repeats on: 2 `termOperand`,
   * 3 `compareOperand`, 5 `orOperand`, 6 `assignOperand`, 7 `expression`.
   */
  predicate IsLoopOp(n: int, k: int) {
    || (n == 2 && (k == MULTIPLY || k == DIVIDE))
    || (n == 3 && (k == PLUS || k == MINUS))
    || (n == 5 && k == AND)
    || (n == 6 && k == OR)
    || (n == 7 && k == ASSIGN)
  }

  /** After an operand of level n no loop operator of level n or below is current. */
  predicate Stopped(n: int, k: int) {
    && (n >= 2 ==> !IsLoopOp(2, k))
    && (n >= 3 ==> !IsLoopOp(3, k))
    && (n >= 5 ==> !IsLoopOp(5, k))
    && (n >= 6 ==> !IsLoopOp(6, k))
    && (n >= 7 ==> !IsLoopOp(7, k))
  }

  /** One of the `while (m_tokenType == …) getToken();` loops of `multiplierOperand`. */
  function SkipWhile(ts: seq<Token>, p: int, ks: set<int>): (r: int)
    requires -1 <= p <= |ts| && FINAL !in ks && NULL_TOKEN !in ks
    ensures p <= r <= |ts| && KindAt(ts, r) !in ks
    ensures forall j :: p <= j < r ==> KindAt(ts, j) in ks
    decreases |ts| - p
  {
    if KindAt(ts, p) in ks then SkipWhile(ts, p + 1, ks) else p
  }

  /**
   * `constant()`: a sign must be followed by a NUMBER, which stays current.
   * The unsigned case never succeeds, since `isConst` asks for a token that
   * is NUMBER and STRING_CONST at once.
   */
  function Constant(ts: seq<Token>, p: int): (r: Parse)
    requires -1 <= p <= |ts|
    ensures r.Ok? <==> (KindAt(ts, p) == PLUS || KindAt(ts, p) == MINUS) && KindAt(ts, Advance(ts, p)) == NUMBER
    ensures r.Ok? ==> r.value == p + 1 && r.value < |ts|
    ensures r.Err? && (KindAt(ts, p) == PLUS || KindAt(ts, p) == MINUS) ==> r.error == ExpectedNumber
    ensures r.Err? && KindAt(ts, p) != PLUS && KindAt(ts, p) != MINUS ==> r.error == ExpectedConstant
  {
    var isAddSubtraction := KindAt(ts, p) == MINUS || KindAt(ts, p) == PLUS;
    var isConst := KindAt(ts, p) == NUMBER && KindAt(ts, p) == STRING_CONST;
    if isAddSubtraction then
      var q := Advance(ts, p);
      if KindAt(ts, q) != NUMBER then Err(ExpectedNumber) else Ok(q)
    else if !isConst then Err(ExpectedConstant)
    else Ok(p)
  }

  /** `value()`: an identifier, or a constant, and then the next token. */
  function Value(ts: seq<Token>, p: int): (r: Parse)
    requires -1 <= p <= |ts|
    ensures r.Ok? <==> KindAt(ts, p) == IDENTIFIER || Constant(ts, p).Ok?
    ensures r.Ok? ==> p < r.value <= |ts|
  {
    if KindAt(ts, p) == IDENTIFIER then Ok(Advance(ts, p))
    else
      var q :- Constant(ts, p);
      Ok(Advance(ts, q))
  }

  /** `multiplierOperand()`: NOT*, then signs, then a bracketed expression or a value. */
  function Operand(ts: seq<Token>, p: int): (r: Parse)
    requires -1 <= p <= |ts|
    ensures r.Ok? ==> p < r.value <= |ts|
    decreases |ts| - p, 0
  {
    var p1 := SkipWhile(ts, p, {NOT});
    var p2 := SkipWhile(ts, p1, {PLUS, MINUS});
    if KindAt(ts, p2) == LEFT_BRACKET then
      var q :- Level(ts, 7, Advance(ts, p2));
      var q' :- Check(ts, q, RIGHT_BRACKET);
      Ok(Advance(ts, q'))
    else Value(ts, p2)
  }

  /**
   * The operand of precedence level n: 1 `multiplierOperand`, 2
   * `termOperand`, 3 `compareOperand`, 4 `andOperand` (at most one
   * relational operator), 5 `orOperand`, 6 `assignOperand`, 7 `expression`.
   */
  function Level(ts: seq<Token>, n: int, p: int): (r: Parse)
    requires 1 <= n <= 7 && -1 <= p <= |ts|
    ensures r.Ok? ==> p < r.value <= |ts| && Stopped(n, KindAt(ts, r.value))
    decreases |ts| - p, n
  {
    if n == 1 then Operand(ts, p)
    else
      var q :- Level(ts, n - 1, p);
      if n == 4 then
        if IsCompare(KindAt(ts, q)) then Level(ts, 3, Advance(ts, q)) else Ok(q)
      else Rest(ts, n, q)
  }

  /** The `while` loop of level n, entered with the first operand parsed and `q` current. */
  function Rest(ts: seq<Token>, n: int, q: int): (r: Parse)
    requires 2 <= n <= 7 && n != 4 && 0 <= q <= |ts| && Stopped(n - 1, KindAt(ts, q))
    ensures r.Ok? ==> q <= r.value <= |ts| && Stopped(n, KindAt(ts, r.value))
    decreases |ts| - q, n
  {
    if IsLoopOp(n, KindAt(ts, q)) then
      var q' :- Level(ts, n - 1, Advance(ts, q));
      Rest(ts, n, q')
    else Ok(q)
  }

  /** The `do … while (COMMA)` argument list of `write`, entered on the bracket or a comma. */
  function WriteArgs(ts: seq<Token>, q: int): (r: Parse)
    requires 0 <= q < |ts|
    ensures r.Ok? ==> q < r.value <= |ts| && KindAt(ts, r.value) != COMMA
    decreases |ts| - q, 8
  {
    var r :- Level(ts, 7, Advance(ts, q));
    if KindAt(ts, r) == COMMA then WriteArgs(ts, r) else Ok(r)
  }

  /** `statement()`: it leaves the statement's last token (`;`, `:` or `}`) current. */
  function Statement(ts: seq<Token>, p: int): (r: Parse)
    requires -1 <= p <= |ts|
    ensures r.Ok? ==> p < r.value < |ts| && IsTerminator(KindAt(ts, r.value))
    decreases |ts| - p, 8
  {
    var k := KindAt(ts, p);
    if k == READ then
      var q1 :- Expect(ts, p, LEFT_BRACKET);
      var q2 :- Expect(ts, q1, IDENTIFIER);
      var q3 :- Expect(ts, q2, RIGHT_BRACKET);
      Expect(ts, q3, SEMICOLON)
    else if k == WRITE then
      var q1 :- Expect(ts, p, LEFT_BRACKET);
      var q2 :- WriteArgs(ts, q1);
      var q3 :- Check(ts, q2, RIGHT_BRACKET);
      Expect(ts, q3, SEMICOLON)
    else if k == WHILE then
      var q1 :- Expect(ts, p, LEFT_BRACKET);
      var q2 :- Level(ts, 7, Advance(ts, q1));
      var q3 :- Check(ts, q2, RIGHT_BRACKET);
      Statement(ts, Advance(ts, q3))
    else if k == IF then
      var q1 :- Expect(ts, p, LEFT_BRACKET);
      var q2 :- Level(ts, 7, Advance(ts, q1));
      var q3 :- Check(ts, q2, RIGHT_BRACKET);
      var q4 :- Statement(ts, Advance(ts, q3));
      var q5 :- Expect(ts, q4, ELSE);
      Statement(ts, Advance(ts, q5))
    else if k == LABEL then
      Expect(ts, p, COLON)
    else if k == GOTO then
      var q1 :- Expect(ts, p, LABEL);
      Expect(ts, q1, SEMICOLON)
    else if k == BEGIN then
      Statements(ts, Advance(ts, p))
    else
      var q :- Level(ts, 7, p);
      Check(ts, q, SEMICOLON)
  }

  /** `statements()`: statements, each followed by a `getToken`, until `}` is current. */
  function Statements(ts: seq<Token>, p: int): (r: Parse)
    requires -1 <= p <= |ts|
    ensures r.Ok? ==> p <= r.value < |ts| && KindAt(ts, r.value) == END
    decreases |ts| - p, 9
  {
    if KindAt(ts, p) == END then Ok(p)
    else
      var q :- Statement(ts, p);
      Statements(ts, Advance(ts, q))
  }

  /** The optional `= constant` of one declared name, entered on the token after the name. */
  function Initializer(ts: seq<Token>, q: int): (r: Parse)
    requires -1 <= q <= |ts|
    ensures r.Ok? ==> q <= r.value <= |ts|
  {
    if KindAt(ts, q) == ASSIGN then
      var c :- Constant(ts, Advance(ts, q));
      Ok(Advance(ts, c))
    else Ok(q)
  }

  /** The inner `do … while (COMMA)` of `declarations()`. */
  function DeclItems(ts: seq<Token>, p: int): (r: Parse)
    requires -1 <= p <= |ts|
    ensures r.Ok? ==> p < r.value <= |ts| && KindAt(ts, r.value) != COMMA
    decreases |ts| - p
  {
    var q1 :- Expect(ts, p, IDENTIFIER);
    var q2 :- Initializer(ts, Advance(ts, q1));
    if KindAt(ts, q2) == COMMA then DeclItems(ts, q2) else Ok(q2)
  }

  /**
   * The outer `while (isDeclaration)` of `declarations()`. Its guard is
   * computed once, before the loop, so the loop only ends by throwing.
   */
  function DeclarationLoop(ts: seq<Token>, p: int): (e: SyntaxError)
    requires -1 <= p <= |ts|
    ensures p >= |ts| - 1 ==> e == UnexpectedToken
    decreases |ts| - p
  {
    match DeclItems(ts, p)
    case Err(e) => e
    case Ok(q) =>
      if KindAt(ts, q) != SEMICOLON then UnexpectedToken
      else DeclarationLoop(ts, Advance(ts, q))
  }

  /** `declarations()`: it returns exactly when the current token is neither `int` nor `string`. */
  function Declarations(ts: seq<Token>, p: int): (r: Parse)
    requires -1 <= p <= |ts|
    ensures r.Ok? <==> KindAt(ts, p) != INT && KindAt(ts, p) != STRING
    ensures r.Ok? ==> r.value == p
  {
    if KindAt(ts, p) == INT || KindAt(ts, p) == STRING then Err(DeclarationLoop(ts, p))
    else Ok(p)
  }

  /**
   * `analyze()`: `program {`, declarations, statements, then two `}` and
   * FINAL. The result is the position of that FINAL token.
   */
  function Analyze(ts: seq<Token>): (r: Parse)
    ensures r.Ok? ==> 4 <= r.value <= |ts|
    ensures r.Ok? ==> KindAt(ts, 0) == START && KindAt(ts, 1) == BEGIN
    ensures r.Ok? ==> KindAt(ts, 2) != INT && KindAt(ts, 2) != STRING
    ensures r.Ok? ==> KindAt(ts, r.value - 2) == END && KindAt(ts, r.value - 1) == END && KindAt(ts, r.value) == FINAL
  {
    var q1 :- Expect(ts, -1, START);
    var q2 :- Expect(ts, q1, BEGIN);
    var q3 :- Declarations(ts, Advance(ts, q2));
    var q4 :- Statements(ts, q3);
    var q5 :- Expect(ts, q4, END);
    Expect(ts, q5, FINAL)
  }
}
