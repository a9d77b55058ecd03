/**
 * The class `Parser` of syntax_analyzer.cpp: it holds the current token and
 * pulls the next one on every `getToken`. Each method is proved to end in
 * the state the matching function of module `Grammar` describes: the same
 * current position on success, the same error when it throws.
 */
module Parsing {
  import opened Wrappers
  import opened TokenKinds
  import opened Grammar

  class Parser {
    /** What the scanner hands out, in order; after the last one it keeps giving FINAL. */
    const tokens: seq<Token>
    /** Index of `m_token` in `tokens` (-1 before the first read). */
    var pos: int
    /** `m_token`; `m_tokenType` and `m_value` are its two fields. */
    var token: Token

    ghost predicate Valid()
      reads this
    {
      -1 <= pos <= |tokens| && token == TokenAt(tokens, pos)
    }

    /** The outcome `o` and the current position are those the parse `r` describes. */
    ghost predicate Agrees(o: Outcome<SyntaxError>, r: Parse)
      reads this
    {
      Valid() && if r.Ok? then o == Pass && pos == r.value else o == Fail(r.error)
    }

    /** `Parser(a_file)`: no token has been read, `m_token` is the default token. */
    constructor (tokens: seq<Token>)
      ensures Valid() && this.tokens == tokens
      ensures pos == -1 && token == Token(NULL_TOKEN, 0)
    {
      this.tokens := tokens;
      pos := -1;
      token := Token(NULL_TOKEN, 0);
    }

    /** `getToken()`. */
    method GetToken()
      requires Valid()
      modifies this
      ensures Valid() && pos == Advance(tokens, old(pos))
    {
      if pos < |tokens| {
        pos := pos + 1;
      }
      token := TokenAt(tokens, pos);
    }

    /** `checkToken(expected)`. */
    method CheckToken(expected: int) returns (o: Outcome<SyntaxError>)
      requires Valid()
      ensures Agrees(o, Check(tokens, pos, expected))
    {
      if token.kind != expected {
        return Fail(UnexpectedToken);
      }
      return Pass;
    }

    /** `getToken(expected)`. */
    method ExpectToken(expected: int) returns (o: Outcome<SyntaxError>)
      requires Valid()
      modifies this
      ensures Agrees(o, Expect(tokens, old(pos), expected))
    {
      GetToken();
      o := CheckToken(expected);
    }

    /** `constant()`. */
    method Constant() returns (o: Outcome<SyntaxError>)
      requires Valid()
      modifies this
      ensures Agrees(o, Grammar.Constant(tokens, old(pos)))
    {
      var isAddSubtraction := token.kind == MINUS || token.kind == PLUS;
      var isConst := token.kind == NUMBER && token.kind == STRING_CONST;
      if isAddSubtraction {
        GetToken();
        if token.kind != NUMBER {
          return Fail(ExpectedNumber);
        }
      } else if !isConst {
        return Fail(ExpectedConstant);
      }
      return Pass;
    }

    /** `value()`. */
    method Value() returns (o: Outcome<SyntaxError>)
      requires Valid()
      modifies this
      ensures Agrees(o, Grammar.Value(tokens, old(pos)))
    {
      if token.kind == IDENTIFIER {
        GetToken();
      } else {
        :- Constant();
        GetToken();
      }
      return Pass;
    }

    /** `multiplierOperand()`. */
    method MultiplierOperand() returns (o: Outcome<SyntaxError>)
      requires Valid()
      modifies this
      ensures Agrees(o, Operand(tokens, old(pos)))
      decreases |tokens| - pos, 0
    {
      ghost var p0 := pos;
      while token.kind == NOT
        invariant Valid() && p0 <= pos
        invariant SkipWhile(tokens, pos, {NOT}) == SkipWhile(tokens, p0, {NOT})
        decreases |tokens| - pos
      {
        GetToken();
      }
      ghost var p1 := pos;
      while token.kind == PLUS || token.kind == MINUS
        invariant Valid() && p1 <= pos
        invariant SkipWhile(tokens, pos, {PLUS, MINUS}) == SkipWhile(tokens, p1, {PLUS, MINUS})
        decreases |tokens| - pos
      {
        GetToken();
      }
      if token.kind == LEFT_BRACKET {
        GetToken();
        :- Expression();
        :- CheckToken(RIGHT_BRACKET);
        GetToken();
        return Pass;
      }
      o := Value();
    }

    /** `termOperand()`. */
    method TermOperand() returns (o: Outcome<SyntaxError>)
      requires Valid()
      modifies this
      ensures Agrees(o, Level(tokens, 2, old(pos)))
      decreases |tokens| - pos, 2
    {
      ghost var p0 := pos;
      assert Level(tokens, 1, p0) == Operand(tokens, p0);
      :- MultiplierOperand();
      while token.kind == MULTIPLY || token.kind == DIVIDE
        invariant Valid() && p0 < pos && Stopped(1, KindAt(tokens, pos))
        invariant Rest(tokens, 2, pos) == Level(tokens, 2, p0)
        decreases |tokens| - pos
      {
        GetToken();
        :- MultiplierOperand();
      }
      return Pass;
    }

    /** `compareOperand()`. */
    method CompareOperand() returns (o: Outcome<SyntaxError>)
      requires Valid()
      modifies this
      ensures Agrees(o, Level(tokens, 3, old(pos)))
      decreases |tokens| - pos, 3
    {
      ghost var p0 := pos;
      :- TermOperand();
      while token.kind == PLUS || token.kind == MINUS
        invariant Valid() && p0 < pos && Stopped(2, KindAt(tokens, pos))
        invariant Rest(tokens, 3, pos) == Level(tokens, 3, p0)
        decreases |tokens| - pos
      {
        GetToken();
        :- TermOperand();
      }
      return Pass;
    }

    /** `andOperand()`: one optional relational operator. */
    method AndOperand() returns (o: Outcome<SyntaxError>)
      requires Valid()
      modifies this
      ensures Agrees(o, Level(tokens, 4, old(pos)))
      decreases |tokens| - pos, 4
    {
      o := CompareOperand();
      if o.Fail? {
        return;
      }
      var isCompareOperand := EQUAL <= token.kind && token.kind <= GEQ;
      if isCompareOperand {
        GetToken();
        o := CompareOperand();
        return;
      }
      return Pass;
    }

    /** `orOperand()`. */
    method OrOperand() returns (o: Outcome<SyntaxError>)
      requires Valid()
      modifies this
      ensures Agrees(o, Level(tokens, 5, old(pos)))
      decreases |tokens| - pos, 5
    {
      ghost var p0 := pos;
      :- AndOperand();
      while token.kind == AND
        invariant Valid() && p0 < pos && Stopped(4, KindAt(tokens, pos))
        invariant Rest(tokens, 5, pos) == Level(tokens, 5, p0)
        decreases |tokens| - pos
      {
        GetToken();
        :- AndOperand();
      }
      return Pass;
    }

    /** `assignOperand()`. */
    method AssignOperand() returns (o: Outcome<SyntaxError>)
      requires Valid()
      modifies this
      ensures Agrees(o, Level(tokens, 6, old(pos)))
      decreases |tokens| - pos, 6
    {
      ghost var p0 := pos;
      :- OrOperand();
      while token.kind == OR
        invariant Valid() && p0 < pos && Stopped(5, KindAt(tokens, pos))
        invariant Rest(tokens, 6, pos) == Level(tokens, 6, p0)
        decreases |tokens| - pos
      {
        GetToken();
        :- OrOperand();
      }
      return Pass;
    }

    /** `expression()`. */
    method Expression() returns (o: Outcome<SyntaxError>)
      requires Valid()
      modifies this
      ensures Agrees(o, Level(tokens, 7, old(pos)))
      decreases |tokens| - pos, 7
    {
      ghost var p0 := pos;
      :- AssignOperand();
      while token.kind == ASSIGN
        invariant Valid() && p0 < pos && Stopped(6, KindAt(tokens, pos))
        invariant Rest(tokens, 7, pos) == Level(tokens, 7, p0)
        decreases |tokens| - pos
      {
        GetToken();
        :- AssignOperand();
      }
      return Pass;
    }

    /** The argument list of `write`, entered with the bracket current. */
    method WriteArguments() returns (o: Outcome<SyntaxError>)
      requires Valid() && 0 <= pos < |tokens|
      modifies this
      ensures Agrees(o, WriteArgs(tokens, old(pos)))
      decreases |tokens| - pos, 8
    {
      ghost var q0 := pos;
      while true
        invariant Valid() && q0 <= pos < |tokens|
        invariant WriteArgs(tokens, pos) == WriteArgs(tokens, q0)
        decreases |tokens| - pos
      {
        GetToken();
        :- Expression();
        if token.kind != COMMA {
          return Pass;
        }
      }
    }

    /** `statement()`. */
    method Statement() returns (o: Outcome<SyntaxError>)
      requires Valid()
      modifies this
      ensures Agrees(o, Grammar.Statement(tokens, old(pos)))
      decreases |tokens| - pos, 8
    {
      if token.kind == READ {
        :- ExpectToken(LEFT_BRACKET);
        :- ExpectToken(IDENTIFIER);
        :- ExpectToken(RIGHT_BRACKET);
        o := ExpectToken(SEMICOLON);
      } else if token.kind == WRITE {
        :- ExpectToken(LEFT_BRACKET);
        :- WriteArguments();
        :- CheckToken(RIGHT_BRACKET);
        o := ExpectToken(SEMICOLON);
      } else if token.kind == WHILE {
        :- ExpectToken(LEFT_BRACKET);
        GetToken();
        :- Expression();
        :- CheckToken(RIGHT_BRACKET);
        GetToken();
        o := Statement();
      } else if token.kind == IF {
        :- ExpectToken(LEFT_BRACKET);
        GetToken();
        :- Expression();
        :- CheckToken(RIGHT_BRACKET);
        GetToken();
        :- Statement();
        :- ExpectToken(ELSE);
        GetToken();
        o := Statement();
      } else if token.kind == LABEL {
        o := ExpectToken(COLON);
      } else if token.kind == GOTO {
        :- ExpectToken(LABEL);
        o := ExpectToken(SEMICOLON);
      } else if token.kind == BEGIN {
        GetToken();
        o := Statements();
      } else {
        :- Expression();
        o := CheckToken(SEMICOLON);
      }
    }

    /** `statements()`. */
    method Statements() returns (o: Outcome<SyntaxError>)
      requires Valid()
      modifies this
      ensures Agrees(o, Grammar.Statements(tokens, old(pos)))
      decreases |tokens| - pos, 9
    {
      ghost var p0 := pos;
      while token.kind != END
        invariant Valid() && p0 <= pos
        invariant Grammar.Statements(tokens, pos) == Grammar.Statements(tokens, p0)
        decreases |tokens| - pos
      {
        :- Statement();
        GetToken();
      }
      return Pass;
    }

    /** `declarations()`: the guard is evaluated once, before the outer loop. */
    method Declarations() returns (o: Outcome<SyntaxError>)
      requires Valid()
      modifies this
      ensures Agrees(o, Grammar.Declarations(tokens, old(pos)))
    {
      ghost var p0 := pos;
      var isDeclaration := token.kind == INT || token.kind == STRING;
      while isDeclaration
        invariant Valid() && p0 <= pos
        invariant !isDeclaration ==> pos == p0 && Grammar.Declarations(tokens, p0) == Ok(p0)
        invariant isDeclaration ==> Grammar.Declarations(tokens, p0) == Err(DeclarationLoop(tokens, pos))
        decreases |tokens| - pos
      {
        ghost var q0 := pos;
        while true
          invariant Valid() && q0 <= pos
          invariant DeclItems(tokens, pos) == DeclItems(tokens, q0)
          decreases |tokens| - pos
        {
          :- ExpectToken(IDENTIFIER);
          GetToken();
          if token.kind == ASSIGN {
            GetToken();
            :- Constant();
            GetToken();
          }
          if token.kind != COMMA {
            break;
          }
        }
        :- CheckToken(SEMICOLON);
        GetToken();
      }
      return Pass;
    }

    /** `analyze()`, on a parser that has read nothing yet. */
    method Analyze() returns (o: Outcome<SyntaxError>)
      requires Valid() && pos == -1
      modifies this
      ensures Agrees(o, Grammar.Analyze(tokens))
    {
      o := ExpectToken(START);
      if o.Fail? {
        return;
      }
      :- ExpectToken(BEGIN);
      GetToken();
      :- Declarations();
      :- Statements();
      :- ExpectToken(END);
      o := ExpectToken(FINAL);
    }
  }
}
