/**
 * Token kinds as the ordinals of the C++ `enum class TokenType`, the static
 * keyword ("service word") and delimiter tables, and the table lookup that
 * classifies a spelling.
 *
 * The named constants are the ordinals of syntax_analyzer.cpp, whose enum has
 * WHILE. lexical_analyzer.cpp has the same enum without WHILE, so from AND on
 * its ordinals are one smaller; a `Dialect` carries the keyword table and the
 * ordinal of FINAL, and the kinds the scanner builds by `FINAL + i` are
 * computed from it.
 */
module TokenKinds {

  const NULL_TOKEN := 0
  const INT := 1
  const STRING := 2
  const BOOL := 3
  const GOTO := 4
  const LABEL := 5
  const IF := 6
  const ELSE := 7
  const READ := 8
  const WRITE := 9
  const WHILE := 10
  const AND := 11
  const OR := 12
  const NOT := 13
  const START := 14
  const FINAL := 15
  const SEMICOLON := 16
  const COLON := 17
  const POINT := 18
  const COMMA := 19
  const ASSIGN := 20
  const EQUAL := 21
  const LESS := 22
  const GREATER := 23
  const NEQ := 24
  const LEQ := 25
  const GEQ := 26
  const LEFT_BRACKET := 27
  const RIGHT_BRACKET := 28
  const BEGIN := 29
  const END := 30
  const PLUS := 31
  const MINUS := 32
  const MULTIPLY := 33
  const DIVIDE := 34
  const NUMBER := 35
  const IDENTIFIER := 36
  const STRING_CONST := 37

  /** A token: its kind ordinal and a kind-dependent payload. */
  datatype Token = Token(kind: int, value: int)

  /** The keyword table of syntax_analyzer.cpp (index 0 is the "no match" sentinel). */
  const SyntaxServiceWords: seq<string> :=
    ["not_indexed", "int", "string", "bool", "goto", "label", "if", "else",
     "read", "write", "while", "and", "or", "not", "program"]

  /** The keyword table of lexical_analyzer.cpp: the same without "while". */
  const LexicalServiceWords: seq<string> :=
    ["not_indexed", "int", "string", "bool", "goto", "label", "if", "else",
     "read", "write", "and", "or", "not", "program"]

  /** The delimiter table shared by both files (index 0, "@", is the sentinel). */
  const DelimiterTable: seq<string> :=
    ["@", ";", ":", ".", ",", "=", "==", "<", ">", "!=", "<=",
     ">=", "(", ")", "{", "}", "+", "-", "*", "/"]

  const DelimiterAmount := 20

  /**
   * Which translation unit the scanner comes from: its keyword table, whose
   * length is `serviceWordAmount`, and the ordinal of FINAL.
   */
  datatype Dialect = Dialect(serviceWords: seq<string>, final: int)

  const SyntaxDialect := Dialect(SyntaxServiceWords, 15)
  const LexicalDialect := Dialect(LexicalServiceWords, 14)

  /** In both files FINAL's ordinal equals the number of keyword table entries. */
  predicate WellFormed(d: Dialect) {
    |d.serviceWords| == d.final && d.final > 0
  }

  function NeqKind(d: Dialect): int { d.final + 9 }
  function NumberKind(d: Dialect): int { d.final + 20 }
  function IdentifierKind(d: Dialect): int { d.final + 21 }
  function StringConstKind(d: Dialect): int { d.final + 22 }

  /**
   * `Scanner::tableLookup`: the first index below `size` whose entry equals
   * `buffer`, or 0 when there is none (`LookupIsFirstMatch` states this).
   */
  function Lookup(buffer: string, table: seq<string>, size: nat): nat
    requires size <= |table|
  {
    LookupFrom(buffer, table, size, 0)
  }

  function LookupFrom(buffer: string, table: seq<string>, size: nat, i: nat): nat
    requires i <= size <= |table|
    decreases size - i
  {
    if i == size then 0
    else if table[i] == buffer then i
    else LookupFrom(buffer, table, size, i + 1)
  }

  lemma {:induction false} LookupFromIsFirstMatch(buffer: string, table: seq<string>, size: nat, i: nat)
    requires i <= size <= |table|
    ensures var r := LookupFrom(buffer, table, size, i);
      && (r < size || (r == 0 && size == 0))
      && ((exists j :: i <= j < size && table[j] == buffer) ==>
            i <= r && table[r] == buffer && forall j :: i <= j < r ==> table[j] != buffer)
      && ((forall j :: i <= j < size ==> table[j] != buffer) ==> r == 0)
    decreases size - i
  {
    if i < size && table[i] != buffer {
      LookupFromIsFirstMatch(buffer, table, size, i + 1);
    }
  }

  /**
   * The lookup returns the least index below `size` whose entry equals the
   * buffer, and 0 when none does; so a match at index 0 and no match at all
   * give the same result.
   */
  lemma LookupIsFirstMatch(buffer: string, table: seq<string>, size: nat)
    requires size <= |table|
    ensures var r := Lookup(buffer, table, size);
      && (r < size || (r == 0 && size == 0))
      && ((exists j :: 0 <= j < size && table[j] == buffer) ==>
            table[r] == buffer && forall j :: 0 <= j < r ==> table[j] != buffer)
      && ((forall j :: 0 <= j < size ==> table[j] != buffer) ==> r == 0)
  {
    LookupFromIsFirstMatch(buffer, table, size, 0);
  }

  /** Reference classification of a keyword spelling, by name (ordinals of syntax_analyzer.cpp). */
  function KindOfWord(w: string): int {
    if w == "int" then INT
    else if w == "string" then STRING
    else if w == "bool" then BOOL
    else if w == "goto" then GOTO
    else if w == "label" then LABEL
    else if w == "if" then IF
    else if w == "else" then ELSE
    else if w == "read" then READ
    else if w == "write" then WRITE
    else if w == "while" then WHILE
    else if w == "and" then AND
    else if w == "or" then OR
    else if w == "not" then NOT
    else if w == "program" then START
    else NULL_TOKEN
  }

  /** Reference classification of a delimiter spelling, by name (ordinals of syntax_analyzer.cpp). */
  function KindOfDelimiter(s: string): int {
    if s == ";" then SEMICOLON
    else if s == ":" then COLON
    else if s == "." then POINT
    else if s == "," then COMMA
    else if s == "=" then ASSIGN
    else if s == "==" then EQUAL
    else if s == "<" then LESS
    else if s == ">" then GREATER
    else if s == "!=" then NEQ
    else if s == "<=" then LEQ
    else if s == ">=" then GEQ
    else if s == "(" then LEFT_BRACKET
    else if s == ")" then RIGHT_BRACKET
    else if s == "{" then BEGIN
    else if s == "}" then END
    else if s == "+" then PLUS
    else if s == "-" then MINUS
    else if s == "*" then MULTIPLY
    else if s == "/" then DIVIDE
    else NULL_TOKEN
  }

  /** The ordinal in lexical_analyzer.cpp of a kind named by its syntax_analyzer.cpp ordinal. */
  function LexicalOrdinal(k: int): int
    requires k != WHILE
  {
    if k < WHILE then k else k - 1
  }

  /** `TokenType(i)` is the kind of `serviceWordTable[i]`, and looking that spelling up gives back i. */
  lemma SyntaxKeywordsAligned(i: int)
    requires 1 <= i < |SyntaxServiceWords|
    ensures KindOfWord(SyntaxServiceWords[i]) == i
    ensures Lookup(SyntaxServiceWords[i], SyntaxServiceWords, |SyntaxServiceWords|) == i
  {
    LookupIsFirstMatch(SyntaxServiceWords[i], SyntaxServiceWords, |SyntaxServiceWords|);
  }

  /** The same alignment for the 14-entry table, against the enum without WHILE. */
  lemma {:induction false} LexicalKeywordsAligned(i: int)
    requires 1 <= i < |LexicalServiceWords|
    ensures KindOfWord(LexicalServiceWords[i]) != WHILE
    ensures LexicalOrdinal(KindOfWord(LexicalServiceWords[i])) == i
    ensures Lookup(LexicalServiceWords[i], LexicalServiceWords, |LexicalServiceWords|) == i
    decreases i
  {
    // an earlier entry has a different kind, so it is a different word
    forall j | 1 <= j < i
      ensures LexicalServiceWords[j] != LexicalServiceWords[i]
    {
      LexicalKeywordsAligned(j);
    }
    LookupIsFirstMatch(LexicalServiceWords[i], LexicalServiceWords, |LexicalServiceWords|);
  }

  /** `TokenType(FINAL + i)` is the kind of `delimiterTable[i]`, in both enums. */
  lemma DelimitersAligned(i: int)
    requires 1 <= i < DelimiterAmount
    ensures KindOfDelimiter(DelimiterTable[i]) == SyntaxDialect.final + i
    ensures LexicalOrdinal(KindOfDelimiter(DelimiterTable[i])) == LexicalDialect.final + i
  {
  }

  /** "while" is no keyword in lexical_analyzer.cpp. */
  lemma WhileIsNoLexicalKeyword()
    ensures Lookup("while", LexicalServiceWords, |LexicalServiceWords|) == 0
  {
    LookupIsFirstMatch("while", LexicalServiceWords, |LexicalServiceWords|);
  }

  /** A match on "@" gives the sentinel index 0, the same as no match at all. */
  lemma AtSignIsNoMatch()
    ensures Lookup("@", DelimiterTable, DelimiterAmount) == 0
  {
    assert DelimiterTable[0] == "@";
  }
}
