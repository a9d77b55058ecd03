/**
 * What one call of `Scanner::getToken` does, stated over `Run`: how the
 * global tables grow, what it returns at end of input, maximal munch for
 * names and numbers, and the effect of taking the lookahead flags from the
 * previous character.
 */
module ScannerFacts {
  import opened Wrappers
  import opened TokenKinds
  import opened Symbols
  import opened Scanning

  function AsScan(t: Transition): Scan
    requires t.Done?
  {
    Scan(t.outcome, t.last)
  }

  /**
   * Putting back a character that was just read restores the position it was
   * read from, so the next read returns that character again.
   */
  lemma UngetRereads(c: Cursor)
    requires !c.eof && c.pos < |c.input|
    ensures Unget(Read(c)).pos == c.pos
    ensures Read(Unget(Read(c))) == Read(c)
  {
  }

  /** The identifier table only grows at its end, and by at most one entry. */
  predicate IdentifiersGrow(t: Tables, t': Tables) {
    t.identifiers <= t'.identifiers && |t'.identifiers| <= |t.identifiers| + 1
  }

  /**
   * The string table grows by one entry exactly when the token is a string
   * constant, whose payload is the index of that entry.
   */
  predicate StringsFollow(d: Dialect, t: Tables, s: Scan) {
    if s.outcome.Ok? && s.outcome.value.kind == StringConstKind(d) then
      && t.strings <= s.last.tables.strings
      && |s.last.tables.strings| == |t.strings| + 1
      && s.outcome.value.value == |t.strings|
    else s.last.tables.strings == t.strings
  }

  /** The end of a name: the table stays valid and only the identifier table may grow. */
  lemma FinishWordTables(d: Dialect, m: Machine)
    requires WellFormed(d) && TablesValid(m.tables)
    ensures var t := FinishWord(d, m);
      && t.Done? && t.outcome.Ok? && t.outcome.value.kind != StringConstKind(d)
      && TablesValid(t.last.tables) && IdentifiersGrow(m.tables, t.last.tables)
      && t.last.tables.strings == m.tables.strings
  {
    LookupIsFirstMatch(m.buffer, d.serviceWords, |d.serviceWords|);
    InternKeepsTablesValid(m.tables, m.buffer);
  }

  /**
   * The `LESS_GREATER` case returns `TokenType(FINAL + i)` for the delimiter
   * index i of the buffer, with the current character appended when the
   * previous one was '='; i is 0, and the kind FINAL itself, exactly when
   * that spelling is no delimiter at index 1 or above. The lookahead is put
   * back only without '=', and the tables are left alone.
   */
  lemma CompoundTables(d: Dialect, m: Machine, isAssign: bool)
    ensures var b := m.buffer + [m.cursor.ch];
      var i := Lookup(b, DelimiterTable, DelimiterAmount);
      isAssign ==>
        && 0 <= i < DelimiterAmount
        && (i == 0 <==> !IsDelimiterSpelling(b))
        && CompoundStep(d, m, isAssign) == Done(Ok(Token(d.final + i, i)), m.(buffer := b))
    ensures var i := Lookup(m.buffer, DelimiterTable, DelimiterAmount);
      !isAssign ==>
        && 0 <= i < DelimiterAmount
        && (i == 0 <==> !IsDelimiterSpelling(m.buffer))
        && CompoundStep(d, m, isAssign) == Done(Ok(Token(d.final + i, i)), m.(cursor := Unget(m.cursor)))
    ensures CompoundStep(d, m, isAssign).last.tables == m.tables
  {
    if isAssign {
      DelimiterIndexZero(m.buffer + [m.cursor.ch]);
    } else {
      DelimiterIndexZero(m.buffer);
    }
  }

  /** A spelling that an entry of the delimiter table at index 1 or above has. */
  predicate IsDelimiterSpelling(b: string) {
    exists j :: 1 <= j < DelimiterAmount && DelimiterTable[j] == b
  }

  /** The delimiter lookup gives 0 exactly for spellings no entry at index 1 or above has. */
  lemma DelimiterIndexZero(b: string)
    ensures var i := Lookup(b, DelimiterTable, DelimiterAmount);
      && 0 <= i < DelimiterAmount
      && (i == 0 <==> !IsDelimiterSpelling(b))
  {
    LookupIsFirstMatch(b, DelimiterTable, DelimiterAmount);
    if Lookup(b, DelimiterTable, DelimiterAmount) == 0 {
      forall j | 1 <= j < DelimiterAmount
        ensures DelimiterTable[j] != b
      {
        if DelimiterTable[j] == b {
          DelimiterLookupIsIndex(j);
        }
      }
    }
  }

  /** The iteration that returns or throws keeps the tables as `Run` promises. */
  lemma StepDoneTables(d: Dialect, m: Machine)
    requires WellFormed(d) && MachineInv(m) && TablesValid(m.tables) && Step(d, m).Done?
    ensures var s := AsScan(Step(d, m));
      TablesValid(s.last.tables) && IdentifiersGrow(m.tables, s.last.tables) && StringsFollow(d, m.tables, s)
  {
    var m1 := m.(cursor := Read(m.cursor));
    var c := m1.cursor.ch;
    match m.state
    case InIdentifier =>
      FinishWordTables(d, m1.(cursor := Unget(m1.cursor)));
    case InString =>
      if m.cursor.ch != '"' {
        CompoundTables(d, m1.(buffer := m1.buffer + [c]), m.cursor.ch == '=');
      }
    case LessGreater =>
      CompoundTables(d, m1, m.cursor.ch == '=');
    case Initialization =>
      LookupIsFirstMatch([c], DelimiterTable, DelimiterAmount);
    case _ =>
  }

  /**
   * A whole call keeps the tables valid, appends at most one name to the
   * identifier table, and appends to the string table exactly when it
   * returns a string constant.
   */
  lemma {:induction false} RunKeepsTables(d: Dialect, m: Machine)
    requires WellFormed(d) && MachineInv(m) && TablesValid(m.tables)
    ensures var s := Run(d, m);
      TablesValid(s.last.tables) && IdentifiersGrow(m.tables, s.last.tables) && StringsFollow(d, m.tables, s)
    decreases Rank(m)
  {
    match Step(d, m)
    case Continue(m') =>
      RunKeepsTables(d, m');
    case Done(_, _) =>
      StepDoneTables(d, m);
  }
  /** The number of newlines in `s`. */
  function Newlines(s: seq<char>): nat {
    if s == [] then 0 else NewlineCount(s[0]) + Newlines(s[1..])
  }

  /**
   * At end of input the start state returns FINAL with payload 0 and sets
   * the sticky eof flag; position, line and tables stay as they were.
   */
  lemma AtEndOfInput(d: Dialect, m: Machine)
    requires WellFormed(d) && MachineInv(m) && m.state == Initialization
    requires m.cursor.eof || m.cursor.pos == |m.cursor.input|
    ensures Run(d, m) == Scan(Ok(Token(d.final, 0)), m.(cursor := m.cursor.(eof := true), buffer := "", number := 0))
  {
  }

  /** Once FINAL was returned, every further call returns FINAL again. */
  lemma FinalRepeats(d: Dialect, m: Machine)
    requires WellFormed(d) && MachineInv(m) && m.state == Initialization
    requires m.cursor.eof || m.cursor.pos == |m.cursor.input|
    ensures var s := Run(d, m);
      && MachineInv(Begin(s.last.cursor, s.last.line, s.last.tables))
      && Run(d, Begin(s.last.cursor, s.last.line, s.last.tables)) == s
  {
    AtEndOfInput(d, m);
    var s := Run(d, m);
    AtEndOfInput(d, Begin(s.last.cursor, s.last.line, s.last.tables));
  }

  /**
   * Input that holds nothing but white space up to its end gives FINAL, and
   * the line counter has gone up by the newlines skipped.
   */
  lemma {:induction false} TrailingSpace(d: Dialect, m: Machine)
    requires WellFormed(d) && MachineInv(m) && m.state == Initialization && !m.cursor.eof
    requires forall j :: m.cursor.pos <= j < |m.cursor.input| ==> IsSpace(m.cursor.input[j])
    ensures Run(d, m).outcome == Ok(Token(d.final, 0))
    ensures Run(d, m).last.line == m.line + Newlines(m.cursor.input[m.cursor.pos..])
    ensures Run(d, m).last.cursor.eof && Run(d, m).last.tables == m.tables
    decreases |m.cursor.input| - m.cursor.pos
  {
    var input, k := m.cursor.input, m.cursor.pos;
    if k == |input| {
      AtEndOfInput(d, m);
    } else {
      var c := input[k];
      var m' := Machine(Cursor(input, k + 1, false, c), m.line + NewlineCount(c), Initialization, "", 0, m.tables);
      assert Step(d, m) == Continue(m');
      TrailingSpace(d, m');
      assert input[k..] == [c] + input[k + 1..];
    }
  }

  /** The end of the run of letters and digits that starts at `k`. */
  function AlnumEnd(s: seq<char>, k: nat): (q: nat)
    requires k <= |s|
    ensures k <= q <= |s|
    ensures forall j :: k <= j < q ==> IsAlnum(s[j])
    ensures q < |s| ==> !IsAlnum(s[q])
    decreases |s| - k
  {
    if k == |s| || !IsAlnum(s[k]) then k else AlnumEnd(s, k + 1)
  }

  /**
   * In the identifier state the scanner takes letters and digits up to the
   * first other character, which it puts back; that character exists since
   * the input ends cleanly.
   */
  lemma {:induction false} IdentifierTail(d: Dialect, m: Machine)
    requires WellFormed(d) && MachineInv(m) && m.state == InIdentifier
    ensures var input, k := m.cursor.input, m.cursor.pos;
      var q := AlnumEnd(input, k);
      && q < |input|
      && Run(d, m) == AsScan(FinishWord(d, m.(cursor := Cursor(input, q, false, input[q]), buffer := m.buffer + input[k..q])))
    decreases |m.cursor.input| - m.cursor.pos
  {
    var input, k := m.cursor.input, m.cursor.pos;
    assert k < |input|;
    var c := input[k];
    if IsAlnum(c) {
      var m' := m.(cursor := Cursor(input, k + 1, false, c), buffer := m.buffer + [c]);
      assert Step(d, m) == Continue(m');
      IdentifierTail(d, m');
      var q := AlnumEnd(input, k);
      assert m.buffer + [c] + input[k + 1..q] == m.buffer + input[k..q];
    } else {
      assert input[k..k] == [];
      assert m.buffer + input[k..k] == m.buffer;
    }
  }

  /**
   * A letter in the start state begins a name that runs to the first
   * character that is no letter or digit; that character is put back.
   */
  lemma ScanWord(d: Dialect, m: Machine)
    requires WellFormed(d) && MachineInv(m) && m.state == Initialization && !m.cursor.eof
    requires m.cursor.pos < |m.cursor.input| && IsAlpha(m.cursor.input[m.cursor.pos])
    ensures var input, p := m.cursor.input, m.cursor.pos;
      var q := AlnumEnd(input, p + 1);
      && p < q < |input|
      && Run(d, m) == AsScan(FinishWord(d, Machine(Cursor(input, q, false, input[q]), m.line, InIdentifier, input[p..q], 0, m.tables)))
  {
    var input, p := m.cursor.input, m.cursor.pos;
    var c := input[p];
    var m' := Machine(Cursor(input, p + 1, false, c), m.line, InIdentifier, [c], 0, m.tables);
    assert Step(d, m) == Continue(m');
    IdentifierTail(d, m');
    var q := AlnumEnd(input, p + 1);
    assert [c] + input[p + 1..q] == input[p..q];
  }

  /**
   * A name scanned in the start state: a keyword gives `Token(i, i)` for
   * its table index i and leaves the tables alone; any other name gives an
   * IDENTIFIER whose payload is the index of its entry in the identifier
   * table, appended if the name was new.
   */
  lemma WordToken(d: Dialect, m: Machine)
    requires WellFormed(d) && MachineInv(m) && m.state == Initialization && !m.cursor.eof && TablesValid(m.tables)
    requires m.cursor.pos < |m.cursor.input| && IsAlpha(m.cursor.input[m.cursor.pos])
    ensures var input, p := m.cursor.input, m.cursor.pos;
      var q := AlnumEnd(input, p + 1);
      var w := input[p..q];
      var i := Lookup(w, d.serviceWords, |d.serviceWords|);
      var s := Run(d, m);
      && p < q < |input|
      && s.last.cursor == Cursor(input, q, false, input[q]) && s.last.line == m.line
      && (i != 0 ==> s.outcome == Ok(Token(i, i)) && 0 < i < d.final && d.serviceWords[i] == w && s.last.tables == m.tables)
      && (i == 0 ==>
            && s.outcome.Ok? && s.outcome.value.kind == IdentifierKind(d)
            && 0 <= s.outcome.value.value < |s.last.tables.identifiers|
            && s.last.tables.identifiers[s.outcome.value.value].name == w
            && TablesValid(s.last.tables) && IdentifiersGrow(m.tables, s.last.tables)
            && (forall j :: 0 <= j < |m.tables.identifiers| ==> m.tables.identifiers[j].name != w) == (s.last.tables != m.tables))
  {
    ScanWord(d, m);
    var input, p := m.cursor.input, m.cursor.pos;
    var q := AlnumEnd(input, p + 1);
    var w := input[p..q];
    LookupIsFirstMatch(w, d.serviceWords, |d.serviceWords|);
    InternKeepsTablesValid(m.tables, w);
  }
  /** The end of the run of digits that starts at `k`. */
  function DigitEnd(s: seq<char>, k: nat): (q: nat)
    requires k <= |s|
    ensures k <= q <= |s|
    ensures forall j :: k <= j < q ==> IsDigit(s[j])
    ensures q < |s| ==> !IsDigit(s[q])
    decreases |s| - k
  {
    if k == |s| || !IsDigit(s[k]) then k else DigitEnd(s, k + 1)
  }

  /** The value of a decimal numeral, most significant digit first. */
  function Decimal(s: seq<char>): int {
    if s == [] then 0
    else Decimal(s[..|s| - 1]) * 10 + DigitValue(s[|s| - 1])
  }

  /** Appending a digit multiplies the value by ten and adds the digit. */
  lemma DecimalAppend(ds: seq<char>, c: char)
    ensures Decimal(ds + [c]) == Decimal(ds) * 10 + DigitValue(c)
  {
    assert (ds + [c])[..|ds|] == ds;
  }

  /** One iteration in the number state: a digit extends the number, anything else ends it. */
  lemma NumberStep(d: Dialect, m: Machine)
    requires WellFormed(d) && MachineInv(m) && m.state == InNumber
    ensures var input, k := m.cursor.input, m.cursor.pos;
      && k < |input|
      && Step(d, m) == if IsDigit(input[k])
           then Continue(m.(cursor := Cursor(input, k + 1, false, input[k]), number := m.number * 10 + DigitValue(input[k])))
           else Done(Ok(Token(NumberKind(d), m.number)), m.(cursor := Cursor(input, k, false, input[k])))
  {
  }

  /**
   * In the number state the scanner takes digits up to the first other
   * character, which it puts back, and the value built is that of all the
   * digits read; `ds` are the digits taken so far.
   */
  lemma {:induction false} NumberTail(d: Dialect, m: Machine, ds: seq<char>)
    requires WellFormed(d) && MachineInv(m) && m.state == InNumber
    requires m.number == Decimal(ds)
    ensures var input, k := m.cursor.input, m.cursor.pos;
      var q := DigitEnd(input, k);
      var n := Decimal(ds + input[k..q]);
      && q < |input|
      && Run(d, m) == Scan(Ok(Token(NumberKind(d), n)), m.(cursor := Cursor(input, q, false, input[q]), number := n))
    decreases |m.cursor.input| - m.cursor.pos, 1
  {
    var input, k := m.cursor.input, m.cursor.pos;
    NumberRun(d, m);
    if IsDigit(input[k]) {
      NumberTailDigit(d, m, ds);
    } else {
      assert DigitEnd(input, k) == k;
      assert ds + input[k..k] == ds;
    }
  }

  /** The digit case of `NumberTail`: the digit joins `ds` and the scan goes on. */
  lemma {:induction false} NumberTailDigit(d: Dialect, m: Machine, ds: seq<char>)
    requires WellFormed(d) && MachineInv(m) && m.state == InNumber
    requires m.number == Decimal(ds)
    requires m.cursor.pos < |m.cursor.input| && IsDigit(m.cursor.input[m.cursor.pos])
    ensures var input, k := m.cursor.input, m.cursor.pos;
      var q := DigitEnd(input, k);
      var n := Decimal(ds + input[k..q]);
      && q < |input|
      && Run(d, m) == Scan(Ok(Token(NumberKind(d), n)), m.(cursor := Cursor(input, q, false, input[q]), number := n))
    decreases |m.cursor.input| - m.cursor.pos, 0
  {
    var input, k := m.cursor.input, m.cursor.pos;
    NumberRun(d, m);
    var c := input[k];
    var q := DigitEnd(input, k);
    DecimalAppend(ds, c);
    var m' := m.(cursor := Cursor(input, k + 1, false, c), number := m.number * 10 + DigitValue(c));
    NumberTail(d, m', ds + [c]);
    assert q == DigitEnd(input, k + 1);
    ShiftDigit(ds, input, k, q);
  }

  lemma ShiftDigit(ds: seq<char>, input: seq<char>, k: nat, q: nat)
    requires k < q <= |input|
    ensures ds + [input[k]] + input[k + 1..q] == ds + input[k..q]
  {
    assert input[k..q] == [input[k]] + input[k + 1..q];
  }

  /** `NumberStep` lifted to `Run`: a digit continues the run, anything else ends it. */
  lemma NumberRun(d: Dialect, m: Machine)
    requires WellFormed(d) && MachineInv(m) && m.state == InNumber
    ensures var input, k := m.cursor.input, m.cursor.pos;
      && k < |input|
      && (IsDigit(input[k]) ==>
            Run(d, m) == Run(d, m.(cursor := Cursor(input, k + 1, false, input[k]), number := m.number * 10 + DigitValue(input[k]))))
      && (!IsDigit(input[k]) ==>
            Run(d, m) == Scan(Ok(Token(NumberKind(d), m.number)), m.(cursor := Cursor(input, k, false, input[k]))))
  {
    NumberStep(d, m);
  }

  /** A digit in the start state enters the number state with that digit's value. */
  lemma DigitStarts(d: Dialect, m: Machine)
    requires WellFormed(d) && MachineInv(m) && m.state == Initialization && !m.cursor.eof
    requires m.cursor.pos < |m.cursor.input| && IsDigit(m.cursor.input[m.cursor.pos])
    ensures var input, p := m.cursor.input, m.cursor.pos;
      Step(d, m) == Continue(Machine(Cursor(input, p + 1, false, input[p]), m.line, InNumber, "", DigitValue(input[p]), m.tables))
  {
  }

  /**
   * A digit in the start state begins a number that runs to the first
   * non-digit, which is put back (so `12ab` gives the number 12 and then
   * the name `ab`); the payload is the decimal value of the digits.
   */
  lemma ScanNumber(d: Dialect, m: Machine)
    requires WellFormed(d) && MachineInv(m) && m.state == Initialization && !m.cursor.eof
    requires m.cursor.pos < |m.cursor.input| && IsDigit(m.cursor.input[m.cursor.pos])
    ensures var input, p := m.cursor.input, m.cursor.pos;
      var q := DigitEnd(input, p + 1);
      && p < q < |input|
      && Run(d, m).outcome == Ok(Token(NumberKind(d), Decimal(input[p..q])))
      && Run(d, m).last.cursor == Cursor(input, q, false, input[q])
      && Run(d, m).last.tables == m.tables && Run(d, m).last.line == m.line
  {
    var input, p := m.cursor.input, m.cursor.pos;
    var c := input[p];
    assert [c][..0] == [];
    var m' := Machine(Cursor(input, p + 1, false, c), m.line, InNumber, "", DigitValue(c), m.tables);
    DigitStarts(d, m);
    NumberTail(d, m', [c]);
    var q := DigitEnd(input, p + 1);
    assert [c] + input[p + 1..q] == input[p..q];
  }

  /** In syntax_analyzer.cpp the keyword lookup agrees with the classification by name. */
  lemma SyntaxWordKind(w: string)
    ensures Lookup(w, SyntaxServiceWords, |SyntaxServiceWords|) == KindOfWord(w)
  {
    var sw := SyntaxServiceWords;
    var k := KindOfWord(w);
    if k != NULL_TOKEN {
      assert sw[k] == w;
      SyntaxKeywordsAligned(k);
    } else {
      LookupIsFirstMatch(w, sw, |sw|);
      var r := Lookup(w, sw, |sw|);
      if r != 0 {
        SyntaxKeywordsAligned(r);
      }
    }
  }

  /**
   * In lexical_analyzer.cpp the same holds with the ordinals shifted past
   * the missing WHILE, and "while" is an ordinary name.
   */
  lemma LexicalWordKind(w: string)
    ensures var k := KindOfWord(w);
      Lookup(w, LexicalServiceWords, |LexicalServiceWords|) == if k == NULL_TOKEN || k == WHILE then 0 else LexicalOrdinal(k)
  {
    var sw := LexicalServiceWords;
    var k := KindOfWord(w);
    if k != NULL_TOKEN && k != WHILE {
      var i := LexicalOrdinal(k);
      assert sw[i] == w;
      LexicalKeywordsAligned(i);
    } else {
      LookupIsFirstMatch(w, sw, |sw|);
      var r := Lookup(w, sw, |sw|);
      if r != 0 {
        LexicalKeywordsAligned(r);
      }
    }
  }
  /**
   * Each delimiter spelling is found at its own index (so no spelling
   * appears twice before it); with `DelimitersAligned` this says the token
   * kind of a delimiter is the one its spelling names.
   */
  lemma DelimiterLookupIsIndex(i: int)
    requires 1 <= i < DelimiterAmount
    ensures Lookup(DelimiterTable[i], DelimiterTable, DelimiterAmount) == i
  {
    var b := DelimiterTable[i];
    LookupIsFirstMatch(b, DelimiterTable, DelimiterAmount);
    var r := Lookup(b, DelimiterTable, DelimiterAmount);
    DelimitersAligned(i);
    if r != 0 {
      DelimitersAligned(r);
    }
  }

  /**
   * Any other character in the start state is a one-character delimiter or
   * is thrown, provided the previous character was neither '@' nor '"'
   * (which would open a comment or a string instead).
   */
  lemma ScanDelimiter(d: Dialect, m: Machine)
    requires WellFormed(d) && MachineInv(m) && m.state == Initialization && !m.cursor.eof
    requires m.cursor.pos < |m.cursor.input|
    requires var c := m.cursor.input[m.cursor.pos];
      !IsSpace(c) && !IsAlnum(c) && c != ':' && c != '<' && c != '>' && c != '!'
    requires m.cursor.ch != '@' && m.cursor.ch != '"'
    ensures var input, p := m.cursor.input, m.cursor.pos;
      var c := input[p];
      var i := Lookup([c], DelimiterTable, DelimiterAmount);
      var s := Run(d, m);
      && s.last.cursor == Cursor(input, p + 1, false, c) && s.last.tables == m.tables
      && s.outcome == if i != 0 then Ok(Token(d.final + i, i)) else Err(UnexpectedCharacter(c))
  {
  }

  /** So '@' and '"' on their own are thrown back as unexpected characters. */
  lemma LoneAtOrQuoteThrown(d: Dialect, m: Machine)
    requires WellFormed(d) && MachineInv(m) && m.state == Initialization && !m.cursor.eof
    requires m.cursor.pos < |m.cursor.input|
    requires m.cursor.input[m.cursor.pos] == '@' || m.cursor.input[m.cursor.pos] == '"'
    requires m.cursor.ch != '@' && m.cursor.ch != '"'
    ensures Run(d, m).outcome == Err(UnexpectedCharacter(m.cursor.input[m.cursor.pos]))
  {
    var c := m.cursor.input[m.cursor.pos];
    ScanDelimiter(d, m);
    if c == '@' {
      AtSignIsNoMatch();
    } else {
      LookupIsFirstMatch([c], DelimiterTable, DelimiterAmount);
    }
  }

  /**
   * '!' in the start state always throws: the next iteration tests whether
   * the PREVIOUS character, the '!' itself, is '=' — so "!=" is never
   * recognised.
   */
  lemma BangThrows(d: Dialect, m: Machine)
    requires WellFormed(d) && MachineInv(m) && m.state == Initialization && !m.cursor.eof
    requires m.cursor.pos < |m.cursor.input| && m.cursor.input[m.cursor.pos] == '!'
    requires m.cursor.ch != '@' && m.cursor.ch != '"'
    ensures Run(d, m).outcome == Err(UnexpectedBang)
  {
    var input, p := m.cursor.input, m.cursor.pos;
    var m' := Machine(Cursor(input, p + 1, false, '!'), m.line, NotEqual, "!", 0, m.tables);
    assert Step(d, m) == Continue(m');
    assert Step(d, m').Done?;
  }

  /** ':', '<' and '>' in the start state enter the `LESS_GREATER` state with that character buffered. */
  lemma LessGreaterStarts(d: Dialect, m: Machine)
    requires WellFormed(d) && MachineInv(m) && m.state == Initialization && !m.cursor.eof
    requires m.cursor.pos < |m.cursor.input|
    requires var c := m.cursor.input[m.cursor.pos]; c == ':' || c == '<' || c == '>'
    requires m.cursor.ch != '@' && m.cursor.ch != '"'
    ensures var input, p := m.cursor.input, m.cursor.pos;
      Step(d, m) == Continue(Machine(Cursor(input, p + 1, false, input[p]), m.line, LessGreater, [input[p]], 0, m.tables))
  {
  }

  /**
   * ':', '<' and '>' in the start state always give the one-character
   * delimiter, and the character after them is put back (it stays consumed
   * only when it was the end of input): the '=' test again looks at the
   * previous character, so "<=" and ">=" are never recognised.
   */
  lemma ScanLessGreater(d: Dialect, m: Machine)
    requires WellFormed(d) && MachineInv(m) && m.state == Initialization && !m.cursor.eof
    requires m.cursor.pos < |m.cursor.input|
    requires var c := m.cursor.input[m.cursor.pos]; c == ':' || c == '<' || c == '>'
    requires m.cursor.ch != '@' && m.cursor.ch != '"'
    ensures var input, p := m.cursor.input, m.cursor.pos;
      var c := input[p];
      var i := Lookup([c], DelimiterTable, DelimiterAmount);
      var s := Run(d, m);
      && 0 < i < DelimiterAmount && DelimiterTable[i] == [c]
      && s.outcome == Ok(Token(d.final + i, i))
      && s.last.cursor.pos == p + 1 && (s.last.cursor.eof <==> p + 1 == |input|)
      && (p + 1 < |input| ==> s.last.cursor == Cursor(input, p + 1, false, input[p + 1]))
      && s.last.tables == m.tables
  {
    var input, p := m.cursor.input, m.cursor.pos;
    var c := input[p];
    var m2 := Machine(Read(Cursor(input, p + 1, false, c)), m.line, LessGreater, [c], 0, m.tables);
    var j := if c == ':' then 2 else if c == '<' then 7 else 8;
    if c == ':' {
      assert DelimiterTable[2] == [c];
      DelimiterLookupIsIndex(2);
    } else if c == '<' {
      assert DelimiterTable[7] == [c];
      DelimiterLookupIsIndex(7);
    } else {
      assert DelimiterTable[8] == [c];
      DelimiterLookupIsIndex(8);
    }
    assert Lookup(m2.buffer, DelimiterTable, DelimiterAmount) == j;
    LessGreaterRun(d, m);
    CompoundTables(d, m2, false);
    assert Run(d, m) == Scan(Ok(Token(d.final + j, j)), m2.(cursor := Unget(m2.cursor)));
    if p + 1 < |input| {
      assert Unget(m2.cursor) == Cursor(input, p + 1, false, input[p + 1]);
    } else {
      assert Unget(m2.cursor) == Cursor(input, p + 1, true, c);
    }
  }

  /** The two passes behind `ScanLessGreater`: the start state, then LESS_GREATER without '='. */
  lemma LessGreaterRun(d: Dialect, m: Machine)
    requires WellFormed(d) && MachineInv(m) && m.state == Initialization && !m.cursor.eof
    requires m.cursor.pos < |m.cursor.input|
    requires var c := m.cursor.input[m.cursor.pos]; c == ':' || c == '<' || c == '>'
    requires m.cursor.ch != '@' && m.cursor.ch != '"'
    ensures var input, p := m.cursor.input, m.cursor.pos;
      var c := input[p];
      Run(d, m) == AsScan(CompoundStep(d, Machine(Read(Cursor(input, p + 1, false, c)), m.line, LessGreater, [c], 0, m.tables), false))
  {
    var input, p := m.cursor.input, m.cursor.pos;
    var c := input[p];
    LessGreaterStarts(d, m);
    var m' := Machine(Cursor(input, p + 1, false, c), m.line, LessGreater, [c], 0, m.tables);
    assert Run(d, m) == Run(d, m');
    assert Step(d, m') == CompoundStep(d, m'.(cursor := Read(m'.cursor)), false);
  }

  /** "<=" scans as LESS followed by ASSIGN. */
  lemma LessEqualSplits(prev: char, line: nat, t: Tables)
    requires prev != '@' && prev != '"'
    ensures var s := Run(SyntaxDialect, Begin(Cursor("<= ", 0, false, prev), line, t));
      && s.outcome == Ok(Token(LESS, 7))
      && MachineInv(Begin(s.last.cursor, s.last.line, s.last.tables))
      && Run(SyntaxDialect, Begin(s.last.cursor, s.last.line, s.last.tables)).outcome == Ok(Token(ASSIGN, 5))
  {
    var m := Begin(Cursor("<= ", 0, false, prev), line, t);
    ScanLessGreater(SyntaxDialect, m);
    assert DelimiterTable[7] == "<";
    DelimiterLookupIsIndex(7);
    var s := Run(SyntaxDialect, m);
    ScanDelimiter(SyntaxDialect, Begin(s.last.cursor, s.last.line, s.last.tables));
    assert DelimiterTable[5] == "=";
    DelimiterLookupIsIndex(5);
  }
  /**
   * What the start state leaves behind when it enters the string,
   * less-greater and not-equal states: the string buffer is empty, and the
   * buffered character is the current one.
   */
  predicate Coherent(m: Machine) {
    && (m.state.InString? ==> m.buffer == "")
    && (m.state.LessGreater? ==>
          (m.cursor.ch == ':' || m.cursor.ch == '<' || m.cursor.ch == '>') && m.buffer == [m.cursor.ch])
    && (m.state.NotEqual? ==> m.cursor.ch == '!')
  }

  /** The kinds `FINAL + 9` to `FINAL + 11`: NEQ, LEQ and GEQ in both enums. */
  predicate IsTwoCharComparison(d: Dialect, k: int) {
    k == NeqKind(d) || k == d.final + 10 || k == d.final + 11
  }

  /** A buffer of one character, or of one character twice, is none of "!=", "<=", ">=". */
  lemma NoComparisonSpelling(b: string)
    requires |b| == 1 || (|b| == 2 && b[0] == b[1])
    ensures var i := Lookup(b, DelimiterTable, DelimiterAmount); i != 9 && i != 10 && i != 11
  {
    LookupIsFirstMatch(b, DelimiterTable, DelimiterAmount);
    assert DelimiterTable[9] == "!=" && DelimiterTable[10] == "<=" && DelimiterTable[11] == ">=";
  }

  lemma StepKeepsCoherent(d: Dialect, m: Machine)
    requires WellFormed(d) && MachineInv(m) && Coherent(m) && Step(d, m).Continue?
    ensures Coherent(Step(d, m).next)
  {
  }

  /**
   * The iteration that returns: no two-character comparison, and a string
   * constant appends the empty string.
   */
  lemma CoherentStepDone(d: Dialect, m: Machine)
    requires WellFormed(d) && MachineInv(m) && Coherent(m) && Step(d, m).Done?
    ensures var t := Step(d, m);
      && (t.outcome.Ok? ==> !IsTwoCharComparison(d, t.outcome.value.kind))
      && (t.outcome.Ok? && t.outcome.value.kind == StringConstKind(d) ==> t.last.tables.strings == m.tables.strings + [""])
  {
    var m1 := m.(cursor := Read(m.cursor));
    var c := m1.cursor.ch;
    match m.state
    case Initialization =>
      NoComparisonSpelling([c]);
      LookupIsFirstMatch([c], DelimiterTable, DelimiterAmount);
    case InIdentifier =>
      LookupIsFirstMatch(m.buffer, d.serviceWords, |d.serviceWords|);
    case InString =>
      if m.cursor.ch != '"' {
        assert m.buffer + [c] == [c];
        NoComparisonSpelling([c]);
        NoComparisonSpelling([c] + [c]);
        CompoundTables(d, m1.(buffer := [c]), m.cursor.ch == '=');
      }
    case LessGreater =>
      NoComparisonSpelling(m.buffer);
      CompoundTables(d, m1, false);
    case _ =>
  }

  /**
   * Because the '=' and '"' tests look at the previous character, a call
   * that starts in the start state never returns NEQ, LEQ or GEQ, and every
   * string constant it records is the empty string.
   */
  lemma {:induction false} NoTwoCharComparisons(d: Dialect, m: Machine)
    requires WellFormed(d) && MachineInv(m) && Coherent(m)
    ensures var s := Run(d, m);
      && (s.outcome.Ok? ==> !IsTwoCharComparison(d, s.outcome.value.kind))
      && (s.outcome.Ok? && s.outcome.value.kind == StringConstKind(d) ==> s.last.tables.strings == m.tables.strings + [""])
    decreases Rank(m)
  {
    match Step(d, m)
    case Continue(m') =>
      StepKeepsCoherent(d, m);
      NoTwoCharComparisons(d, m');
    case Done(_, _) =>
      CoherentStepDone(d, m);
  }
  /** "while" is a keyword for syntax_analyzer.cpp and an ordinary name for lexical_analyzer.cpp. */
  lemma WhileByDialect(prev: char, line: nat, t: Tables)
    requires TablesValid(t)
    ensures Run(SyntaxDialect, Begin(Cursor("while ", 0, false, prev), line, t)).outcome == Ok(Token(WHILE, WHILE))
    ensures var s := Run(LexicalDialect, Begin(Cursor("while ", 0, false, prev), line, t));
      && s.outcome.Ok? && s.outcome.value.kind == IdentifierKind(LexicalDialect)
      && 0 <= s.outcome.value.value < |s.last.tables.identifiers|
      && s.last.tables.identifiers[s.outcome.value.value].name == "while"
  {
    var input := "while ";
    assert AlnumEnd(input, 1) == 5;
    assert input[0..5] == "while";
    WordToken(SyntaxDialect, Begin(Cursor(input, 0, false, prev), line, t));
    SyntaxWordKind("while");
    WordToken(LexicalDialect, Begin(Cursor(input, 0, false, prev), line, t));
    WhileIsNoLexicalKeyword();
  }

  /**
   * After a previous '"', a character that is no space, letter, digit, '"'
   * or '=' enters the string state; the next character then falls through
   * into `LESS_GREATER`, is put back, and a character that is no delimiter
   * gives lookup index 0, that is FINAL, with input left to read.
   */
  lemma StringFallThroughFinal(d: Dialect, m: Machine)
    requires WellFormed(d) && MachineInv(m) && m.state == Initialization && !m.cursor.eof
    requires m.cursor.ch == '"' && m.cursor.pos + 1 < |m.cursor.input|
    requires var c := m.cursor.input[m.cursor.pos]; !IsSpace(c) && !IsAlnum(c) && c != '"' && c != '='
    requires !IsDelimiterSpelling([m.cursor.input[m.cursor.pos + 1]])
    ensures var input, p := m.cursor.input, m.cursor.pos;
      Run(d, m) == Scan(Ok(Token(d.final, 0)),
                        Machine(Cursor(input, p + 1, false, input[p + 1]), m.line, InString, [input[p + 1]], 0, m.tables))
  {
    var input, p := m.cursor.input, m.cursor.pos;
    var m' := Machine(Cursor(input, p + 1, false, input[p]), m.line, InString, "", 0, m.tables);
    assert Step(d, m) == Continue(m');
    DelimiterIndexZero([input[p + 1]]);
    assert [] + [input[p + 1]] == [input[p + 1]];
    assert Step(d, m') == CompoundStep(d, m'.(cursor := Read(m'.cursor), buffer := [input[p + 1]]), false);
  }

  /**
   * So `getToken` can return FINAL in the middle of the input: after a '"',
   * the rest `;a;` gives FINAL first, and the next call the name `a`.
   */
  lemma MidInputFinal(line: nat, t: Tables)
    requires TablesValid(t)
    ensures var s := Run(SyntaxDialect, Begin(Cursor(";a;", 0, false, '"'), line, t));
      && s.outcome == Ok(Token(FINAL, 0)) && s.last.cursor.pos == 1 && !s.last.cursor.eof
      && MachineInv(Begin(s.last.cursor, s.last.line, s.last.tables))
      && var s' := Run(SyntaxDialect, Begin(s.last.cursor, s.last.line, s.last.tables));
         s'.outcome.Ok? && s'.outcome.value.kind == IDENTIFIER
  {
    var input := ";a;";
    var m := Begin(Cursor(input, 0, false, '"'), line, t);
    assert KindOfDelimiter("a") == NULL_TOKEN;
    forall j | 1 <= j < DelimiterAmount
      ensures DelimiterTable[j] != "a"
    {
      DelimitersAligned(j);
    }
    StringFallThroughFinal(SyntaxDialect, m);
    var s := Run(SyntaxDialect, m);
    assert s == Scan(Ok(Token(FINAL, 0)), Machine(Cursor(input, 1, false, 'a'), line, InString, "a", 0, t));
    var m2 := Begin(Cursor(input, 1, false, 'a'), line, t);
    assert Begin(s.last.cursor, s.last.line, s.last.tables) == m2;
    assert AlnumEnd(input, 2) == 2;
    assert input[1..2] == "a";
    SyntaxWordKind("a");
    WordToken(SyntaxDialect, m2);
  }
}
