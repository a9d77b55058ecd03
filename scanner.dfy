/**
 * `Scanner::getToken` of both translation units: a character-level state
 * machine over a file cursor with one-character `unget`.
 *
 * `Step` is one iteration of the `for(;;)` loop and `Run` the whole loop, as
 * functions of a `Machine` value; the class `Scanner` updates its fields in
 * place and its `GetToken` is proved to end in the state `Run` describes.
 */
module Scanning {
  import opened Wrappers
  import opened TokenKinds
  import opened Symbols

  /** What `getToken` throws: the bare character, the comment error and the '!' error. */
  datatype LexError = UnexpectedCharacter(c: char) | UnterminatedComment | UnexpectedBang

  predicate IsSpace(c: char) {
    c == ' ' || c == '\t' || c == '\n' || c == '\U{B}' || c == '\U{C}' || c == '\r'
  }
  predicate IsAlpha(c: char) { 'a' <= c <= 'z' || 'A' <= c <= 'Z' }
  predicate IsDigit(c: char) { '0' <= c <= '9' }
  predicate IsAlnum(c: char) { IsAlpha(c) || IsDigit(c) }

  /** `m_character - '0'`. */
  function DigitValue(c: char): int { c as int - '0' as int }

  function NewlineCount(c: char): nat { if c == '\n' then 1 else 0 }

  /**
   * An input whose last character is a letter or digit makes `getToken` loop
   * forever (the read at end of file leaves `m_character` unchanged), so the
   * model admits only inputs that end otherwise.
   */
  predicate EndsCleanly(input: seq<char>) {
    |input| == 0 || !IsAlnum(input[|input| - 1])
  }

  /** The file cursor: contents, read position, the sticky eof flag and `m_character`. */
  datatype Cursor = Cursor(input: seq<char>, pos: nat, eof: bool, ch: char)

  /** `m_file.get(m_character)`: at end of input eof is set and `ch` is left as it was. */
  function Read(c: Cursor): (r: Cursor)
    ensures r.input == c.input
    ensures r.eof <==> c.eof || c.pos >= |c.input|
    ensures r.eof ==> r.pos == c.pos && r.ch == c.ch
    ensures !r.eof ==> r.pos == c.pos + 1 && r.ch == c.input[c.pos]
  {
    if c.eof || c.pos >= |c.input| then c.(eof := true)
    else c.(pos := c.pos + 1, ch := c.input[c.pos])
  }

  /** `m_file.unget()`, ignored once eof is set. */
  function Unget(c: Cursor): (r: Cursor)
    ensures r.input == c.input && r.eof == c.eof && r.ch == c.ch
    ensures r.pos <= c.pos <= r.pos + 1
    ensures r.pos == c.pos <==> c.eof || c.pos == 0
  {
    if c.eof || c.pos == 0 then c else c.(pos := c.pos - 1)
  }

  datatype State = Initialization | InIdentifier | InNumber | InString | InComment | LessGreater | NotEqual

  /**
   * Everything one loop iteration reads or writes: the cursor, the static
   * `currentLine`, the loop's `currentState`, `symbolBuffer`, `numberBuffer`
   * and the global tables.
   */
  datatype Machine = Machine(cursor: Cursor, line: nat, state: State, buffer: string, number: int, tables: Tables)

  /** The machine at entry to `getToken`. */
  function Begin(cursor: Cursor, line: nat, tables: Tables): Machine {
    Machine(cursor, line, Initialization, "", 0, tables)
  }

  datatype Transition = Continue(next: Machine) | Done(outcome: Result<Token, LexError>, last: Machine)

  /** The result of a whole call: the token or error, and the machine at the `return` or `throw`. */
  datatype Scan = Scan(outcome: Result<Token, LexError>, last: Machine)

  /**
   * What keeps the loop well defined: the position is inside the input, the
   * input ends cleanly, and in the identifier and number states the last read
   * succeeded and gave a letter or digit.
   */
  predicate MachineInv(m: Machine) {
    && m.cursor.pos <= |m.cursor.input|
    && EndsCleanly(m.cursor.input)
    && ((m.state.InIdentifier? || m.state.InNumber?) ==>
          !m.cursor.eof && 0 < m.cursor.pos && IsAlnum(m.cursor.input[m.cursor.pos - 1]))
  }

  /** Decreases with every iteration that does not return. */
  function Rank(m: Machine): nat {
    (if m.cursor.eof || m.cursor.pos > |m.cursor.input| then 0 else 2 * (|m.cursor.input| - m.cursor.pos) + 2)
    + (if m.state.Initialization? then 0 else 1)
  }

  /** The `INITIALIZATION` case, after the buffers were cleared and the character read. */
  function StartStep(d: Dialect, m: Machine, isComment: bool, isString: bool): Transition
    requires d.final > 0
  {
    var c := m.cursor.ch;
    if m.cursor.eof then Done(Ok(Token(d.final, 0)), m)
    else if IsSpace(c) then Continue(m.(line := m.line + NewlineCount(c)))
    else if IsAlpha(c) then Continue(m.(buffer := [c], state := InIdentifier))
    else if IsDigit(c) then Continue(m.(number := DigitValue(c), state := InNumber))
    else if isComment then Continue(m.(state := InComment))
    else if isString then Continue(m.(state := InString))
    else if c == ':' || c == '<' || c == '>' then Continue(m.(buffer := [c], state := LessGreater))
    else if c == '!' then Continue(m.(buffer := [c], state := NotEqual))
    else
      var i := Lookup([c], DelimiterTable, DelimiterAmount);
      if i != 0 then Done(Ok(Token(d.final + i, i)), m.(buffer := [c]))
      else Done(Err(UnexpectedCharacter(c)), m.(buffer := [c]))
  }

  /** The end of an identifier, after the terminator was put back: a keyword or an interned name. */
  function FinishWord(d: Dialect, m: Machine): Transition {
    var i := Lookup(m.buffer, d.serviceWords, |d.serviceWords|);
    if i != 0 then Done(Ok(Token(i, i)), m)
    else
      var (id, t) := Intern(m.tables, m.buffer);
      Done(Ok(Token(IdentifierKind(d), id)), m.(tables := t))
  }

  /** The `LESS_GREATER` case, also reached by falling through from `STRING`. */
  function CompoundStep(d: Dialect, m: Machine, isAssign: bool): Transition {
    if isAssign then
      var b := m.buffer + [m.cursor.ch];
      var i := Lookup(b, DelimiterTable, DelimiterAmount);
      Done(Ok(Token(d.final + i, i)), m.(buffer := b))
    else
      var i := Lookup(m.buffer, DelimiterTable, DelimiterAmount);
      Done(Ok(Token(d.final + i, i)), m.(cursor := Unget(m.cursor)))
  }

  /**
   * One iteration of the loop. The three flags are taken from `m_character`
   * BEFORE the read, so they describe the previous character.
   */
  function Step(d: Dialect, m: Machine): (r: Transition)
    requires WellFormed(d) && MachineInv(m)
    ensures r.Continue? ==> MachineInv(r.next) && Rank(r.next) < Rank(m) && r.next.cursor.input == m.cursor.input
    ensures r.Continue? ==> r.next.tables == m.tables
    ensures m.state.InString? || m.state.LessGreater? || m.state.NotEqual? ==> r.Done?
  {
    var isComment := m.cursor.ch == '@';
    var isAssign := m.cursor.ch == '=';
    var isString := m.cursor.ch == '"';
    var m1 := m.(cursor := Read(m.cursor));
    var c := m1.cursor.ch;
    match m.state
    case Initialization => StartStep(d, m1.(buffer := "", number := 0), isComment, isString)
    case InIdentifier =>
      if IsAlnum(c) then Continue(m1.(buffer := m1.buffer + [c]))
      else FinishWord(d, m1.(cursor := Unget(m1.cursor)))
    case InNumber =>
      if IsDigit(c) then Continue(m1.(number := m1.number * 10 + DigitValue(c)))
      else Done(Ok(Token(NumberKind(d), m1.number)), m1.(cursor := Unget(m1.cursor)))
    case InComment =>
      if isComment then Continue(m1.(state := Initialization))
      else if m1.cursor.eof then Done(Err(UnterminatedComment), m1)
      else Continue(m1.(line := m1.line + NewlineCount(c)))
    case InString =>
      if isString then
        var t := m1.tables.(strings := m1.tables.strings + [m1.buffer]);
        Done(Ok(Token(StringConstKind(d), |m1.tables.strings|)), m1.(tables := t, state := Initialization))
      else CompoundStep(d, m1.(buffer := m1.buffer + [c]), isAssign)
    case LessGreater => CompoundStep(d, m1, isAssign)
    case NotEqual =>
      if isAssign then
        var b := m1.buffer + [c];
        Done(Ok(Token(NeqKind(d), Lookup(b, DelimiterTable, DelimiterAmount))), m1.(buffer := b))
      else Done(Err(UnexpectedBang), m1)
  }

  /** The whole `for(;;)` loop: iterate `Step` until it returns or throws. */
  function Run(d: Dialect, m: Machine): (r: Scan)
    requires WellFormed(d) && MachineInv(m)
    ensures r.last.cursor.input == m.cursor.input
    decreases Rank(m)
  {
    match Step(d, m)
    case Continue(m') => Run(d, m')
    case Done(o, m') => Scan(o, m')
  }

  /**
   * The scanner: the file cursor (`m_file` and `m_character`), the static line
   * counter, and the global tables it appends to. `dialect` selects the
   * keyword table and FINAL of one of the two translation units.
   */
  class Scanner {
    const dialect: Dialect
    const tables: SymbolTables
    const input: seq<char>
    var pos: nat
    var eof: bool
    var ch: char
    var line: nat

    ghost predicate Valid()
      reads this, tables
    {
      WellFormed(dialect) && pos <= |input| && EndsCleanly(input) && TablesValid(tables.Value())
    }

    function CursorValue(): Cursor
      reads this
    {
      Cursor(input, pos, eof, ch)
    }

    /** The machine with the current fields and the given loop-local variables. */
    ghost function Snapshot(state: State, buffer: string, number: int): Machine
      reads this, tables
    {
      Machine(CursorValue(), line, state, buffer, number, tables.Value())
    }

    /** The machine at entry to `getToken`. */
    ghost function Entry(): Machine
      reads this, tables
    {
      Begin(CursorValue(), line, tables.Value())
    }

    /** The fields that outlive a call agree with `m`. */
    ghost predicate Reflects(m: Machine)
      reads this, tables
    {
      CursorValue() == m.cursor && line == m.line && tables.Value() == m.tables
    }

    /**
     * Opening the program text. `initial` is the value `m_character` happens
     * to hold before the first read, which the source leaves uninitialised.
     */
    constructor (dialect: Dialect, input: seq<char>, initial: char, tables: SymbolTables)
      requires WellFormed(dialect) && EndsCleanly(input) && TablesValid(tables.Value())
      ensures Valid()
      ensures this.dialect == dialect && this.input == input && this.tables == tables
      ensures CursorValue() == Cursor(input, 0, false, initial) && line == 1
    {
      this.dialect := dialect;
      this.input := input;
      this.tables := tables;
      pos, eof, ch, line := 0, false, initial, 1;
    }

    /** `Scanner::tableLookup`: the index loop over the first `size` entries. */
    static method TableLookup(buffer: string, table: seq<string>, size: int) returns (r: int)
      requires 0 <= size <= |table|
      ensures r == Lookup(buffer, table, size)
    {
      var i := 0;
      while i < size
        invariant 0 <= i <= size
        invariant forall j :: 0 <= j < i ==> table[j] != buffer
        invariant LookupFrom(buffer, table, size, i) == Lookup(buffer, table, size)
      {
        if buffer == table[i] {
          return i;
        }
        i := i + 1;
      }
      return 0;
    }

    /** `getCharacter`. */
    method GetCharacter()
      modifies this`pos, this`eof, this`ch
      ensures CursorValue() == Read(old(CursorValue()))
    {
      if eof || pos >= |input| {
        eof := true;
      } else {
        ch := input[pos];
        pos := pos + 1;
      }
    }

    /** `m_file.unget()`. */
    method PutBack()
      modifies this`pos
      ensures CursorValue() == Unget(old(CursorValue()))
    {
      if !eof && pos > 0 {
        pos := pos - 1;
      }
    }

    /** The transition `t` is the one the fields and loop variables now show. */
    ghost predicate Follows(t: Transition, done: bool, r: Result<Token, LexError>, state: State, buffer: string, number: int)
      reads this, tables
    {
      if done then t.Done? && t.outcome == r && Reflects(t.last)
      else t.Continue? && t.next == Snapshot(state, buffer, number)
    }

    /** What holds right after `getCharacter()` in the iteration that started in machine `m`. */
    ghost predicate AfterRead(m: Machine)
      reads this, tables
    {
      && WellFormed(dialect) && MachineInv(m) && m.cursor.input == input
      && CursorValue() == Read(m.cursor) && line == m.line && tables.Value() == m.tables
      && TablesValid(m.tables)
    }

    /** `case State::INITIALIZATION`, after the read, with the buffers cleared as `m1` shows. */
    method StartCase(ghost m1: Machine, isComment: bool, isString: bool)
      returns (done: bool, r: Result<Token, LexError>, state: State, symbolBuffer: string, numberBuffer: int)
      requires WellFormed(dialect) && Reflects(m1) && m1.state == Initialization && m1.buffer == "" && m1.number == 0
      modifies this`line
      ensures Follows(StartStep(dialect, m1, isComment, isString), done, r, state, symbolBuffer, numberBuffer)
    {
      ghost var c := m1.cursor.ch;
      ghost var t := StartStep(dialect, m1, isComment, isString);
      done, r, state := false, Ok(Token(NULL_TOKEN, 0)), Initialization;
      symbolBuffer := "";
      numberBuffer := 0;
      if eof {
        done, r := true, Ok(Token(dialect.final, 0));
      } else if IsSpace(ch) {
        assert t == Continue(m1.(line := m1.line + NewlineCount(c)));
        line := line + NewlineCount(ch);
      } else if IsAlpha(ch) {
        assert t == Continue(m1.(buffer := [c], state := InIdentifier));
        symbolBuffer := [ch];
        state := InIdentifier;
      } else if IsDigit(ch) {
        assert t == Continue(m1.(number := DigitValue(c), state := InNumber));
        numberBuffer := DigitValue(ch);
        state := InNumber;
      } else if isComment {
        assert t == Continue(m1.(state := InComment));
        state := InComment;
      } else if isString {
        assert t == Continue(m1.(state := InString));
        state := InString;
      } else {
        done, r, state, symbolBuffer := PunctuationCase(m1, isComment, isString);
      }
    }

    /** The rest of `case State::INITIALIZATION`: a character that starts no name, number, comment or string. */
    method PunctuationCase(ghost m1: Machine, isComment: bool, isString: bool)
      returns (done: bool, r: Result<Token, LexError>, state: State, symbolBuffer: string)
      requires WellFormed(dialect) && Reflects(m1) && m1.state == Initialization && m1.buffer == "" && m1.number == 0
      requires !eof && !IsSpace(ch) && !IsAlpha(ch) && !IsDigit(ch) && !isComment && !isString
      ensures Follows(StartStep(dialect, m1, isComment, isString), done, r, state, symbolBuffer, 0)
    {
      ghost var c := m1.cursor.ch;
      ghost var t := StartStep(dialect, m1, isComment, isString);
      done, r, state := false, Ok(Token(NULL_TOKEN, 0)), Initialization;
      if ch == ':' || ch == '<' || ch == '>' {
        assert t == Continue(m1.(buffer := [c], state := LessGreater));
        symbolBuffer := [ch];
        state := LessGreater;
      } else if ch == '!' {
        assert t == Continue(m1.(buffer := [c], state := NotEqual));
        symbolBuffer := [ch];
        state := NotEqual;
      } else {
        symbolBuffer := [ch];
        var inTableNumber := TableLookup(symbolBuffer, DelimiterTable, DelimiterAmount);
        assert t ==
          if inTableNumber != 0 then Done(Ok(Token(dialect.final + inTableNumber, inTableNumber)), m1.(buffer := [c]))
          else Done(Err(UnexpectedCharacter(c)), m1.(buffer := [c]));
        if inTableNumber != 0 {
          done, r := true, Ok(Token(dialect.final + inTableNumber, inTableNumber));
        } else {
          done, r := true, Err(UnexpectedCharacter(ch));
        }
      }
    }

    /** `case State::IDENTIFIER`. */
    method IdentifierCase(ghost m: Machine, buffer: string)
      returns (done: bool, r: Result<Token, LexError>, symbolBuffer: string)
      requires AfterRead(m) && m.state == InIdentifier && buffer == m.buffer
      modifies this`pos, tables
      ensures TablesValid(tables.Value())
      ensures Follows(Step(dialect, m), done, r, InIdentifier, symbolBuffer, m.number)
    {
      done, r, symbolBuffer := false, Ok(Token(NULL_TOKEN, 0)), buffer;
      if IsAlnum(ch) {
        symbolBuffer := symbolBuffer + [ch];
      } else {
        PutBack();
        var inTableNumber := TableLookup(symbolBuffer, dialect.serviceWords, |dialect.serviceWords|);
        if inTableNumber != 0 {
          done, r := true, Ok(Token(inTableNumber, inTableNumber));
        } else {
          InternKeepsTablesValid(tables.Value(), symbolBuffer);
          inTableNumber := tables.AddToIT(symbolBuffer);
          done, r := true, Ok(Token(IdentifierKind(dialect), inTableNumber));
        }
      }
    }

    /** `case State::NUMBER`. */
    method NumberCase(ghost m: Machine, number: int)
      returns (done: bool, r: Result<Token, LexError>, numberBuffer: int)
      requires AfterRead(m) && m.state == InNumber && number == m.number
      modifies this`pos
      ensures Follows(Step(dialect, m), done, r, InNumber, m.buffer, numberBuffer)
    {
      done, r, numberBuffer := false, Ok(Token(NULL_TOKEN, 0)), number;
      if IsDigit(ch) {
        numberBuffer := numberBuffer * 10 + DigitValue(ch);
      } else {
        PutBack();
        done, r := true, Ok(Token(NumberKind(dialect), numberBuffer));
      }
    }

    /** `case State::COMMENT`. */
    method CommentCase(ghost m: Machine, isComment: bool)
      returns (done: bool, r: Result<Token, LexError>, state: State)
      requires AfterRead(m) && m.state == InComment && isComment == (m.cursor.ch == '@')
      modifies this`line
      ensures Follows(Step(dialect, m), done, r, state, m.buffer, m.number)
    {
      done, r, state := false, Ok(Token(NULL_TOKEN, 0)), InComment;
      if isComment {
        state := Initialization;
      } else if eof {
        done, r := true, Err(UnterminatedComment);
      } else {
        line := line + NewlineCount(ch);
      }
    }

    /** `case State::STRING`: a closing quote, or on into `case State::LESS_GREATER` (no `break`). */
    method StringCase(ghost m: Machine, buffer: string, isAssign: bool, isString: bool)
      returns (r: Result<Token, LexError>)
      requires AfterRead(m) && m.state == InString && buffer == m.buffer
      requires isAssign == (m.cursor.ch == '=') && isString == (m.cursor.ch == '"')
      modifies this`pos, tables
      ensures TablesValid(tables.Value())
      ensures Follows(Step(dialect, m), true, r, Initialization, "", 0)
    {
      ghost var m1 := m.(cursor := Read(m.cursor));
      if isString {
        tables.strings := tables.strings + [buffer];
        r := Ok(Token(StringConstKind(dialect), |tables.strings| - 1));
      } else {
        var symbolBuffer := buffer + [ch];
        r := LessGreaterCase(m1.(buffer := symbolBuffer), symbolBuffer, isAssign);
      }
    }

    /** `case State::LESS_GREATER`: a two-character delimiter ending in '=', or the buffered one. */
    method LessGreaterCase(ghost m1: Machine, symbolBuffer: string, isAssign: bool)
      returns (r: Result<Token, LexError>)
      requires Reflects(m1) && symbolBuffer == m1.buffer
      modifies this`pos
      ensures Follows(CompoundStep(dialect, m1, isAssign), true, r, Initialization, "", 0)
    {
      var inTableNumber: int;
      if isAssign {
        inTableNumber := TableLookup(symbolBuffer + [ch], DelimiterTable, DelimiterAmount);
        r := Ok(Token(dialect.final + inTableNumber, inTableNumber));
      } else {
        PutBack();
        inTableNumber := TableLookup(symbolBuffer, DelimiterTable, DelimiterAmount);
        r := Ok(Token(dialect.final + inTableNumber, inTableNumber));
      }
    }

    /** `case State::NOT_EQUAL`: only "!=" is accepted. */
    method NotEqualCase(ghost m: Machine, buffer: string, isAssign: bool)
      returns (r: Result<Token, LexError>)
      requires AfterRead(m) && m.state == NotEqual && buffer == m.buffer
      requires isAssign == (m.cursor.ch == '=')
      ensures Follows(Step(dialect, m), true, r, Initialization, "", 0)
    {
      if isAssign {
        var inTableNumber := TableLookup(buffer + [ch], DelimiterTable, DelimiterAmount);
        r := Ok(Token(NeqKind(dialect), inTableNumber));
      } else {
        r := Err(UnexpectedBang);
      }
    }

    /**
     * One pass of the `for(;;)` body of `getToken`, from the machine `m` the
     * fields and the loop variables show: the flags, the read, and the case
     * the current state selects.
     */
    method Iterate(ghost m: Machine, state0: State, buffer0: string, number0: int)
      returns (done: bool, r: Result<Token, LexError>, state: State, symbolBuffer: string, numberBuffer: int)
      requires Valid() && MachineInv(m) && m == Snapshot(state0, buffer0, number0)
      modifies this, tables
      ensures Valid()
      ensures Follows(Step(dialect, m), done, r, state, symbolBuffer, numberBuffer)
    {
      var isComment := ch == '@';
      var isAssign := ch == '=';
      var isString := ch == '"';
      GetCharacter();
      done, state, symbolBuffer, numberBuffer := false, state0, buffer0, number0;
      if state0 == Initialization {
        done, r, state, symbolBuffer, numberBuffer :=
          StartCase(m.(cursor := Read(m.cursor), buffer := "", number := 0), isComment, isString);
      } else if state0 == InIdentifier {
        done, r, symbolBuffer := IdentifierCase(m, buffer0);
      } else if state0 == InNumber {
        done, r, numberBuffer := NumberCase(m, number0);
      } else if state0 == InComment {
        done, r, state := CommentCase(m, isComment);
      } else if state0 == InString {
        r := StringCase(m, buffer0, isAssign, isString);
        done := true;
      } else if state0 == LessGreater {
        r := LessGreaterCase(m.(cursor := Read(m.cursor)), buffer0, isAssign);
        done := true;
      } else {
        r := NotEqualCase(m, buffer0, isAssign);
        done := true;
      }
    }

    /** `Scanner::getToken`: runs the state machine until it returns a token or throws. */
    method GetToken() returns (r: Result<Token, LexError>)
      requires Valid()
      modifies this, tables
      ensures Valid()
      ensures r == Run(dialect, old(Entry())).outcome
      ensures Reflects(Run(dialect, old(Entry())).last)
    {
      ghost var target := Run(dialect, Entry());
      var state := Initialization;
      var symbolBuffer: string := "";
      var numberBuffer: int := 0;
      while true
        invariant Valid()
        invariant MachineInv(Snapshot(state, symbolBuffer, numberBuffer))
        invariant Run(dialect, Snapshot(state, symbolBuffer, numberBuffer)) == target
        decreases Rank(Snapshot(state, symbolBuffer, numberBuffer))
      {
        ghost var m := Snapshot(state, symbolBuffer, numberBuffer);
        var done;
        done, r, state, symbolBuffer, numberBuffer := Iterate(m, state, symbolBuffer, numberBuffer);
        if done {
          return;
        }
      }
    }
  }
}
