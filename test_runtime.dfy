/** The draft interpreter of `test_runtime.py`: the cursor and the prefix
    arithmetic of the release interpreter in its `Draft` dialect (no `MOD`,
    no `errors` list), and a loop that evaluates every operator it meets at
    the top level and prints the result. */
module DraftExecution {
  import opened Py
  import opened Text
  import opened Tokens
  import opened Symbols
  import opened Execution

  /** The fields the draft loop reads and writes. `printed` is what its
      `print(result)` has written to standard output, one int per call. */
  datatype DState = DState(table: Table, program: Program, cur: Cursor, printed: seq<int>)

  /** How the draft's `process_input_code` ended: normally at `LOI`, or by
      an exception raised with the object in the state given. */
  datatype DFinal = DFinished(st: DState) | DAborted(st: DState, exc: Exc)

  /** `tok` is the token just before cursor `c`. */
  predicate Before(p: Program, c: Cursor, tok: Token) {
    c.line in p && 0 < c.idx <= |p[c.line]| && p[c.line][c.idx - 1] == tok
  }

  /** The token just before the cursor is `LOI`. */
  predicate AfterLoi(s: DState) {
    s.cur.line in s.program && 0 < s.cur.idx <= |s.program[s.cur.line]| && s.program[s.cur.line][s.cur.idx - 1].name == "LOI"
  }

  /** `current_token = self._get_next_token()` followed by the rest of the
      loop. The table is only read, output is only appended, and a run that
      ends normally has just read `LOI`. */
  function DraftRun(s: DState, divide: (int, int) -> int): DFinal
    decreases Ahead(s.program, s.cur.line), Within(s.program, s.cur), 1
  {
    match Next(s.program, s.cur)
    case NoLine(c) => DAborted(s.(cur := c), KeyError)
    case Tok(c, tok) => DraftLoop(s.(cur := c), tok, divide)
  }

  /** The `while` loop with `tok` the current token: an operator of the
      draft is evaluated, consuming its operands, and its result printed;
      any other token but `LOI` is passed over. */
  function DraftLoop(s: DState, tok: Token, divide: (int, int) -> int): DFinal
    requires Before(s.program, s.cur, tok)
    decreases Ahead(s.program, s.cur.line), Within(s.program, s.cur), 2
  {
    if tok.name == "LOI" then DFinished(s)
    else if tok.name in Operators(Draft) then
      match Eval(Draft, s.program, s.table, divide, s.cur, tok.name)
      case Fail(c, _, x) => DAborted(s.(cur := c), x)
      case Ok(c, n) => DraftRun(s.(cur := c, printed := s.printed + [n.i]), divide)
    else DraftRun(s, divide)
  }

  /** `process_input_code(tokens, symbol_table)`: the cursor restarts at
      line 1; standard output keeps what earlier runs printed. */
  function DraftProcess(printed: seq<int>, p: Program, t: Table, divide: (int, int) -> int): DFinal {
    DraftRun(DState(t, p, Cursor(1, 0), printed), divide)
  }

  /** A draft run that ends normally has just read `LOI`; the symbol
      table and the program are never changed, and output is only added. */
  lemma {:induction false} RunEndsAfterLoi(s: DState, divide: (int, int) -> int)
    ensures var r := DraftRun(s, divide);
      r.st.table == s.table && r.st.program == s.program && s.printed <= r.st.printed &&
      (r.DFinished? ==> AfterLoi(r.st))
    decreases Ahead(s.program, s.cur.line), Within(s.program, s.cur), 1
  {
    match Next(s.program, s.cur)
    case NoLine(c) =>
    case Tok(c, tok) => LoopEndsAfterLoi(s.(cur := c), tok, divide);
  }

  lemma {:induction false} LoopEndsAfterLoi(s: DState, tok: Token, divide: (int, int) -> int)
    requires Before(s.program, s.cur, tok)
    ensures var r := DraftLoop(s, tok, divide);
      r.st.table == s.table && r.st.program == s.program && s.printed <= r.st.printed &&
      (r.DFinished? ==> AfterLoi(r.st))
    decreases Ahead(s.program, s.cur.line), Within(s.program, s.cur), 2
  {
    if tok.name != "LOI" {
      if tok.name in Operators(Draft) {
        match Eval(Draft, s.program, s.table, divide, s.cur, tok.name)
        case Fail(_, _, _) =>
        case Ok(c, n) => RunEndsAfterLoi(s.(cur := c, printed := s.printed + [n.i]), divide);
      } else {
        RunEndsAfterLoi(s, divide);
      }
    }
  }

  // -------------------------------------------------------------------
  // What the draft prints

  /** The number of tokens of the spellings of `es`, one after another. */
  function Length(es: seq<Expr>): nat {
    if es == [] then 0 else Size(es[0]) + Length(es[1..])
  }

  /** `ts` spells the expressions `es` one after another from index `k`,
      and then holds `LOI`. */
  predicate SpelledToLoi(ts: seq<Token>, k: nat, es: seq<Expr>)
    decreases |es|
  {
    if es == [] then k < |ts| && ts[k].name == "LOI"
    else SpelledAt(ts, k, es[0]) && SpelledToLoi(ts, k + Size(es[0]), es[1..])
  }

  predicate AllFit(es: seq<Expr>, t: Table, divide: (int, int) -> int)
    decreases |es|
  {
    es == [] || (Fits(es[0], t, divide) && AllFit(es[1..], t, divide))
  }

  /** What the loop prints for one expression at the top level: the value
      of an operation; nothing for a bare literal or variable. */
  function PrintedOne(e: Expr, t: Table, divide: (int, int) -> int): seq<int> {
    if e.Apply? then [ValueOf(e, t, divide)] else []
  }

  /** The values of the operations among `es`, in order. */
  function Printed(es: seq<Expr>, t: Table, divide: (int, int) -> int): (r: seq<int>)
    ensures |r| <= |es|
  {
    if es == [] then [] else PrintedOne(es[0], t, divide) + Printed(es[1..], t, divide)
  }

  /** An operation spelled from index `k` of a line, entered after its
      operator token, consumes exactly its spelling and yields its value. */
  lemma OperationEvaluates(d: Dialect, p: Program, t: Table, divide: (int, int) -> int,
                           op: string, a: Expr, b: Expr, line: int, k: nat)
    requires line in p && SpelledAt(p[line], k, Apply(op, a, b)) && Fits(Apply(op, a, b), t, divide)
    ensures Eval(d, p, t, divide, Cursor(line, k + 1), op)
         == Ok(Cursor(line, k + Size(Apply(op, a, b))), Int(ValueOf(Apply(op, a, b), t, divide)))
  {
    ApplyEvaluates(d, p, t, divide, op, a, b, line, k, true);
    assert Next(p, Cursor(line, k)) == Tok(Cursor(line, k + 1), Token(op, None));
  }

  /** An operation spelled at the cursor is evaluated and its value
      printed; the loop goes on just after its spelling. */
  lemma OperationRuns(t: Table, p: Program, line: int, k: nat, printed: seq<int>, divide: (int, int) -> int,
                      op: string, a: Expr, b: Expr)
    requires line in p && SpelledAt(p[line], k, Apply(op, a, b)) && Fits(Apply(op, a, b), t, divide)
    ensures DraftRun(DState(t, p, Cursor(line, k), printed), divide)
         == DraftRun(DState(t, p, Cursor(line, k + Size(Apply(op, a, b))), printed + [ValueOf(Apply(op, a, b), t, divide)]), divide)
  {
    var c1 := Cursor(line, k + 1);
    assert Next(p, Cursor(line, k)) == Tok(c1, Token(op, None));
    OperationEvaluates(Draft, p, t, divide, op, a, b, line, k);
  }

  /** A literal or a variable at the top level is passed over. */
  lemma LeafRuns(t: Table, p: Program, line: int, k: nat, printed: seq<int>, divide: (int, int) -> int, e: Expr)
    requires line in p && k < |p[line]| && p[line][k] == Head(e) && !e.Apply?
    ensures DraftRun(DState(t, p, Cursor(line, k), printed), divide) == DraftRun(DState(t, p, Cursor(line, k + 1), printed), divide)
  {
    assert Next(p, Cursor(line, k)) == Tok(Cursor(line, k + 1), Head(e));
  }

  /** One expression spelled at the cursor: the loop goes on just after
      its spelling, having printed what `PrintedOne` says. */
  lemma RunsExpression(t: Table, p: Program, line: int, k: nat, printed: seq<int>, divide: (int, int) -> int, e: Expr)
    requires line in p && SpelledAt(p[line], k, e) && Fits(e, t, divide)
    ensures DraftRun(DState(t, p, Cursor(line, k), printed), divide)
         == DraftRun(DState(t, p, Cursor(line, k + Size(e)), printed + PrintedOne(e, t, divide)), divide)
  {
    if e.Apply? {
      OperationRuns(t, p, line, k, printed, divide, e.op, e.left, e.right);
    } else {
      LeafRuns(t, p, line, k, printed, divide, e);
      assert printed + PrintedOne(e, t, divide) == printed;
    }
  }

  /** `LOI` under the cursor ends the run just after it. */
  lemma StopsAtLoi(t: Table, p: Program, line: int, k: nat, printed: seq<int>, divide: (int, int) -> int)
    requires line in p && k < |p[line]| && p[line][k].name == "LOI"
    ensures DraftRun(DState(t, p, Cursor(line, k), printed), divide) == DFinished(DState(t, p, Cursor(line, k + 1), printed))
  {
    assert Next(p, Cursor(line, k)) == Tok(Cursor(line, k + 1), p[line][k]);
  }

  /** A line that spells the expressions `es` and then `LOI` prints the
      value of each top-level operation among them, in order, and ends
      normally just after `LOI`. */
  lemma {:induction false} PrintsTopLevel(t: Table, p: Program, line: int, k: nat, printed: seq<int>,
                                          divide: (int, int) -> int, es: seq<Expr>)
    requires line in p && SpelledToLoi(p[line], k, es) && AllFit(es, t, divide)
    ensures DraftRun(DState(t, p, Cursor(line, k), printed), divide)
         == DFinished(DState(t, p, Cursor(line, k + Length(es) + 1), printed + Printed(es, t, divide)))
    decreases |es|
  {
    if es == [] {
      StopsAtLoi(t, p, line, k, printed, divide);
    } else {
      var e := es[0];
      RunsExpression(t, p, line, k, printed, divide, e);
      PrintsTopLevel(t, p, line, k + Size(e), printed + PrintedOne(e, t, divide), divide, es[1..]);
      assert printed + PrintedOne(e, t, divide) + Printed(es[1..], t, divide) == printed + Printed(es, t, divide);
    }
  }

  /** `MOD` is no operator of the draft: it is passed over like any other
      token, and the expressions after it are read as top-level ones. */
  lemma ModPassedOver(t: Table, p: Program, line: int, k: nat, printed: seq<int>, divide: (int, int) -> int, es: seq<Expr>)
    requires line in p && k < |p[line]| && p[line][k] == Token("MOD", None)
    requires SpelledToLoi(p[line], k + 1, es) && AllFit(es, t, divide)
    ensures DraftRun(DState(t, p, Cursor(line, k), printed), divide)
         == DFinished(DState(t, p, Cursor(line, k + Length(es) + 2), printed + Printed(es, t, divide)))
  {
    assert Next(p, Cursor(line, k)) == Tok(Cursor(line, k + 1), Token("MOD", None));
    PrintsTopLevel(t, p, line, k + 1, printed, divide, es);
  }

  /** A program whose first line is `ADD x y LOI` prints `x + y`. */
  lemma AddLinePrintsSum(t: Table, p: Program, divide: (int, int) -> int, x: nat, y: nat)
    requires 1 in p
    requires p[1] == [Token("ADD", None), Token("INT_LIT", Some(NatToString(x))), Token("INT_LIT", Some(NatToString(y))), Token("LOI", None)]
    ensures DraftProcess([], p, t, divide) == DFinished(DState(t, p, Cursor(1, 4), [x + y]))
  {
    var e := Apply("ADD", Literal(x), Literal(y));
    assert [e][1..] == [];
    assert SpelledToLoi(p[1], 0, [e]) by {
      assert SpelledAt(p[1], 1, Literal(x)) && Size(Literal(x)) == 1;
      assert SpelledAt(p[1], 2, Literal(y));
      assert SpelledAt(p[1], 0, e);
    }
    assert Fits(Literal(x), t, divide) && Fits(Literal(y), t, divide);
    assert Fits(e, t, divide);
    assert AllFit([e], t, divide);
    assert Length([e]) == Size(e) == 3;
    assert ValueOf(Literal(x), t, divide) == x && ValueOf(Literal(y), t, divide) == y;
    assert ValueOf(e, t, divide) == x + y;
    assert Printed([e], t, divide) == PrintedOne(e, t, divide) == [x + y];
    PrintsTopLevel(t, p, 1, 0, [], divide, [e]);
  }

  /** A `DIV` whose divisor is a variable holding zero aborts the run with
      the exception naming the variable and the line; nothing is printed. */
  lemma ZeroDivisorAborts(t: Table, p: Program, line: int, k: nat, printed: seq<int>, divide: (int, int) -> int, x: nat, z: string)
    requires line in p && k + 3 <= |p[line]|
    requires p[line][k] == Token("DIV", None)
    requires p[line][k + 1] == Token("INT_LIT", Some(NatToString(x))) && p[line][k + 2] == Token("IDENT", Some(z))
    requires z in t && t[z] == Entry("INT", IntV(0))
    ensures DraftRun(DState(t, p, Cursor(line, k), printed), divide)
         == DAborted(DState(t, p, Cursor(line, k + 3), printed),
                     Raised("Error at line " + IntToString(line) + ": Division by zero in variable " + z))
  {
    assert Next(p, Cursor(line, k)) == Tok(Cursor(line, k + 1), Token("DIV", None));
    DivisionByZeroVariable(Draft, p, t, divide, line, k + 1, x, z);
  }

  // -------------------------------------------------------------------
  // The draft runtime object

  class DraftRuntime {
    var symbolTable: SymbolTable
    var tokens: Program
    var lineNumber: int
    var tokenIndex: nat
    /** What `print(result)` has written to standard output. */
    var printed: seq<int>
    /** The quotient `DIV` computes. */
    const divide: (int, int) -> int

    ghost function State(): DState
      reads this, symbolTable
    {
      DState(symbolTable.entries, tokens, Cursor(lineNumber, tokenIndex), printed)
    }

    constructor (divide: (int, int) -> int)
      ensures fresh(symbolTable) && symbolTable.Valid() && symbolTable.entries == map[]
      ensures State() == DState(map[], map[], Cursor(1, 0), []) && this.divide == divide
    {
      symbolTable := new SymbolTable();
      tokens := map[];
      lineNumber, tokenIndex := 1, 0;
      printed := [];
      this.divide := divide;
    }

    /** `_get_next_token`. */
    method GetNextToken() returns (tok: Token, exc: Option<Exc>)
      modifies this`lineNumber, this`tokenIndex
      ensures exc.None? ==> Next(tokens, old(Cursor(lineNumber, tokenIndex))) == Tok(Cursor(lineNumber, tokenIndex), tok)
      ensures exc.Some? ==> Next(tokens, old(Cursor(lineNumber, tokenIndex))) == NoLine(Cursor(lineNumber, tokenIndex)) && exc == Some(KeyError)
      decreases Ahead(tokens, lineNumber)
    {
      if lineNumber !in tokens {
        return Token("", None), Some(KeyError);
      }
      var commands := tokens[lineNumber];
      if tokenIndex >= |commands| {
        AheadShrinks(tokens, lineNumber, lineNumber + 1);
        lineNumber := lineNumber + 1;
        tokenIndex := 0;
        tok, exc := GetNextToken();
        return;
      }
      tokenIndex := tokenIndex + 1;
      return commands[tokenIndex - 1], None;
    }

    /** One operand of `_process_arithmetic_operator`. */
    method ReadOperand(first: bool) returns (tok: Token, operand: Operand, exc: Option<Exc>)
      modifies this`lineNumber, this`tokenIndex
      ensures EvalOperand(Draft, tokens, symbolTable.entries, divide, old(Cursor(lineNumber, tokenIndex)), first)
           == if exc.None? then Ok(Cursor(lineNumber, tokenIndex), Read(tok, operand))
              else Fail(Cursor(lineNumber, tokenIndex), [], exc.value)
      decreases Ahead(tokens, lineNumber), Within(tokens, Cursor(lineNumber, tokenIndex)), 1
    {
      var e;
      tok, e := GetNextToken();
      if e.Some? {
        return tok, Unbound, e;
      }
      if tok.name in Operators(Draft) {
        var result;
        result, exc := ProcessArithmeticOperator(tok.name);
        return tok, Bound(result), exc;
      }
      operand, exc := ReadAtom(tok, first);
    }

    /** The operand branches for an identifier or an integer literal; a
        token of any other kind leaves the operand unbound. */
    method ReadAtom(tok: Token, first: bool) returns (operand: Operand, exc: Option<Exc>)
      ensures Atom(Draft, symbolTable.entries, Cursor(lineNumber, tokenIndex), tok, first)
           == if exc.None? then Ok(Cursor(lineNumber, tokenIndex), Read(tok, operand))
              else Fail(Cursor(lineNumber, tokenIndex), [], exc.value)
    {
      if tok.name == "IDENT" {
        var entry := symbolTable.GetSymbol(tok.value);
        if entry.None? {
          return Unbound, Some(KeyError);
        }
        if entry.value.typ != "INT" {
          return Unbound, Some(Raised(NotIntegerRaised(Draft, first, PyStr(tok.value))));
        }
        var n := IntOfValue(entry.value.value);
        if n.NotInt? {
          return Unbound, Some(n.exc);
        }
        return Bound(Int(n.i)), None;
      } else if tok.name == "INT_LIT" {
        var n := IntOfLexeme(tok.value);
        if n.NotInt? {
          return Unbound, Some(n.exc);
        }
        return Bound(Int(n.i)), None;
      }
      return Unbound, None;
    }

    /** `_process_arithmetic_operator`. */
    method ProcessArithmeticOperator(op: string) returns (result: Num, exc: Option<Exc>)
      modifies this`lineNumber, this`tokenIndex
      ensures Eval(Draft, tokens, symbolTable.entries, divide, old(Cursor(lineNumber, tokenIndex)), op)
           == if exc.None? then Ok(Cursor(lineNumber, tokenIndex), result)
              else Fail(Cursor(lineNumber, tokenIndex), [], exc.value)
      decreases Ahead(tokens, lineNumber), Within(tokens, Cursor(lineNumber, tokenIndex)), 2
    {
      var tok1, op1, e1 := ReadOperand(true);
      if e1.Some? {
        return NoneNum, e1;
      }
      var tok2, op2, e2 := ReadOperand(false);
      if e2.Some? {
        return NoneNum, e2;
      }
      var r := Combine(Draft, op, Read(tok1, op1), Read(tok2, op2), Cursor(lineNumber, tokenIndex), divide);
      if r.Fail? {
        return NoneNum, Some(r.exc);
      }
      return r.val, None;
    }

    /** `process_input_code(tokens, symbol_table)`. */
    method ProcessInputCode(program: Program, table: SymbolTable) returns (exc: Option<Exc>)
      modifies this
      ensures symbolTable == table
      ensures DraftProcess(old(printed), program, old(table.entries), divide)
           == if exc.None? then DFinished(State()) else DAborted(State(), exc.value)
    {
      symbolTable := table;
      tokens := program;
      lineNumber, tokenIndex := 1, 0;
      var current, e := GetNextToken();
      if e.Some? {
        return e;
      }
      ghost var goal := DraftLoop(State(), current, divide);
      while current.name != "LOI"
        invariant symbolTable == table && tokens == program
        invariant Before(tokens, Cursor(lineNumber, tokenIndex), current) && DraftLoop(State(), current, divide) == goal
        decreases Ahead(tokens, lineNumber), Within(tokens, Cursor(lineNumber, tokenIndex))
      {
        if current.name in Operators(Draft) {
          var result, x := ProcessArithmeticOperator(current.name);
          if x.Some? {
            return x;
          }
          printed := printed + [result.i];
        }
        current, e := GetNextToken();
        if e.Some? {
          return e;
        }
      }
      return None;
    }
  }
}
