/** The run-time interpreter: a cursor over the line-numbered token
    dictionary, recursive prefix arithmetic, and the statement loop of
    `process_input_code`, which updates the symbol table in place, writes to
    a console and reads answers from an input dialog. The cursor and the
    arithmetic are shared with the draft interpreter of `test_runtime.py`;
    a `Dialect` says which of the two is evaluating. */
module Execution {
  import opened Py
  import opened Text
  import opened Tokens
  import opened Symbols

  /** The token dictionary: source line number -> the tokens of that line. */
  type Program = map<int, seq<Token>>

  /** The fields `line_number` and `token_index`. */
  datatype Cursor = Cursor(line: int, idx: nat)

  // -------------------------------------------------------------------
  // Progress: the cursor only moves forward through a finite dictionary

  function KeysFrom(p: Program, line: int): set<int> { set k | k in p && k >= line }

  /** How many lines of the dictionary are at or below the cursor's line. */
  function Ahead(p: Program, line: int): nat { |KeysFrom(p, line)| }

  /** How many tokens of the cursor's line are still unread. */
  function Within(p: Program, c: Cursor): nat {
    if c.line in p && c.idx <= |p[c.line]| then |p[c.line]| - c.idx else 0
  }

  /** Cursor `a` is strictly further on than cursor `b`. */
  predicate Past(p: Program, a: Cursor, b: Cursor) {
    Ahead(p, a.line) < Ahead(p, b.line) || (Ahead(p, a.line) == Ahead(p, b.line) && Within(p, a) < Within(p, b))
  }

  /** Cursor `a` is not behind cursor `b`. */
  predicate NotBehind(p: Program, a: Cursor, b: Cursor) {
    Ahead(p, a.line) < Ahead(p, b.line) || (Ahead(p, a.line) == Ahead(p, b.line) && Within(p, a) <= Within(p, b))
  }

  lemma SubsetCard<T>(a: set<T>, b: set<T>)
    requires a <= b
    ensures |a| <= |b|
  {
    assert b == a + (b - a);
  }

  /** Leaving a line of the dictionary leaves fewer lines ahead. */
  lemma AheadShrinks(p: Program, l: int, l2: int)
    requires l in p && l < l2
    ensures Ahead(p, l2) < Ahead(p, l)
  {
    assert KeysFrom(p, l2) <= KeysFrom(p, l) - {l};
    SubsetCard(KeysFrom(p, l2), KeysFrom(p, l) - {l});
  }

  // -------------------------------------------------------------------
  // The cursor

  /** What `_get_next_token` produced: the token and the cursor after it, or
      the cursor at a line number the dictionary lacks (KeyError). */
  datatype Fetched = Tok(cur: Cursor, token: Token) | NoLine(cur: Cursor)

  /** `_get_next_token`: the next token in line-major order. An exhausted
      line moves the cursor to index 0 of the next line number; empty lines
      are passed over the same way. */
  function Next(p: Program, c: Cursor): (r: Fetched)
    ensures c.line <= r.cur.line
    ensures r.cur.line == c.line && r.Tok? ==> r.cur.idx == c.idx + 1
    ensures r.cur.line == c.line && r.NoLine? ==> r.cur == c
    ensures r.cur.line > c.line ==> c.line in p && |p[c.line]| <= c.idx && r.cur.idx == (if r.Tok? then 1 else 0)
    ensures forall l :: c.line < l < r.cur.line ==> l in p && |p[l]| == 0
    ensures r.NoLine? ==> r.cur.line !in p
    ensures r.Tok? ==> r.cur.line in p && 0 < r.cur.idx <= |p[r.cur.line]| && r.token == p[r.cur.line][r.cur.idx - 1]
    ensures r.Tok? ==> Past(p, r.cur, c)
    ensures r.NoLine? ==> NotBehind(p, r.cur, c)
    decreases Ahead(p, c.line)
  {
    if c.line !in p then NoLine(c)
    else if c.idx < |p[c.line]| then Tok(Cursor(c.line, c.idx + 1), p[c.line][c.idx])
    else
      AheadShrinks(p, c.line, c.line + 1);
      Next(p, Cursor(c.line + 1, 0))
  }

  /** What `_peek_next_token` saw: the token under the cursor, or the
      exception the lookup raised. */
  datatype Peeked = Seen(token: Token) | Unseen(exc: Exc)

  /** `_peek_next_token`: the token under the cursor, on the cursor's own
      line only; the cursor does not move. */
  function Peek(p: Program, c: Cursor): (r: Peeked)
    ensures r.Seen? <==> c.line in p && c.idx < |p[c.line]|
    ensures r.Seen? ==> r.token == p[c.line][c.idx]
    ensures r.Unseen? ==> r.exc == (if c.line in p then IndexError else KeyError)
  {
    if c.line !in p then Unseen(KeyError)
    else if c.idx < |p[c.line]| then Seen(p[c.line][c.idx])
    else Unseen(IndexError)
  }

  // -------------------------------------------------------------------
  // Arithmetic

  /** `runtime.py` or `test_runtime.py`. */
  datatype Dialect = Release | Draft

  /** `arithmetic_operators`: the draft has no `MOD`. */
  function Operators(d: Dialect): seq<string> {
    if d == Release then ArithmeticOperators else ["ADD", "SUB", "MULT", "DIV"]
  }

  /** What `_process_arithmetic_operator` returns: an int, or the None it
      falls off its end with for an operator it has no branch for. */
  datatype Num = Int(i: int) | NoneNum

  /** An operand local (`op1_value`, `op2_value`): unbound when the operand
      token is of no kind the function handles. */
  datatype Operand = Unbound | Bound(n: Num)

  /** An operand token and the value it was read as. */
  datatype Read = Read(token: Token, operand: Operand)

  /** A result together with the cursor after it, or an exception with the
      cursor where it was raised and the messages appended to `errors` just
      before. */
  datatype Outcome<T> = Ok(cur: Cursor, val: T) | Fail(cur: Cursor, logged: seq<string>, exc: Exc)

  /** Python's `int(x)`: an int, or the exception it raises. */
  datatype Converted = IsInt(i: int) | NotInt(exc: Exc)

  /** `int(token["value"])`: None raises TypeError, malformed text ValueError. */
  function IntOfLexeme(v: Option<string>): (r: Converted)
    ensures r.NotInt? ==> r.exc == (if v.None? then TypeError else ValueError)
    ensures r.IsInt? <==> v.Some? && PyInt(v.value).Some?
    ensures r.IsInt? ==> PyInt(v.value) == Some(r.i)
  {
    if v.None? then NotInt(TypeError)
    else match PyInt(v.value)
      case None => NotInt(ValueError)
      case Some(i) => IsInt(i)
  }

  /** `int(entry["value"])` for a value stored in the symbol table. */
  function IntOfValue(v: Value): (r: Converted)
    ensures v.IntV? ==> r == IsInt(v.i)
    ensures v.NoneV? ==> r == NotInt(TypeError)
    ensures v.StrV? ==> r == IntOfLexeme(Some(v.s))
  {
    match v
    case IntV(i) => IsInt(i)
    case StrV(s) => IntOfLexeme(Some(s))
    case NoneV => NotInt(TypeError)
  }

  /** The prefix of the messages `runtime.py` appends to `errors`. */
  function OnLine(line: int): string { "Runtime error on line " + IntToString(line) + " | " }

  function NotIntegerLogged(line: int, name: string): string {
    OnLine(line) + "Operand " + name + " is not an integer"
  }

  /** The exception text for a non-INT operand; only the release's second
      operand uses a bar. */
  function NotIntegerRaised(d: Dialect, first: bool, name: string): string {
    if d == Release && !first then "Error | Operand " + name + " is not an integer"
    else "Error: Operand " + name + " is not an integer"
  }

  function ZeroVariable(d: Dialect, line: int, name: string): string {
    if d == Release then OnLine(line) + "Division by zero in variable " + name
    else "Error at line " + IntToString(line) + ": Division by zero in variable " + name
  }

  function ZeroLiteral(line: int, name: string): string {
    "Error at line " + IntToString(line) + ": Division by zero in integer literal " + name
  }

  /** An operand token other than an operator: a variable of type INT, an
      integer literal, or (unbound) anything else. */
  function Atom(d: Dialect, t: Table, c1: Cursor, tok: Token, first: bool): (r: Outcome<Read>)
    ensures r.cur == c1
    ensures r.Fail? ==> |r.logged| <= 1 && (d == Draft ==> r.logged == [])
    ensures r.Ok? ==> r.val.token == tok && r.val.operand != Bound(NoneNum)
  {
    if tok.name == "IDENT" then
      match Lookup(t, tok.value)
      case None => Fail(c1, [], KeyError)
      case Some(e) =>
        if e.typ != "INT" then
          var logged := if d == Release then [NotIntegerLogged(c1.line, PyStr(tok.value))] else [];
          Fail(c1, logged, Raised(NotIntegerRaised(d, first, PyStr(tok.value))))
        else
          match IntOfValue(e.value)
          case NotInt(x) => Fail(c1, [], x)
          case IsInt(i) => Ok(c1, Read(tok, Bound(Int(i))))
    else if tok.name == "INT_LIT" then
      match IntOfLexeme(tok.value)
      case NotInt(x) => Fail(c1, [], x)
      case IsInt(i) => Ok(c1, Read(tok, Bound(Int(i))))
    else Ok(c1, Read(tok, Unbound))
  }

  /** One operand of `_process_arithmetic_operator`: the next token, read
      by `OperandAt`. */
  function EvalOperand(d: Dialect, p: Program, t: Table, divide: (int, int) -> int, c: Cursor, first: bool): (r: Outcome<Read>)
    ensures r.Ok? ==> Past(p, r.cur, c)
    ensures r.Fail? ==> |r.logged| <= 1 && (d == Draft ==> r.logged == [])
    ensures r.Ok? && r.val.operand == Bound(NoneNum) ==> d == Release
    decreases Ahead(p, c.line), Within(p, c), 2
  {
    match Next(p, c)
    case NoLine(c1) => Fail(c1, [], KeyError)
    case Tok(c1, tok) => OperandAt(d, p, t, divide, c1, tok, first)
  }

  /** An operand token, the cursor just after it: an operator is evaluated
      as a nested operation, anything else read as an atom. No operator is
      named `IDENT` or `INT_LIT`, so testing for operators first keeps the
      order of the source's branches. */
  function OperandAt(d: Dialect, p: Program, t: Table, divide: (int, int) -> int, c1: Cursor, tok: Token, first: bool): (r: Outcome<Read>)
    ensures r.Ok? ==> NotBehind(p, r.cur, c1)
    ensures r.Fail? ==> |r.logged| <= 1 && (d == Draft ==> r.logged == [])
    ensures r.Ok? && r.val.operand == Bound(NoneNum) ==> d == Release
    ensures r.Ok? ==> r.val.token == tok
    decreases Ahead(p, c1.line), Within(p, c1), 4
  {
    if tok.name in Operators(d) then
      match Eval(d, p, t, divide, c1, tok.name)
      case Fail(c2, logged, x) => Fail(c2, logged, x)
      case Ok(c2, n) => Ok(c2, Read(tok, Bound(n)))
    else Atom(d, t, c1, tok, first)
  }

  /** `_process_arithmetic_operator(op)`, entered just after the operator
      token: two operands, then the operation. */
  function Eval(d: Dialect, p: Program, t: Table, divide: (int, int) -> int, c: Cursor, op: string): (r: Outcome<Num>)
    ensures r.Ok? ==> Past(p, r.cur, c)
    ensures r.Fail? ==> |r.logged| <= 1 && (d == Draft ==> r.logged == [])
    ensures r.Ok? && r.val.NoneNum? ==> op !in Operators(Draft)
    decreases Ahead(p, c.line), Within(p, c), 3
  {
    match EvalOperand(d, p, t, divide, c, true)
    case Fail(c1, logged, x) => Fail(c1, logged, x)
    case Ok(c1, a) =>
      match EvalOperand(d, p, t, divide, c1, false)
      case Fail(c2, logged, x) => Fail(c2, logged, x)
      case Ok(c2, b) => Combine(d, op, a, b, c2, divide)
  }

  /** The operation itself, in the order Python evaluates it: an unbound
      operand raises UnboundLocalError, a None operand TypeError. A zero
      divisor is checked before the dividend is read. */
  function Combine(d: Dialect, op: string, a: Read, b: Read, c: Cursor, divide: (int, int) -> int): (r: Outcome<Num>)
    ensures r.cur == c
    ensures r.Fail? ==> |r.logged| <= 1 && (d == Draft ==> r.logged == [])
    ensures r.Ok? && r.val.NoneNum? <==> op !in ["ADD", "SUB", "MULT", "DIV"]
  {
    if op == "ADD" || op == "SUB" || op == "MULT" then
      if a.operand.Unbound? || b.operand.Unbound? then Fail(c, [], UnboundLocalError)
      else if a.operand.n.NoneNum? || b.operand.n.NoneNum? then Fail(c, [], TypeError)
      else Ok(c, Int(Arith(op, a.operand.n.i, b.operand.n.i, divide)))
    else if op == "DIV" then
      if b.operand.Unbound? then Fail(c, [], UnboundLocalError)
      else if b.operand.n == Int(0) then
        var name := PyStr(b.token.value);
        if b.token.name == "IDENT" then
          var m := ZeroVariable(d, c.line, name);
          Fail(c, if d == Release then [m] else [], Raised(m))
        else if d == Release then Fail(c, [], AttributeError)
        else Fail(c, [], Raised(ZeroLiteral(c.line, name)))
      else if a.operand.Unbound? then Fail(c, [], UnboundLocalError)
      else if a.operand.n.NoneNum? || b.operand.n.NoneNum? then Fail(c, [], TypeError)
      else Ok(c, Int(Arith(op, a.operand.n.i, b.operand.n.i, divide)))
    else Ok(c, NoneNum)
  }

  /** Integer `+`, `-`, `*`, and the quotient `divide` stands for. */
  function Arith(op: string, x: int, y: int, divide: (int, int) -> int): int {
    if op == "ADD" then x + y
    else if op == "SUB" then x - y
    else if op == "MULT" then x * y
    else divide(x, y)
  }

  // -------------------------------------------------------------------
  // A reference semantics for prefix arithmetic

  /** An arithmetic expression, independent of any token stream. */
  datatype Expr = Literal(n: nat) | Variable(name: string) | Apply(op: string, left: Expr, right: Expr)

  /** The first token of an expression's prefix spelling. */
  function Head(e: Expr): Token {
    match e
    case Literal(n) => Token("INT_LIT", Some(NatToString(n)))
    case Variable(x) => Token("IDENT", Some(x))
    case Apply(op, _, _) => Token(op, None)
  }

  /** The number of tokens in an expression's prefix spelling. */
  function Size(e: Expr): nat {
    match e
    case Apply(_, a, b) => 1 + Size(a) + Size(b)
    case _ => 1
  }

  /** `ts` holds the prefix (Polish) spelling of `e` from index `k` on:
      the operator or atom of `e` at `k`, then the spelling of the left
      operand, then that of the right one. */
  predicate SpelledAt(ts: seq<Token>, k: nat, e: Expr)
    decreases e
  {
    k < |ts| && ts[k] == Head(e) &&
    match e
    case Apply(_, a, b) => SpelledAt(ts, k + 1, a) && SpelledAt(ts, k + 1 + Size(a), b)
    case _ => true
  }

  /** Every variable is an INT holding an int, every operator is one of
      the four the two dialects share, and no divisor is zero. */
  predicate Fits(e: Expr, t: Table, divide: (int, int) -> int) {
    match e
    case Literal(_) => true
    case Variable(x) => x in t && t[x].typ == "INT" && t[x].value.IntV?
    case Apply(op, a, b) =>
      op in ["ADD", "SUB", "MULT", "DIV"] && Fits(a, t, divide) && Fits(b, t, divide) &&
      (op == "DIV" ==> ValueOf(b, t, divide) != 0)
  }

  function ValueOf(e: Expr, t: Table, divide: (int, int) -> int): int {
    match e
    case Literal(n) => n
    case Variable(x) => if x in t && t[x].value.IntV? then t[x].value.i else 0
    case Apply(op, a, b) => Arith(op, ValueOf(a, t, divide), ValueOf(b, t, divide), divide)
  }

  /** An operand token that is not an operator is read as an atom. */
  lemma AtomOperand(d: Dialect, p: Program, t: Table, divide: (int, int) -> int, c: Cursor, first: bool)
    requires c.line in p && c.idx < |p[c.line]| && p[c.line][c.idx].name !in Operators(d)
    ensures EvalOperand(d, p, t, divide, c, first) == Atom(d, t, Cursor(c.line, c.idx + 1), p[c.line][c.idx], first)
  {
    var c1, tok := Cursor(c.line, c.idx + 1), p[c.line][c.idx];
    assert Next(p, c) == Tok(c1, tok);
    assert OperandAt(d, p, t, divide, c1, tok, first) == Atom(d, t, c1, tok, first);
  }

  /** The literal `str(n)` reads as `n`. */
  lemma LiteralAtom(d: Dialect, t: Table, c: Cursor, n: nat, first: bool)
    ensures Atom(d, t, c, Token("INT_LIT", Some(NatToString(n))), first) == Ok(c, Read(Token("INT_LIT", Some(NatToString(n))), Bound(Int(n))))
  {
    PyIntOfNatToString(n);
  }

  /** An operator token as an operand is evaluated as a nested operation. */
  lemma OperatorOperand(d: Dialect, p: Program, t: Table, divide: (int, int) -> int, c: Cursor, first: bool, c2: Cursor, n: Num)
    requires c.line in p && c.idx < |p[c.line]| && p[c.line][c.idx].name in Operators(d)
    requires Eval(d, p, t, divide, Cursor(c.line, c.idx + 1), p[c.line][c.idx].name) == Ok(c2, n)
    ensures EvalOperand(d, p, t, divide, c, first) == Ok(c2, Read(p[c.line][c.idx], Bound(n)))
  {
    var c1, tok := Cursor(c.line, c.idx + 1), p[c.line][c.idx];
    assert Next(p, c) == Tok(c1, tok);
    assert OperandAt(d, p, t, divide, c1, tok, first) == Ok(c2, Read(tok, Bound(n)));
  }

  /** When both operands are read, the operation decides the result. */
  lemma BothOperands(d: Dialect, p: Program, t: Table, divide: (int, int) -> int, c: Cursor, op: string,
                     c1: Cursor, a: Read, c2: Cursor, b: Read)
    requires EvalOperand(d, p, t, divide, c, true) == Ok(c1, a)
    requires EvalOperand(d, p, t, divide, c1, false) == Ok(c2, b)
    ensures Eval(d, p, t, divide, c, op) == Combine(d, op, a, b, c2, divide)
  {
  }

  /** Two int operands, the divisor of a `DIV` not zero, give the
      operator's result. */
  lemma EvalInts(d: Dialect, p: Program, t: Table, divide: (int, int) -> int, c: Cursor, op: string,
                 c1: Cursor, a: Read, c2: Cursor, b: Read, x: int, y: int)
    requires op in ["ADD", "SUB", "MULT", "DIV"]
    requires EvalOperand(d, p, t, divide, c, true) == Ok(c1, a)
    requires EvalOperand(d, p, t, divide, c1, false) == Ok(c2, b)
    requires a.operand == Bound(Int(x)) && b.operand == Bound(Int(y))
    requires op == "DIV" ==> y != 0
    ensures Eval(d, p, t, divide, c, op) == Ok(c2, Int(Arith(op, x, y, divide)))
  {
    BothOperands(d, p, t, divide, c, op, c1, a, c2, b);
  }

  /** A literal or a variable at `k` is read as one atom. */
  lemma LeafEvaluates(d: Dialect, p: Program, t: Table, divide: (int, int) -> int,
                      e: Expr, line: int, k: nat, first: bool)
    requires !e.Apply? && Fits(e, t, divide)
    requires line in p && k < |p[line]| && p[line][k] == Head(e)
    ensures EvalOperand(d, p, t, divide, Cursor(line, k), first)
         == Ok(Cursor(line, k + 1), Read(Head(e), Bound(Int(ValueOf(e, t, divide)))))
  {
    AtomOperand(d, p, t, divide, Cursor(line, k), first);
    if e.Literal? {
      LiteralAtom(d, t, Cursor(line, k + 1), e.n, first);
    }
  }

  /** An operator token followed by two int operands is read as one
      operand holding the operator's result. */
  lemma OperationOperand(d: Dialect, p: Program, t: Table, divide: (int, int) -> int, op: string,
                         line: int, k: nat, first: bool, c1: Cursor, a: Read, c2: Cursor, b: Read, x: int, y: int)
    requires line in p && k < |p[line]| && p[line][k] == Token(op, None) && op in ["ADD", "SUB", "MULT", "DIV"]
    requires EvalOperand(d, p, t, divide, Cursor(line, k + 1), true) == Ok(c1, a)
    requires EvalOperand(d, p, t, divide, c1, false) == Ok(c2, b)
    requires a.operand == Bound(Int(x)) && b.operand == Bound(Int(y))
    requires op == "DIV" ==> y != 0
    ensures EvalOperand(d, p, t, divide, Cursor(line, k), first) == Ok(c2, Read(Token(op, None), Bound(Int(Arith(op, x, y, divide)))))
  {
    EvalInts(d, p, t, divide, Cursor(line, k + 1), op, c1, a, c2, b, x, y);
    OperatorOperand(d, p, t, divide, Cursor(line, k), first, c2, Int(Arith(op, x, y, divide)));
  }

  /** `SpelledEvaluates` for an operation. */
  lemma {:induction false} ApplyEvaluates(d: Dialect, p: Program, t: Table, divide: (int, int) -> int,
                                          op: string, a: Expr, b: Expr, line: int, k: nat, first: bool)
    requires line in p && SpelledAt(p[line], k, Apply(op, a, b)) && Fits(Apply(op, a, b), t, divide)
    ensures EvalOperand(d, p, t, divide, Cursor(line, k), first)
         == Ok(Cursor(line, k + 1 + Size(a) + Size(b)), Read(Token(op, None), Bound(Int(ValueOf(Apply(op, a, b), t, divide)))))
    decreases Apply(op, a, b), 0
  {
    var x, y := ValueOf(a, t, divide), ValueOf(b, t, divide);
    SpelledEvaluates(d, p, t, divide, a, line, k + 1, true);
    SpelledEvaluates(d, p, t, divide, b, line, k + 1 + Size(a), false);
    OperationOperand(d, p, t, divide, op, line, k, first,
                     Cursor(line, k + 1 + Size(a)), Read(Head(a), Bound(Int(x))),
                     Cursor(line, k + 1 + Size(a) + Size(b)), Read(Head(b), Bound(Int(y))), x, y);
  }

  /** An expression spelled from token `k` of a line is read as one operand
      that consumes exactly its spelling and yields its value, in both
      dialects. */
  lemma {:induction false} SpelledEvaluates(d: Dialect, p: Program, t: Table, divide: (int, int) -> int,
                                            e: Expr, line: int, k: nat, first: bool)
    requires line in p && SpelledAt(p[line], k, e) && Fits(e, t, divide)
    ensures EvalOperand(d, p, t, divide, Cursor(line, k), first)
         == Ok(Cursor(line, k + Size(e)), Read(Head(e), Bound(Int(ValueOf(e, t, divide)))))
    decreases e, 1
  {
    match e
    case Apply(op, a, b) =>
      ApplyEvaluates(d, p, t, divide, op, a, b, line, k, first);
    case _ =>
      LeafEvaluates(d, p, t, divide, e, line, k, first);
  }

  /** `DIV` by a variable holding zero names the variable; the release
      also appends the message to `errors`. */
  lemma DivisionByZeroVariable(d: Dialect, p: Program, t: Table, divide: (int, int) -> int, line: int, k: nat, x: nat, z: string)
    requires line in p && k + 2 <= |p[line]|
    requires p[line][k] == Token("INT_LIT", Some(NatToString(x))) && p[line][k + 1] == Token("IDENT", Some(z))
    requires z in t && t[z] == Entry("INT", IntV(0))
    ensures Eval(d, p, t, divide, Cursor(line, k), "DIV")
         == Fail(Cursor(line, k + 2), if d == Release then [ZeroVariable(d, line, z)] else [], Raised(ZeroVariable(d, line, z)))
  {
    AtomOperand(d, p, t, divide, Cursor(line, k), true);
    LiteralAtom(d, t, Cursor(line, k + 1), x, true);
    AtomOperand(d, p, t, divide, Cursor(line, k + 1), false);
    BothOperands(d, p, t, divide, Cursor(line, k), "DIV",
                 Cursor(line, k + 1), Read(p[line][k], Bound(Int(x))), Cursor(line, k + 2), Read(p[line][k + 1], Bound(Int(0))));
  }

  /** In the release, `DIV` by a zero literal reaches the misspelt
      `self. error_message` and raises AttributeError, logging nothing;
      the draft raises an exception naming the literal. */
  lemma DivisionByZeroLiteral(d: Dialect, p: Program, t: Table, divide: (int, int) -> int, line: int, k: nat, x: nat)
    requires line in p && k + 2 <= |p[line]|
    requires p[line][k] == Token("INT_LIT", Some(NatToString(x))) && p[line][k + 1] == Token("INT_LIT", Some("0"))
    ensures Eval(d, p, t, divide, Cursor(line, k), "DIV")
         == Fail(Cursor(line, k + 2), [], if d == Release then AttributeError else Raised(ZeroLiteral(line, "0")))
  {
    AtomOperand(d, p, t, divide, Cursor(line, k), true);
    LiteralAtom(d, t, Cursor(line, k + 1), x, true);
    AtomOperand(d, p, t, divide, Cursor(line, k + 1), false);
    assert NatToString(0) == "0";
    LiteralAtom(d, t, Cursor(line, k + 2), 0, false);
    BothOperands(d, p, t, divide, Cursor(line, k), "DIV",
                 Cursor(line, k + 1), Read(p[line][k], Bound(Int(x))), Cursor(line, k + 2), Read(p[line][k + 1], Bound(Int(0))));
  }

  /** A variable whose type is not INT used as an operand is reported by
      name; the release logs the message before raising. */
  lemma NonIntegerOperandReported(d: Dialect, p: Program, t: Table, divide: (int, int) -> int, c: Cursor, z: string, first: bool)
    requires c.line in p && c.idx < |p[c.line]| && p[c.line][c.idx] == Token("IDENT", Some(z))
    requires z in t && t[z].typ != "INT"
    ensures EvalOperand(d, p, t, divide, c, first)
         == Fail(Cursor(c.line, c.idx + 1), if d == Release then [NotIntegerLogged(c.line, z)] else [],
                 Raised(NotIntegerRaised(d, first, z)))
  {
    AtomOperand(d, p, t, divide, c, first);
  }

  /** `MOD` is an operator of the release with no branch of its own: it
      reads both operands and yields None. */
  lemma ModYieldsNone(p: Program, t: Table, divide: (int, int) -> int, line: int, k: nat, x: nat, y: nat)
    requires line in p && k + 2 <= |p[line]|
    requires p[line][k] == Token("INT_LIT", Some(NatToString(x))) && p[line][k + 1] == Token("INT_LIT", Some(NatToString(y)))
    ensures Eval(Release, p, t, divide, Cursor(line, k), "MOD") == Ok(Cursor(line, k + 2), NoneNum)
  {
    AtomOperand(Release, p, t, divide, Cursor(line, k), true);
    LiteralAtom(Release, t, Cursor(line, k + 1), x, true);
    AtomOperand(Release, p, t, divide, Cursor(line, k + 1), false);
    LiteralAtom(Release, t, Cursor(line, k + 2), y, false);
    BothOperands(Release, p, t, divide, Cursor(line, k), "MOD",
                 Cursor(line, k + 1), Read(p[line][k], Bound(Int(x))), Cursor(line, k + 2), Read(p[line][k + 1], Bound(Int(y))));
  }

  // -------------------------------------------------------------------
  // Statements of the release interpreter

  /** The fields of `Runtime` the statement loop reads and writes. The
      console holds one string per `insert`; `answers` are the replies the
      input dialog will give, in order. */
  datatype RtState = RtState(
    table: Table,
    program: Program,
    cur: Cursor,
    errors: seq<string>,
    console: seq<string>,
    answers: seq<Option<string>>)

  /** How a statement ended: on to the next token, `break` out of the loop,
      or an exception. */
  datatype Stmt = Continue(st: RtState) | Break(st: RtState) | Crash(st: RtState, exc: Exc)

  /** The same variables with the same types. */
  predicate SameTypes(a: Table, b: Table) {
    a.Keys == b.Keys && forall n :: n in a ==> b[n].typ == a[n].typ
  }

  /** `update_symbol(name, v)` at cursor `c`. */
  function Store(s: RtState, c: Cursor, name: Option<string>, v: Value): (r: Stmt)
    ensures r.Continue? || r == Crash(s.(cur := c), KeyError)
    ensures r.st.errors == s.errors && r.st.console == s.console && r.st.cur == c && SameTypes(s.table, r.st.table)
    ensures r.st.program == s.program && r.st.answers == s.answers
  {
    match Update(s.table, name, v)
    case None => Crash(s.(cur := c), KeyError)
    case Some(t) => Continue(s.(cur := c, table := t))
  }

  /** How the Tk console shows a stored value; None is refused. */
  function Displayed(v: Value): Option<string> {
    match v
    case IntV(i) => Some(IntToString(i))
    case StrV(x) => Some(x)
    case NoneV => None
  }

  /** Insert `text` into the console, or fail as Tk does without text. */
  function Insert(s: RtState, text: Option<string>): (r: Stmt)
    ensures r.Continue? || r == Crash(s, TclError)
    ensures r.Continue? ==> text.Some? && r.st == s.(console := s.console + [text.value])
  {
    if text.None? then Crash(s, TclError) else Continue(s.(console := s.console + [text.value]))
  }

  function NumValue(n: Num): Value { if n.Int? then IntV(n.i) else NoneV }

  /** `_process_print`: the next token is fetched, then printed. */
  function PrintStmt(s: RtState, divide: (int, int) -> int): (r: Stmt)
    ensures r.st.program == s.program && r.st.table == s.table && r.st.answers == s.answers
    ensures s.errors <= r.st.errors && (r.Continue? ==> r.st.errors == s.errors) && !r.Break?
    ensures s.console <= r.st.console && |r.st.console| <= |s.console| + 1
    ensures r.Continue? ==> Past(s.program, r.st.cur, s.cur)
  {
    match Next(s.program, s.cur)
    case NoLine(c) => Crash(s.(cur := c), KeyError)
    case Tok(c, tok) => PrintToken(s.(cur := c), tok, divide)
  }

  /** The printing part of `_process_print` for the token `tok` just
      fetched: a variable's value, a literal's text or an operation's
      result is inserted; anything else prints nothing. */
  function PrintToken(s: RtState, tok: Token, divide: (int, int) -> int): (r: Stmt)
    ensures r.st.program == s.program && r.st.table == s.table && r.st.answers == s.answers
    ensures s.errors <= r.st.errors && (r.Continue? ==> r.st.errors == s.errors) && !r.Break?
    ensures s.console <= r.st.console && |r.st.console| <= |s.console| + 1
    ensures r.Continue? ==> NotBehind(s.program, r.st.cur, s.cur)
  {
    if tok.name == "IDENT" then
      match Lookup(s.table, tok.value)
      case None => Crash(s, KeyError)
      case Some(e) => Insert(s, Displayed(e.value))
    else if tok.name == "INT_LIT" then Insert(s, tok.value)
    else if tok.name in Operators(Release) then
      match Eval(Release, s.program, s.table, divide, s.cur, tok.name)
      case Fail(c2, logged, x) => Crash(s.(cur := c2, errors := s.errors + logged), x)
      case Ok(c2, n) => Insert(s.(cur := c2), if n.Int? then Some(IntToString(n.i)) else None)
    else Continue(s)
  }

  /** `INTO v IS x`: three tokens are fetched, then `v` is assigned. */
  function IntoStmt(s: RtState, divide: (int, int) -> int): (r: Stmt)
    ensures r.st.program == s.program && r.st.console == s.console && r.st.answers == s.answers
    ensures SameTypes(s.table, r.st.table) && s.errors <= r.st.errors
    ensures r.Continue? ==> r.st.errors == s.errors && Past(s.program, r.st.cur, s.cur)
    ensures !r.Break?
  {
    match Next(s.program, s.cur)
    case NoLine(c) => Crash(s.(cur := c), KeyError)
    case Tok(c1, v) =>
      match Next(s.program, c1)
      case NoLine(c) => Crash(s.(cur := c), KeyError)
      case Tok(c2, _) =>
        match Next(s.program, c2)
        case NoLine(c) => Crash(s.(cur := c), KeyError)
        case Tok(c3, val) => IntoValue(s.(cur := c3), v, val, divide)
  }

  /** The assignment of `INTO v IS x` for the fetched tokens `v` and `x`:
      `v` takes the literal, the variable's value or the operation's
      result. No type is checked. */
  function IntoValue(s: RtState, v: Token, val: Token, divide: (int, int) -> int): (r: Stmt)
    ensures r.st.program == s.program && r.st.console == s.console && r.st.answers == s.answers
    ensures SameTypes(s.table, r.st.table) && s.errors <= r.st.errors
    ensures r.Continue? ==> r.st.errors == s.errors && NotBehind(s.program, r.st.cur, s.cur)
    ensures !r.Break?
  {
    if val.name == "INT_LIT" then
      match IntOfLexeme(val.value)
      case NotInt(x) => Crash(s, x)
      case IsInt(i) => Store(s, s.cur, v.value, IntV(i))
    else if val.name == "IDENT" then
      match Lookup(s.table, val.value)
      case None => Crash(s, KeyError)
      case Some(e) =>
        match IntOfValue(e.value)
        case NotInt(x) => Crash(s, x)
        case IsInt(i) => Store(s, s.cur, v.value, IntV(i))
    else if val.name in Operators(Release) then
      match Eval(Release, s.program, s.table, divide, s.cur, val.name)
      case Fail(c4, logged, x) => Crash(s.(cur := c4, errors := s.errors + logged), x)
      case Ok(c4, n) => Store(s, c4, v.value, NumValue(n))
    else Continue(s)
  }

  function StoreMessage(v: Token): string {
    "Error: Cannot store fSTR type into variable f" + v.name
  }

  /** `INT v [IS x]`: the value is stored only when the token after `v`
      on the same line is `IS`. */
  function DeclareStmt(s: RtState): (r: Stmt)
    ensures r.st.program == s.program && r.st.console == s.console && r.st.answers == s.answers
    ensures SameTypes(s.table, r.st.table) && s.errors <= r.st.errors
    ensures r.Continue? ==> r.st.errors == s.errors && Past(s.program, r.st.cur, s.cur)
    ensures !r.Break?
  {
    match Next(s.program, s.cur)
    case NoLine(c) => Crash(s.(cur := c), KeyError)
    case Tok(c1, v) =>
      var s1 := s.(cur := c1);
      match Peek(s.program, c1)
      case Unseen(x) => Crash(s1, x)
      case Seen(next) =>
        if next.name != "IS" then Continue(s1)
        else
          match Next(s.program, c1)
          case NoLine(c) => Crash(s.(cur := c), KeyError)
          case Tok(c2, _) =>
            match Next(s.program, c2)
            case NoLine(c) => Crash(s.(cur := c), KeyError)
            case Tok(c3, val) => DeclareValue(s.(cur := c3), v, val)
  }

  /** The initialisation of `INT v IS x` for the fetched tokens: a literal,
      or a variable that is not a STR. */
  function DeclareValue(s: RtState, v: Token, val: Token): (r: Stmt)
    ensures r.st.program == s.program && r.st.console == s.console && r.st.answers == s.answers
    ensures SameTypes(s.table, r.st.table) && s.errors <= r.st.errors
    ensures r.Continue? ==> r.st.errors == s.errors && r.st.cur == s.cur
    ensures !r.Break?
  {
    if val.name == "INT_LIT" then
      match IntOfLexeme(val.value)
      case NotInt(x) => Crash(s, x)
      case IsInt(i) => Store(s, s.cur, v.value, IntV(i))
    else if val.name == "IDENT" then
      match Lookup(s.table, val.value)
      case None => Crash(s, KeyError)
      case Some(e) =>
        if e.typ == "STR" then
          Crash(s.(errors := s.errors + [StoreMessage(v)]), Raised(StoreMessage(v)))
        else
          match IntOfValue(e.value)
          case NotInt(x) => Crash(s, x)
          case IsInt(i) => Store(s, s.cur, v.value, IntV(i))
    else Continue(s)
  }

  /** The dialog's reply: the next answer, where an exhausted supply and a
      cancelled dialog both read as None. */
  function Reply(answers: seq<Option<string>>): Option<string> {
    if |answers| > 0 then answers[0] else None
  }

  function Rest(answers: seq<Option<string>>): seq<Option<string>> {
    if |answers| > 0 then answers[1..] else []
  }

  /** `BEG v`: the variable is fetched and looked up, then read. */
  function InputStmt(s: RtState): (r: Stmt)
    ensures r.st.program == s.program && SameTypes(s.table, r.st.table) && s.console <= r.st.console
    ensures r.Continue? ==> r.st.errors == s.errors && Past(s.program, r.st.cur, s.cur)
    ensures r.Break? ==> |r.st.errors| == |s.errors| + 1 && s.errors <= r.st.errors
    ensures r.Crash? ==> r.st.errors == s.errors
  {
    match Next(s.program, s.cur)
    case NoLine(c) => Crash(s.(cur := c), KeyError)
    case Tok(c1, v) =>
      match Lookup(s.table, v.value)
      case None => Crash(s.(cur := c1), KeyError)
      case Some(e) => InputValue(s.(cur := c1), v.value.value, e.typ)
  }

  /** Reading `BEG name` for a variable of type `typ`: prompt, ask, then
      store the reply if it suits the type; an INT takes only digits, a STR
      anything that is not all digits, and a mismatch ends the loop. */
  function InputValue(s: RtState, name: string, typ: string): (r: Stmt)
    requires name in s.table
    ensures r.st.program == s.program && SameTypes(s.table, r.st.table) && s.console <= r.st.console
    ensures r.Continue? ==> r.st.errors == s.errors && r.st.cur == s.cur
    ensures r.Break? ==> |r.st.errors| == |s.errors| + 1 && s.errors <= r.st.errors
    ensures r.Crash? ==> r.st.errors == s.errors
  {
    var answer := Reply(s.answers);
    var text := if answer.None? then "" else answer.value;
    var s2 := s.(console := s.console + ["Input for " + name + ": "], answers := Rest(s.answers));
    if typ == "INT" then
      if !AllDigits(text) then
        Break(s2.(errors := s.errors + [OnLine(s.cur.line) + "Expected an integer for variable " + name]))
      else
        match IntOfLexeme(Some(text))
        case NotInt(x) => Crash(s2, x)
        case IsInt(i) => Echo(Store(s2, s.cur, Some(name), IntV(i)), text)
    else if typ == "STR" then
      if AllDigits(text) then
        Break(s2.(errors := s.errors + [OnLine(s.cur.line) + "Expected a string for variable " + name]))
      else Echo(Store(s2, s.cur, Some(name), StrV(text)), text)
    else Continue(s2)
  }

  /** After a successful store, the reply is echoed on a line of its own. */
  function Echo(r: Stmt, text: string): Stmt {
    if r.Continue? then Continue(r.st.(console := r.st.console + [text + "\n"])) else r
  }

  /** One pass of the body of the loop of `process_input_code` for the
      token just read; an operation at the top level is evaluated and its
      result dropped, and any other token is passed over. */
  function Statement(s: RtState, tok: Token, divide: (int, int) -> int): (r: Stmt)
    ensures r.st.program == s.program && SameTypes(s.table, r.st.table) && s.console <= r.st.console
    ensures s.errors <= r.st.errors
    ensures r.Continue? ==> r.st.errors == s.errors && NotBehind(s.program, r.st.cur, s.cur)
    ensures r.Break? ==> |r.st.errors| == |s.errors| + 1
  {
    if tok.name in Operators(Release) then
      match Eval(Release, s.program, s.table, divide, s.cur, tok.name)
      case Fail(c, logged, x) => Crash(s.(cur := c, errors := s.errors + logged), x)
      case Ok(c, _) => Continue(s.(cur := c))
    else if tok.name == "PRINT" then PrintStmt(s, divide)
    else if tok.name == "NEWLN" then Continue(s.(console := s.console + ["\n"]))
    else if tok.name == "INTO" then IntoStmt(s, divide)
    else if tok.name == "INT" then DeclareStmt(s)
    else if tok.name == "BEG" then InputStmt(s)
    else Continue(s)
  }

  /** How `process_input_code` ended: normally, or by an exception that
      leaves the object as it was at the raise. */
  datatype Final = Finished(st: RtState) | Aborted(st: RtState, exc: Exc)

  /** `tok` is the token just before the cursor. */
  predicate JustRead(s: RtState, tok: Token) {
    s.cur.line in s.program && 0 < s.cur.idx <= |s.program[s.cur.line]| && s.program[s.cur.line][s.cur.idx - 1] == tok
  }

  /** The `while` loop of `process_input_code`, with `tok` the current
      token: it stops at `LOI`, at a `break`, or as soon as `errors` is not
      empty, and ends on `LOI` whenever it ends with no error. */
  function Loop(s: RtState, tok: Token, divide: (int, int) -> int): (r: Final)
    requires JustRead(s, tok)
    ensures r.st.program == s.program && SameTypes(s.table, r.st.table)
    ensures s.errors <= r.st.errors && s.console <= r.st.console
    ensures r.Finished? && r.st.errors == [] ==> exists t :: JustRead(r.st, t) && t.name == "LOI"
    decreases Ahead(s.program, s.cur.line), Within(s.program, s.cur)
  {
    if tok.name == "LOI" || |s.errors| > 0 then Finished(s)
    else
      match Statement(s, tok, divide)
      case Crash(s1, x) => Aborted(s1, x)
      case Break(s1) => Finished(s1)
      case Continue(s1) =>
        match Next(s1.program, s1.cur)
        case NoLine(c) => Aborted(s1.(cur := c), KeyError)
        case Tok(c, t) => Loop(s1.(cur := c), t, divide)
  }

  /** One turn of the loop: a statement that continues is followed by the
      next token. */
  lemma LoopStep(s: RtState, s1: RtState, tok: Token, divide: (int, int) -> int)
    requires JustRead(s, tok) && tok.name != "LOI" && s.errors == []
    requires Statement(s, tok, divide) == Continue(s1)
    ensures Loop(s, tok, divide) == match Next(s1.program, s1.cur)
      case NoLine(c) => Aborted(s1.(cur := c), KeyError)
      case Tok(c, t) => Loop(s1.(cur := c), t, divide)
  {
  }

  /** The closing console lines: the error banner and each error on a
      line of its own, or the success line. */
  function Banner(errors: seq<string>): (lines: seq<string>)
    ensures |lines| == (if errors == [] then 1 else 1 + |errors|)
  {
    if errors == [] then ["\n\nProgram terminated successfully..."]
    else ["\n\nProgram terminated due to encountered error:\n"] + Lined(errors)
  }

  function Lined(errors: seq<string>): (lines: seq<string>)
    ensures |lines| == |errors|
    ensures forall k :: 0 <= k < |errors| ==> lines[k] == errors[k] + "\n"
  {
    if errors == [] then [] else Lined(errors[..|errors| - 1]) + [errors[|errors| - 1] + "\n"]
  }

  /** `process_input_code(tokens, symbol_table)` on a runtime whose
      `errors`, console and dialog replies are those given: the cursor
      restarts at line 1, and a run that is not aborted ends with the
      banner. */
  function Process(errors: seq<string>, console: seq<string>, answers: seq<Option<string>>,
                   p: Program, t: Table, divide: (int, int) -> int): (r: Final)
    ensures r.st.program == p && SameTypes(t, r.st.table) && errors <= r.st.errors && console <= r.st.console
    ensures r.Finished? ==> exists before :: r.st.console == before + Banner(r.st.errors)
  {
    var s := RtState(t, p, Cursor(1, 0), errors, console, answers);
    match Next(p, s.cur)
    case NoLine(c) => Aborted(s.(cur := c), KeyError)
    case Tok(c, tok) =>
      match Loop(s.(cur := c), tok, divide)
      case Aborted(s1, x) => Aborted(s1, x)
      case Finished(s1) => Finished(s1.(console := s1.console + Banner(s1.errors)))
  }

  // -------------------------------------------------------------------
  // Properties of the release interpreter

  /** `errors` is never cleared: a runtime that recorded an error in an
      earlier run executes nothing and prints the old errors again. */
  lemma EarlierErrorsStopEverything(errors: seq<string>, console: seq<string>, answers: seq<Option<string>>,
                                    p: Program, t: Table, divide: (int, int) -> int)
    requires errors != [] && 1 in p && |p[1]| > 0
    ensures Process(errors, console, answers, p, t, divide)
         == Finished(RtState(t, p, Cursor(1, 1), errors, console + Banner(errors), answers))
  {
  }

  /** A successful run ends on `LOI` and the console ends with the success
      line; otherwise it ends with the error banner. */
  lemma SuccessEndsOnLoi(errors: seq<string>, console: seq<string>, answers: seq<Option<string>>,
                         p: Program, t: Table, divide: (int, int) -> int)
    requires Process(errors, console, answers, p, t, divide).Finished?
    ensures var s := Process(errors, console, answers, p, t, divide).st;
      if s.errors == [] then
        s.console[|s.console| - 1] == "\n\nProgram terminated successfully..." &&
        exists tok :: JustRead(s.(console := console), tok) && tok.name == "LOI"
      else s.console[|s.console| - |s.errors| - 1] == "\n\nProgram terminated due to encountered error:\n"
  {
    var s0 := RtState(t, p, Cursor(1, 0), errors, console, answers);
    var f := Next(p, s0.cur);
    var l := Loop(s0.(cur := f.cur), f.token, divide);
    var s := Process(errors, console, answers, p, t, divide).st;
    assert s == l.st.(console := l.st.console + Banner(l.st.errors));
    if s.errors == [] {
      var tok :| JustRead(l.st, tok) && tok.name == "LOI";
      assert JustRead(s.(console := console), tok);
    }
  }

  /** `INT v` as the last token of its line: the peek indexes past the end
      of the line and raises IndexError, although `INT v` alone is a
      complete declaration. */
  lemma DeclarationAtEndOfLineRaises(s: RtState, z: string)
    requires s.cur.line in s.program && s.program[s.cur.line] == [Token("INT", None), Token("IDENT", Some(z))]
    requires s.cur.idx == 1
    ensures Statement(s, Token("INT", None), (x, y) => 0) == Crash(s.(cur := Cursor(s.cur.line, 2)), IndexError)
  {
    assert Next(s.program, s.cur) == Tok(Cursor(s.cur.line, 2), Token("IDENT", Some(z)));
  }

  /** `BEG v` with an INT variable and the reply `str(n)` for a natural
      `n` stores `n` and echoes the reply. */
  lemma InputStoresNumber(s: RtState, z: string, n: nat)
    requires s.cur.line in s.program && s.cur.idx < |s.program[s.cur.line]|
    requires s.program[s.cur.line][s.cur.idx] == Token("IDENT", Some(z))
    requires z in s.table && s.table[z].typ == "INT"
    requires |s.answers| > 0 && s.answers[0] == Some(IntToString(n))
    ensures InputStmt(s) == Continue(s.(cur := Cursor(s.cur.line, s.cur.idx + 1),
                                        table := s.table[z := Entry("INT", IntV(n))],
                                        console := s.console + ["Input for " + z + ": ", IntToString(n) + "\n"],
                                        answers := s.answers[1..]))
  {
    assert Next(s.program, s.cur) == Tok(Cursor(s.cur.line, s.cur.idx + 1), Token("IDENT", Some(z)));
    PyIntOfIntToString(n);
    DecimalValueOfNatToString(n);
  }

  /** A cancelled dialog reads as the empty reply, which an INT variable
      rejects with an error that ends the loop; the table is unchanged. */
  lemma CancelledInputRejected(s: RtState, z: string)
    requires s.cur.line in s.program && s.cur.idx < |s.program[s.cur.line]|
    requires s.program[s.cur.line][s.cur.idx] == Token("IDENT", Some(z))
    requires z in s.table && s.table[z].typ == "INT"
    requires Reply(s.answers) == None
    ensures InputStmt(s) == Break(s.(cur := Cursor(s.cur.line, s.cur.idx + 1),
                                     errors := s.errors + [OnLine(s.cur.line) + "Expected an integer for variable " + z],
                                     console := s.console + ["Input for " + z + ": "],
                                     answers := Rest(s.answers)))
  {
    assert Next(s.program, s.cur) == Tok(Cursor(s.cur.line, s.cur.idx + 1), Token("IDENT", Some(z)));
  }

  /** A STR variable rejects a reply made only of digits. */
  lemma DigitsRejectedForString(s: RtState, z: string, text: string)
    requires s.cur.line in s.program && s.cur.idx < |s.program[s.cur.line]|
    requires s.program[s.cur.line][s.cur.idx] == Token("IDENT", Some(z))
    requires z in s.table && s.table[z].typ == "STR"
    requires |s.answers| > 0 && s.answers[0] == Some(text) && AllDigits(text)
    ensures InputStmt(s).Break? && InputStmt(s).st.table == s.table
    ensures InputStmt(s).st.errors == s.errors + [OnLine(s.cur.line) + "Expected a string for variable " + z]
  {
    assert Next(s.program, s.cur) == Tok(Cursor(s.cur.line, s.cur.idx + 1), Token("IDENT", Some(z)));
  }

  /** `INTO v IS e` for an expression `e` spelled in prefix form stores
      the value of `e` in `v` and changes no other variable. */
  lemma IntoStoresValue(s: RtState, divide: (int, int) -> int, z: string, e: Expr)
    requires s.cur.line in s.program && e.Apply?
    requires var ts := s.program[s.cur.line];
      s.cur.idx + 2 < |ts| &&
      ts[s.cur.idx] == Token("IDENT", Some(z)) && ts[s.cur.idx + 1].name == "IS" &&
      SpelledAt(ts, s.cur.idx + 2, e)
    requires z in s.table && Fits(e, s.table, divide)
    ensures IntoStmt(s, divide) == Continue(s.(cur := Cursor(s.cur.line, s.cur.idx + 2 + Size(e)),
                                               table := s.table[z := Entry(s.table[z].typ, IntV(ValueOf(e, s.table, divide)))]))
  {
    var line, k := s.cur.line, s.cur.idx;
    var ts := s.program[line];
    assert Next(s.program, s.cur) == Tok(Cursor(line, k + 1), ts[k]);
    assert Next(s.program, Cursor(line, k + 1)) == Tok(Cursor(line, k + 2), ts[k + 1]);
    SpelledEvaluates(Release, s.program, s.table, divide, e, line, k + 2, true);
    var op := e.op;
    assert Next(s.program, Cursor(line, k + 2)) == Tok(Cursor(line, k + 3), Token(op, None));
    assert EvalOperand(Release, s.program, s.table, divide, Cursor(line, k + 2), true)
        == Ok(Cursor(line, k + 2 + Size(e)), Read(Token(op, None), Bound(Int(ValueOf(e, s.table, divide)))));
  }

  /** `PRINT v` inserts the value of the variable `v` as the console shows
      it; a variable holding None makes Tk raise TclError. */
  lemma PrintsVariable(s: RtState, divide: (int, int) -> int, z: string)
    requires s.cur.line in s.program && s.cur.idx < |s.program[s.cur.line]|
    requires s.program[s.cur.line][s.cur.idx] == Token("IDENT", Some(z)) && z in s.table
    ensures var s1 := s.(cur := Cursor(s.cur.line, s.cur.idx + 1));
      PrintStmt(s, divide) == match s.table[z].value
        case IntV(i) => Continue(s1.(console := s.console + [IntToString(i)]))
        case StrV(x) => Continue(s1.(console := s.console + [x]))
        case NoneV => Crash(s1, TclError)
  {
    assert Next(s.program, s.cur) == Tok(Cursor(s.cur.line, s.cur.idx + 1), Token("IDENT", Some(z)));
  }

  /** `PRINT` of an undeclared variable raises KeyError and prints nothing. */
  lemma PrintsUndeclared(s: RtState, divide: (int, int) -> int, z: string)
    requires s.cur.line in s.program && s.cur.idx < |s.program[s.cur.line]|
    requires s.program[s.cur.line][s.cur.idx] == Token("IDENT", Some(z)) && z !in s.table
    ensures PrintStmt(s, divide) == Crash(s.(cur := Cursor(s.cur.line, s.cur.idx + 1)), KeyError)
  {
    assert Next(s.program, s.cur) == Tok(Cursor(s.cur.line, s.cur.idx + 1), Token("IDENT", Some(z)));
  }

  /** `PRINT` of an integer literal inserts its text as written. */
  lemma PrintsLiteral(s: RtState, divide: (int, int) -> int, text: string)
    requires s.cur.line in s.program && s.cur.idx < |s.program[s.cur.line]|
    requires s.program[s.cur.line][s.cur.idx] == Token("INT_LIT", Some(text))
    ensures PrintStmt(s, divide) == Continue(s.(cur := Cursor(s.cur.line, s.cur.idx + 1), console := s.console + [text]))
  {
    assert Next(s.program, s.cur) == Tok(Cursor(s.cur.line, s.cur.idx + 1), Token("INT_LIT", Some(text)));
  }

  /** `PRINT e` for an operation `e` spelled in prefix form inserts the
      value of `e` and moves past `e`. */
  lemma PrintsOperation(s: RtState, divide: (int, int) -> int, e: Expr)
    requires s.cur.line in s.program && e.Apply?
    requires SpelledAt(s.program[s.cur.line], s.cur.idx, e) && Fits(e, s.table, divide)
    ensures PrintStmt(s, divide) == Continue(s.(cur := Cursor(s.cur.line, s.cur.idx + Size(e)),
                                                console := s.console + [IntToString(ValueOf(e, s.table, divide))]))
  {
    var line, k := s.cur.line, s.cur.idx;
    SpelledEvaluates(Release, s.program, s.table, divide, e, line, k, true);
    var op := e.op;
    assert Next(s.program, s.cur) == Tok(Cursor(line, k + 1), Token(op, None));
    assert EvalOperand(Release, s.program, s.table, divide, s.cur, true)
        == Ok(Cursor(line, k + Size(e)), Read(Token(op, None), Bound(Int(ValueOf(e, s.table, divide)))));
  }

  /** `INT v` followed on its line by anything but `IS` only declares:
      nothing is stored and the cursor stays after `v`. */
  lemma DeclareWithoutIsStoresNothing(s: RtState, z: string)
    requires s.cur.line in s.program && s.cur.idx + 1 < |s.program[s.cur.line]|
    requires s.program[s.cur.line][s.cur.idx] == Token("IDENT", Some(z))
    requires s.program[s.cur.line][s.cur.idx + 1].name != "IS"
    ensures DeclareStmt(s) == Continue(s.(cur := Cursor(s.cur.line, s.cur.idx + 1)))
  {
    assert Next(s.program, s.cur) == Tok(Cursor(s.cur.line, s.cur.idx + 1), Token("IDENT", Some(z)));
  }

  /** `INT v IS n` stores the literal's value in `v`. */
  lemma DeclareStoresLiteral(s: RtState, z: string, n: nat)
    requires s.cur.line in s.program
    requires var ts := s.program[s.cur.line];
      s.cur.idx + 2 < |ts| &&
      ts[s.cur.idx] == Token("IDENT", Some(z)) && ts[s.cur.idx + 1].name == "IS" &&
      ts[s.cur.idx + 2] == Token("INT_LIT", Some(NatToString(n)))
    requires z in s.table
    ensures DeclareStmt(s) == Continue(s.(cur := Cursor(s.cur.line, s.cur.idx + 3),
                                          table := s.table[z := Entry(s.table[z].typ, IntV(n))]))
  {
    var line, k := s.cur.line, s.cur.idx;
    var ts := s.program[line];
    assert Next(s.program, s.cur) == Tok(Cursor(line, k + 1), ts[k]);
    assert Next(s.program, Cursor(line, k + 1)) == Tok(Cursor(line, k + 2), ts[k + 1]);
    assert Next(s.program, Cursor(line, k + 2)) == Tok(Cursor(line, k + 3), ts[k + 2]);
    PyIntOfNatToString(n);
  }

  /** `INT v IS y` for a variable `y` that holds an int and is not a STR
      stores that int in `v`. */
  lemma DeclareStoresVariable(s: RtState, z: string, y: string)
    requires s.cur.line in s.program
    requires var ts := s.program[s.cur.line];
      s.cur.idx + 2 < |ts| &&
      ts[s.cur.idx] == Token("IDENT", Some(z)) && ts[s.cur.idx + 1].name == "IS" &&
      ts[s.cur.idx + 2] == Token("IDENT", Some(y))
    requires z in s.table && y in s.table && s.table[y].typ != "STR" && s.table[y].value.IntV?
    ensures DeclareStmt(s) == Continue(s.(cur := Cursor(s.cur.line, s.cur.idx + 3),
                                          table := s.table[z := Entry(s.table[z].typ, s.table[y].value)]))
  {
    var line, k := s.cur.line, s.cur.idx;
    var ts := s.program[line];
    assert Next(s.program, s.cur) == Tok(Cursor(line, k + 1), ts[k]);
    assert Next(s.program, Cursor(line, k + 1)) == Tok(Cursor(line, k + 2), ts[k + 1]);
    assert Next(s.program, Cursor(line, k + 2)) == Tok(Cursor(line, k + 3), ts[k + 2]);
  }

  /** `INT v IS y` for a STR variable `y` logs the store message and
      raises it; nothing is stored. */
  lemma DeclareFromStringRaises(s: RtState, z: string, y: string)
    requires s.cur.line in s.program
    requires var ts := s.program[s.cur.line];
      s.cur.idx + 2 < |ts| &&
      ts[s.cur.idx] == Token("IDENT", Some(z)) && ts[s.cur.idx + 1].name == "IS" &&
      ts[s.cur.idx + 2] == Token("IDENT", Some(y))
    requires y in s.table && s.table[y].typ == "STR"
    ensures var m := StoreMessage(Token("IDENT", Some(z)));
      DeclareStmt(s) == Crash(s.(cur := Cursor(s.cur.line, s.cur.idx + 3), errors := s.errors + [m]), Raised(m))
  {
    var line, k := s.cur.line, s.cur.idx;
    var ts := s.program[line];
    assert Next(s.program, s.cur) == Tok(Cursor(line, k + 1), ts[k]);
    assert Next(s.program, Cursor(line, k + 1)) == Tok(Cursor(line, k + 2), ts[k + 1]);
    assert Next(s.program, Cursor(line, k + 2)) == Tok(Cursor(line, k + 3), ts[k + 2]);
  }

  /** `INTO v IS n` stores the literal's value in `v`. */
  lemma IntoStoresLiteral(s: RtState, divide: (int, int) -> int, z: string, n: nat)
    requires s.cur.line in s.program
    requires var ts := s.program[s.cur.line];
      s.cur.idx + 2 < |ts| &&
      ts[s.cur.idx] == Token("IDENT", Some(z)) && ts[s.cur.idx + 2] == Token("INT_LIT", Some(NatToString(n)))
    requires z in s.table
    ensures IntoStmt(s, divide) == Continue(s.(cur := Cursor(s.cur.line, s.cur.idx + 3),
                                               table := s.table[z := Entry(s.table[z].typ, IntV(n))]))
  {
    var line, k := s.cur.line, s.cur.idx;
    var ts := s.program[line];
    assert Next(s.program, s.cur) == Tok(Cursor(line, k + 1), ts[k]);
    assert Next(s.program, Cursor(line, k + 1)) == Tok(Cursor(line, k + 2), ts[k + 1]);
    assert Next(s.program, Cursor(line, k + 2)) == Tok(Cursor(line, k + 3), ts[k + 2]);
    PyIntOfNatToString(n);
  }

  /** `INTO v IS y` stores the int `y` holds in `v`, whatever the types. */
  lemma IntoStoresVariable(s: RtState, divide: (int, int) -> int, z: string, y: string)
    requires s.cur.line in s.program
    requires var ts := s.program[s.cur.line];
      s.cur.idx + 2 < |ts| &&
      ts[s.cur.idx] == Token("IDENT", Some(z)) && ts[s.cur.idx + 2] == Token("IDENT", Some(y))
    requires z in s.table && y in s.table && s.table[y].value.IntV?
    ensures IntoStmt(s, divide) == Continue(s.(cur := Cursor(s.cur.line, s.cur.idx + 3),
                                               table := s.table[z := Entry(s.table[z].typ, s.table[y].value)]))
  {
    var line, k := s.cur.line, s.cur.idx;
    var ts := s.program[line];
    assert Next(s.program, s.cur) == Tok(Cursor(line, k + 1), ts[k]);
    assert Next(s.program, Cursor(line, k + 1)) == Tok(Cursor(line, k + 2), ts[k + 1]);
    assert Next(s.program, Cursor(line, k + 2)) == Tok(Cursor(line, k + 3), ts[k + 2]);
  }

  /** An INT variable rejects any reply that is not all digits: one error
      ends the loop, and only the prompt is printed. */
  lemma NonDigitsRejectedForInt(s: RtState, z: string, text: string)
    requires s.cur.line in s.program && s.cur.idx < |s.program[s.cur.line]|
    requires s.program[s.cur.line][s.cur.idx] == Token("IDENT", Some(z))
    requires z in s.table && s.table[z].typ == "INT"
    requires |s.answers| > 0 && s.answers[0] == Some(text) && !AllDigits(text)
    ensures InputStmt(s) == Break(s.(cur := Cursor(s.cur.line, s.cur.idx + 1),
                                     errors := s.errors + [OnLine(s.cur.line) + "Expected an integer for variable " + z],
                                     console := s.console + ["Input for " + z + ": "],
                                     answers := s.answers[1..]))
  {
    assert Next(s.program, s.cur) == Tok(Cursor(s.cur.line, s.cur.idx + 1), Token("IDENT", Some(z)));
  }

  /** A STR variable stores any reply that is not all digits and echoes
      it. */
  lemma StringInputStored(s: RtState, z: string, text: string)
    requires s.cur.line in s.program && s.cur.idx < |s.program[s.cur.line]|
    requires s.program[s.cur.line][s.cur.idx] == Token("IDENT", Some(z))
    requires z in s.table && s.table[z].typ == "STR"
    requires |s.answers| > 0 && s.answers[0] == Some(text) && !AllDigits(text)
    ensures InputStmt(s) == Continue(s.(cur := Cursor(s.cur.line, s.cur.idx + 1),
                                        table := s.table[z := Entry("STR", StrV(text))],
                                        console := s.console + ["Input for " + z + ": ", text + "\n"],
                                        answers := s.answers[1..]))
  {
    assert Next(s.program, s.cur) == Tok(Cursor(s.cur.line, s.cur.idx + 1), Token("IDENT", Some(z)));
  }

  /** A zero divisor is checked before the dividend is read: `DIV` with a
      divisor of 0 fails whatever the dividend is, naming a divisor
      variable; a zero literal reaches the misspelt `self. error_message`
      in the release. */
  lemma ZeroDivisorFails(d: Dialect, a: Read, b: Read, c: Cursor, divide: (int, int) -> int)
    requires b.operand == Bound(Int(0))
    ensures var m := ZeroVariable(d, c.line, PyStr(b.token.value));
      Combine(d, "DIV", a, b, c, divide) ==
        if b.token.name == "IDENT" then Fail(c, if d == Release then [m] else [], Raised(m))
        else if d == Release then Fail(c, [], AttributeError)
        else Fail(c, [], Raised(ZeroLiteral(c.line, PyStr(b.token.value))))
  {
  }

  // -------------------------------------------------------------------
  // The runtime object

  /** How a statement method ended. */
  datatype Flow = Go | Stop | Throw(exc: Exc)

  function AsStmt(s: RtState, f: Flow): Stmt {
    match f
    case Go => Continue(s)
    case Stop => Break(s)
    case Throw(x) => Crash(s, x)
  }

  class Runtime {
    var symbolTable: SymbolTable
    var tokens: Program
    var lineNumber: int
    var tokenIndex: nat
    var errors: seq<string>
    /** The Tk console widget, as the strings inserted into it. */
    var console: seq<string>
    /** The replies the input dialog gives, in order. */
    var answers: seq<Option<string>>
    /** The quotient `DIV` computes. */
    const divide: (int, int) -> int

    ghost function State(): RtState
      reads this, symbolTable
    {
      RtState(symbolTable.entries, tokens, Cursor(lineNumber, tokenIndex), errors, console, answers)
    }

    constructor (answers: seq<Option<string>>, divide: (int, int) -> int)
      ensures fresh(symbolTable) && symbolTable.Valid() && symbolTable.entries == map[]
      ensures State() == RtState(map[], map[], Cursor(1, 0), [], [], answers) && this.divide == divide
    {
      symbolTable := new SymbolTable();
      tokens := map[];
      lineNumber, tokenIndex := 1, 0;
      errors, console := [], [];
      this.answers := answers;
      this.divide := divide;
    }

    /** `_get_next_token`. */
    method GetNextToken() returns (tok: Token, exc: Option<Exc>)
      modifies this`lineNumber, this`tokenIndex
      ensures exc.None? ==> Next(tokens, old(Cursor(lineNumber, tokenIndex))) == Tok(Cursor(lineNumber, tokenIndex), tok)
      ensures exc.Some? ==> Next(tokens, old(Cursor(lineNumber, tokenIndex))) == NoLine(Cursor(lineNumber, tokenIndex)) && exc == Some(KeyError)
      decreases Ahead(tokens, lineNumber)
    {
      if lineNumber !in tokens {
        return Token("", None), Some(KeyError);
      }
      var commands := tokens[lineNumber];
      if tokenIndex >= |commands| {
        AheadShrinks(tokens, lineNumber, lineNumber + 1);
        lineNumber := lineNumber + 1;
        tokenIndex := 0;
        tok, exc := GetNextToken();
        return;
      }
      tokenIndex := tokenIndex + 1;
      return commands[tokenIndex - 1], None;
    }

    /** `_peek_next_token`. */
    method PeekNextToken() returns (tok: Token, exc: Option<Exc>)
      ensures Peek(tokens, Cursor(lineNumber, tokenIndex)) == if exc.None? then Seen(tok) else Unseen(exc.value)
    {
      if lineNumber !in tokens {
        return Token("", None), Some(KeyError);
      }
      var commands := tokens[lineNumber];
      if tokenIndex >= |commands| {
        return Token("", None), Some(IndexError);
      }
      return commands[tokenIndex], None;
    }

    /** One operand of `_process_arithmetic_operator`. */
    method ReadOperand(first: bool) returns (tok: Token, operand: Operand, exc: Option<Exc>)
      modifies this`lineNumber, this`tokenIndex, this`errors
      ensures old(errors) <= errors && (exc.None? ==> errors == old(errors))
      ensures EvalOperand(Release, tokens, symbolTable.entries, divide, old(Cursor(lineNumber, tokenIndex)), first)
           == if exc.None? then Ok(Cursor(lineNumber, tokenIndex), Read(tok, operand))
              else Fail(Cursor(lineNumber, tokenIndex), errors[|old(errors)|..], exc.value)
      decreases Ahead(tokens, lineNumber), Within(tokens, Cursor(lineNumber, tokenIndex)), 1
    {
      var e;
      tok, e := GetNextToken();
      if e.Some? {
        return tok, Unbound, e;
      }
      if tok.name in Operators(Release) {
        var result;
        result, exc := ProcessArithmeticOperator(tok.name);
        return tok, Bound(result), exc;
      }
      operand, exc := ReadAtom(tok, first);
    }

    /** The operand branches of `_process_arithmetic_operator` for a token
        that is not an operator. */
    method ReadAtom(tok: Token, first: bool) returns (operand: Operand, exc: Option<Exc>)
      modifies this`errors
      ensures old(errors) <= errors && (exc.None? ==> errors == old(errors))
      ensures Atom(Release, symbolTable.entries, Cursor(lineNumber, tokenIndex), tok, first)
           == if exc.None? then Ok(Cursor(lineNumber, tokenIndex), Read(tok, operand))
              else Fail(Cursor(lineNumber, tokenIndex), errors[|old(errors)|..], exc.value)
    {
      if tok.name == "IDENT" {
        var entry := symbolTable.GetSymbol(tok.value);
        if entry.None? {
          return Unbound, Some(KeyError);
        }
        if entry.value.typ != "INT" {
          errors := errors + [NotIntegerLogged(lineNumber, PyStr(tok.value))];
          return Unbound, Some(Raised(NotIntegerRaised(Release, first, PyStr(tok.value))));
        }
        var n := IntOfValue(entry.value.value);
        if n.NotInt? {
          return Unbound, Some(n.exc);
        }
        return Bound(Int(n.i)), None;
      } else if tok.name == "INT_LIT" {
        var n := IntOfLexeme(tok.value);
        if n.NotInt? {
          return Unbound, Some(n.exc);
        }
        return Bound(Int(n.i)), None;
      }
      return Unbound, None;
    }

    /** `_process_arithmetic_operator`. */
    method ProcessArithmeticOperator(op: string) returns (result: Num, exc: Option<Exc>)
      modifies this`lineNumber, this`tokenIndex, this`errors
      ensures old(errors) <= errors && (exc.None? ==> errors == old(errors))
      ensures Eval(Release, tokens, symbolTable.entries, divide, old(Cursor(lineNumber, tokenIndex)), op)
           == if exc.None? then Ok(Cursor(lineNumber, tokenIndex), result)
              else Fail(Cursor(lineNumber, tokenIndex), errors[|old(errors)|..], exc.value)
      decreases Ahead(tokens, lineNumber), Within(tokens, Cursor(lineNumber, tokenIndex)), 2
    {
      var tok1, op1, e1 := ReadOperand(true);
      if e1.Some? {
        return NoneNum, e1;
      }
      var tok2, op2, e2 := ReadOperand(false);
      if e2.Some? {
        return NoneNum, e2;
      }
      var r := Combine(Release, op, Read(tok1, op1), Read(tok2, op2), Cursor(lineNumber, tokenIndex), divide);
      if r.Fail? {
        errors := errors + r.logged;
        assert errors[|old(errors)|..] == r.logged;
        return NoneNum, Some(r.exc);
      }
      return r.val, None;
    }

    /** `update_symbol` on the table; a missing name raises KeyError. */
    method StoreValue(name: Option<string>, v: Value) returns (flow: Flow)
      modifies symbolTable
      ensures symbolTable.order == old(symbolTable.order)
      ensures AsStmt(State(), flow) == Store(old(State()), Cursor(lineNumber, tokenIndex), name, v)
    {
      var ok := symbolTable.UpdateSymbol(name, v);
      flow := if ok then Go else Throw(KeyError);
    }

    /** The console `insert` of `text`. */
    method InsertText(text: Option<string>) returns (flow: Flow)
      modifies this`console
      ensures AsStmt(State(), flow) == Insert(old(State()), text)
    {
      if text.None? {
        return Throw(TclError);
      }
      console := console + [text.value];
      return Go;
    }

    /** `_process_print`. */
    method ProcessPrint() returns (flow: Flow)
      modifies this`lineNumber, this`tokenIndex, this`errors, this`console
      ensures AsStmt(State(), flow) == PrintStmt(old(State()), divide)
    {
      var tok, exc := GetNextToken();
      if exc.Some? {
        return Throw(KeyError);
      }
      flow := PrintFetched(tok);
    }

    /** The printing part of `_process_print`. */
    method PrintFetched(tok: Token) returns (flow: Flow)
      modifies this`lineNumber, this`tokenIndex, this`errors, this`console
      ensures AsStmt(State(), flow) == PrintToken(old(State()), tok, divide)
    {
      if tok.name == "IDENT" {
        var entry := symbolTable.GetSymbol(tok.value);
        if entry.None? {
          return Throw(KeyError);
        }
        flow := InsertText(Displayed(entry.value.value));
      } else if tok.name == "INT_LIT" {
        flow := InsertText(tok.value);
      } else if tok.name in Operators(Release) {
        var result, exc := ProcessArithmeticOperator(tok.name);
        if exc.Some? {
          return Throw(exc.value);
        }
        flow := InsertText(if result.Int? then Some(IntToString(result.i)) else None);
      } else {
        flow := Go;
      }
    }

    /** The `INTO` branch of `process_input_code`. */
    method ExecuteInto() returns (flow: Flow)
      modifies this`lineNumber, this`tokenIndex, this`errors, symbolTable
      ensures symbolTable.order == old(symbolTable.order)
      ensures AsStmt(State(), flow) == IntoStmt(old(State()), divide)
    {
      var variable, e1 := GetNextToken();
      if e1.Some? { return Throw(KeyError); }
      var isKeyword, e2 := GetNextToken();
      if e2.Some? { return Throw(KeyError); }
      var value, e3 := GetNextToken();
      if e3.Some? { return Throw(KeyError); }
      flow := AssignInto(variable, value);
    }

    /** The assignment part of the `INTO` branch. */
    method AssignInto(variable: Token, value: Token) returns (flow: Flow)
      modifies this`lineNumber, this`tokenIndex, this`errors, symbolTable
      ensures symbolTable.order == old(symbolTable.order)
      ensures AsStmt(State(), flow) == IntoValue(old(State()), variable, value, divide)
    {
      if value.name == "INT_LIT" {
        var n := IntOfLexeme(value.value);
        if n.NotInt? { return Throw(n.exc); }
        flow := StoreValue(variable.value, IntV(n.i));
      } else if value.name == "IDENT" {
        var entry := symbolTable.GetSymbol(value.value);
        if entry.None? { return Throw(KeyError); }
        var n := IntOfValue(entry.value.value);
        if n.NotInt? { return Throw(n.exc); }
        flow := StoreValue(variable.value, IntV(n.i));
      } else if value.name in Operators(Release) {
        var result, exc := ProcessArithmeticOperator(value.name);
        if exc.Some? { return Throw(exc.value); }
        flow := StoreValue(variable.value, NumValue(result));
      } else {
        flow := Go;
      }
    }

    /** The `INT` branch of `process_input_code`. */
    method ExecuteDeclaration() returns (flow: Flow)
      modifies this`lineNumber, this`tokenIndex, this`errors, symbolTable
      ensures symbolTable.order == old(symbolTable.order)
      ensures AsStmt(State(), flow) == DeclareStmt(old(State()))
    {
      var variable, e1 := GetNextToken();
      if e1.Some? { return Throw(KeyError); }
      var next, e2 := PeekNextToken();
      if e2.Some? { return Throw(e2.value); }
      if next.name != "IS" { return Go; }
      var isKeyword, e3 := GetNextToken();
      if e3.Some? { return Throw(KeyError); }
      var value, e4 := GetNextToken();
      if e4.Some? { return Throw(KeyError); }
      flow := InitialiseDeclared(variable, value);
    }

    /** The initialisation part of the `INT` branch. */
    method InitialiseDeclared(variable: Token, value: Token) returns (flow: Flow)
      modifies this`errors, symbolTable
      ensures symbolTable.order == old(symbolTable.order)
      ensures AsStmt(State(), flow) == DeclareValue(old(State()), variable, value)
    {
      if value.name == "INT_LIT" {
        var n := IntOfLexeme(value.value);
        if n.NotInt? { return Throw(n.exc); }
        flow := StoreValue(variable.value, IntV(n.i));
      } else if value.name == "IDENT" {
        var entry := symbolTable.GetSymbol(value.value);
        if entry.None? { return Throw(KeyError); }
        if entry.value.typ == "STR" {
          errors := errors + [StoreMessage(variable)];
          return Throw(Raised(StoreMessage(variable)));
        }
        var n := IntOfValue(entry.value.value);
        if n.NotInt? { return Throw(n.exc); }
        flow := StoreValue(variable.value, IntV(n.i));
      } else {
        flow := Go;
      }
    }

    /** The `BEG` branch of `process_input_code`. */
    method ExecuteInput() returns (flow: Flow)
      modifies this`lineNumber, this`tokenIndex, this`errors, this`console, this`answers, symbolTable
      ensures symbolTable.order == old(symbolTable.order)
      ensures AsStmt(State(), flow) == InputStmt(old(State()))
    {
      var variable, e1 := GetNextToken();
      if e1.Some? { return Throw(KeyError); }
      var entry := symbolTable.GetSymbol(variable.value);
      if entry.None? { return Throw(KeyError); }
      flow := ReadInput(variable.value.value, entry.value.typ);
    }

    /** The prompt, the dialog and the checks of the `BEG` branch. */
    method ReadInput(name: string, typ: string) returns (flow: Flow)
      requires name in symbolTable.entries
      modifies this`errors, this`console, this`answers, symbolTable
      ensures symbolTable.order == old(symbolTable.order)
      ensures AsStmt(State(), flow) == InputValue(old(State()), name, typ)
    {
      console := console + ["Input for " + name + ": "];
      var answer := Reply(answers);
      answers := Rest(answers);
      var text := if answer.None? then "" else answer.value;
      if typ == "INT" {
        if !AllDigits(text) {
          errors := errors + [OnLine(lineNumber) + "Expected an integer for variable " + name];
          return Stop;
        }
        var n := IntOfLexeme(Some(text));
        if n.NotInt? { return Throw(n.exc); }
        flow := StoreValue(Some(name), IntV(n.i));
        if flow.Go? {
          console := console + [text + "\n"];
        }
      } else if typ == "STR" {
        if AllDigits(text) {
          errors := errors + [OnLine(lineNumber) + "Expected a string for variable " + name];
          return Stop;
        }
        flow := StoreValue(Some(name), StrV(text));
        if flow.Go? {
          console := console + [text + "\n"];
        }
      } else {
        flow := Go;
      }
    }

    /** The dispatch in the body of the loop of `process_input_code`. */
    method ExecuteStatement(tok: Token) returns (flow: Flow)
      modifies this`lineNumber, this`tokenIndex, this`errors, this`console, this`answers, symbolTable
      ensures symbolTable.order == old(symbolTable.order)
      ensures AsStmt(State(), flow) == Statement(old(State()), tok, divide)
    {
      if tok.name in Operators(Release) {
        var result, exc := ProcessArithmeticOperator(tok.name);
        flow := if exc.Some? then Throw(exc.value) else Go;
      } else if tok.name == "PRINT" {
        flow := ProcessPrint();
      } else if tok.name == "NEWLN" {
        console := console + ["\n"];
        flow := Go;
      } else if tok.name == "INTO" {
        flow := ExecuteInto();
      } else if tok.name == "INT" {
        flow := ExecuteDeclaration();
      } else if tok.name == "BEG" {
        flow := ExecuteInput();
      } else {
        flow := Go;
      }
    }

    /** `process_input_code(tokens, symbol_table)`. */
    method ProcessInputCode(program: Program, table: SymbolTable) returns (exc: Option<Exc>)
      modifies this, table
      ensures symbolTable == table && table.order == old(table.order)
      ensures Process(old(errors), old(console), old(answers), program, old(table.entries), divide)
           == if exc.None? then Finished(State()) else Aborted(State(), exc.value)
    {
      symbolTable := table;
      tokens := program;
      lineNumber, tokenIndex := 1, 0;
      var tok, e := GetNextToken();
      if e.Some? {
        return e;
      }
      exc := RunLoop(tok);
      if exc.None? {
        ReportEnd();
      }
    }

    /** The `while` loop of `process_input_code`, from the token `tok`
        just read. */
    method RunLoop(tok: Token) returns (exc: Option<Exc>)
      requires JustRead(State(), tok)
      modifies this, symbolTable
      ensures symbolTable == old(symbolTable) && tokens == old(tokens) && symbolTable.order == old(symbolTable.order)
      ensures Loop(old(State()), tok, divide) == if exc.None? then Finished(State()) else Aborted(State(), exc.value)
    {
      var current := tok;
      exc := None;
      ghost var goal := Loop(State(), current, divide);
      while current.name != "LOI"
        invariant symbolTable == old(symbolTable) && tokens == old(tokens) && symbolTable.order == old(symbolTable.order)
        invariant JustRead(State(), current) && Loop(State(), current, divide) == goal
        decreases Ahead(tokens, lineNumber), Within(tokens, Cursor(lineNumber, tokenIndex))
      {
        if |errors| > 0 {
          break;
        }
        ghost var before := State();
        var flow := ExecuteStatement(current);
        if flow.Throw? {
          return Some(flow.exc);
        }
        if flow.Stop? {
          break;
        }
        ghost var after := State();
        ghost var previous := current;
        var e;
        current, e := GetNextToken();
        LoopStep(before, after, previous, divide);
        if e.Some? {
          return e;
        }
      }
    }

    /** The banner at the end of `process_input_code`. */
    method ReportEnd()
      modifies this`console
      ensures console == old(console) + Banner(errors)
    {
      if errors == [] {
        console := console + ["\n\nProgram terminated successfully..."];
        return;
      }
      console := console + ["\n\nProgram terminated due to encountered error:\n"];
      ghost var start := console;
      var i := 0;
      while i < |errors|
        invariant 0 <= i <= |errors|
        invariant console == start + Lined(errors[..i])
      {
        assert errors[..i + 1][..i] == errors[..i];
        console := console + [errors[i] + "\n"];
        i := i + 1;
      }
      assert errors[..i] == errors;
    }
  }
}
