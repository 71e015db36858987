/** The table-driven predictive parser with its inline semantic checks.
    The functions below give the meaning of every step of `Parser.parse`;
    the class `Parser` at the end is the object itself, whose methods are
    proved to follow them. */
module Parsing {
  import opened Py
  import opened Text
  import opened Tokens
  import opened Grammar
  import Symbols

  /** The fields of a parser that `parse` reads and writes. */
  datatype PState = PState(
    stack: seq<string>,        // the parse stack; its top is the last element
    buffer: seq<Token>,        // the input buffer
    errors: seq<string>,       // `error_message`
    isValid: bool,
    lineNumber: int,
    opStack: seq<Token>,       // `operation_stack`
    opIndex: nat,              // `operation_stack_index`
    inDecl: bool,              // the open declaration frame
    declStack: seq<Token>,
    declLine: int,
    inAssign: bool,            // the open assignment frame
    assignStack: seq<Token>,
    assignLine: int)

  /** A state after a call that may raise: the exception, if any, leaves the
      state as it was at the raise. */
  datatype Out = Out(st: PState, exc: Option<Exc>)

  // -------------------------------------------------------------------
  // Messages


  function MismatchMessage(line: int, expected: string, found: Token): string {
    "Error at line " + IntToString(line) + ": Terminal mismatch - Expected " + expected +
    ", found " + found.name + " with value " + PyStr(found.value)
  }

  function NoProductionMessage(line: int, found: Token): string {
    "Error at line " + IntToString(line) + ": No production found for input " + found.name +
    " with value " + PyStr(found.value)
  }

  function DeclValueMessage(line: int, value: Token, found: string, expected: string): string {
    "Semantic Error in line " + IntToString(line) + ": " + PyStr(value.value) + " is " + found +
    " (Expected " + expected + ")"
  }

  function DeclExprMessage(line: int, ops: seq<Token>, found: string, expected: string): string {
    "Semantic Error in line " + IntToString(line) + ": The resulting type of expression '" +
    ShownAll(ops) + "' is " + found + ". (Expected " + expected + ")"
  }

  function AssignValueMessage(line: int, value: Token, found: string, expected: string): string {
    "Semantic Error in line " + IntToString(line) + ": " + PyStr(value.value) + " is " + found +
    ". (Expected " + expected + ")"
  }

  /** The source spells this message's last word "Exptected". */
  function AssignExprMessage(line: int, ops: seq<Token>, found: string, expected: string): string {
    "Semantic Error in line " + IntToString(line) + ": The resulting type of expression '" +
    ShownAll(ops) + "' is " + found + ". (Exptected " + expected + ")"
  }

  // -------------------------------------------------------------------
  // Expression typing

  /** A type, the operation-stack index after reading, and the exception
      raised, if any (then `typ` is meaningless). */
  datatype Typed = Typed(typ: string, index: nat, exc: Option<Exc>)

  /** `_expressionSemanticAnalysis` with the index at `idx`: skip the
      operator, then type two operands. The result is `INT` when both are. */
  function ExprType(ops: seq<Token>, idx: nat, t: Symbols.Table): (r: Typed)
    ensures r.exc.None? ==> idx < r.index <= |ops| && (r.typ == "INT" || r.typ == "STR")
    ensures r.exc.Some? ==> r.exc == Some(IndexError) || r.exc == Some(KeyError)
    decreases |ops| - idx, 0
  {
    if idx >= |ops| then Typed("", idx + 1, Some(IndexError))
    else
      var a := OperandType(ops, idx + 1, t);
      if a.exc.Some? then a
      else
        var b := OperandType(ops, a.index, t);
        if b.exc.Some? then b
        else Typed(if a.typ == "INT" && b.typ == "INT" then "INT" else "STR", b.index, None)
  }

  /** One operand: an operator is a nested expression read from its own
      position (the source steps the index back before recursing), an
      identifier has the type the symbol table records, anything else is
      `INT`. */
  function OperandType(ops: seq<Token>, idx: nat, t: Symbols.Table): (r: Typed)
    ensures r.exc.None? ==> idx < r.index <= |ops|
    ensures r.exc.Some? ==> r.exc == Some(IndexError) || r.exc == Some(KeyError)
    decreases |ops| - idx, 1
  {
    if idx >= |ops| then Typed("", idx + 1, Some(IndexError))
    else
      var op := ops[idx];
      if IsOperator(op.name) then ExprType(ops, idx, t)
      else if op.name == "IDENT" then
        match Symbols.Lookup(t, op.value)
        case None => Typed("", idx + 1, Some(KeyError))
        case Some(e) => Typed(e.typ, idx + 1, None)
      else Typed("INT", idx + 1, None)
  }

  /** Every identifier among `ops[lo..hi]` is declared `INT`. */
  predicate IdentsInt(ops: seq<Token>, lo: nat, hi: nat, t: Symbols.Table)
    requires lo <= hi <= |ops|
  {
    forall j :: lo <= j < hi && ops[j].name == "IDENT" ==>
      Symbols.Lookup(t, ops[j].value).Some? && Symbols.Lookup(t, ops[j].value).value.typ == "INT"
  }

  /** An expression is typed `INT` exactly when every identifier it reads is
      declared `INT`; literals and keywords count as `INT`. */
  lemma {:induction false} ExprIntIff(ops: seq<Token>, idx: nat, t: Symbols.Table)
    ensures var r := ExprType(ops, idx, t);
      r.exc.None? ==> (r.typ == "INT" <==> IdentsInt(ops, idx + 1, r.index, t))
    decreases |ops| - idx, 0
  {
    var r := ExprType(ops, idx, t);
    if idx < |ops| && r.exc.None? {
      var a := OperandType(ops, idx + 1, t);
      var b := OperandType(ops, a.index, t);
      OperandIntIff(ops, idx + 1, t);
      OperandIntIff(ops, a.index, t);
    }
  }

  lemma {:induction false} OperandIntIff(ops: seq<Token>, idx: nat, t: Symbols.Table)
    ensures var r := OperandType(ops, idx, t);
      r.exc.None? ==> (r.typ == "INT" <==> IdentsInt(ops, idx, r.index, t))
    decreases |ops| - idx, 1
  {
    var r := OperandType(ops, idx, t);
    if idx < |ops| && r.exc.None? && IsOperator(ops[idx].name) {
      ExprIntIff(ops, idx, t);
    }
  }

  // -------------------------------------------------------------------
  // Semantic checks

  /** `_varDeclarationSemanticAnalysis`. A frame of exactly four tokens
      `type name IS value` checks an identifier value of an `INT`
      declaration; a longer frame types the expression after `IS` and
      compares it with the declared type. */
  function DeclCheck(s: PState, t: Symbols.Table): (r: Out)
    ensures r.st == s.(errors := r.st.errors, opStack := r.st.opStack, opIndex := r.st.opIndex)
    ensures s.errors <= r.st.errors && |r.st.errors| <= |s.errors| + 1
  {
    if |s.declStack| == 0 then Out(s, Some(IndexError))
    else
      var declared := s.declStack[0].name;
      var o := if |s.declStack| == 4 then DeclValue(s, declared, t) else Out(s, None);
      if o.exc.Some? || |s.declStack| <= 4 then o
      else DeclExpr(s, declared, t)
  }

  /** The case of `_varDeclarationSemanticAnalysis` with more than four
      tokens: the expression after `IS` is typed. */
  function DeclExpr(s: PState, declared: string, t: Symbols.Table): (r: Out)
    requires |s.declStack| > 4
    ensures r.st == s.(errors := r.st.errors, opStack := r.st.opStack, opIndex := r.st.opIndex)
    ensures s.errors <= r.st.errors && |r.st.errors| <= |s.errors| + 1
    ensures var e := ExprType(s.declStack[3..], s.opIndex, t);
      && r.exc == e.exc
      && (r.exc.None? ==> r.st.opStack == [] && r.st.opIndex == 0 && (r.st.errors != s.errors <==> e.typ != declared))
  {
    var a := s.(opStack := s.declStack[3..]);
    var r := ExprType(a.opStack, a.opIndex, t);
    var b := a.(opIndex := r.index);
    if r.exc.Some? then Out(b, r.exc)
    else
      var c := if declared != r.typ
        then b.(errors := b.errors + [DeclExprMessage(b.declLine, b.opStack, r.typ, declared)])
        else b;
      Out(ResetOps(c), None)
  }

  /** The four-token case of `_varDeclarationSemanticAnalysis`. */
  function DeclValue(s: PState, declared: string, t: Symbols.Table): (r: Out)
    requires |s.declStack| == 4
    ensures r.st == s.(errors := r.st.errors)
    ensures s.errors <= r.st.errors && |r.st.errors| <= |s.errors| + 1
  {
    var value := s.declStack[3];
    if declared == "INT" && value.name == "IDENT" then
      match Symbols.Lookup(t, value.value)
      case None => Out(s, Some(KeyError))
      case Some(e) =>
        if e.typ != "INT"
        then Out(s.(errors := s.errors + [DeclValueMessage(s.declLine, value, e.typ, declared)]), None)
        else Out(s, None)
    else Out(s, None)
  }

  /** `_assignmentSemanticAnalysis`: only storing a `STR` into an `INT`
      variable is an error. */
  function AssignCheck(s: PState, t: Symbols.Table): (r: Out)
    ensures r.st == s.(errors := r.st.errors, opStack := r.st.opStack, opIndex := r.st.opIndex)
    ensures s.errors <= r.st.errors && |r.st.errors| <= |s.errors| + 1
  {
    if |s.assignStack| < 2 then Out(s, Some(IndexError))
    else
      match Symbols.Lookup(t, s.assignStack[1].value)
      case None => Out(s, Some(KeyError))
      case Some(target) =>
        if |s.assignStack| < 4 then Out(s, Some(IndexError))
        else
          var value := s.assignStack[3];
          if value.name == "IDENT" then
            match Symbols.Lookup(t, value.value)
            case None => Out(s, Some(KeyError))
            case Some(v) =>
              if target.typ == "INT" && v.typ == "STR"
              then Out(s.(errors := s.errors + [AssignValueMessage(s.assignLine, value, v.typ, target.typ)]), None)
              else Out(s, None)
          else if IsOperator(value.name) then AssignExpr(s, target.typ, t)
          else Out(s, None)
  }

  /** The case of `_assignmentSemanticAnalysis` whose value is an
      expression: it is typed, and a `STR` result stored into an `INT`
      target is an error. */
  function AssignExpr(s: PState, target: string, t: Symbols.Table): (r: Out)
    requires |s.assignStack| >= 4
    ensures r.st == s.(errors := r.st.errors, opStack := r.st.opStack, opIndex := r.st.opIndex)
    ensures s.errors <= r.st.errors && |r.st.errors| <= |s.errors| + 1
    ensures var e := ExprType(s.assignStack[3..], s.opIndex, t);
      && r.exc == e.exc
      && (r.exc.None? ==> r.st.opStack == [] && r.st.opIndex == 0 &&
                          (r.st.errors != s.errors <==> target == "INT" && e.typ == "STR"))
  {
    var a := s.(opStack := s.assignStack[3..]);
    var r := ExprType(a.opStack, a.opIndex, t);
    var b := a.(opIndex := r.index);
    if r.exc.Some? then Out(b, r.exc)
    else
      var c := if target == "INT" && r.typ == "STR"
        then b.(errors := b.errors + [AssignExprMessage(b.assignLine, b.opStack, r.typ, target)])
        else b;
      Out(ResetOps(c), None)
  }

  /** `_reset_operation_states`: an empty operation stack at index 0; the
      parse and both frames are left alone. */
  function ResetOps(s: PState): (r: PState)
    ensures r.opStack == [] && r.opIndex == 0
    ensures r.stack == s.stack && r.buffer == s.buffer && r.errors == s.errors && r.isValid == s.isValid
    ensures r.inDecl == s.inDecl && r.declStack == s.declStack && r.inAssign == s.inAssign && r.assignStack == s.assignStack
  {
    s.(opStack := [], opIndex := 0)
  }

  /** `_reset_var_decl_states`: the declaration frame is closed and emptied;
      the parse, the assignment frame and the operation stack are kept. */
  function ResetDecl(s: PState): (r: PState)
    ensures !r.inDecl && r.declStack == [] && r.declLine == 0
    ensures r.stack == s.stack && r.buffer == s.buffer && r.errors == s.errors && r.isValid == s.isValid
    ensures r.inAssign == s.inAssign && r.assignStack == s.assignStack && r.opStack == s.opStack
  {
    s.(inDecl := false, declStack := [], declLine := 0)
  }

  /** `_reset_assign_state`: the assignment frame is closed and emptied; the
      parse, the declaration frame and the operation stack are kept. */
  function ResetAssign(s: PState): (r: PState)
    ensures !r.inAssign && r.assignStack == [] && r.assignLine == 0
    ensures r.stack == s.stack && r.buffer == s.buffer && r.errors == s.errors && r.isValid == s.isValid
    ensures r.inDecl == s.inDecl && r.declStack == s.declStack && r.opStack == s.opStack
  {
    s.(inAssign := false, assignStack := [], assignLine := 0)
  }

  /** What the end of program (`LOI`) and the `Input` and `Output`
      productions do: check and close the open assignment frame, or else
      the open declaration frame. */
  function CloseFrame(s: PState, t: Symbols.Table): (r: Out)
    ensures r.exc.None? ==> !r.st.inAssign && (s.inAssign ==> r.st.inDecl == s.inDecl) && (!s.inAssign ==> !r.st.inDecl)
    ensures r.st.stack == s.stack && r.st.buffer == s.buffer && r.st.isValid == s.isValid
    ensures s.errors <= r.st.errors && |r.st.errors| <= |s.errors| + 1
  {
    if s.inAssign then
      var o := AssignCheck(s, t);
      if o.exc.Some? then o else Out(ResetAssign(o.st), None)
    else if s.inDecl then
      var o := DeclCheck(s, t);
      if o.exc.Some? then o else Out(ResetDecl(o.st), None)
    else Out(s, None)
  }

  // -------------------------------------------------------------------
  // Production hooks

  /** `VariableDeclaration` closes the assignment frame without checking
      it, checks an open declaration frame, and opens a declaration frame.
      The source names `_resetVarDeclStates` here without calling it, so
      the old frame's tokens stay at the front of the new one. */
  function HookDeclaration(s: PState, name: string, line: int, t: Symbols.Table): (r: Out)
    ensures r.st.stack == s.stack && r.st.buffer == s.buffer && r.st.isValid == s.isValid
    ensures s.errors <= r.st.errors
  {
    if name != "VariableDeclaration" then Out(s, None)
    else
      var a := s.(inAssign := false);
      var o := if a.inDecl then DeclCheck(a, t) else Out(a, None);
      if o.exc.Some? then o else Out(o.st.(inDecl := true, declLine := line), None)
  }

  /** `VarDeclTail` with an empty body ends a declaration without a value:
      the frame is checked (and, as above, not reset). */
  function HookDeclTail(s: PState, name: string, symbols: seq<string>, t: Symbols.Table): (r: Out)
    ensures r.st.stack == s.stack && r.st.buffer == s.buffer && r.st.isValid == s.isValid
    ensures s.errors <= r.st.errors
  {
    if s.inDecl && name == "VarDeclTail" && "e" in symbols then DeclCheck(s, t) else Out(s, None)
  }

  /** `Assignment` closes the declaration frame without checking it, checks
      and resets an open assignment frame, and opens a new one. */
  function HookAssignment(s: PState, name: string, line: int, t: Symbols.Table): (r: Out)
    ensures r.st.stack == s.stack && r.st.buffer == s.buffer && r.st.isValid == s.isValid
    ensures s.errors <= r.st.errors
  {
    if name != "Assignment" then Out(s, None)
    else
      var a := s.(inDecl := false);
      var o := if a.inAssign then
          var c := AssignCheck(a, t);
          if c.exc.Some? then c else Out(ResetAssign(c.st), None)
        else Out(a, None);
      if o.exc.Some? then o else Out(o.st.(inAssign := true, assignLine := line), None)
  }

  function HookInputOutput(s: PState, name: string, t: Symbols.Table): (r: Out)
    ensures r.st.stack == s.stack && r.st.buffer == s.buffer && r.st.isValid == s.isValid
    ensures s.errors <= r.st.errors
  {
    if name == "Input" || name == "Output" then CloseFrame(s, t) else Out(s, None)
  }

  /** The four hooks, in the source's order, stopping at an exception. */
  function Hooks(s: PState, name: string, symbols: seq<string>, line: int, t: Symbols.Table): (r: Out)
    ensures r.st.stack == s.stack && r.st.buffer == s.buffer && r.st.isValid == s.isValid
    ensures s.errors <= r.st.errors
  {
    var o1 := HookDeclaration(s, name, line, t);
    if o1.exc.Some? then o1
    else
      var o2 := HookDeclTail(o1.st, name, symbols, t);
      if o2.exc.Some? then o2
      else
        var o3 := HookAssignment(o2.st, name, line, t);
        if o3.exc.Some? then o3
        else HookInputOutput(o3.st, name, t)
  }

  // -------------------------------------------------------------------
  // One step of the parse loop

  lemma PrefixTrans<T>(a: seq<T>, b: seq<T>, c: seq<T>)
    requires a <= b && b <= c
    ensures a <= c
  {
  }

  /** One iteration of the inner `while` of `parse`, with `current` the
      popped symbol and the input buffer and stack non-empty. */
  function Step(s: PState, current: string, line: int, g: Tables, t: Symbols.Table): (r: StepOut<PState>)
    requires |s.buffer| > 0 && |s.stack| > 0
    ensures s.errors <= r.st.errors
    ensures r.kind.Stopped? ==> !r.st.isValid && |r.st.errors| == |s.errors| + 1
    ensures !r.kind.Stopped? ==> r.st.isValid == s.isValid
    ensures r.st.buffer == s.buffer || r.st.buffer == s.buffer[1..]
  {
    var input := s.buffer[0];
    if current == input.name then MatchTerminal(s, input, t)
    else if IsUpperStr(current) then
      StepOut(s.(errors := s.errors + [MismatchMessage(line, current, input)], isValid := false), Stopped)
    else Expand(s, current, input, line, g, t)
  }

  /** The symbol on top of the stack matches the input: at `LOI` the open
      frame is closed first; then the token joins the open frames, leaves
      the buffer, and the next symbol is popped. */
  function MatchTerminal(s: PState, input: Token, t: Symbols.Table): (r: StepOut<PState>)
    requires |s.buffer| > 0 && |s.stack| > 0
    ensures !r.kind.Stopped? && r.st.isValid == s.isValid && s.errors <= r.st.errors
    ensures r.st.buffer == if r.kind.Moved? then s.buffer[1..] else s.buffer
  {
    var o := if input.name == "LOI" then CloseFrame(s, t) else Out(s, None);
    if o.exc.Some? then StepOut(o.st, Threw(o.exc.value))
    else
      var a := o.st;
      var b := if a.inDecl then a.(declStack := a.declStack + [input]) else a;
      var c := if b.inAssign then b.(assignStack := b.assignStack + [input]) else b;
      StepOut(c.(buffer := c.buffer[1..], stack := c.stack[..|c.stack| - 1]), Moved(c.stack[|c.stack| - 1]))
  }

  /** A nonterminal on top: look the production up, run the hooks, push the
      body reversed and pop the next symbol. */
  function Expand(s: PState, current: string, input: Token, line: int, g: Tables, t: Symbols.Table): (r: StepOut<PState>)
    requires |s.stack| > 0
    ensures s.errors <= r.st.errors
    ensures r.kind.Stopped? ==> !r.st.isValid && r.st.errors == s.errors + [NoProductionMessage(line, input)]
    ensures !r.kind.Stopped? ==> r.st.isValid == s.isValid
    ensures r.st.buffer == s.buffer
    ensures r.kind.Stopped? <==> TableEntry(g, current, input.name) == Missing
  {
    match TableEntry(g, current, input.name)
    case Broken(e) => StepOut(s, Threw(e))
    case Missing =>
      StepOut(s.(errors := s.errors + [NoProductionMessage(line, input)], isValid := false), Stopped)
    case Found(p) =>
      var symbols := BodySymbols(p.body);
      var o := Hooks(s, p.name, symbols, line, t);
      if o.exc.Some? then StepOut(o.st, Threw(o.exc.value))
      else
        var pushed := Pushed(o.st.stack, symbols);
        StepOut(o.st.(stack := pushed[..|pushed| - 1]), Moved(pushed[|pushed| - 1]))
  }

  // -------------------------------------------------------------------
  // The loops of parse

  predicate Looping(s: PState, current: string) {
    current != "$" && |s.stack| != 0 && |s.buffer| != 0
  }

  /** A parse that is not valid, or has reported an error. */
  predicate Accounted(s: PState) { s.isValid || |s.errors| > 0 }

  /** The inner `while` of `parse`. */
  function Inner(s: PState, current: string, line: int, fuel: nat, g: Tables, t: Symbols.Table): (r: Run<PState>)
    ensures r.fuel <= fuel
    decreases fuel
  {
    if !Looping(s, current) then Run(s, current, fuel, Done)
    else if fuel == 0 then Run(s, current, 0, OutOfFuel)
    else
      var o := Step(s, current, line, g, t);
      match o.kind
      case Moved(next) => Inner(o.st, next, line, fuel - 1, g, t)
      case Stopped => Run(o.st, current, fuel - 1, Done)
      case Threw(e) => Run(o.st, current, fuel - 1, Crashed(e))
  }

  /** What is left of the loop after one iteration. */
  lemma InnerAfter(s: PState, current: string, line: int, fuel: nat, g: Tables, t: Symbols.Table, st: PState, kind: Kind)
    requires Looping(s, current) && fuel > 0 && Step(s, current, line, g, t) == StepOut(st, kind)
    ensures kind.Moved? ==> Inner(s, current, line, fuel, g, t) == Inner(st, kind.current, line, fuel - 1, g, t)
    ensures kind.Stopped? ==> Inner(s, current, line, fuel, g, t) == Run(st, current, fuel - 1, Done)
    ensures kind.Threw? ==> Inner(s, current, line, fuel, g, t) == Run(st, current, fuel - 1, Crashed(kind.exc))
  {
  }

  /** The inner loop only adds errors, and never leaves an invalid parse
      without an error. */
  lemma {:induction false} InnerKeeps(s: PState, current: string, line: int, fuel: nat, g: Tables, t: Symbols.Table)
    ensures var r := Inner(s, current, line, fuel, g, t);
      s.errors <= r.st.errors && (Accounted(s) ==> Accounted(r.st))
    decreases fuel
  {
    if Looping(s, current) && fuel > 0 {
      var o := Step(s, current, line, g, t);
      var r := Inner(s, current, line, fuel, g, t);
      match o.kind
      case Moved(next) =>
        var q := Inner(o.st, next, line, fuel - 1, g, t);
        InnerKeeps(o.st, next, line, fuel - 1, g, t);
        PrefixTrans(s.errors, o.st.errors, q.st.errors);
        assert r == q;
      case Stopped =>
        assert r.st == o.st;
      case Threw(e) =>
        assert r.st == o.st;
    }
  }

  /** One entry of the token dictionary on a valid parse: its tokens join
      the buffer and the inner loop runs. */
  function OneLine(s: PState, current: string, line: NumberedLine, fuel: nat, g: Tables, t: Symbols.Table): (r: Run<PState>)
    ensures r.fuel <= fuel
    ensures s.errors <= r.st.errors && (Accounted(s) ==> Accounted(r.st))
  {
    var b := s.(lineNumber := line.number, buffer := s.buffer + line.tokens);
    if |b.buffer| == 0 then Run(b, current, fuel, Crashed(IndexError))
    else InnerKeeps(b, current, line.number, fuel, g, t); Inner(b, current, line.number, fuel, g, t)
  }

  /** The outer `for` of `parse`, from entry `k` on: the line number is
      recorded before an invalid parse stops the loop. */
  function Lines(s: PState, current: string, lines: seq<NumberedLine>, k: nat, fuel: nat, g: Tables, t: Symbols.Table): (r: Run<PState>)
    requires k <= |lines|
    ensures s.errors <= r.st.errors && (Accounted(s) ==> Accounted(r.st))
    decreases |lines| - k
  {
    if k == |lines| then Run(s, current, fuel, Done)
    else if !s.isValid then Run(s.(lineNumber := lines[k].number), current, fuel, Done)
    else
      var r := OneLine(s, current, lines[k], fuel, g, t);
      if r.halt != Done then r
      else
        var f := Lines(r.st, r.current, lines, k + 1, r.fuel, g, t);
        PrefixTrans(s.errors, r.st.errors, f.st.errors);
        f
  }

  /** The state `parse` starts the loop from: buffer and errors are
      emptied, `isValid` is set, `$` is pushed. The stack itself is not
      cleared. */
  function Begin(s: PState): (r: PState)
    ensures r.buffer == [] && r.errors == [] && r.isValid
    ensures |r.stack| == |s.stack| + 1 && r.stack[..|s.stack|] == s.stack && r.stack[|s.stack|] == "$"
    ensures r.inDecl == s.inDecl && r.declStack == s.declStack && r.inAssign == s.inAssign
    ensures r.assignStack == s.assignStack && r.opStack == s.opStack && r.opIndex == s.opIndex
  {
    s.(buffer := [], errors := [], isValid := true, stack := s.stack + ["$"])
  }

  /** `parse(input_tokens)`: the start symbol is cell 1 of the first
      production. */
  function Parsed(s: PState, lines: seq<NumberedLine>, fuel: nat, g: Tables, t: Symbols.Table): (r: Run<PState>)
    ensures !r.st.isValid ==> |r.st.errors| > 0
  {
    var a := Begin(s);
    if |g.prods| == 0 || |g.prods[0]| < 2 then Run(a, "", fuel, Crashed(IndexError))
    else Lines(a, g.prods[0][1], lines, 0, fuel, g, t)
  }

  // -------------------------------------------------------------------
  // Properties

  /** A declaration `INT name IS value` with an identifier value gets one
      error exactly when the identifier is declared with another type. */
  lemma DeclValueFlagged(s: PState, t: Symbols.Table)
    requires |s.declStack| == 4
    ensures var r := DeclCheck(s, t); var v := s.declStack[3];
      r.exc.None? ==>
        (r.st.errors != s.errors <==>
           s.declStack[0].name == "INT" && v.name == "IDENT" &&
           Symbols.Lookup(t, v.value).Some? && Symbols.Lookup(t, v.value).value.typ != "INT")
    ensures var r := DeclCheck(s, t); r.exc.None? ==> r.st == s.(errors := r.st.errors)
  {
  }

  /** A declaration whose value is an expression: the expression is typed,
      the operation stack is reset, and the declaration gets one error
      exactly when its type is not the expression's, where an expression is
      `INT` exactly when every identifier in it is declared `INT`. */
  lemma DeclExprFlagged(s: PState, t: Symbols.Table)
    requires |s.declStack| > 4
    ensures var r := DeclCheck(s, t); var e := ExprType(s.declStack[3..], s.opIndex, t);
      r.exc.None? ==>
        && e.exc.None?
        && r.st.opStack == [] && r.st.opIndex == 0
        && (r.st.errors != s.errors <==>
              s.declStack[0].name != (if IdentsInt(s.declStack[3..], s.opIndex + 1, e.index, t) then "INT" else "STR"))
  {
    ExprIntIff(s.declStack[3..], s.opIndex, t);
  }

  /** An assignment of an identifier gets one error exactly when it stores
      a `STR` variable into an `INT` variable. */
  lemma AssignValueFlagged(s: PState, t: Symbols.Table)
    requires |s.assignStack| >= 4 && s.assignStack[3].name == "IDENT"
    ensures var r := AssignCheck(s, t); var target := Symbols.Lookup(t, s.assignStack[1].value);
      var v := Symbols.Lookup(t, s.assignStack[3].value);
      && (r.exc.None? <==> target.Some? && v.Some?)
      && (r.exc.None? ==> (r.st.errors != s.errors <==> target.value.typ == "INT" && v.value.typ == "STR"))
  {
  }

  /** An assignment of an expression gets one error exactly when the
      target is an `INT` variable and some identifier in the expression is
      not an `INT`; the operation stack is reset. */
  lemma AssignExprFlagged(s: PState, t: Symbols.Table)
    requires |s.assignStack| >= 4 && IsOperator(s.assignStack[3].name)
    ensures var r := AssignCheck(s, t); var e := ExprType(s.assignStack[3..], s.opIndex, t);
      var target := Symbols.Lookup(t, s.assignStack[1].value);
      r.exc.None? ==>
        && target.Some? && e.exc.None?
        && r.st.opStack == [] && r.st.opIndex == 0
        && (r.st.errors != s.errors <==> target.value.typ == "INT" && !IdentsInt(s.assignStack[3..], s.opIndex + 1, e.index, t))
  {
    ExprIntIff(s.assignStack[3..], s.opIndex, t);
  }

  /** An assignment whose value is neither an identifier nor an operator,
      a literal, is never an error and changes nothing. */
  lemma AssignLiteralAccepted(s: PState, t: Symbols.Table)
    requires |s.assignStack| >= 4 && s.assignStack[3].name != "IDENT" && !IsOperator(s.assignStack[3].name)
    requires Symbols.Lookup(t, s.assignStack[1].value).Some?
    ensures AssignCheck(s, t) == Out(s, None)
  {
  }

  /** A second `VariableDeclaration` while a declaration frame is open
      checks the old frame but does not empty it: its tokens, including
      its declared type, stay at the front of the new frame. */
  lemma RedeclarationKeepsFrame(s: PState, line: int, t: Symbols.Table)
    requires s.inDecl
    ensures var r := HookDeclaration(s, "VariableDeclaration", line, t);
      r.exc.None? ==> r.st.inDecl && r.st.declStack == s.declStack && r.st.declLine == line && !r.st.inAssign
  {
  }

  /** `VarDeclTail` with an empty body checks the open declaration frame
      but neither closes nor empties it. */
  lemma DeclTailKeepsFrame(s: PState, symbols: seq<string>, t: Symbols.Table)
    requires s.inDecl && "e" in symbols
    ensures var r := HookDeclTail(s, "VarDeclTail", symbols, t);
      && r == DeclCheck(s, t)
      && (r.exc.None? ==> r.st.inDecl && r.st.declStack == s.declStack && r.st.declLine == s.declLine)
  {
  }

  /** A matched terminal other than `LOI` leaves the buffer and joins the
      open frames; the next symbol comes off the stack and no error is
      added. */
  lemma MatchConsumes(s: PState, current: string, line: int, g: Tables, t: Symbols.Table)
    requires |s.buffer| > 0 && |s.stack| > 0 && current == s.buffer[0].name && current != "LOI"
    ensures var o := Step(s, current, line, g, t);
      && o.kind.Moved?
      && o.st.buffer == s.buffer[1..]
      && o.st.stack + [o.kind.current] == s.stack
      && o.st.errors == s.errors && o.st.isValid == s.isValid
      && o.st.declStack == (if s.inDecl then s.declStack + [s.buffer[0]] else s.declStack)
      && o.st.assignStack == (if s.inAssign then s.assignStack + [s.buffer[0]] else s.assignStack)
  {
  }

  /** A nonterminal whose table entry is found is replaced on the stack by
      the production body, so the body's first symbol other than `e` is the
      next one examined; the input is not consumed. */
  lemma ExpandPushesBody(s: PState, current: string, line: int, g: Tables, t: Symbols.Table, p: Production)
    requires |s.buffer| > 0 && |s.stack| > 0 && current != s.buffer[0].name && !IsUpperStr(current)
    requires TableEntry(g, current, s.buffer[0].name) == Found(p)
    requires Hooks(s, p.name, BodySymbols(p.body), line, t).exc.None?
    ensures var o := Step(s, current, line, g, t); var body := NonEpsilon(BodySymbols(p.body));
      && o.kind.Moved?
      && o.st.stack + [o.kind.current] == Pushed(s.stack, BodySymbols(p.body))
      && o.st.buffer == s.buffer && o.st.isValid == s.isValid
      && (body != [] ==> o.kind.current == body[0] && o.st.stack == s.stack + Reverse(body[1..]))
  {
    var symbols := BodySymbols(p.body);
    if NonEpsilon(symbols) != [] {
      PushedTop(s.stack, symbols);
    }
  }

  /** A terminal on top of the stack that does not match the input is a
      syntax error: one message, and the parse is invalid. */
  lemma MismatchStops(s: PState, current: string, line: int, g: Tables, t: Symbols.Table)
    requires |s.buffer| > 0 && |s.stack| > 0 && current != s.buffer[0].name && IsUpperStr(current)
    ensures var o := Step(s, current, line, g, t);
      && o.kind.Stopped? && !o.st.isValid
      && o.st.errors == s.errors + [MismatchMessage(line, current, s.buffer[0])]
      && o.st.stack == s.stack && o.st.buffer == s.buffer
  {
  }

  /** A nonterminal without a table entry, because its row or the input's
      column is absent or the cell is empty, is a syntax error: one message,
      and the parse is invalid. */
  lemma MissingEntryStops(s: PState, current: string, line: int, g: Tables, t: Symbols.Table)
    requires |s.buffer| > 0 && |s.stack| > 0 && current != s.buffer[0].name && !IsUpperStr(current)
    requires TableEntry(g, current, s.buffer[0].name) == Missing
    ensures var o := Step(s, current, line, g, t);
      && o.kind.Stopped? && !o.st.isValid
      && o.st.errors == s.errors + [NoProductionMessage(line, s.buffer[0])]
      && o.st.stack == s.stack && o.st.buffer == s.buffer
  {
  }

  /** Once the parse is invalid no later entry of the token dictionary is
      read: only the line number moves on. */
  lemma InvalidStopsLines(s: PState, current: string, lines: seq<NumberedLine>, k: nat, fuel: nat, g: Tables, t: Symbols.Table)
    requires k < |lines| && !s.isValid
    ensures var r := Lines(s, current, lines, k, fuel, g, t);
      r.st == s.(lineNumber := lines[k].number) && r.halt == Done
  {
  }

  /** `parse` does not clear the stack: with no input, the stack left by an
      earlier call stays, under a new `$`. */
  lemma StackNotCleared(s: PState, fuel: nat, g: Tables, t: Symbols.Table)
    requires |g.prods| > 0 && |g.prods[0]| >= 2
    ensures var r := Parsed(s, [], fuel, g, t);
      r.st.stack == s.stack + ["$"] && r.st.errors == [] && r.st.isValid && r.halt == Done
  {
  }

  // -------------------------------------------------------------------
  // The parser object

  class Parser {
    /** The rows of `grammar.prod` and `grammar.ptbl`, split on commas. */
    const prodTable: seq<Row>
    const parseTable: seq<Row>
    const symbolTable: Symbols.SymbolTable

    var stack: seq<string>
    var inputBuffer: seq<Token>
    var errorMessage: seq<string>
    var isValid: bool
    var lineNumber: int
    var operationStackIndex: nat
    var operationStack: seq<Token>
    var inDeclaration: bool
    var declarationStack: seq<Token>
    var declarationLine: int
    var inAssignment: bool
    var assignmentStack: seq<Token>
    var inAssignmentLine: int

    ghost function State(): PState
      reads this
    {
      PState(stack, inputBuffer, errorMessage, isValid, lineNumber, operationStack, operationStackIndex,
             inDeclaration, declarationStack, declarationLine, inAssignment, assignmentStack, inAssignmentLine)
    }

    function TablesOf(): Tables { Tables(prodTable, parseTable) }

    /** The tables are parameters here: reading the two files is left out.
        `is_valid` starts as the type object `bool`, which is truthy. */
    constructor (prods: seq<Row>, ptable: seq<Row>, symbolTable: Symbols.SymbolTable)
      ensures prodTable == prods && parseTable == ptable && this.symbolTable == symbolTable
      ensures State() == PState([], [], [], true, 1, [], 0, false, [], 0, false, [], 0)
    {
      prodTable, parseTable, this.symbolTable := prods, ptable, symbolTable;
      stack, inputBuffer, errorMessage, isValid, lineNumber := [], [], [], true, 1;
      operationStackIndex, operationStack := 0, [];
      inDeclaration, declarationStack, declarationLine := false, [], 0;
      inAssignment, assignmentStack, inAssignmentLine := false, [], 0;
    }

    /** `_getOperationStackNextToken`: the index moves on even when the read
        raises IndexError (None). */
    method GetOperationStackNextToken() returns (tok: Option<Token>)
      modifies this
      ensures State() == old(State()).(opIndex := old(operationStackIndex) + 1)
      ensures tok.Some? <==> old(operationStackIndex) < |operationStack|
      ensures tok.Some? ==> tok.value == operationStack[old(operationStackIndex)]
    {
      operationStackIndex := operationStackIndex + 1;
      if operationStackIndex - 1 < |operationStack| {
        tok := Some(operationStack[operationStackIndex - 1]);
      } else {
        tok := None;
      }
    }

    /** `_expressionSemanticAnalysis`. */
    method ExpressionSemanticAnalysis() returns (typ: string, exc: Option<Exc>)
      modifies this
      ensures var r := ExprType(old(operationStack), old(operationStackIndex), symbolTable.entries);
        State() == old(State()).(opIndex := r.index) && exc == r.exc && (exc.None? ==> typ == r.typ)
      decreases |operationStack| - operationStackIndex, 0
    {
      var operator := GetOperationStackNextToken();
      if operator.None? {
        return "", Some(IndexError);
      }
      var type1, exc1 := OperandSemanticAnalysis();
      if exc1.Some? {
        return "", exc1;
      }
      var type2, exc2 := OperandSemanticAnalysis();
      if exc2.Some? {
        return "", exc2;
      }
      return if type1 == "INT" && type2 == "INT" then "INT" else "STR", None;
    }

    /** The operand part of `_expressionSemanticAnalysis`, which the source
        writes out twice. */
    method OperandSemanticAnalysis() returns (typ: string, exc: Option<Exc>)
      modifies this
      ensures var r := OperandType(old(operationStack), old(operationStackIndex), symbolTable.entries);
        State() == old(State()).(opIndex := r.index) && exc == r.exc && (exc.None? ==> typ == r.typ)
      decreases |operationStack| - operationStackIndex, 1
    {
      var op := GetOperationStackNextToken();
      if op.None? {
        return "", Some(IndexError);
      }
      if IsOperator(op.value.name) {
        operationStackIndex := operationStackIndex - 1;
        typ, exc := ExpressionSemanticAnalysis();
      } else if op.value.name == "IDENT" {
        var variable := symbolTable.GetSymbol(op.value.value);
        if variable.None? {
          return "", Some(KeyError);
        }
        typ, exc := variable.value.typ, None;
      } else {
        typ, exc := "INT", None;
      }
    }

    /** `_varDeclarationSemanticAnalysis`. */
    method VarDeclarationSemanticAnalysis() returns (exc: Option<Exc>)
      modifies this
      ensures Out(State(), exc) == DeclCheck(old(State()), symbolTable.entries)
    {
      if |declarationStack| == 0 {
        return Some(IndexError);
      }
      var declared := declarationStack[0].name;
      if |declarationStack| == 4 {
        var value := declarationStack[3];
        if declared == "INT" && value.name == "IDENT" {
          var variable := symbolTable.GetSymbol(value.value);
          if variable.None? {
            return Some(KeyError);
          }
          if variable.value.typ != "INT" {
            errorMessage := errorMessage + [DeclValueMessage(declarationLine, value, variable.value.typ, declared)];
          }
        }
      }
      if |declarationStack| > 4 {
        operationStack := declarationStack[3..];
        var resulting, e := ExpressionSemanticAnalysis();
        if e.Some? {
          return e;
        }
        if declared != resulting {
          errorMessage := errorMessage + [DeclExprMessage(declarationLine, operationStack, resulting, declared)];
        }
        ResetOperationStates();
      }
      return None;
    }

    /** `_assignmentSemanticAnalysis`. */
    method AssignmentSemanticAnalysis() returns (exc: Option<Exc>)
      modifies this
      ensures Out(State(), exc) == AssignCheck(old(State()), symbolTable.entries)
    {
      if |assignmentStack| < 2 {
        return Some(IndexError);
      }
      var target := symbolTable.GetSymbol(assignmentStack[1].value);
      if target.None? {
        return Some(KeyError);
      }
      if |assignmentStack| < 4 {
        return Some(IndexError);
      }
      var value := assignmentStack[3];
      if value.name == "IDENT" {
        var variable := symbolTable.GetSymbol(value.value);
        if variable.None? {
          return Some(KeyError);
        }
        if target.value.typ == "INT" && variable.value.typ == "STR" {
          errorMessage := errorMessage + [AssignValueMessage(inAssignmentLine, value, variable.value.typ, target.value.typ)];
        }
      } else if IsOperator(value.name) {
        operationStack := assignmentStack[3..];
        var resulting, e := ExpressionSemanticAnalysis();
        if e.Some? {
          return e;
        }
        if target.value.typ == "INT" && resulting == "STR" {
          errorMessage := errorMessage + [AssignExprMessage(inAssignmentLine, operationStack, resulting, target.value.typ)];
        }
        ResetOperationStates();
      }
      return None;
    }

    method ResetVarDeclStates()
      modifies this
      ensures State() == ResetDecl(old(State()))
    {
      inDeclaration, declarationStack, declarationLine := false, [], 0;
    }

    method ResetAssignState()
      modifies this
      ensures State() == ResetAssign(old(State()))
    {
      inAssignment, assignmentStack, inAssignmentLine := false, [], 0;
    }

    method ResetOperationStates()
      modifies this
      ensures State() == ResetOps(old(State()))
    {
      operationStack, operationStackIndex := [], 0;
    }

    /** The frame closing `parse` does at `LOI` and for the `Input` and
        `Output` productions. */
    method CloseOpenFrame() returns (exc: Option<Exc>)
      modifies this
      ensures Out(State(), exc) == CloseFrame(old(State()), symbolTable.entries)
    {
      exc := None;
      if inAssignment {
        exc := AssignmentSemanticAnalysis();
        if exc.None? {
          ResetAssignState();
        }
      } else if inDeclaration {
        exc := VarDeclarationSemanticAnalysis();
        if exc.None? {
          ResetVarDeclStates();
        }
      }
    }

    /** The production hooks of `parse`, in order. */
    method RunHooks(name: string, symbols: seq<string>, line: int) returns (exc: Option<Exc>)
      modifies this
      ensures Out(State(), exc) == Hooks(old(State()), name, symbols, line, symbolTable.entries)
    {
      ghost var s0 := State();
      exc := None;
      if name == "VariableDeclaration" {
        inAssignment := false;
        if inDeclaration {
          exc := VarDeclarationSemanticAnalysis();
          if exc.Some? {
            return;
          }
        }
        inDeclaration := true;
        declarationLine := line;
      }
      assert Out(State(), None) == HookDeclaration(s0, name, line, symbolTable.entries);
      ghost var s1 := State();
      if inDeclaration && name == "VarDeclTail" && "e" in symbols {
        exc := VarDeclarationSemanticAnalysis();
        if exc.Some? {
          return;
        }
      }
      assert Out(State(), None) == HookDeclTail(s1, name, symbols, symbolTable.entries);
      ghost var s2 := State();
      if name == "Assignment" {
        inDeclaration := false;
        if inAssignment {
          exc := AssignmentSemanticAnalysis();
          if exc.Some? {
            return;
          }
          ResetAssignState();
        }
        inAssignment := true;
        inAssignmentLine := line;
      }
      assert Out(State(), None) == HookAssignment(s2, name, line, symbolTable.entries);
      if name == "Input" || name == "Output" {
        exc := CloseOpenFrame();
      }
    }

    /** A matched terminal. */
    method MatchInput(input: Token) returns (kind: Kind)
      requires |inputBuffer| > 0 && |stack| > 0
      modifies this
      ensures StepOut(State(), kind) == MatchTerminal(old(State()), input, symbolTable.entries)
    {
      if input.name == "LOI" {
        var exc := CloseOpenFrame();
        if exc.Some? {
          return Threw(exc.value);
        }
      }
      if inDeclaration {
        declarationStack := declarationStack + [input];
      }
      if inAssignment {
        assignmentStack := assignmentStack + [input];
      }
      inputBuffer := inputBuffer[1..];
      var next := stack[|stack| - 1];
      stack := stack[..|stack| - 1];
      return Moved(next);
    }

    /** A nonterminal on top of the stack. */
    method ExpandNonterminal(current: string, input: Token, line: int) returns (kind: Kind)
      requires |stack| > 0
      modifies this
      ensures StepOut(State(), kind) == Expand(old(State()), current, input, line, TablesOf(), symbolTable.entries)
    {
      var entry := LookUpEntry(current, input.name);
      match entry
      case Broken(e) =>
        return Threw(e);
      case Missing =>
        errorMessage := errorMessage + [NoProductionMessage(line, input)];
        isValid := false;
        return Stopped;
      case Found(production) =>
        kind := ApplyProduction(production, line);
    }

    /** The row, the column, the cell and the production of `parse`. */
    method LookUpEntry(current: string, name: string) returns (entry: Entry)
      ensures entry == TableEntry(TablesOf(), current, name)
    {
      var row := RowOf(parseTable, current);
      var col, exc := ColumnOf(parseTable, name);
      if exc.Some? {
        return Broken(exc.value);
      }
      if row.None? || col.None? {
        return Missing;
      }
      if col.value >= |parseTable[row.value]| {
        return Broken(IndexError);
      }
      var cell := parseTable[row.value][col.value];
      if cell == "" {
        return Missing;
      }
      var production := ProductionOf(prodTable, cell);
      if production.Fails? {
        return Broken(production.exc);
      }
      return Found(production.production);
    }

    /** The hooks, then the body pushed and the next symbol popped. */
    method ApplyProduction(production: Production, line: int) returns (kind: Kind)
      requires |stack| > 0
      modifies this
      ensures var symbols := BodySymbols(production.body);
        var o := Hooks(old(State()), production.name, symbols, line, symbolTable.entries);
        var pushed := Pushed(o.st.stack, symbols);
        if o.exc.Some? then StepOut(State(), kind) == StepOut(o.st, Threw(o.exc.value))
        else StepOut(State(), kind) == StepOut(o.st.(stack := pushed[..|pushed| - 1]), Moved(pushed[|pushed| - 1]))
    {
      var symbols := BodySymbols(production.body);
      var exc := RunHooks(production.name, symbols, line);
      if exc.Some? {
        return Threw(exc.value);
      }
      stack := PushBody(stack, symbols);
      var next := stack[|stack| - 1];
      stack := stack[..|stack| - 1];
      return Moved(next);
    }

    /** One iteration of the inner loop of `parse`. */
    method ParseStep(current: string, line: int) returns (kind: Kind)
      requires |inputBuffer| > 0 && |stack| > 0
      modifies this
      ensures StepOut(State(), kind) == Step(old(State()), current, line, TablesOf(), symbolTable.entries)
    {
      var input := inputBuffer[0];
      if current == input.name {
        kind := MatchInput(input);
      } else if IsUpperStr(current) {
        errorMessage := errorMessage + [MismatchMessage(line, current, input)];
        isValid := false;
        kind := Stopped;
      } else {
        kind := ExpandNonterminal(current, input, line);
      }
    }

    /** The body of the outer loop of `parse` on a valid parse. */
    method ParseLine(line: NumberedLine, current: string, fuel: nat) returns (next: string, left: nat, halt: Halt)
      modifies this
      ensures Run(State(), next, left, halt) == OneLine(old(State()), current, line, fuel, TablesOf(), symbolTable.entries)
    {
      lineNumber := line.number;
      inputBuffer := inputBuffer + line.tokens;
      if |inputBuffer| == 0 {
        return current, fuel, Crashed(IndexError);
      }
      ghost var goal := OneLine(old(State()), current, line, fuel, TablesOf(), symbolTable.entries);
      assert goal == Inner(State(), current, line.number, fuel, TablesOf(), symbolTable.entries);
      next, left := current, fuel;
      while next != "$" && |stack| != 0 && |inputBuffer| != 0
        invariant Inner(State(), next, line.number, left, TablesOf(), symbolTable.entries) == goal
        decreases left
      {
        if left == 0 {
          return next, 0, OutOfFuel;
        }
        ghost var before := State();
        var kind := ParseStep(next, line.number);
        InnerAfter(before, next, line.number, left, TablesOf(), symbolTable.entries, State(), kind);
        left := left - 1;
        match kind
        case Moved(symbol) =>
          next := symbol;
        case Stopped =>
          return next, left, Done;
        case Threw(e) =>
          return next, left, Crashed(e);
      }
      halt := Done;
    }

    /** `parse(input_tokens)`, with at most `fuel` iterations of the inner
        loop followed. */
    method Parse(inputTokens: seq<NumberedLine>, fuel: nat) returns (halt: Halt)
      modifies this
      ensures var r := Parsed(old(State()), inputTokens, fuel, TablesOf(), symbolTable.entries);
        State() == r.st && halt == r.halt
    {
      inputBuffer, errorMessage, isValid := [], [], true;
      stack := stack + ["$"];
      if |prodTable| == 0 || |prodTable[0]| < 2 {
        return Crashed(IndexError);
      }
      stack := stack + [prodTable[0][1]];
      var current := stack[|stack| - 1];
      stack := stack[..|stack| - 1];
      assert State() == Begin(old(State()));
      halt := ParseLines(inputTokens, current, fuel);
    }

    /** The outer `for` of `parse`. */
    method ParseLines(inputTokens: seq<NumberedLine>, current: string, fuel: nat) returns (halt: Halt)
      modifies this
      ensures var r := Lines(old(State()), current, inputTokens, 0, fuel, TablesOf(), symbolTable.entries);
        State() == r.st && halt == r.halt
    {
      ghost var goal := Lines(State(), current, inputTokens, 0, fuel, TablesOf(), symbolTable.entries);
      var k, left, symbol := 0, fuel, current;
      while k < |inputTokens|
        invariant k <= |inputTokens|
        invariant Lines(State(), symbol, inputTokens, k, left, TablesOf(), symbolTable.entries) == goal
      {
        ghost var s := State();
        lineNumber := inputTokens[k].number;
        assert State() == s.(lineNumber := inputTokens[k].number);
        if !isValid {
          return Done;
        }
        ghost var r := OneLine(s, symbol, inputTokens[k], left, TablesOf(), symbolTable.entries);
        assert goal == if r.halt != Done then r else Lines(r.st, r.current, inputTokens, k + 1, r.fuel, TablesOf(), symbolTable.entries);
        var h;
        symbol, left, h := ParseLine(inputTokens[k], symbol, left);
        if h != Done {
          return h;
        }
        k := k + 1;
      }
      return Done;
    }
  }
}
