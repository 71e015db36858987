/** The earlier, unchecked version of the predictive parser: the same
    table walk without semantic checks and without an error list. A syntax
    error only ends the current line's loop, and `is_valid` is never set
    back to true. */
module DraftParsing {
  import opened Py
  import opened Text
  import opened Tokens
  import opened Grammar

  /** The fields of the draft parser that `parse` reads and writes. */
  datatype DState = DState(stack: seq<string>, buffer: seq<Token>, isValid: bool)

  /** The table entry as the draft reads it: an absent row or column is
      used as a list index and raises TypeError. */
  function DraftEntry(g: Tables, symbol: string, input: string): (r: Entry)
    ensures r == Broken(TypeError) <==>
      (|g.ptable| > 0 && (FirstRow(g.ptable, symbol).None? || input !in g.ptable[0]))
  {
    if |g.ptable| == 0 then Broken(IndexError)
    else
      var row := FirstRow(g.ptable, symbol);
      var col := FirstColumn(g.ptable[0], input);
      if row.None? || col.None? then Broken(TypeError)
      else if col.value >= |g.ptable[row.value]| then Broken(IndexError)
      else
        var cell := g.ptable[row.value][col.value];
        if cell == "" then Missing
        else match ProductionOf(g.prods, cell)
          case Fails(e) => Broken(e)
          case Holds(p) => Found(p)
  }

  /** The two parsers find the same production wherever the checking
      parser finds one; where the checking parser reports an absent row or
      column, the draft raises TypeError. */
  lemma DraftEntryAgrees(g: Tables, symbol: string, input: string)
    ensures TableEntry(g, symbol, input).Found? <==> DraftEntry(g, symbol, input).Found?
    ensures TableEntry(g, symbol, input).Found? ==> TableEntry(g, symbol, input) == DraftEntry(g, symbol, input)
    ensures DraftEntry(g, symbol, input) == Broken(TypeError) ==> TableEntry(g, symbol, input) == Missing
  {
  }

  /** One iteration of the inner `while` of the draft `parse`. */
  function Step(s: DState, current: string, g: Tables): (r: StepOut<DState>)
    requires |s.buffer| > 0 && |s.stack| > 0
    ensures r.kind.Stopped? ==> r.st == s.(isValid := false)
    ensures r.kind.Threw? ==> r.st == s
    ensures r.st.isValid ==> s.isValid
    ensures r.st.buffer == s.buffer || r.st.buffer == s.buffer[1..]
  {
    var input := s.buffer[0];
    if current == input.name then
      StepOut(s.(buffer := s.buffer[1..], stack := s.stack[..|s.stack| - 1]), Moved(s.stack[|s.stack| - 1]))
    else if IsUpperStr(current) then StepOut(s.(isValid := false), Stopped)
    else Expand(s, current, input, g)
  }

  /** A nonterminal on top: the table entry for it and the input decides. */
  function Expand(s: DState, current: string, input: Token, g: Tables): (r: StepOut<DState>)
    requires |s.stack| > 0
    ensures r.kind.Stopped? <==> DraftEntry(g, current, input.name) == Missing
    ensures r.kind.Threw? <==> DraftEntry(g, current, input.name).Broken?
    ensures r.st.buffer == s.buffer && r.st.isValid == (s.isValid && !r.kind.Stopped?)
  {
    match DraftEntry(g, current, input.name)
    case Broken(e) => StepOut(s, Threw(e))
    case Missing => StepOut(s.(isValid := false), Stopped)
    case Found(p) =>
      var pushed := Pushed(s.stack, BodySymbols(p.body));
      StepOut(s.(stack := pushed[..|pushed| - 1]), Moved(pushed[|pushed| - 1]))
  }

  predicate Looping(s: DState, current: string) {
    current != "$" && |s.stack| != 0 && |s.buffer| != 0
  }

  /** The inner `while`. */
  function Inner(s: DState, current: string, fuel: nat, g: Tables): (r: Run<DState>)
    ensures r.fuel <= fuel
    decreases fuel
  {
    if !Looping(s, current) then Run(s, current, fuel, Done)
    else if fuel == 0 then Run(s, current, 0, OutOfFuel)
    else
      var o := Step(s, current, g);
      match o.kind
      case Moved(next) => Inner(o.st, next, fuel - 1, g)
      case Stopped => Run(o.st, current, fuel - 1, Done)
      case Threw(e) => Run(o.st, current, fuel - 1, Crashed(e))
  }

  /** What is left of the loop after one iteration. */
  lemma InnerAfter(s: DState, current: string, fuel: nat, g: Tables, st: DState, kind: Kind)
    requires Looping(s, current) && fuel > 0 && Step(s, current, g) == StepOut(st, kind)
    ensures kind.Moved? ==> Inner(s, current, fuel, g) == Inner(st, kind.current, fuel - 1, g)
    ensures kind.Stopped? ==> Inner(s, current, fuel, g) == Run(st, current, fuel - 1, Done)
    ensures kind.Threw? ==> Inner(s, current, fuel, g) == Run(st, current, fuel - 1, Crashed(kind.exc))
  {
  }

  /** A matched terminal leaves the buffer and the next symbol comes off
      the stack. */
  lemma MatchConsumes(s: DState, current: string, g: Tables)
    requires |s.buffer| > 0 && |s.stack| > 0 && current == s.buffer[0].name
    ensures var o := Step(s, current, g);
      && o.kind.Moved?
      && o.st.buffer == s.buffer[1..]
      && o.st.stack + [o.kind.current] == s.stack
      && o.st.isValid == s.isValid
  {
  }

  /** A nonterminal whose entry is found is replaced on the stack by the
      production body; the input is not consumed. */
  lemma ExpandPushesBody(s: DState, current: string, g: Tables, p: Production)
    requires |s.buffer| > 0 && |s.stack| > 0 && current != s.buffer[0].name && !IsUpperStr(current)
    requires DraftEntry(g, current, s.buffer[0].name) == Found(p)
    ensures var o := Step(s, current, g);
      && o.kind.Moved?
      && o.st.stack + [o.kind.current] == Pushed(s.stack, BodySymbols(p.body))
      && o.st.buffer == s.buffer && o.st.isValid == s.isValid
  {
  }

  /** So the body's first symbol other than `e` is the next one examined,
      and the rest of the body lies on the stack in reverse. */
  lemma ExpandExaminesFirst(s: DState, current: string, g: Tables, p: Production)
    requires |s.buffer| > 0 && |s.stack| > 0 && current != s.buffer[0].name && !IsUpperStr(current)
    requires DraftEntry(g, current, s.buffer[0].name) == Found(p)
    requires NonEpsilon(BodySymbols(p.body)) != []
    ensures var o := Step(s, current, g); var body := NonEpsilon(BodySymbols(p.body));
      o.kind.Moved? && o.kind.current == body[0] && o.st.stack == s.stack + Reverse(body[1..])
  {
    ExpandPushesBody(s, current, g, p);
    PushedTop(s.stack, BodySymbols(p.body));
  }

  /** A terminal that does not match the input, or an empty cell, ends the
      line's loop with the parse invalid and nothing else changed. */
  lemma SyntaxErrorStops(s: DState, current: string, g: Tables)
    requires |s.buffer| > 0 && |s.stack| > 0 && current != s.buffer[0].name
    requires IsUpperStr(current) || DraftEntry(g, current, s.buffer[0].name) == Missing
    ensures var o := Step(s, current, g);
      o.kind.Stopped? && o.st == s.(isValid := false)
  {
  }

  /** One entry of the token dictionary: its tokens join the buffer, whose
      front must exist, and the inner loop runs, valid or not. */
  function OneLine(s: DState, current: string, line: NumberedLine, fuel: nat, g: Tables): (r: Run<DState>)
    ensures r.fuel <= fuel
  {
    var b := s.(buffer := s.buffer + line.tokens);
    if |b.buffer| == 0 then Run(b, current, fuel, Crashed(IndexError))
    else Inner(b, current, fuel, g)
  }

  /** The outer `for`, from entry `k` on. */
  function Lines(s: DState, current: string, lines: seq<NumberedLine>, k: nat, fuel: nat, g: Tables): (r: Run<DState>)
    requires k <= |lines|
    ensures r.fuel <= fuel
    decreases |lines| - k
  {
    if k == |lines| then Run(s, current, fuel, Done)
    else
      var r := OneLine(s, current, lines[k], fuel, g);
      if r.halt != Done then r
      else Lines(r.st, r.current, lines, k + 1, r.fuel, g)
  }

  /** The draft `parse`: the buffer is emptied and `$` and the start symbol
      are pushed; neither the stack nor `is_valid` is reset. */
  function Parsed(s: DState, lines: seq<NumberedLine>, fuel: nat, g: Tables): (r: Run<DState>)
    ensures r.fuel <= fuel
    ensures |g.prods| == 0 || |g.prods[0]| < 2 ==> r.halt == Crashed(IndexError) && r.st.stack == s.stack + ["$"]
  {
    var a := s.(buffer := [], stack := s.stack + ["$"]);
    if |g.prods| == 0 || |g.prods[0]| < 2 then Run(a, "", fuel, Crashed(IndexError))
    else Lines(a, g.prods[0][1], lines, 0, fuel, g)
  }

  lemma {:induction false} InnerNeverRevalidates(s: DState, current: string, fuel: nat, g: Tables)
    ensures Inner(s, current, fuel, g).st.isValid ==> s.isValid
    decreases fuel
  {
    if Looping(s, current) && fuel > 0 {
      var o := Step(s, current, g);
      if o.kind.Moved? {
        InnerNeverRevalidates(o.st, o.kind.current, fuel - 1, g);
      }
    }
  }

  lemma {:induction false} LinesNeverRevalidate(s: DState, current: string, lines: seq<NumberedLine>, k: nat, fuel: nat, g: Tables)
    requires k <= |lines|
    ensures Lines(s, current, lines, k, fuel, g).st.isValid ==> s.isValid
    decreases |lines| - k
  {
    if k < |lines| {
      var b := s.(buffer := s.buffer + lines[k].tokens);
      if |b.buffer| > 0 {
        InnerNeverRevalidates(b, current, fuel, g);
        var r := OneLine(s, current, lines[k], fuel, g);
        if r.halt == Done {
          LinesNeverRevalidate(r.st, r.current, lines, k + 1, r.fuel, g);
        }
      }
    }
  }

  /** The draft never sets `is_valid` to true: once a parse has failed,
      every later parse on the same object reports failure too. */
  lemma InvalidStaysInvalid(s: DState, lines: seq<NumberedLine>, fuel: nat, g: Tables)
    requires !s.isValid
    ensures !Parsed(s, lines, fuel, g).st.isValid
  {
    var a := s.(buffer := [], stack := s.stack + ["$"]);
    if |g.prods| > 0 && |g.prods[0]| >= 2 {
      LinesNeverRevalidate(a, g.prods[0][1], lines, 0, fuel, g);
    }
  }

  /** A terminal mismatch does not end the parse: the next entry's tokens
      join the buffer behind the same unmatched token, and the same
      mismatch stops that line's loop as well. */
  lemma MismatchRecurs(s: DState, current: string, line: NumberedLine, fuel: nat, g: Tables)
    requires |s.buffer| > 0 && |s.stack| > 0 && current != "$"
    requires current != s.buffer[0].name && IsUpperStr(current)
    requires fuel > 0
    ensures var r := OneLine(s, current, line, fuel, g);
      && r.halt == Done && !r.st.isValid && r.current == current
      && r.st.buffer == s.buffer + line.tokens && r.st.stack == s.stack
  {
    var b := s.(buffer := s.buffer + line.tokens);
    assert b.buffer[0] == s.buffer[0];
  }

  class DraftParser {
    const prodTable: seq<Row>
    const parseTable: seq<Row>
    var stack: seq<string>
    var inputBuffer: seq<Token>
    var isValid: bool

    ghost function State(): DState
      reads this
    {
      DState(stack, inputBuffer, isValid)
    }

    function TablesOf(): Tables { Tables(prodTable, parseTable) }

    /** The tables are parameters here: reading the two files is left out.
        `is_valid` starts as the type object `bool`, which is truthy. */
    constructor (prods: seq<Row>, ptable: seq<Row>)
      ensures prodTable == prods && parseTable == ptable
      ensures State() == DState([], [], true)
    {
      prodTable, parseTable := prods, ptable;
      stack, inputBuffer, isValid := [], [], true;
    }

    /** Row, column, cell and production, as the draft reads them. */
    method LookUpEntry(current: string, name: string) returns (entry: Entry)
      ensures entry == DraftEntry(TablesOf(), current, name)
    {
      var row := RowOf(parseTable, current);
      var col, exc := ColumnOf(parseTable, name);
      if exc.Some? {
        return Broken(exc.value);
      }
      if row.None? || col.None? {
        return Broken(TypeError);
      }
      if col.value >= |parseTable[row.value]| {
        return Broken(IndexError);
      }
      var cell := parseTable[row.value][col.value];
      if cell == "" {
        return Missing;
      }
      var production := ProductionOf(prodTable, cell);
      if production.Fails? {
        return Broken(production.exc);
      }
      return Found(production.production);
    }

    method ParseStep(current: string) returns (kind: Kind)
      requires |inputBuffer| > 0 && |stack| > 0
      modifies this
      ensures StepOut(State(), kind) == Step(old(State()), current, TablesOf())
    {
      var input := inputBuffer[0];
      if current == input.name {
        inputBuffer := inputBuffer[1..];
        var next := stack[|stack| - 1];
        stack := stack[..|stack| - 1];
        return Moved(next);
      } else if IsUpperStr(current) {
        isValid := false;
        return Stopped;
      }
      kind := ExpandTop(current, input);
    }

    /** The branch of `parse` that consults the table. */
    method ExpandTop(current: string, input: Token) returns (kind: Kind)
      requires |stack| > 0
      modifies this
      ensures StepOut(State(), kind) == Expand(old(State()), current, input, TablesOf())
    {
      var entry := LookUpEntry(current, input.name);
      match entry
      case Broken(e) =>
        return Threw(e);
      case Missing =>
        isValid := false;
        return Stopped;
      case Found(production) =>
        var pushed := PushBody(stack, BodySymbols(production.body));
        stack := pushed[..|pushed| - 1];
        return Moved(pushed[|pushed| - 1]);
    }

    method ParseLine(line: NumberedLine, current: string, fuel: nat) returns (next: string, left: nat, halt: Halt)
      modifies this
      ensures Run(State(), next, left, halt) == OneLine(old(State()), current, line, fuel, TablesOf())
    {
      inputBuffer := inputBuffer + line.tokens;
      if |inputBuffer| == 0 {
        return current, fuel, Crashed(IndexError);
      }
      next, left, halt := RunInner(current, fuel);
    }

    /** The inner `while` of `parse`. */
    method RunInner(current: string, fuel: nat) returns (next: string, left: nat, halt: Halt)
      modifies this
      ensures Run(State(), next, left, halt) == Inner(old(State()), current, fuel, TablesOf())
    {
      next, left := current, fuel;
      ghost var goal := Inner(State(), current, fuel, TablesOf());
      while next != "$" && |stack| != 0 && |inputBuffer| != 0
        invariant Inner(State(), next, left, TablesOf()) == goal
        decreases left
      {
        if left == 0 {
          return next, 0, OutOfFuel;
        }
        ghost var before := State();
        var kind := ParseStep(next);
        InnerAfter(before, next, left, TablesOf(), State(), kind);
        left := left - 1;
        match kind
        case Moved(symbol) =>
          next := symbol;
        case Stopped =>
          return next, left, Done;
        case Threw(e) =>
          return next, left, Crashed(e);
      }
      halt := Done;
    }

    /** `parse(input_tokens)`, with at most `fuel` iterations of the inner
        loop followed. */
    method Parse(inputTokens: seq<NumberedLine>, fuel: nat) returns (halt: Halt)
      modifies this
      ensures var r := Parsed(old(State()), inputTokens, fuel, TablesOf());
        State() == r.st && halt == r.halt
    {
      inputBuffer := [];
      stack := stack + ["$"];
      if |prodTable| == 0 || |prodTable[0]| < 2 {
        return Crashed(IndexError);
      }
      stack := stack + [prodTable[0][1]];
      var current := stack[|stack| - 1];
      stack := stack[..|stack| - 1];
      ghost var goal := Lines(State(), current, inputTokens, 0, fuel, TablesOf());
      var k, left := 0, fuel;
      while k < |inputTokens|
        invariant k <= |inputTokens|
        invariant Lines(State(), current, inputTokens, k, left, TablesOf()) == goal
      {
        var h;
        current, left, h := ParseLine(inputTokens[k], current, left);
        if h != Done {
          return h;
        }
        k := k + 1;
      }
      return Done;
    }
  }
}
