/** The production table and the parse table both predictive parsers are
    driven by, and the operations on them the two parsers share. */
module Grammar {
  import opened Py
  import opened Text

  /** One line of a table file split on commas. `str.split(',')` never
      returns an empty list, so a row always has a first cell. */
  type Row = r: seq<string> | |r| > 0 witness [""]

  /** The index of the first row whose first cell is `sym`, searching from
      row `from`. */
  function FirstRowFrom(table: seq<Row>, sym: string, from: nat): (r: Option<nat>)
    requires from <= |table|
    ensures r.Some? ==> from <= r.value < |table| && table[r.value][0] == sym
    ensures r.Some? ==> forall j :: from <= j < r.value ==> table[j][0] != sym
    ensures r.None? ==> forall j :: from <= j < |table| ==> table[j][0] != sym
    decreases |table| - from
  {
    if from == |table| then None
    else if table[from][0] == sym then Some(from)
    else FirstRowFrom(table, sym, from + 1)
  }

  /** `_getParseTableRow`: the first row whose first cell is `sym`. */
  function FirstRow(table: seq<Row>, sym: string): (r: Option<nat>)
    ensures r.Some? ==> r.value < |table| && table[r.value][0] == sym
    ensures r.Some? ==> forall j :: 0 <= j < r.value ==> table[j][0] != sym
    ensures r.None? ==> forall j :: 0 <= j < |table| ==> table[j][0] != sym
  {
    FirstRowFrom(table, sym, 0)
  }

  /** The index of the first cell of `header` equal to `sym`, from `from`. */
  function FirstCellFrom(header: seq<string>, sym: string, from: nat): (r: Option<nat>)
    requires from <= |header|
    ensures r.Some? ==> from <= r.value < |header| && header[r.value] == sym
    ensures r.Some? ==> forall j :: from <= j < r.value ==> header[j] != sym
    ensures r.None? ==> forall j :: from <= j < |header| ==> header[j] != sym
    decreases |header| - from
  {
    if from == |header| then None
    else if header[from] == sym then Some(from)
    else FirstCellFrom(header, sym, from + 1)
  }

  /** `_getParseTableCol` on a table with a header row: the first header
      cell equal to `sym`. */
  function FirstColumn(header: seq<string>, sym: string): (r: Option<nat>)
    ensures r.Some? ==> r.value < |header| && header[r.value] == sym
    ensures r.Some? ==> forall j :: 0 <= j < r.value ==> header[j] != sym
    ensures r.None? ==> sym !in header
  {
    var r := FirstCellFrom(header, sym, 0);
    assert r.None? ==> forall j :: 0 <= j < |header| ==> header[j] != sym;
    r
  }

  /** A production: its left-hand nonterminal and its body text. */
  datatype Production = Production(name: string, body: string)

  /** The production a parse-table cell names: row `int(cell) - 1` of the
      production table (Python indexing, so `0` names the last row), with
      cell 1 its name and cell 2 its body. */
  function ProductionOf(prods: seq<Row>, cell: string): (r: Result)
    ensures r.Fails? ==> r.exc == ValueError || r.exc == IndexError
    ensures r.Fails? && r.exc == ValueError <==> PyInt(cell).None?
    ensures r.Holds? ==>
              (exists k :: 0 <= k < |prods| && |prods[k]| >= 3 && r.production == Production(prods[k][1], prods[k][2]))
    ensures PyInt(cell).Some? && 1 <= PyInt(cell).value <= |prods| ==>
              var row := prods[PyInt(cell).value - 1];
              r == if |row| >= 3 then Holds(Production(row[1], row[2])) else Fails(IndexError)
    ensures PyInt(cell).Some? && -|prods| < PyInt(cell).value <= 0 ==>
              var row := prods[|prods| + PyInt(cell).value - 1];
              r == if |row| >= 3 then Holds(Production(row[1], row[2])) else Fails(IndexError)
    ensures PyInt(cell).Some? && (PyInt(cell).value > |prods| || PyInt(cell).value <= -|prods|) ==> r == Fails(IndexError)
  {
    match PyInt(cell)
    case None => Fails(ValueError)
    case Some(n) =>
      match At(prods, n - 1)
      case None => Fails(IndexError)
      case Some(row) =>
        if |row| < 3 then Fails(IndexError) else Holds(Production(row[1], row[2]))
  }

  datatype Result = Holds(production: Production) | Fails(exc: Exc)

  /** `production.strip().split(' ')`. */
  function BodySymbols(body: string): (symbols: seq<string>)
    ensures |symbols| >= 1
  {
    SplitOn(Strip(body), ' ')
  }

  /** The body symbols other than `e`, which stands for the empty body. */
  function NonEpsilon(symbols: seq<string>): (r: seq<string>)
    ensures |r| <= |symbols|
    ensures forall k :: 0 <= k < |r| ==> r[k] != "e" && r[k] in symbols
  {
    if symbols == [] then []
    else (if symbols[0] == "e" then [] else [symbols[0]]) + NonEpsilon(symbols[1..])
  }

  /** Dropping `e` works piece by piece, so the kept symbols stay in the
      body's order. */
  lemma {:induction false} NonEpsilonAppend(a: seq<string>, b: seq<string>)
    ensures NonEpsilon(a + b) == NonEpsilon(a) + NonEpsilon(b)
    decreases |a|
  {
    if a == [] {
      assert a + b == b;
      assert NonEpsilon(a) == [];
    } else {
      var head := if a[0] == "e" then [] else [a[0]];
      assert (a + b)[0] == a[0] && (a + b)[1..] == a[1..] + b;
      NonEpsilonAppend(a[1..], b);
      var x, y := NonEpsilon(a[1..]), NonEpsilon(b);
      assert NonEpsilon(a + b) == head + (x + y);
      assert NonEpsilon(a) == head + x;
      assert head + (x + y) == (head + x) + y;
    }
  }

  /** A body without `e` is kept whole. */
  lemma {:induction false} NonEpsilonKeepsAll(symbols: seq<string>)
    requires "e" !in symbols
    ensures NonEpsilon(symbols) == symbols
  {
    if symbols != [] {
      assert "e" !in symbols[1..];
      NonEpsilonKeepsAll(symbols[1..]);
      assert symbols == [symbols[0]] + symbols[1..];
    }
  }

  function Reverse<T>(s: seq<T>): (r: seq<T>)
    ensures |r| == |s|
    ensures forall k :: 0 <= k < |s| ==> r[k] == s[|s| - 1 - k]
  {
    if s == [] then [] else Reverse(s[1..]) + [s[0]]
  }

  /** The stack after pushing a production body in reverse, skipping `e`,
      so that the body's first symbol ends on top. */
  function Pushed(stack: seq<string>, symbols: seq<string>): (r: seq<string>)
    ensures |r| == |stack| + |NonEpsilon(symbols)| && stack <= r
  {
    stack + Reverse(NonEpsilon(symbols))
  }

  /** `for symbol in production_symbols[::-1]: if symbol != 'e':
      stack.append(symbol)`. */
  method PushBody(stack: seq<string>, symbols: seq<string>) returns (r: seq<string>)
    ensures r == Pushed(stack, symbols)
  {
    r := stack;
    var i := |symbols|;
    while i > 0
      invariant 0 <= i <= |symbols|
      invariant r == stack + Reverse(NonEpsilon(symbols[i..]))
    {
      i := i - 1;
      assert symbols[i..] == [symbols[i]] + symbols[i + 1..];
      if symbols[i] != "e" {
        r := r + [symbols[i]];
      }
    }
    assert symbols[0..] == symbols;
  }

  /** After the push, the first non-`e` symbol of the body is on top, and
      popping it leaves the rest of the body reversed above the old stack. */
  lemma PushedTop(stack: seq<string>, symbols: seq<string>)
    requires NonEpsilon(symbols) != []
    ensures var p := Pushed(stack, symbols);
      && p[|p| - 1] == NonEpsilon(symbols)[0]
      && p[..|p| - 1] == stack + Reverse(NonEpsilon(symbols)[1..])
  {
    var n := NonEpsilon(symbols);
    assert Reverse(n) == Reverse(n[1..]) + [n[0]];
  }

  /** A body made only of `e` pushes nothing. */
  lemma {:induction false} PushedEpsilon(stack: seq<string>, symbols: seq<string>)
    requires forall k :: 0 <= k < |symbols| ==> symbols[k] == "e"
    ensures Pushed(stack, symbols) == stack
    decreases |symbols|
  {
    if symbols != [] {
      PushedEpsilon(stack, symbols[1..]);
    }
  }

  /** The production table and the parse table. */
  datatype Tables = Tables(prods: seq<Row>, ptable: seq<Row>)

  /** The row loop of `_getParseTableRow`. */
  method RowOf(table: seq<Row>, symbol: string) returns (r: Option<nat>)
    ensures r == FirstRow(table, symbol)
  {
    var i := 0;
    while i < |table|
      invariant 0 <= i <= |table|
      invariant FirstRowFrom(table, symbol, i) == FirstRow(table, symbol)
    {
      if table[i][0] == symbol {
        return Some(i);
      }
      i := i + 1;
    }
    return None;
  }

  /** The column loop of `_getParseTableCol`: IndexError on an empty
      table. */
  method ColumnOf(table: seq<Row>, symbol: string) returns (r: Option<nat>, exc: Option<Exc>)
    ensures exc.Some? <==> |table| == 0
    ensures exc.Some? ==> exc == Some(IndexError)
    ensures exc.None? ==> r == FirstColumn(table[0], symbol)
  {
    if |table| == 0 {
      return None, Some(IndexError);
    }
    var header := table[0];
    var i := 0;
    while i < |header|
      invariant 0 <= i <= |header|
      invariant FirstCellFrom(header, symbol, i) == FirstCellFrom(header, symbol, 0)
    {
      if header[i] == symbol {
        return Some(i), None;
      }
      i := i + 1;
    }
    return None, None;
  }

  /** The parse-table entry for a nonterminal and an input token. */
  datatype Entry = Missing | Found(production: Production) | Broken(exc: Exc)

  /** The row of the nonterminal, the column of the token name, the cell
      there, and the production the cell names, as the checking parser
      reads them: an absent row or column is a missing entry. */
  function TableEntry(g: Tables, symbol: string, input: string): (r: Entry)
    ensures r == Broken(IndexError) <== |g.ptable| == 0
    ensures r == Missing <==> (|g.ptable| > 0 &&
      (FirstRow(g.ptable, symbol).None? || input !in g.ptable[0] ||
       (var row := FirstRow(g.ptable, symbol).value; var col := FirstColumn(g.ptable[0], input).value;
        col < |g.ptable[row]| && g.ptable[row][col] == "")))
    ensures r.Found? ==> (|g.ptable| > 0 && FirstRow(g.ptable, symbol).Some? && FirstColumn(g.ptable[0], input).Some? &&
      (var row := FirstRow(g.ptable, symbol).value; var col := FirstColumn(g.ptable[0], input).value;
       col < |g.ptable[row]| && ProductionOf(g.prods, g.ptable[row][col]) == Holds(r.production)))
  {
    if |g.ptable| == 0 then Broken(IndexError)
    else
      var row := FirstRow(g.ptable, symbol);
      var col := FirstColumn(g.ptable[0], input);
      if row.None? || col.None? then Missing
      else if col.value >= |g.ptable[row.value]| then Broken(IndexError)
      else
        var cell := g.ptable[row.value][col.value];
        if cell == "" then Missing
        else match ProductionOf(g.prods, cell)
          case Fails(e) => Broken(e)
          case Holds(p) => Found(p)
  }

  /** What a step of a parse loop did besides changing the state. */
  datatype Kind = Moved(current: string) | Stopped | Threw(exc: Exc)

  datatype StepOut<S> = StepOut(st: S, kind: Kind)

  /** How a parse ended. A grammar can make the inner loop of a parse
      expand forever; `fuel` bounds the number of iterations the model
      follows, and `OutOfFuel` is the model giving up. */
  datatype Halt = Done | Crashed(exc: Exc) | OutOfFuel

  datatype Run<S> = Run(st: S, current: string, fuel: nat, halt: Halt)

}
