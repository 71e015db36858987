/** A stand-alone semantic checker over a flat list of token triples
    `(type, value, line)`: declarations record a variable's type, `BEG`
    and the arithmetic keywords check the tokens that follow them. */
module TokenSemantics {
  import opened Py
  import opened Text

  datatype Triple = Triple(kind: string, value: string, line: int)

  /** The checker's two fields. */
  datatype Checked = Checked(variables: map<string, string>, errors: seq<string>)

  /** Python's `dict.get`. */
  function Get(m: map<string, string>, k: string): (r: Option<string>)
    ensures r.Some? <==> k in m
    ensures r.Some? ==> r.value == m[k]
  {
    if k in m then Some(m[k]) else None
  }

  function AtLine(line: int): string { " at line " + IntToString(line) }

  /** `_check_variable_declaration`: the next token must be a variable,
      which is then recorded with the keyword as its type. */
  function CheckDeclaration(c: Checked, tokens: seq<Triple>, i: nat, line: int): (r: Checked)
    requires i < |tokens|
    ensures c.errors <= r.errors && |r.errors| <= |c.errors| + 1
    ensures r.errors == c.errors <==> i + 1 < |tokens| && tokens[i + 1].kind == "variable"
    ensures r.errors == c.errors ==>
      i + 1 < |tokens| && r.variables == c.variables[tokens[i + 1].value := tokens[i].value]
    ensures r.errors != c.errors ==> |r.errors| == |c.errors| + 1 && r.variables == c.variables
  {
    if i + 1 < |tokens| then
      var next := tokens[i + 1];
      if next.kind != "variable" then
        c.(errors := c.errors + ["Semantic Error: Expected variable name after " + tokens[i].value + AtLine(line)])
      else c.(variables := c.variables[next.value := tokens[i].value])
    else c.(errors := c.errors + ["Semantic Error: Incomplete variable declaration" + AtLine(line)])
  }

  /** `_check_beg_operation`: the next token must be a declared variable,
      and the token after it must have the variable's type as its kind. */
  function CheckBeg(c: Checked, tokens: seq<Triple>, i: nat, line: int): (r: Checked)
    requires i < |tokens|
    ensures r.variables == c.variables
    ensures c.errors <= r.errors && |r.errors| <= |c.errors| + 1
    ensures r.errors == c.errors <==>
      && i + 2 < |tokens| && tokens[i + 1].kind == "variable" && tokens[i + 1].value in c.variables
      && tokens[i + 2].kind == c.variables[tokens[i + 1].value]
    ensures r.errors != c.errors ==> |r.errors| == |c.errors| + 1
  {
    if i + 1 < |tokens| then
      var next := tokens[i + 1];
      if next.kind != "variable" || next.value !in c.variables then
        c.(errors := c.errors + ["Semantic Error: Undeclared variable after BEG" + AtLine(line)])
      else if i + 2 < |tokens| then
        if tokens[i + 2].kind != c.variables[next.value] then
          c.(errors := c.errors + ["Semantic Error: Type mismatch for BEG operation on variable '" + next.value + "'" + AtLine(line)])
        else c
      else c.(errors := c.errors + ["Semantic Error: Missing input type for BEG operation" + AtLine(line)])
    else c.(errors := c.errors + ["Semantic Error: Incomplete BEG operation" + AtLine(line)])
  }

  /** `_check_operation`: both following tokens must be variables of the
      same recorded type; two undeclared variables compare equal. */
  function CheckOperation(c: Checked, tokens: seq<Triple>, i: nat, line: int): (r: Checked)
    requires i < |tokens|
    ensures r.variables == c.variables
    ensures c.errors <= r.errors && |r.errors| <= |c.errors| + 1
    ensures r.errors == c.errors <==>
      && i + 2 < |tokens| && tokens[i + 1].kind == "variable" && tokens[i + 2].kind == "variable"
      && Get(c.variables, tokens[i + 1].value) == Get(c.variables, tokens[i + 2].value)
    ensures r.errors != c.errors ==> |r.errors| == |c.errors| + 1
  {
    if i + 2 < |tokens| then
      var first := tokens[i + 1];
      var second := tokens[i + 2];
      if first.kind != "variable" || second.kind != "variable" then
        c.(errors := c.errors + ["Semantic Error: Invalid operands for operation" + AtLine(line)])
      else if Get(c.variables, first.value) != Get(c.variables, second.value) then
        c.(errors := c.errors + ["Semantic Error: Type mismatch in operation" + AtLine(line)])
      else c
    else c.(errors := c.errors + ["Semantic Error: Incomplete operation" + AtLine(line)])
  }

  const Operations: seq<string> := ["MULT", "ADD", "SUB", "DIV", "MOD"]

  /** A keyword that `analyze_tokens` checks; every other token is passed
      over. */
  predicate IsChecked(tok: Triple) {
    tok.kind == "keyword" && (tok.value == "INT" || tok.value == "STR" || tok.value == "BEG" || tok.value in Operations)
  }

  /** The body of the loop of `analyze_tokens` for token `i`. */
  function Visit(c: Checked, tokens: seq<Triple>, i: nat): (r: Checked)
    requires i < |tokens|
    ensures c.errors <= r.errors && |r.errors| <= |c.errors| + 1
    ensures r.variables == c.variables ||
      (IsDeclarationAt(tokens, i) && r.variables == c.variables[tokens[i + 1].value := tokens[i].value])
    ensures IsChecked(tokens[i]) || r == c
  {
    var tok := tokens[i];
    if tok.kind != "keyword" then c
    else if tok.value == "INT" || tok.value == "STR" then CheckDeclaration(c, tokens, i, tok.line)
    else if tok.value == "BEG" then CheckBeg(c, tokens, i, tok.line)
    else if tok.value in Operations then CheckOperation(c, tokens, i, tok.line)
    else c
  }

  /** `analyze_tokens` over the first `k` tokens. */
  function Through(c: Checked, tokens: seq<Triple>, k: nat): (r: Checked)
    requires k <= |tokens|
    ensures |c.errors| <= |r.errors| <= |c.errors| + k
  {
    if k == 0 then c else Visit(Through(c, tokens, k - 1), tokens, k - 1)
  }

  /** Token `j` is a type keyword followed by a variable. */
  predicate IsDeclarationAt(tokens: seq<Triple>, j: nat)
    requires j < |tokens|
  {
    && tokens[j].kind == "keyword" && (tokens[j].value == "INT" || tokens[j].value == "STR")
    && j + 1 < |tokens| && tokens[j + 1].kind == "variable"
  }

  /** Each token adds no more than one error; earlier errors are kept. */
  lemma {:induction false} AtMostOneErrorPerToken(c: Checked, tokens: seq<Triple>, k: nat)
    requires k <= |tokens|
    ensures c.errors <= Through(c, tokens, k).errors
    ensures |Through(c, tokens, k).errors| <= |c.errors| + k
  {
    if k > 0 {
      AtMostOneErrorPerToken(c, tokens, k - 1);
      var mid := Through(c, tokens, k - 1);
      assert Through(c, tokens, k) == Visit(mid, tokens, k - 1);
      PrefixTrans(c.errors, mid.errors, Visit(mid, tokens, k - 1).errors);
    }
  }

  lemma PrefixTrans(a: seq<string>, b: seq<string>, d: seq<string>)
    requires a <= b && b <= d
    ensures a <= d
  {
    assert a == b[..|a|] == d[..|b|][..|a|] == d[..|a|];
  }

  /** Every variable in `vars` was known in `c` with the same type, or is
      declared by a type keyword among the first `k` tokens, with that
      keyword as its type. */
  predicate FromDeclarations(c: Checked, tokens: seq<Triple>, k: nat, vars: map<string, string>)
    requires k <= |tokens|
  {
    forall name :: name in vars ==>
      (name in c.variables && vars[name] == c.variables[name]) ||
      (exists j :: 0 <= j < k && IsDeclarationAt(tokens, j) && tokens[j + 1].value == name && vars[name] == tokens[j].value)
  }

  /** The variables that the declarations among the first `k` tokens
      record, each with the type keyword of its last declaration. */
  function Declared(tokens: seq<Triple>, k: nat): map<string, string>
    requires k <= |tokens|
  {
    if k == 0 then map[]
    else if IsDeclarationAt(tokens, k - 1) then Declared(tokens, k - 1)[tokens[k].value := tokens[k - 1].value]
    else Declared(tokens, k - 1)
  }

  /** A declaration records its variable with its keyword as the type. */
  lemma DeclarationRecords(c: Checked, tokens: seq<Triple>, i: nat)
    requires i < |tokens| && IsDeclarationAt(tokens, i)
    ensures Visit(c, tokens, i).variables == c.variables[tokens[i + 1].value := tokens[i].value]
  {
  }

  /** Overriding and then updating is overriding with the update. */
  lemma UpdateOverride(m: map<string, string>, d: map<string, string>, x: string, v: string)
    ensures (m + d)[x := v] == m + d[x := v]
  {
  }

  /** The checker's variables are the ones it started with, overridden by
      the declarations read so far. */
  lemma {:induction false} VariablesAreDeclared(c: Checked, tokens: seq<Triple>, k: nat)
    requires k <= |tokens|
    ensures Through(c, tokens, k).variables == c.variables + Declared(tokens, k)
  {
    if k == 0 {
      assert c.variables + map[] == c.variables;
    } else {
      VariablesAreDeclared(c, tokens, k - 1);
      if IsDeclarationAt(tokens, k - 1) {
        DeclarationRecords(Through(c, tokens, k - 1), tokens, k - 1);
        UpdateOverride(c.variables, Declared(tokens, k - 1), tokens[k].value, tokens[k - 1].value);
      }
    }
  }

  /** Every entry of `Declared` comes from a declaration among the first `k`
      tokens, with that declaration's keyword as its type. */
  lemma {:induction false} DeclaredOrigins(tokens: seq<Triple>, k: nat)
    requires k <= |tokens|
    ensures forall name :: name in Declared(tokens, k) ==>
      exists j :: 0 <= j < k && IsDeclarationAt(tokens, j) && tokens[j + 1].value == name && Declared(tokens, k)[name] == tokens[j].value
  {
    if k > 0 {
      DeclaredOrigins(tokens, k - 1);
      forall name | name in Declared(tokens, k)
        ensures exists j :: 0 <= j < k && IsDeclarationAt(tokens, j) && tokens[j + 1].value == name && Declared(tokens, k)[name] == tokens[j].value
      {
        if IsDeclarationAt(tokens, k - 1) && name == tokens[k].value {
          assert IsDeclarationAt(tokens, k - 1) && tokens[k].value == name && Declared(tokens, k)[name] == tokens[k - 1].value;
        } else {
          assert name in Declared(tokens, k - 1) && Declared(tokens, k)[name] == Declared(tokens, k - 1)[name];
        }
      }
    }
  }

  /** Every variable recorded was known before, or is declared by a type
      keyword among the tokens read so far, with that keyword as its type. */
  lemma VariablesComeFromDeclarations(c: Checked, tokens: seq<Triple>, k: nat)
    requires k <= |tokens|
    ensures FromDeclarations(c, tokens, k, Through(c, tokens, k).variables)
  {
    VariablesAreDeclared(c, tokens, k);
    DeclaredOrigins(tokens, k);
  }

  /** A `BEG` whose variable has not been declared by the tokens before it
      is reported, whatever follows; a declaration later on does not help. */
  lemma UndeclaredBegReported(c: Checked, tokens: seq<Triple>, i: nat)
    requires i + 1 < |tokens| && tokens[i].kind == "keyword" && tokens[i].value == "BEG"
    requires tokens[i + 1].value !in Through(c, tokens, i).variables
    ensures Through(c, tokens, i + 1).errors
         == Through(c, tokens, i).errors + ["Semantic Error: Undeclared variable after BEG" + AtLine(tokens[i].line)]
  {
  }

  class NewSemanticAnalyzer {
    var variables: map<string, string>
    var errors: seq<string>

    ghost function State(): Checked
      reads this
    {
      Checked(variables, errors)
    }

    constructor ()
      ensures State() == Checked(map[], [])
    {
      variables, errors := map[], [];
    }

    /** `analyze_tokens`. */
    method AnalyzeTokens(tokens: seq<Triple>)
      modifies this
      ensures State() == Through(old(State()), tokens, |tokens|)
    {
      var i := 0;
      while i < |tokens|
        invariant 0 <= i <= |tokens|
        invariant State() == Through(old(State()), tokens, i)
      {
        VisitToken(tokens, i);
        i := i + 1;
      }
    }

    /** The body of the loop of `analyze_tokens`. */
    method VisitToken(tokens: seq<Triple>, i: nat)
      requires i < |tokens|
      modifies this
      ensures State() == Visit(old(State()), tokens, i)
    {
      var tok := tokens[i];
      if tok.kind == "keyword" {
        if tok.value == "INT" || tok.value == "STR" {
          CheckVariableDeclaration(tokens, i, tok.line);
        } else if tok.value == "BEG" {
          CheckBegOperation(tokens, i, tok.line);
        } else if tok.value in Operations {
          CheckOperationTokens(tokens, i, tok.line);
        }
      }
    }

    method CheckVariableDeclaration(tokens: seq<Triple>, index: nat, line: int)
      requires index < |tokens|
      modifies this
      ensures State() == CheckDeclaration(old(State()), tokens, index, line)
    {
      if index + 1 < |tokens| {
        var next := tokens[index + 1];
        if next.kind != "variable" {
          errors := errors + ["Semantic Error: Expected variable name after " + tokens[index].value + AtLine(line)];
        } else {
          variables := variables[next.value := tokens[index].value];
        }
      } else {
        errors := errors + ["Semantic Error: Incomplete variable declaration" + AtLine(line)];
      }
    }

    method CheckBegOperation(tokens: seq<Triple>, index: nat, line: int)
      requires index < |tokens|
      modifies this
      ensures State() == CheckBeg(old(State()), tokens, index, line)
    {
      if index + 1 < |tokens| {
        var next := tokens[index + 1];
        if next.kind != "variable" || next.value !in variables {
          errors := errors + ["Semantic Error: Undeclared variable after BEG" + AtLine(line)];
        } else if index + 2 < |tokens| {
          if tokens[index + 2].kind != variables[next.value] {
            errors := errors + ["Semantic Error: Type mismatch for BEG operation on variable '" + next.value + "'" + AtLine(line)];
          }
        } else {
          errors := errors + ["Semantic Error: Missing input type for BEG operation" + AtLine(line)];
        }
      } else {
        errors := errors + ["Semantic Error: Incomplete BEG operation" + AtLine(line)];
      }
    }

    method CheckOperationTokens(tokens: seq<Triple>, index: nat, line: int)
      requires index < |tokens|
      modifies this
      ensures State() == CheckOperation(old(State()), tokens, index, line)
    {
      if index + 2 < |tokens| {
        var first := tokens[index + 1];
        var second := tokens[index + 2];
        if first.kind != "variable" || second.kind != "variable" {
          errors := errors + ["Semantic Error: Invalid operands for operation" + AtLine(line)];
        } else if Get(variables, first.value) != Get(variables, second.value) {
          errors := errors + ["Semantic Error: Type mismatch in operation" + AtLine(line)];
        }
      } else {
        errors := errors + ["Semantic Error: Incomplete operation" + AtLine(line)];
      }
    }

    method GetErrors() returns (r: seq<string>)
      ensures r == errors
    {
      r := errors;
    }
  }
}
