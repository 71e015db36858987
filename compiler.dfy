/** The start/end marker check of `compiler.py`: a program must begin with
    the word `IOL` and end with the word `LOI`. */
module Compilation {
  import opened Py
  import opened Text

  /** A `Compiler` object; `complete` is set by the constructor and never
      changed. */
  datatype Compiler = Compiler(complete: bool)

  /** How a call ends: it returns, having printed `output`, or raises. */
  datatype Outcome = Returned(output: seq<string>) | Raises(exc: Exc)

  const NoCodeMessage := "Error: No code to compile"
  const FormatMessage := "Compilation Error! Invalid code format"

  /** `Compiler()`. */
  function NewCompiler(): (c: Compiler)
    ensures !c.complete
  {
    Compiler(false)
  }

  /** The words of `code` are bracketed by `IOL` and `LOI`. */
  predicate Marked(ws: seq<string>) {
    |ws| > 0 && ws[0] == "IOL" && ws[|ws| - 1] == "LOI"
  }

  /** `compile(code)`: empty code prints a message and returns; otherwise
      the code is split on whitespace and, unless its first word is `IOL`
      and its last `LOI`, an exception is raised. Splitting to no words at
      all makes the `[0]` index fail. The compiler itself is left as it
      was. */
  function Compile(c: Compiler, code: string): (r: (Compiler, Outcome))
    ensures r.0 == c
    ensures r.1.Returned? <==> code == "" || Marked(Words(code))
    ensures r.1.Returned? ==> r.1.output == (if code == "" then [NoCodeMessage] else [])
    ensures r.1 == Raises(IndexError) <==> code != "" && Words(code) == []
    ensures r.1 == Raises(Raised(FormatMessage)) <==> Words(code) != [] && !Marked(Words(code))
  {
    if code == "" then (c, Returned([NoCodeMessage]))
    else
      var ws := Words(code);
      match At(ws, 0)
      case None => (c, Raises(IndexError))
      case Some(first) =>
        if first != "IOL" || ws[|ws| - 1] != "LOI" then (c, Raises(Raised(FormatMessage)))
        else (c, Returned([]))
  }

  /** Non-empty code made only of whitespace fails on the index. */
  lemma WhitespaceOnlyFails(c: Compiler, code: string)
    requires code != "" && AllSpace(code)
    ensures Compile(c, code).1 == Raises(IndexError)
  {
    WordsEmptyIffAllSpace(code);
  }

  /** Code starting with anything but the word `IOL` is rejected. */
  lemma WrongStartRejected(c: Compiler, first: string, rest: string)
    requires first != "IOL" && first != [] && NoSpace(first) && (rest == [] || IsSpace(rest[0]))
    ensures Compile(c, first + rest).1 == Raises(Raised(FormatMessage))
  {
    WordsOfLeadingWord(first, rest);
  }

  /** Code ending with anything but the word `LOI` is rejected. */
  lemma WrongEndRejected(c: Compiler, rest: string, sep: char, last: string)
    requires last != "LOI" && last != [] && NoSpace(last) && IsSpace(sep)
    ensures Compile(c, rest + [sep] + last).1 == Raises(Raised(FormatMessage))
  {
    WordsOfTrailingWord(rest, sep, last);
  }

  /** Whatever lies between them, `IOL` and `LOI` as the first and last
      words make `compile` return normally, printing nothing, with
      `complete` still false. */
  lemma MarkedCodeAccepted(body: string)
    ensures var r := Compile(NewCompiler(), "IOL " + body + " LOI");
      r.1 == Returned([]) && !r.0.complete
  {
    var tail := " " + body;
    assert NoSpace("IOL") && NoSpace("LOI") && IsSpace(' ');
    WordsOfTrailingWord(tail, ' ', "LOI");
    assert " " + body + " LOI" == tail + [' '] + "LOI";
    WordsOfLeadingWord("IOL", tail + [' '] + "LOI");
    assert "IOL " + body + " LOI" == "IOL" + (tail + [' '] + "LOI");
  }

  /** The sample program of `compiler.py`'s `__main__` block is rejected,
      because its first word is `LOI`. */
  lemma SampleRejected()
    ensures Compile(NewCompiler(), "LOI ADD 5 5 LOI").1 == Raises(Raised(FormatMessage))
  {
    assert NoSpace("LOI");
    assert "LOI ADD 5 5 LOI" == "LOI" + " ADD 5 5 LOI";
    WrongStartRejected(NewCompiler(), "LOI", " ADD 5 5 LOI");
  }
}
