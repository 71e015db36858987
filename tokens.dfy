/** The token records the parser and the run-time interpreter consume. */
module Tokens {
  import opened Py

  /** A token `{name, value}`: `name` is the token class (`IDENT`,
      `INT_LIT`, or the keyword itself) and `value` the lexeme; keyword
      tokens carry no value. */
  datatype Token = Token(name: string, value: Option<string>)

  /** One entry of the token dictionary: a source line number and the
      tokens of that line. The parser walks the entries in insertion order;
      the run-time interpreter looks lines up by number. */
  datatype NumberedLine = NumberedLine(number: int, tokens: seq<Token>)

  /** The arithmetic keywords of the language. */
  const ArithmeticOperators: seq<string> := ["ADD", "SUB", "MULT", "DIV", "MOD"]

  predicate IsOperator(name: string) { name in ArithmeticOperators }

  /** How a token is shown in a message: its lexeme, or its name when it has
      no lexeme. */
  function Shown(t: Token): string
  {
    if t.value.None? then t.name else t.value.value
  }

  /** Python's `' '.join(map(Shown, ts))`. */
  function ShownAll(ts: seq<Token>): string
  {
    if |ts| == 0 then "" else if |ts| == 1 then Shown(ts[0]) else Shown(ts[0]) + " " + ShownAll(ts[1..])
  }
}
