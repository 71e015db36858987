/** The lexical analyzer: classifies whitespace-separated words as a keyword,
    `IDENT` or `INT_LIT`, builds one line of token text per non-empty source
    line, and records every identifier it sees. */
module Lexical {
  import opened Py
  import opened Text

  /** `_isValidVariable`: a letter followed by letters and digits. */
  predicate IsVariable(w: string)
    ensures IsVariable(w) ==> forall i :: 0 <= i < |w| ==> !IsSpace(w[i]) && w[i] != '_'
  {
    |w| > 0 && IsAlpha(w[0]) && forall i :: 0 <= i < |w| ==> IsAlnum(w[i])
  }

  /** `_isValidInteger`: only the first character is looked at. */
  predicate IsInteger(w: string)
    ensures IsInteger(w) ==> !IsVariable(w)
  {
    |w| > 0 && IsDigit(w[0])
  }

  /** The token `tokenizeWord` returns; None is the None it falls through to
      for a word in no class. */
  function Classify(w: string, keywords: seq<string>): (r: Option<string>)
    ensures r.Some? <==> w in keywords || IsVariable(w) || IsInteger(w)
    ensures r == Some("IDENT") <==> (w !in keywords && IsVariable(w)) || (w == "IDENT" && w in keywords)
    ensures r == Some("INT_LIT") <==> (w !in keywords && IsInteger(w)) || (w == "INT_LIT" && w in keywords)
    ensures r.Some? && r.value != "IDENT" && r.value != "INT_LIT" ==> r.value == w && w in keywords
  {
    if w in keywords then Some(w)
    else if IsVariable(w) then Some("IDENT")
    else if IsInteger(w) then Some("INT_LIT")
    else None
  }

  /** What `tokenizeWord` appends to `variables` for the word. */
  function Recorded(w: string, keywords: seq<string>): (r: seq<string>)
    ensures r == [w] || r == []
    ensures r == [w] <==> w !in keywords && IsVariable(w)
  {
    if w !in keywords && IsVariable(w) then [w] else []
  }

  /** What a run of `tokenizeInput` contributes: the text appended to
      `output`, the names appended to `variables`, and whether it ran to the
      end (false: a word in no class made `None + " "` raise TypeError). */
  datatype LexOutcome = LexOutcome(text: string, idents: seq<string>, ok: bool)

  /** The words of one line, left to right: each token followed by a space. */
  function LineOutcome(words: seq<string>, keywords: seq<string>): (r: LexOutcome)
    ensures |r.idents| <= |words| && (r.ok ==> |r.text| >= |words|)
    decreases |words|
  {
    if words == [] then LexOutcome("", [], true)
    else
      var prev := LineOutcome(words[..|words| - 1], keywords);
      var w := words[|words| - 1];
      if !prev.ok then prev
      else match Classify(w, keywords)
        case None => LexOutcome(prev.text, prev.idents, false)
        case Some(tok) => LexOutcome(prev.text + tok + " ", prev.idents + Recorded(w, keywords), true)
  }

  /** The lines, top to bottom: empty lines are skipped, every other line's
      token text is followed by a newline. A failing line adds no text but
      keeps the identifiers recorded before the failing word. */
  function LinesOutcome(lines: seq<string>, keywords: seq<string>): (r: LexOutcome)
    ensures r.text == "" || r.text[|r.text| - 1] == '\n'
    decreases |lines|
  {
    if lines == [] then LexOutcome("", [], true)
    else AddLine(LinesOutcome(lines[..|lines| - 1], keywords), lines[|lines| - 1], keywords)
  }

  /** One more line after the outcome `prev` of the lines above it. */
  function AddLine(prev: LexOutcome, line: string, keywords: seq<string>): (r: LexOutcome)
    ensures prev.text <= r.text && prev.idents <= r.idents && (r.ok ==> prev.ok)
    ensures r.text == prev.text || r.text[|r.text| - 1] == '\n'
  {
    if !prev.ok || line == "" then prev
    else
      var lo := LineOutcome(Words(line), keywords);
      if lo.ok then LexOutcome(prev.text + (lo.text + "\n"), prev.idents + lo.idents, true)
      else LexOutcome(prev.text, prev.idents + lo.idents, false)
  }

  /** `tokenizeInput(text)`. */
  function Tokenize(text: string, keywords: seq<string>): (r: LexOutcome)
    ensures r.ok <==> AllLinesClassified(SplitOn(text, '\n'), keywords)
    ensures r.text == "" || r.text[|r.text| - 1] == '\n'
  {
    var lines := SplitOn(text, '\n');
    LinesOkIff(lines, keywords);
    LinesOutcome(lines, keywords)
  }

  predicate AllClassified(words: seq<string>, keywords: seq<string>) {
    forall k :: 0 <= k < |words| ==> Classify(words[k], keywords).Some?
  }

  predicate AllLinesClassified(lines: seq<string>, keywords: seq<string>) {
    forall k :: 0 <= k < |lines| ==> AllClassified(Words(lines[k]), keywords)
  }

  /** A line tokenizes without error exactly when every word is classified. */
  lemma {:induction false} LineOkIff(words: seq<string>, keywords: seq<string>)
    ensures LineOutcome(words, keywords).ok <==> AllClassified(words, keywords)
    decreases |words|
  {
    if words != [] {
      var init := words[..|words| - 1];
      LineOkIff(init, keywords);
      assert forall k :: 0 <= k < |init| ==> init[k] == words[k];
    }
  }

  /** Tokenizing succeeds exactly when every word on every line is a keyword,
      an identifier or an integer. */
  lemma {:induction false} LinesOkIff(lines: seq<string>, keywords: seq<string>)
    ensures LinesOutcome(lines, keywords).ok <==> AllLinesClassified(lines, keywords)
    decreases |lines|
  {
    if lines != [] {
      var init := lines[..|lines| - 1];
      var line := lines[|lines| - 1];
      LinesOkIff(init, keywords);
      LineOkIff(Words(line), keywords);
      assert forall k :: 0 <= k < |init| ==> init[k] == lines[k];
      assert Words("") == [];
    }
  }

  /** Every name recorded is an identifier that is not a keyword. */
  lemma {:induction false} LineIdentsAreVariables(words: seq<string>, keywords: seq<string>)
    ensures forall k :: 0 <= k < |LineOutcome(words, keywords).idents| ==>
              var n := LineOutcome(words, keywords).idents[k]; IsVariable(n) && n !in keywords
    decreases |words|
  {
    if words != [] {
      LineIdentsAreVariables(words[..|words| - 1], keywords);
    }
  }

  lemma {:induction false} LineFailurePersists(words: seq<string>, j: nat, keywords: seq<string>)
    requires j <= |words| && !LineOutcome(words[..j], keywords).ok
    ensures LineOutcome(words, keywords) == LineOutcome(words[..j], keywords)
    decreases |words| - j
  {
    if j < |words| {
      assert words[..j + 1][..j] == words[..j];
      LineFailurePersists(words, j + 1, keywords);
    } else {
      assert words[..j] == words;
    }
  }

  lemma {:induction false} LinesFailurePersists(lines: seq<string>, k: nat, keywords: seq<string>)
    requires k <= |lines| && !LinesOutcome(lines[..k], keywords).ok
    ensures LinesOutcome(lines, keywords) == LinesOutcome(lines[..k], keywords)
    decreases |lines| - k
  {
    if k < |lines| {
      assert lines[..k + 1][..k] == lines[..k];
      LinesFailurePersists(lines, k + 1, keywords);
    } else {
      assert lines[..k] == lines;
    }
  }

  /** `_isValidInteger` checks only the first character, so a word such as
      `12ab` is an integer literal. */
  lemma IntegerChecksOnlyFirstChar(keywords: seq<string>)
    requires "12ab" !in keywords
    ensures Classify("12ab", keywords) == Some("INT_LIT")
  {
    assert !IsAlpha("12ab"[0]);
  }

  lemma AppendAssoc<T>(a: seq<T>, b: seq<T>, c: seq<T>)
    ensures (a + b) + c == a + (b + c)
  {
  }

  /** The outcome of one more line is `AddLine` of the outcome so far. */
  lemma LinesStep(lines: seq<string>, k: nat, keywords: seq<string>)
    requires k < |lines|
    ensures LinesOutcome(lines[..k + 1], keywords) == AddLine(LinesOutcome(lines[..k], keywords), lines[k], keywords)
  {
    assert lines[..k + 1][..k] == lines[..k];
  }

  /** The outcome of one more word, when the words so far tokenized. */
  lemma LineStep(words: seq<string>, j: nat, keywords: seq<string>)
    requires j < |words| && LineOutcome(words[..j], keywords).ok
    ensures var prev := LineOutcome(words[..j], keywords);
      LineOutcome(words[..j + 1], keywords) ==
        match Classify(words[j], keywords)
        case None => LexOutcome(prev.text, prev.idents, false)
        case Some(tok) => LexOutcome(prev.text + tok + " ", prev.idents + Recorded(words[j], keywords), true)
  {
    assert words[..j + 1][..j] == words[..j];
  }

  class LexicalAnalyzer {
    /** The lines of `keywords.txt`. */
    const keywords: seq<string>
    /** Every identifier seen, duplicates included. */
    var variables: seq<string>
    /** The accumulated token text; never reset. */
    var output: string

    constructor (keywords: seq<string>)
      ensures this.keywords == keywords && variables == [] && output == ""
    {
      this.keywords := keywords;
      variables := [];
      output := "";
    }

    /** `_isValidVariable`, with its character loop. */
    method IsValidVariable(w: string) returns (b: bool)
      ensures b <==> IsVariable(w)
    {
      if w == "" { return false; }
      if !IsAlpha(w[0]) { return false; }
      var i := 0;
      while i < |w|
        invariant 0 <= i <= |w|
        invariant forall j :: 0 <= j < i ==> IsAlnum(w[j])
      {
        if !IsAlnum(w[i]) { return false; }
        i := i + 1;
      }
      return true;
    }

    /** `tokenizeWord`: keyword first, then identifier, then integer. */
    method TokenizeWord(w: string) returns (tok: Option<string>)
      modifies this`variables
      ensures tok == Classify(w, keywords)
      ensures variables == old(variables) + Recorded(w, keywords)
    {
      if w in keywords {
        return Some(w);
      }
      var isVariable := IsValidVariable(w);
      if isVariable {
        variables := variables + [w];
        return Some("IDENT");
      }
      if IsInteger(w) {
        return Some("INT_LIT");
      }
      return None;
    }

    /** The inner loop of `tokenizeInput` over the words of one line. */
    method TokenizeLine(words: seq<string>) returns (tokenized: string, ok: bool)
      modifies this`variables
      ensures ok == LineOutcome(words, keywords).ok
      ensures ok ==> tokenized == LineOutcome(words, keywords).text
      ensures variables == old(variables) + LineOutcome(words, keywords).idents
    {
      tokenized := "";
      var j := 0;
      while j < |words|
        invariant 0 <= j <= |words|
        invariant LineOutcome(words[..j], keywords).ok
        invariant tokenized == LineOutcome(words[..j], keywords).text
        invariant variables == old(variables) + LineOutcome(words[..j], keywords).idents
      {
        LineStep(words, j, keywords);
        AppendAssoc(old(variables), LineOutcome(words[..j], keywords).idents, Recorded(words[j], keywords));
        var tok := TokenizeWord(words[j]);
        if tok.None? {
          LineFailurePersists(words, j + 1, keywords);
          return tokenized, false;
        }
        tokenized := tokenized + tok.value + " ";
        j := j + 1;
      }
      assert words[..j] == words;
      ok := true;
    }

    /** `tokenizeInput`; false where the source raises TypeError. */
    method TokenizeInput(text: string) returns (ok: bool)
      modifies this`variables, this`output
      ensures ok == Tokenize(text, keywords).ok
      ensures output == old(output) + Tokenize(text, keywords).text
      ensures variables == old(variables) + Tokenize(text, keywords).idents
    {
      var lines := SplitOn(text, '\n');
      var k := 0;
      while k < |lines|
        invariant 0 <= k <= |lines|
        invariant LinesOutcome(lines[..k], keywords).ok
        invariant output == old(output) + LinesOutcome(lines[..k], keywords).text
        invariant variables == old(variables) + LinesOutcome(lines[..k], keywords).idents
      {
        var line := lines[k];
        LinesStep(lines, k, keywords);
        if line == "" {
          k := k + 1;
          continue;
        }
        ghost var prev := LinesOutcome(lines[..k], keywords);
        var tokenized, lineOk := TokenizeLine(Words(line));
        AppendAssoc(old(variables), prev.idents, LineOutcome(Words(line), keywords).idents);
        if !lineOk {
          LinesFailurePersists(lines, k + 1, keywords);
          return false;
        }
        AppendAssoc(old(output), prev.text, tokenized + "\n");
        output := output + (tokenized + "\n");
        k := k + 1;
      }
      assert lines[..k] == lines;
      ok := true;
    }
  }
}
