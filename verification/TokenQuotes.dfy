/** Quotes and white space in tokens: what stands between two quotes is taken as it is, delimiters included, and where the
    delimiter is a space, any white space delimits. */
module TokenQuotes {
  import opened Text
  import opened Wrappers
  import opened Tokenizers

  /** Between quotes only the backslash and the quote itself are escaped. */
  function Inside(t: string, quote: char): string {
    if t == "" then "" else (if t[0] == '\\' || t[0] == quote then ['\\', t[0]] else [t[0]]) + Inside(t[1..], quote)
  }

  function Quoted(t: string, quote: char): string {
    [quote] + Inside(t, quote) + [quote]
  }

  predicate IsQuote(c: char) {
    c == '"' || c == '\''
  }

  lemma {:induction false} InsideRun(st: Tokenizer, t: string, quote: char, delimiter: char)
    requires IsQuote(quote) && !st.escaped && st.quote == Some(quote)
    ensures TokenRun(st, Inside(t, quote), delimiter) == st.(current := st.current + t)
    decreases |t|
  {
    hide Delimits, Flush;
    if t == "" {
      assert st.current + t == st.current;
    } else {
      var rest := Inside(t[1..], quote);
      var next := st.(current := st.current + [t[0]]);
      if t[0] == '\\' || t[0] == quote {
        TwoChars(st, t[0], rest, delimiter);
      } else {
        assert ([t[0]] + rest)[1..] == rest;
      }
      InsideRun(next, t[1..], quote, delimiter);
      assert st.current + [t[0]] + t[1..] == st.current + t;
    }
  }

  /** A quoted text joins the token at hand as it is, whatever delimiters, spaces and quotes of the other kind it holds. */
  lemma QuotedRun(st: Tokenizer, t: string, quote: char, delimiter: char)
    requires IsQuote(quote) && !st.escaped && st.quote.None?
    ensures TokenRun(st, Quoted(t, quote), delimiter) == st.(current := st.current + t)
  {
    hide TokenRun, Inside, Delimits, Flush;
    var inside, filled := st.(quote := Some(quote)), st.(quote := Some(quote), current := st.current + t);
    OneToken(st, quote, delimiter);
    OneToken(filled, quote, delimiter);
    InsideRun(inside, t, quote, delimiter);
    TokenRunConcat(st, [quote] + Inside(t, quote), [quote], delimiter);
    TokenRunConcat(st, [quote], Inside(t, quote), delimiter);
  }

  function PrintQuoted(tokens: seq<string>, quote: char, delimiter: char): string {
    if tokens == [] then ""
    else if |tokens| == 1 then Quoted(tokens[0], quote)
    else (Quoted(tokens[0], quote) + [delimiter]) + PrintQuoted(tokens[1..], quote, delimiter)
  }

  lemma QuotedTaken(out: seq<string>, t: string, quote: char, delimiter: char)
    requires IsQuote(quote) && UsableDelimiter(delimiter)
    ensures TokenRun(Tokenizer(out, "", None, false), Quoted(t, quote) + [delimiter], delimiter)
         == Tokenizer(Flush(out, t), "", None, false)
  {
    hide TokenRun, Quoted, Flush, Delimits;
    var start := Tokenizer(out, "", None, false);
    TokenRunConcat(start, Quoted(t, quote), [delimiter], delimiter);
    QuotedRun(start, t, quote, delimiter);
    assert "" + t == t;
    DelimiterRun(out, t, delimiter);
  }

  lemma {:induction false} PrintedQuoted(out: seq<string>, tokens: seq<string>, quote: char, delimiter: char)
    requires IsQuote(quote) && UsableDelimiter(delimiter)
    ensures var st := TokenRun(Tokenizer(out, "", None, false), PrintQuoted(tokens, quote, delimiter), delimiter);
            Flush(st.out, st.current) == out + NonBlankTokens(tokens)
    decreases |tokens|
  {
    var start := Tokenizer(out, "", None, false);
    if tokens == [] {
      EmptyIsBlank();
      assert out + NonBlankTokens(tokens) == out;
    } else {
      FlushAppends(out, tokens);
      if |tokens| == 1 {
        hide TokenRun, TokenStep, Quoted, Flush;
        QuotedRun(start, tokens[0], quote, delimiter);
        assert "" + tokens[0] == tokens[0];
        assert NonBlankTokens(tokens[1..]) == [];
        assert Flush(out, tokens[0]) + [] == Flush(out, tokens[0]);
      } else {
        hide TokenRun, TokenStep, Quoted, Flush, NonBlankTokens;
        var first, rest := Quoted(tokens[0], quote) + [delimiter], PrintQuoted(tokens[1..], quote, delimiter);
        assert PrintQuoted(tokens, quote, delimiter) == first + rest;
        TokenRunConcat(start, first, rest, delimiter);
        QuotedTaken(out, tokens[0], quote, delimiter);
        PrintedQuoted(Flush(out, tokens[0]), tokens[1..], quote, delimiter);
      }
    }
  }

  /** Tokens printed in quotes of either kind come back, blank ones dropped. */
  lemma TokensInvertQuoting(tokens: seq<string>, quote: char, delimiter: char)
    requires IsQuote(quote) && UsableDelimiter(delimiter)
    ensures Tokens(PrintQuoted(tokens, quote, delimiter), delimiter) == NonBlankTokens(tokens)
  {
    PrintedQuoted([], tokens, quote, delimiter);
  }

  // ---- White space ----

  /** A word of no white space, quotes and backslashes. */
  predicate PlainWord(t: string) {
    t != "" && forall i :: 0 <= i < |t| ==> !Special(t[i], ' ')
  }

  predicate Gap(t: string) {
    t != "" && forall i :: 0 <= i < |t| ==> IsSpace(t[i])
  }

  /** Each word with its gap after it. */
  function Spaced(words: seq<string>, gaps: seq<string>): string
    requires |words| == |gaps|
  {
    if words == [] then "" else (words[0] + gaps[0]) + Spaced(words[1..], gaps[1..])
  }

  lemma {:induction false} PlainRun(st: Tokenizer, t: string)
    requires !st.escaped && st.quote.None? && forall i :: 0 <= i < |t| ==> !Special(t[i], ' ')
    ensures TokenRun(st, t, ' ') == st.(current := st.current + t)
    decreases |t|
  {
    hide Delimits, Flush;
    if t == "" {
      assert st.current + t == st.current;
    } else {
      PlainRun(st.(current := st.current + [t[0]]), t[1..]);
      assert st.current + [t[0]] + t[1..] == st.current + t;
    }
  }

  lemma {:induction false} GapRun(out: seq<string>, t: string)
    requires forall i :: 0 <= i < |t| ==> IsSpace(t[i])
    ensures TokenRun(Tokenizer(out, "", None, false), t, ' ') == Tokenizer(out, "", None, false)
    decreases |t|
  {
    hide Blank;
    EmptyIsBlank();
    if t != "" {
      assert t[0] != '\\' && t[0] != '"' && t[0] != '\'';
      assert Delimits(t[0], ' ');
      hide IsSpace, Delimits;
      GapRun(out, t[1..]);
    }
  }

  lemma WordTaken(out: seq<string>, word: string, gap: string)
    requires PlainWord(word) && Gap(gap)
    ensures TokenRun(Tokenizer(out, "", None, false), word + gap, ' ') == Tokenizer(out + [word], "", None, false)
  {
    var start := Tokenizer(out, "", None, false);
    assert !Blank(word) by { BlankIff(word); assert !IsSpace(word[0]); }
    assert Delimits(gap[0], ' ') && gap[0] != '\\' && gap[0] != '"' && gap[0] != '\'';
    hide Blank, IsSpace, Delimits, Special;
    TokenRunConcat(start, word, gap, ' ');
    PlainRun(start, word);
    assert "" + word == word;
    assert TokenRun(Tokenizer(out, word, None, false), gap, ' ') == TokenRun(Tokenizer(out + [word], "", None, false), gap[1..], ' ');
    GapRun(out + [word], gap[1..]);
  }

  lemma {:induction false} SpacedRun(out: seq<string>, words: seq<string>, gaps: seq<string>)
    requires |words| == |gaps| && forall i :: 0 <= i < |words| ==> PlainWord(words[i]) && Gap(gaps[i])
    ensures TokenRun(Tokenizer(out, "", None, false), Spaced(words, gaps), ' ') == Tokenizer(out + words, "", None, false)
    decreases |words|
  {
    hide PlainWord, Gap, TokenStep;
    if words == [] {
      assert out + words == out;
    } else {
      hide TokenRun;
      TokenRunConcat(Tokenizer(out, "", None, false), words[0] + gaps[0], Spaced(words[1..], gaps[1..]), ' ');
      WordTaken(out, words[0], gaps[0]);
      SpacedRun(out + [words[0]], words[1..], gaps[1..]);
      assert out + [words[0]] + words[1..] == out + words;
    }
  }

  /** With a space for delimiter, words come apart at white space of any kind and length. */
  lemma WordsSplit(words: seq<string>, gaps: seq<string>)
    requires |words| == |gaps| && forall i :: 0 <= i < |words| ==> PlainWord(words[i]) && Gap(gaps[i])
    ensures Tokens(Spaced(words, gaps), ' ') == words
  {
    hide PlainWord, Gap, TokenRun, Spaced;
    SpacedRun([], words, gaps);
    EmptyIsBlank();
    assert [] + words == words;
  }
}
