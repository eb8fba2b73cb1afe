/** The tokenisers of the carrier formats, each an escape or quote automaton over the input, and the
    printers they invert. */
module Tokenizers {
  import opened Text
  import opened Wrappers

  // ---- Splitting at unescaped separators ----

  datatype Splitter = Splitter(parts: seq<string>, current: string, escaped: bool)

  function SplitStep(st: Splitter, r: char, sep: char, limit: int): Splitter {
    if st.escaped then Splitter(st.parts, st.current + [r], false)
    else if r == '\\' then Splitter(st.parts, st.current + [r], true)
    else if r == sep && (limit <= 0 || |st.parts| < limit - 1) then Splitter(st.parts + [st.current], "", false)
    else Splitter(st.parts, st.current + [r], false)
  }

  function SplitRun(st: Splitter, s: string, sep: char, limit: int): Splitter
    decreases |s|
  {
    if s == "" then st else SplitRun(SplitStep(st, s[0], sep, limit), s[1..], sep, limit)
  }

  function SplitEscaped(s: string, sep: char, limit: int): seq<string> {
    var st := SplitRun(Splitter([], "", false), s, sep, limit);
    st.parts + [st.current]
  }

  method SplitEscapedLimit(input: string, sep: char, limit: int) returns (parts: seq<string>)
    ensures parts == SplitEscaped(input, sep, limit)
  {
    parts := [];
    var b := "";
    var escaped := false;
    for i := 0 to |input|
      invariant SplitRun(Splitter([], "", false), input, sep, limit)
             == SplitRun(Splitter(parts, b, escaped), input[i..], sep, limit)
    {
      var r := input[i];
      assert input[i..][1..] == input[i + 1..];
      if escaped {
        b := b + [r];
        escaped := false;
        continue;
      }
      if r == '\\' {
        escaped := true;
        b := b + [r];
        continue;
      }
      if r == sep && (limit <= 0 || |parts| < limit - 1) {
        parts := parts + [b];
        b := "";
        continue;
      }
      b := b + [r];
    }
    parts := parts + [b];
  }

  lemma {:induction false} SplitRunConcat(st: Splitter, a: string, b: string, sep: char, limit: int)
    ensures SplitRun(st, a + b, sep, limit) == SplitRun(SplitRun(st, a, sep, limit), b, sep, limit)
    decreases |a|
  {
    hide SplitStep;
    if a == "" {
      assert a + b == b;
    } else {
      assert (a + b)[1..] == a[1..] + b;
      SplitRunConcat(SplitStep(st, a[0], sep, limit), a[1..], b, sep, limit);
    }
  }

  lemma {:induction false} JoinSnoc(parts: seq<string>, last: string, sep: string)
    ensures Join(parts + [last], sep) == if parts == [] then last else Join(parts, sep) + sep + last
  {
    if |parts| > 1 {
      assert (parts + [last])[1..] == parts[1..] + [last];
      JoinSnoc(parts[1..], last, sep);
    }
  }

  function Consumed(st: Splitter, sep: char): string {
    Join(st.parts + [st.current], [sep])
  }

  lemma StepAppends(st: Splitter, r: char, sep: char, limit: int)
    ensures Consumed(SplitStep(st, r, sep, limit), sep) == Consumed(st, sep) + [r]
  {
    hide Join;
    JoinSnoc(st.parts, st.current, [sep]);
    JoinSnoc(st.parts, st.current + [r], [sep]);
    JoinSnoc(st.parts + [st.current], "", [sep]);
  }

  lemma {:induction false} RunAppends(st: Splitter, s: string, sep: char, limit: int)
    ensures Consumed(SplitRun(st, s, sep, limit), sep) == Consumed(st, sep) + s
    ensures limit > 0 && |st.parts| < limit ==> |SplitRun(st, s, sep, limit).parts| < limit
    decreases |s|
  {
    hide Consumed;
    if s != "" {
      StepAppends(st, s[0], sep, limit);
      RunAppends(SplitStep(st, s[0], sep, limit), s[1..], sep, limit);
    }
  }

  /** The parts join back to the input, and there are no more of them than the limit. */
  lemma SplitRejoins(s: string, sep: char, limit: int)
    ensures Join(SplitEscaped(s, sep, limit), [sep]) == s
    ensures limit > 0 ==> |SplitEscaped(s, sep, limit)| <= limit
  {
    hide Join, SplitRun;
    RunAppends(Splitter([], "", false), s, sep, limit);
    JoinSnoc([], "", [sep]);
  }

  /** No separator in `s` stands outside an escape, and no escape is left open at its end. */
  predicate Sealed(s: string, sep: char) {
    if s == "" then true
    else if s[0] == '\\' then |s| > 1 && Sealed(s[2..], sep)
    else s[0] != sep && Sealed(s[1..], sep)
  }

  lemma {:induction false} SealedRun(st: Splitter, s: string, sep: char, limit: int)
    requires !st.escaped && Sealed(s, sep)
    ensures SplitRun(st, s, sep, limit) == Splitter(st.parts, st.current + s, false)
    decreases |s|
  {
    if s == "" {
      assert st.current + s == st.current;
    } else if s[0] == '\\' {
      var two := SplitStep(SplitStep(st, s[0], sep, limit), s[1], sep, limit);
      assert s[1..][1..] == s[2..];
      assert two == Splitter(st.parts, st.current + s[..2], false);
      SealedRun(two, s[2..], sep, limit);
      assert st.current + s[..2] + s[2..] == st.current + s;
    } else {
      SealedRun(SplitStep(st, s[0], sep, limit), s[1..], sep, limit);
      assert st.current + [s[0]] + s[1..] == st.current + s;
    }
  }

  lemma {:induction false} TailRun(st: Splitter, s: string, sep: char, limit: int)
    requires limit > 0 && |st.parts| == limit - 1
    ensures SplitRun(st, s, sep, limit).parts == st.parts
    ensures SplitRun(st, s, sep, limit).current == st.current + s
    decreases |s|
  {
    if s == "" {
      assert st.current + s == st.current;
    } else {
      TailRun(SplitStep(st, s[0], sep, limit), s[1..], sep, limit);
      assert st.current + [s[0]] + s[1..] == st.current + s;
    }
  }

  ghost predicate AllSealed(parts: seq<string>, sep: char) {
    forall i :: 0 <= i < |parts| ==> Sealed(parts[i], sep)
  }

  lemma {:induction false} PartsRun(done: seq<string>, parts: seq<string>, last: string, sep: char, limit: int)
    requires sep != '\\' && AllSealed(parts, sep)
    requires limit <= 0 || |done| + |parts| <= limit - 1
    ensures SplitRun(Splitter(done, "", false), Join(parts + [last], [sep]), sep, limit)
         == SplitRun(Splitter(done + parts, "", false), last, sep, limit)
    decreases |parts|
  {
    hide Sealed;
    if parts == [] {
      assert done + parts == done && parts + [last] == [last];
      assert Join([last], [sep]) == last;
    } else {
      var rest := parts[1..] + [last];
      assert (parts + [last])[1..] == rest;
      var head, tail := parts[0] + [sep], Join(rest, [sep]);
      assert Join(parts + [last], [sep]) == head + tail;
      var start := Splitter(done, "", false);
      SplitRunConcat(start, head, tail, sep, limit);
      SplitRunConcat(start, parts[0], [sep], sep, limit);
      SealedRun(start, parts[0], sep, limit);
      assert "" + parts[0] == parts[0];
      OneChar(Splitter(done, parts[0], false), sep, sep, limit);
      PartsRun(done + [parts[0]], parts[1..], last, sep, limit);
      assert done + [parts[0]] + parts[1..] == done + parts;
    }
  }

  lemma OneChar(st: Splitter, r: char, sep: char, limit: int)
    ensures SplitRun(st, [r], sep, limit) == SplitStep(st, r, sep, limit)
  {
    hide SplitStep;
    assert [r][1..] == "";
    assert SplitRun(SplitStep(st, r, sep, limit), "", sep, limit) == SplitStep(st, r, sep, limit);
  }

  /** Splitting a join of sealed parts gives the parts back, with anything at all for the last once the limit is met. */
  lemma SplitInvertsJoin(parts: seq<string>, last: string, sep: char, limit: int)
    requires sep != '\\' && AllSealed(parts, sep)
    requires if limit > 0 && |parts| == limit - 1 then true
             else Sealed(last, sep) && (limit <= 0 || |parts| < limit - 1)
    ensures SplitEscaped(Join(parts + [last], [sep]), sep, limit) == parts + [last]
  {
    hide Join, SplitRun, Sealed;
    PartsRun([], parts, last, sep, limit);
    assert [] + parts == parts;
    assert "" + last == last;
    if limit > 0 && |parts| == limit - 1 {
      TailRun(Splitter(parts, "", false), last, sep, limit);
    } else {
      SealedRun(Splitter(parts, "", false), last, sep, limit);
    }
  }

  // ---- CEF escapes ----

  /** What a two-character escape stands for. */
  function Decoded(c: char): Option<char> {
    if c == '|' || c == '\\' || c == '=' then Some(c)
    else if c == 'n' then Some('\n')
    else if c == 'r' then Some('\r')
    else None
  }

  function UnescapeCEF(s: string): string {
    if s == "" then ""
    else if s[0] == '\\' && |s| > 1 && Decoded(s[1]).Some? then [Decoded(s[1]).value] + UnescapeCEF(s[2..])
    else [s[0]] + UnescapeCEF(s[1..])
  }

  /** Header fields are written with backslashes and bars escaped. */
  function EscapeHeader(s: string): string {
    if s == "" then ""
    else (if s[0] == '\\' || s[0] == '|' then ['\\', s[0]] else [s[0]]) + EscapeHeader(s[1..])
  }

  lemma {:induction false} HeaderField(s: string)
    ensures Sealed(EscapeHeader(s), '|') && UnescapeCEF(EscapeHeader(s)) == s
  {
    if s != "" {
      HeaderField(s[1..]);
      var e, rest := EscapeHeader(s), EscapeHeader(s[1..]);
      if s[0] == '\\' || s[0] == '|' {
        assert e[2..] == rest;
      } else {
        assert e[1..] == rest;
      }
      assert s == [s[0]] + s[1..];
    }
  }

  datatype CefHeader = CefHeader(version: string, vendor: string, product: string, deviceVersion: string,
                                 ruleID: string, name: string, severity: string, extension: string)

  function ParseHeader(input: string): Option<CefHeader> {
    var p := SplitEscaped(input, '|', 8);
    if |p| < 8 || !HasPrefix(p[0], "CEF:") then None else
    Some(CefHeader(p[0][4..], UnescapeCEF(p[1]), UnescapeCEF(p[2]), UnescapeCEF(p[3]), UnescapeCEF(p[4]),
                   UnescapeCEF(p[5]), UnescapeCEF(p[6]), p[7]))
  }

  function HeaderParts(h: CefHeader): seq<string> {
    [EscapeHeader("CEF:" + h.version), EscapeHeader(h.vendor), EscapeHeader(h.product), EscapeHeader(h.deviceVersion),
     EscapeHeader(h.ruleID), EscapeHeader(h.name), EscapeHeader(h.severity)]
  }

  function PrintHeader(h: CefHeader): string {
    Join(HeaderParts(h) + [h.extension], "|")
  }

  lemma EscapePlain(c: char, s: string)
    requires c != '\\' && c != '|'
    ensures EscapeHeader([c] + s) == [c] + EscapeHeader(s)
  {
    assert ([c] + s)[1..] == s;
  }

  lemma EscapePrefix(s: string)
    ensures EscapeHeader("CEF:" + s) == "CEF:" + EscapeHeader(s)
  {
    EscapePlain('C', "EF:" + s);
    EscapePlain('E', "F:" + s);
    EscapePlain('F', ":" + s);
    EscapePlain(':', s);
    assert "CEF:" + s == ['C'] + ("EF:" + s) && "EF:" + s == ['E'] + ("F:" + s);
    assert "F:" + s == ['F'] + (":" + s) && ":" + s == [':'] + s;
  }

  lemma {:induction false} EscapeFixed(s: string)
    ensures EscapeHeader(s) == s <==> '\\' !in s && '|' !in s
    ensures |EscapeHeader(s)| >= |s|
  {
    if s != "" {
      EscapeFixed(s[1..]);
      assert s == [s[0]] + s[1..];
      if EscapeHeader(s) == s { assert EscapeHeader(s)[1..] == s[1..]; }
    }
  }

  /** A printed header parses: every field but the version is restored for arbitrary text, the extension may
      hold bars, and the version comes back as it was escaped. */
  lemma HeaderRoundTrip(h: CefHeader)
    ensures ParseHeader(PrintHeader(h)) == Some(h.(version := EscapeHeader(h.version)))
    ensures ParseHeader(PrintHeader(h)) == Some(h) <==> '\\' !in h.version && '|' !in h.version
  {
    hide EscapeHeader, UnescapeCEF, SplitEscaped, Sealed, Join;
    HeaderField("CEF:" + h.version);
    HeaderField(h.vendor);
    HeaderField(h.product);
    HeaderField(h.deviceVersion);
    HeaderField(h.ruleID);
    HeaderField(h.name);
    HeaderField(h.severity);
    EscapePrefix(h.version);
    EscapeFixed(h.version);
    SplitInvertsJoin(HeaderParts(h), h.extension, '|', 8);
    assert ("CEF:" + EscapeHeader(h.version))[4..] == EscapeHeader(h.version);
  }

  // ---- Tokens ----

  datatype Tokenizer = Tokenizer(out: seq<string>, current: string, quote: Option<char>, escaped: bool)

  predicate Delimits(r: char, delimiter: char) {
    r == delimiter || (delimiter == ' ' && IsSpace(r))
  }

  function Flush(out: seq<string>, current: string): seq<string> {
    if Blank(current) then out else out + [current]
  }

  function TokenStep(st: Tokenizer, r: char, delimiter: char): Tokenizer {
    if st.escaped then st.(current := st.current + [r], escaped := false)
    else if r == '\\' then st.(escaped := true)
    else if st.quote.Some? then
      if r == st.quote.value then st.(quote := None) else st.(current := st.current + [r])
    else if r == '"' || r == '\'' then st.(quote := Some(r))
    else if Delimits(r, delimiter) then Tokenizer(Flush(st.out, st.current), "", None, false)
    else st.(current := st.current + [r])
  }

  function TokenRun(st: Tokenizer, s: string, delimiter: char): Tokenizer
    decreases |s|
  {
    if s == "" then st else TokenRun(TokenStep(st, s[0], delimiter), s[1..], delimiter)
  }

  const NO_TOKENS := Tokenizer([], "", None, false)

  function Tokens(s: string, delimiter: char): seq<string> {
    var st := TokenRun(NO_TOKENS, s, delimiter);
    Flush(st.out, st.current)
  }

  method SplitTokens(input: string, delimiter: char) returns (out: seq<string>)
    ensures out == Tokens(input, delimiter)
  {
    hide IsSpace, Trim;
    out := [];
    var b := "";
    var quote: Option<char> := None;
    var escaped := false;
    for i := 0 to |input|
      invariant TokenRun(NO_TOKENS, input, delimiter)
             == TokenRun(Tokenizer(out, b, quote, escaped), input[i..], delimiter)
    {
      var r := input[i];
      assert input[i..][1..] == input[i + 1..];
      if escaped {
        b := b + [r];
        escaped := false;
        continue;
      }
      if r == '\\' {
        escaped := true;
        continue;
      }
      if quote.Some? {
        if r == quote.value {
          quote := None;
        } else {
          b := b + [r];
        }
        continue;
      }
      if r == '"' || r == '\'' {
        quote := Some(r);
        continue;
      }
      if r == delimiter || (delimiter == ' ' && IsSpace(r)) {
        if Trim(b) != "" {
          out := out + [b];
        }
        b := "";
        continue;
      }
      b := b + [r];
    }
    if Trim(b) != "" {
      out := out + [b];
    }
  }

  predicate Special(c: char, delimiter: char) {
    c == '\\' || c == '"' || c == '\'' || Delimits(c, delimiter)
  }

  function EscapeToken(t: string, delimiter: char): string {
    if t == "" then ""
    else (if Special(t[0], delimiter) then ['\\', t[0]] else [t[0]]) + EscapeToken(t[1..], delimiter)
  }

  function PrintTokens(tokens: seq<string>, delimiter: char): string {
    if tokens == [] then ""
    else if |tokens| == 1 then EscapeToken(tokens[0], delimiter)
    else EscapeToken(tokens[0], delimiter) + [delimiter] + PrintTokens(tokens[1..], delimiter)
  }

  function NonBlankTokens(tokens: seq<string>): seq<string> {
    if tokens == [] then [] else (if Blank(tokens[0]) then [] else [tokens[0]]) + NonBlankTokens(tokens[1..])
  }

  lemma {:induction false} TokenRunConcat(st: Tokenizer, a: string, b: string, delimiter: char)
    ensures TokenRun(st, a + b, delimiter) == TokenRun(TokenRun(st, a, delimiter), b, delimiter)
    decreases |a|
  {
    hide TokenStep;
    if a == "" {
      assert a + b == b;
    } else {
      assert (a + b)[1..] == a[1..] + b;
      TokenRunConcat(TokenStep(st, a[0], delimiter), a[1..], b, delimiter);
    }
  }

  lemma {:induction false} EscapedRun(st: Tokenizer, t: string, delimiter: char)
    requires !st.escaped && st.quote.None?
    ensures TokenRun(st, EscapeToken(t, delimiter), delimiter) == st.(current := st.current + t)
    decreases |t|
  {
    hide Delimits, Flush;
    if t == "" {
      assert st.current + t == st.current;
    } else {
      var rest := EscapeToken(t[1..], delimiter);
      var next := st.(current := st.current + [t[0]]);
      if Special(t[0], delimiter) {
        TwoChars(st, t[0], rest, delimiter);
      } else {
        assert ([t[0]] + rest)[1..] == rest;
      }
      EscapedRun(next, t[1..], delimiter);
      assert st.current + [t[0]] + t[1..] == st.current + t;
    }
  }

  lemma TwoChars(st: Tokenizer, c: char, rest: string, delimiter: char)
    requires !st.escaped
    ensures TokenRun(st, ['\\', c] + rest, delimiter) == TokenRun(st.(current := st.current + [c]), rest, delimiter)
  {
    hide Delimits, Flush;
    var s := ['\\', c] + rest;
    assert s[1..] == [c] + rest && s[1..][1..] == rest;
    assert TokenStep(st, '\\', delimiter) == st.(escaped := true);
  }

  lemma OneToken(st: Tokenizer, r: char, delimiter: char)
    ensures TokenRun(st, [r], delimiter) == TokenStep(st, r, delimiter)
  {
    hide TokenStep;
    assert [r][1..] == "";
    assert TokenRun(TokenStep(st, r, delimiter), "", delimiter) == TokenStep(st, r, delimiter);
  }

  predicate UsableDelimiter(d: char) {
    d != '\\' && d != '"' && d != '\''
  }

  lemma DelimiterRun(out: seq<string>, t: string, delimiter: char)
    requires UsableDelimiter(delimiter)
    ensures TokenRun(Tokenizer(out, t, None, false), [delimiter], delimiter) == Tokenizer(Flush(out, t), "", None, false)
  {
    hide Flush, IsSpace, TokenRun;
    OneToken(Tokenizer(out, t, None, false), delimiter, delimiter);
  }

  /** A printed token and the delimiter after it leave the tokeniser as it started, with the token taken. */
  lemma TokenTaken(out: seq<string>, t: string, delimiter: char)
    requires UsableDelimiter(delimiter)
    ensures TokenRun(Tokenizer(out, "", None, false), EscapeToken(t, delimiter) + [delimiter], delimiter)
         == Tokenizer(Flush(out, t), "", None, false)
  {
    hide *;
    var start := Tokenizer(out, "", None, false);
    TokenRunConcat(start, EscapeToken(t, delimiter), [delimiter], delimiter);
    EscapedRun(start, t, delimiter);
    assert "" + t == t;
    DelimiterRun(out, t, delimiter);
  }

  lemma PrintSteps(tokens: seq<string>, delimiter: char)
    requires |tokens| > 1
    ensures PrintTokens(tokens, delimiter)
         == (EscapeToken(tokens[0], delimiter) + [delimiter]) + PrintTokens(tokens[1..], delimiter)
  {
    hide EscapeToken;
  }

  lemma FlushAppends(out: seq<string>, tokens: seq<string>)
    requires tokens != []
    ensures Flush(out, tokens[0]) + NonBlankTokens(tokens[1..]) == out + NonBlankTokens(tokens)
  {
    hide Blank, NonBlankTokens;
    var t, rest := tokens[0], NonBlankTokens(tokens[1..]);
    NonBlankHead(tokens);
    if Blank(t) {
      assert [] + rest == rest;
    } else {
      assert (out + [t]) + rest == out + ([t] + rest);
    }
  }

  lemma NonBlankHead(tokens: seq<string>)
    requires tokens != []
    ensures NonBlankTokens(tokens) == (if Blank(tokens[0]) then [] else [tokens[0]]) + NonBlankTokens(tokens[1..])
  {
    hide Blank;
  }

  lemma {:induction false} PrintedRun(out: seq<string>, tokens: seq<string>, delimiter: char)
    requires UsableDelimiter(delimiter)
    ensures var st := TokenRun(Tokenizer(out, "", None, false), PrintTokens(tokens, delimiter), delimiter);
            Flush(st.out, st.current) == out + NonBlankTokens(tokens)
    decreases |tokens|
  {
    var start := Tokenizer(out, "", None, false);
    if tokens == [] {
      EmptyIsBlank();
      assert out + NonBlankTokens(tokens) == out;
    } else {
      FlushAppends(out, tokens);
      if |tokens| == 1 {
        hide TokenRun, TokenStep, EscapeToken, Flush;
        EscapedRun(start, tokens[0], delimiter);
        assert "" + tokens[0] == tokens[0];
        assert NonBlankTokens(tokens[1..]) == [];
        assert Flush(out, tokens[0]) + [] == Flush(out, tokens[0]);
      } else {
        hide *;
        PrintSteps(tokens, delimiter);
        TokenRunConcat(start, EscapeToken(tokens[0], delimiter) + [delimiter], PrintTokens(tokens[1..], delimiter), delimiter);
        TokenTaken(out, tokens[0], delimiter);
        PrintedRun(Flush(out, tokens[0]), tokens[1..], delimiter);
      }
    }
  }

  lemma EmptyIsBlank()
    ensures Blank("")
  {
  }

  /** Splitting printed tokens gives the tokens back, blank ones dropped. */
  lemma TokensInvertPrinting(tokens: seq<string>, delimiter: char)
    requires UsableDelimiter(delimiter)
    ensures Tokens(PrintTokens(tokens, delimiter), delimiter) == NonBlankTokens(tokens)
  {
    PrintedRun([], tokens, delimiter);
  }

  /** With a backslash or a quote for delimiter two tokens run together. */
  lemma UnusableDelimiter(delimiter: char)
    requires !UsableDelimiter(delimiter)
    ensures Tokens(PrintTokens(["a", "b"], delimiter), delimiter) != NonBlankTokens(["a", "b"])
  {
    hide IsSpace, Blank, Tokens, PrintTokens, NonBlankTokens;
    LettersPrint(delimiter);
    LettersRun(delimiter);
    LettersRemain();
  }

  lemma LettersRun(delimiter: char)
    requires !UsableDelimiter(delimiter)
    ensures |Tokens(['a', delimiter, 'b'], delimiter)| <= 1
  {
    hide IsSpace, Blank;
    var s := ['a', delimiter, 'b'];
    assert s == "a" + ([delimiter] + "b");
    var st := TokenStep(NO_TOKENS, 'a', delimiter);
    OneToken(NO_TOKENS, 'a', delimiter);
    TokenRunConcat(NO_TOKENS, "a", [delimiter] + "b", delimiter);
    OneToken(st, delimiter, delimiter);
    TokenRunConcat(st, [delimiter], "b", delimiter);
    OneToken(TokenStep(st, delimiter, delimiter), 'b', delimiter);
    assert !Delimits('a', delimiter) by { LetterIsNoSpace(); }
  }

  lemma LetterIsNoSpace()
    ensures !IsSpace('a')
  {
  }

  lemma LettersPrint(delimiter: char)
    requires !UsableDelimiter(delimiter)
    ensures PrintTokens(["a", "b"], delimiter) == ['a', delimiter, 'b']
  {
    assert !Special('a', delimiter) && !Special('b', delimiter);
    assert "a"[1..] == "" && "b"[1..] == "";
    assert EscapeToken("", delimiter) == "";
    assert EscapeToken("a", delimiter) == "a" && EscapeToken("b", delimiter) == "b";
    assert ["a", "b"][1..] == ["b"];
  }

  lemma LettersRemain()
    ensures |NonBlankTokens(["a", "b"])| == 2
  {
    TrimFixed("a");
    TrimFixed("b");
    assert ["a", "b"][1..] == ["b"] && ["b"][1..] == [];
    assert NonBlankTokens([]) == [];
    assert NonBlankTokens(["b"]) == ["b"];
  }

  /** The tokeniser inverts the printer for all lists of tokens exactly when the delimiter is neither a
      backslash nor a quote. */
  lemma DelimiterIff(delimiter: char)
    ensures (forall tokens :: Tokens(PrintTokens(tokens, delimiter), delimiter) == NonBlankTokens(tokens))
            <==> UsableDelimiter(delimiter)
  {
    hide Tokens, PrintTokens, NonBlankTokens;
    if UsableDelimiter(delimiter) {
      forall tokens: seq<string> ensures Tokens(PrintTokens(tokens, delimiter), delimiter) == NonBlankTokens(tokens) {
        TokensInvertPrinting(tokens, delimiter);
      }
    } else {
      UnusableDelimiter(delimiter);
    }
  }

  // ---- Key-value pairs ----

  predicate Wrapped(t: string) {
    |t| >= 2 && ((t[0] == '"' && t[|t| - 1] == '"') || (t[0] == '\'' && t[|t| - 1] == '\''))
  }

  function TrimQuotes(value: string): string {
    var t := Trim(value);
    if Wrapped(t) then t[1..|t| - 1] else t
  }

  datatype Pair = Pair(key: string, value: string)

  function AddToken(m: map<string, string>, token: string): map<string, string> {
    var i := IndexOf(token, '=');
    if i == |token| || Blank(token[..i]) then m else m[Trim(token[..i]) := TrimQuotes(token[i + 1..])]
  }

  function KeyValues(tokens: seq<string>): map<string, string> {
    if tokens == [] then map[] else AddToken(KeyValues(tokens[..|tokens| - 1]), tokens[|tokens| - 1])
  }

  method ParseKeyValues(input: string, delimiter: char) returns (m: map<string, string>)
    ensures m == KeyValues(Tokens(input, delimiter))
  {
    hide Trim, TrimQuotes, Tokens;
    var tokens := SplitTokens(input, delimiter);
    m := map[];
    for i := 0 to |tokens|
      invariant m == KeyValues(tokens[..i])
    {
      assert tokens[..i + 1][..i] == tokens[..i];
      var token := tokens[i];
      var cut := IndexOf(token, '=');
      if cut == |token| || Trim(token[..cut]) == "" {
        continue;
      }
      m := m[Trim(token[..cut]) := TrimQuotes(token[cut + 1..])];
    }
    assert tokens[..|tokens|] == tokens;
  }

  function PairToken(p: Pair): string {
    p.key + "=" + p.value
  }

  function PairTokens(ps: seq<Pair>): (ts: seq<string>)
    ensures |ts| == |ps| && forall i :: 0 <= i < |ps| ==> ts[i] == PairToken(ps[i])
  {
    seq(|ps|, i requires 0 <= i < |ps| => PairToken(ps[i]))
  }

  predicate GoodKey(k: string) {
    k != "" && '=' !in k && Trimmed(k)
  }

  /** Later pairs win. */
  function PairMap(ps: seq<Pair>): map<string, string> {
    if ps == [] then map[] else
    var last := ps[|ps| - 1];
    PairMap(ps[..|ps| - 1])[last.key := TrimQuotes(last.value)]
  }

  lemma PairTokenCut(p: Pair)
    requires GoodKey(p.key)
    ensures var t := PairToken(p);
            |p.key| < |t| && IndexOf(t, '=') == |p.key| && t[..|p.key|] == p.key && t[|p.key| + 1..] == p.value
  {
    hide IsSpace;
    var t, n := PairToken(p), |p.key|;
    assert t[..n] == p.key && t[n] == '=';
    FirstOccurrence(t, '=', n);
  }

  lemma PairTokenNotBlank(p: Pair)
    requires GoodKey(p.key)
    ensures !Blank(PairToken(p))
  {
    BlankIff(PairToken(p));
    assert PairToken(p)[0] == p.key[0];
  }

  lemma {:induction false} PairsAreNotBlank(ps: seq<Pair>)
    requires forall p :: p in ps ==> GoodKey(p.key)
    ensures NonBlankTokens(PairTokens(ps)) == PairTokens(ps)
  {
    hide GoodKey, Blank;
    if ps != [] {
      PairTokenNotBlank(ps[0]);
      PairsAreNotBlank(ps[1..]);
      assert PairTokens(ps) == [PairToken(ps[0])] + PairTokens(ps[1..]);
      assert PairTokens(ps)[1..] == PairTokens(ps[1..]);
    }
  }

  lemma {:induction false} PairsParse(ps: seq<Pair>)
    requires forall p :: p in ps ==> GoodKey(p.key)
    ensures KeyValues(PairTokens(ps)) == PairMap(ps)
  {
    hide GoodKey, TrimQuotes, PairToken;
    if ps != [] {
      var front, last := ps[..|ps| - 1], ps[|ps| - 1];
      PairsParse(front);
      assert PairTokens(ps)[..|ps| - 1] == PairTokens(front);
      PairAdds(PairMap(front), last);
    }
  }

  lemma PairAdds(m: map<string, string>, p: Pair)
    requires GoodKey(p.key)
    ensures AddToken(m, PairToken(p)) == m[p.key := TrimQuotes(p.value)]
  {
    hide TrimQuotes, PairToken, IsSpace;
    PairTokenCut(p);
    TrimFixed(p.key);
  }

  /** Printed pairs parse to the map of their keys and unquoted values. */
  lemma KeyValuesInvertPrinting(ps: seq<Pair>, delimiter: char)
    requires UsableDelimiter(delimiter) && forall p :: p in ps ==> GoodKey(p.key)
    ensures KeyValues(Tokens(PrintTokens(PairTokens(ps), delimiter), delimiter)) == PairMap(ps)
  {
    hide GoodKey, Tokens, PrintTokens, NonBlankTokens, KeyValues, PairMap;
    TokensInvertPrinting(PairTokens(ps), delimiter);
    PairsAreNotBlank(ps);
    PairsParse(ps);
  }

  /** A value survives parsing exactly when it is trimmed and not wrapped in a pair of quotes. */
  lemma TrimQuotesFixedIff(v: string)
    ensures TrimQuotes(v) == v <==> Trimmed(v) && !Wrapped(v)
  {
    hide Trim, IsSpace;
    if Trimmed(v) { TrimFixed(v); }
    var a, b := TrimProps(v);
  }

  ghost predicate DistinctKeys(ps: seq<Pair>) {
    forall i, j :: 0 <= i < j < |ps| ==> ps[i].key != ps[j].key
  }

  lemma {:induction false} PairMapIs(ps: seq<Pair>)
    requires DistinctKeys(ps)
    ensures forall i :: 0 <= i < |ps| ==> ps[i].key in PairMap(ps) && PairMap(ps)[ps[i].key] == TrimQuotes(ps[i].value)
    ensures forall k :: k in PairMap(ps) ==> exists i :: 0 <= i < |ps| && ps[i].key == k
  {
    hide TrimQuotes;
    if ps != [] {
      var front, last := ps[..|ps| - 1], ps[|ps| - 1];
      PairMapIs(front);
      assert PairMap(ps) == PairMap(front)[last.key := TrimQuotes(last.value)];
      forall k | k in PairMap(ps) ensures exists i :: 0 <= i < |ps| && ps[i].key == k {
        if k == last.key {
          assert ps[|ps| - 1].key == k;
        } else {
          var i :| 0 <= i < |front| && front[i].key == k;
          assert ps[i].key == k;
        }
      }
    }
  }

  /** The given map, as printed pairs. */
  ghost predicate Lists(ps: seq<Pair>, m: map<string, string>) {
    && DistinctKeys(ps)
    && (forall i :: 0 <= i < |ps| ==> ps[i].key in m && m[ps[i].key] == ps[i].value)
    && (forall k :: k in m ==> exists i :: 0 <= i < |ps| && ps[i].key == k)
  }

  /** A map printed key by key is recovered exactly when each of its values is trimmed and unquoted. */
  lemma KeyValuesRecoverIff(m: map<string, string>, ps: seq<Pair>, delimiter: char)
    requires UsableDelimiter(delimiter) && Lists(ps, m) && forall k :: k in m ==> GoodKey(k)
    ensures KeyValues(Tokens(PrintTokens(PairTokens(ps), delimiter), delimiter)) == m
            <==> forall k :: k in m ==> Trimmed(m[k]) && !Wrapped(m[k])
  {
    hide GoodKey, Tokens, PrintTokens, KeyValues, PairMap, TrimQuotes, Trimmed, Wrapped;
    KeyValuesInvertPrinting(ps, delimiter);
    PairMapIs(ps);
    var r := PairMap(ps);
    assert r.Keys == m.Keys;
    forall k | k in m ensures r[k] == TrimQuotes(m[k]) && (r[k] == m[k] <==> Trimmed(m[k]) && !Wrapped(m[k])) {
      var i :| 0 <= i < |ps| && ps[i].key == k;
      TrimQuotesFixedIff(m[k]);
    }
  }
}
