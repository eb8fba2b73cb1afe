/** The label parser of the metrics scraper, and the label printing of the Prometheus text exposition
    format (version 0.0.4) that it inverts. */
module MetricLabels {
  import opened Text
  import opened Wrappers

  datatype Label = Label(name: string, value: string)

  /** `strings.TrimLeft` with a set of characters. */
  function DropLeft(s: string, chars: string): (r: string)
    ensures |r| <= |s|
    ensures r != "" ==> r[0] !in chars
  {
    if s != "" && s[0] in chars then DropLeft(s[1..], chars) else s
  }

  function Unescaped(c: char): char {
    if c == 'n' then '\n' else if c == 't' then '\t' else c
  }

  /** The text of a quoted value up to its closing quote, and what follows it. */
  function Quoted(s: string, escaped: bool): (r: (string, string))
    ensures |r.1| <= |s|
  {
    if s == "" then ("", "")
    else if escaped then
      var r := Quoted(s[1..], false); ([Unescaped(s[0])] + r.0, r.1)
    else if s[0] == '\\' then Quoted(s[1..], true)
    else if s[0] == '"' then ("", s[1..])
    else
      var r := Quoted(s[1..], false); ([s[0]] + r.0, r.1)
  }

  method ParseQuotedLabel(raw: string) returns (value: string, rest: string)
    requires raw != ""
    ensures (value, rest) == Quoted(raw[1..], false)
  {
    value := "";
    var escaped := false;
    var i := 1;
    ghost var all := Quoted(raw[1..], false);
    assert "" + all.0 == all.0;
    while i < |raw|
      invariant 1 <= i <= |raw|
      invariant all.0 == value + Quoted(raw[i..], escaped).0
      invariant all.1 == Quoted(raw[i..], escaped).1
    {
      var ch := raw[i];
      assert raw[i..][1..] == raw[i + 1..];
      if !escaped && ch == '"' {
        assert value + "" == value;
        return value, raw[i + 1..];
      }
      if escaped {
        var c := match ch case 'n' => '\n' case 't' => '\t' case _ => ch;
        assert value + ([c] + Quoted(raw[i + 1..], false).0) == (value + [c]) + Quoted(raw[i + 1..], false).0;
        value := value + [c];
        escaped := false;
      } else if ch == '\\' {
        escaped := true;
      } else {
        assert value + ([ch] + Quoted(raw[i + 1..], false).0) == (value + [ch]) + Quoted(raw[i + 1..], false).0;
        value := value + [ch];
      }
      i := i + 1;
    }
    assert value + "" == value;
    rest := "";
  }

  /** The labels found from left to right. */
  function Labels(raw: string): seq<Label>
    decreases |raw|, 1
  {
    LabelsFrom(DropLeft(raw, " \t,"))
  }

  function LabelsFrom(s: string): seq<Label>
    decreases |s|, 0
  {
    var eq := IndexOf(s, '=');
    if s == "" || eq == |s| || eq == 0 then [] else
    var key := Trim(s[..eq]);
    var t := DropLeft(s[eq + 1..], " \t");
    if t == "" || t[0] != '"' then
      var comma := IndexOf(t, ',');
      if comma == |t| then [Label(key, Trim(t))] else [Label(key, Trim(t[..comma]))] + Labels(t[comma + 1..])
    else
      var q := Quoted(t[1..], false);
      (if key != "" then [Label(key, q.0)] else []) + Labels(q.1)
  }

  function LabelMap(m: map<string, string>, labels: seq<Label>): map<string, string>
    decreases |labels|
  {
    if labels == [] then m else LabelMap(m[labels[0].name := labels[0].value], labels[1..])
  }

  method ParseLabels(input: string) returns (out: map<string, string>)
    ensures out == LabelMap(map[], Labels(input))
  {
    hide Trim, IndexOf, DropLeft, Quoted;
    out := map[];
    var raw := input;
    while |raw| > 0
      invariant LabelMap(map[], Labels(input)) == LabelMap(out, Labels(raw))
      decreases |raw|
    {
      ghost var before := raw;
      raw := DropLeft(raw, " \t,");
      if raw == "" {
        break;
      }
      var eq := IndexOf(raw, '=');
      if eq == |raw| || eq == 0 {
        break;
      }
      var key := Trim(raw[..eq]);
      raw := DropLeft(raw[eq + 1..], " \t");
      if raw == "" || raw[0] != '"' {
        var comma := IndexOf(raw, ',');
        if comma == |raw| {
          out := out[key := Trim(raw)];
          break;
        }
        var found := Label(key, Trim(raw[..comma]));
        AddFirst(out, found, Labels(raw[comma + 1..]));
        out := out[key := found.value];
        raw := raw[comma + 1..];
        continue;
      }
      var value, rest := ParseQuotedLabel(raw);
      assert [] + Labels(rest) == Labels(rest);
      if key != "" {
        AddFirst(out, Label(key, value), Labels(rest));
        out := out[key := value];
      }
      raw := rest;
    }
  }

  lemma AddFirst(m: map<string, string>, l: Label, rest: seq<Label>)
    ensures LabelMap(m, [l] + rest) == LabelMap(m[l.name := l.value], rest)
  {
    assert ([l] + rest)[1..] == rest;
  }

  // ---- Printing ----

  function EscapeValue(v: string): string {
    if v == "" then "" else
    (if v[0] == '\\' || v[0] == '"' then ['\\', v[0]] else if v[0] == '\n' then "\\n" else [v[0]]) + EscapeValue(v[1..])
  }

  function PrintLabel(l: Label): string {
    l.name + "=\"" + EscapeValue(l.value) + "\""
  }

  function PrintLabels(labels: seq<Label>): string {
    if labels == [] then ""
    else if |labels| == 1 then PrintLabel(labels[0])
    else PrintLabel(labels[0]) + "," + PrintLabels(labels[1..])
  }

  predicate NameStart(c: char) {
    'a' <= c <= 'z' || 'A' <= c <= 'Z' || c == '_'
  }

  /** A label name of the format: a letter or underscore, then letters, digits and underscores. */
  predicate ValidName(s: string) {
    s != "" && NameStart(s[0]) && forall i :: 0 <= i < |s| ==> NameStart(s[i]) || Digit(s[i])
  }

  lemma {:induction false} QuotedInverts(v: string, rest: string)
    ensures Quoted(EscapeValue(v) + "\"" + rest, false) == (v, rest)
  {
    var s := EscapeValue(v) + "\"" + rest;
    if v == "" {
      assert s == "\"" + rest && s[1..] == rest;
    } else {
      QuotedInverts(v[1..], rest);
      var tail := EscapeValue(v[1..]) + "\"" + rest;
      assert v == [v[0]] + v[1..];
      if v[0] == '\\' || v[0] == '"' || v[0] == '\n' {
        var c := if v[0] == '\n' then 'n' else v[0];
        assert s == ['\\', c] + tail;
        assert s[1..] == [c] + tail && s[1..][1..] == tail;
        assert Quoted(s, false) == Quoted(s[1..], true);
      } else {
        assert s == [v[0]] + tail && s[1..] == tail;
      }
    }
  }

  lemma NameFacts(s: string)
    requires ValidName(s)
    ensures '=' !in s && Trim(s) == s && s[0] !in " \t,"
  {
    forall i | 0 <= i < |s| ensures s[i] != '=' && !IsSpace(s[i]) {
      assert NameStart(s[i]) || Digit(s[i]);
    }
    TrimFixed(s);
  }

  lemma DropNothing(s: string, chars: string)
    requires s == "" || s[0] !in chars
    ensures DropLeft(s, chars) == s
  {
  }

  /** One printed label at the front of the input, with anything after it. */
  lemma FirstLabel(l: Label, rest: string)
    requires ValidName(l.name)
    ensures Labels(PrintLabel(l) + rest) == [l] + Labels(rest)
  {
    hide IsSpace, Trim, Quoted, ValidName, EscapeValue, IndexOf, DropLeft;
    var s, n := PrintLabel(l) + rest, |l.name|;
    NameFacts(l.name);
    assert l.name != "" by { assert ValidName(l.name); NameNotEmpty(l.name); }
    var after := "\"" + EscapeValue(l.value) + "\"" + rest;
    assert s == l.name + "=" + after;
    assert s[0] == l.name[0];
    DropNothing(s, " \t,");
    assert s[..n] == l.name && s[n] == '=' && s[n + 1..] == after;
    FirstOccurrence(s, '=', n);
    assert after[0] == '"';
    DropNothing(after, " \t");
    assert after[1..] == EscapeValue(l.value) + "\"" + rest;
    QuotedInverts(l.value, rest);
  }

  lemma NameNotEmpty(s: string)
    requires ValidName(s)
    ensures s != ""
  {
  }

  lemma CommaSkipped(s: string)
    ensures Labels("," + s) == Labels(s)
  {
    hide LabelsFrom;
    assert ("," + s)[1..] == s;
    assert DropLeft("," + s, " \t,") == DropLeft(s, " \t,");
  }

  lemma NoLabels()
    ensures Labels("") == []
  {
  }

  /** Parsing printed labels gives them back, in order, for arbitrary values. */
  lemma {:induction false} LabelsInvertPrinting(labels: seq<Label>)
    requires forall l :: l in labels ==> ValidName(l.name)
    ensures Labels(PrintLabels(labels)) == labels
  {
    hide ValidName, Labels, PrintLabel;
    NoLabels();
    if |labels| == 1 {
      FirstLabel(labels[0], "");
      assert PrintLabel(labels[0]) + "" == PrintLabel(labels[0]);
    } else if labels != [] {
      var rest := PrintLabels(labels[1..]);
      assert PrintLabels(labels) == PrintLabel(labels[0]) + ("," + rest);
      FirstLabel(labels[0], "," + rest);
      CommaSkipped(rest);
      LabelsInvertPrinting(labels[1..]);
    }
  }

  lemma {:induction false} LabelMapHas(m: map<string, string>, labels: seq<Label>)
    requires forall i, j :: 0 <= i < j < |labels| ==> labels[i].name != labels[j].name
    ensures forall i :: 0 <= i < |labels| ==>
              labels[i].name in LabelMap(m, labels) && LabelMap(m, labels)[labels[i].name] == labels[i].value
    ensures forall k :: k in LabelMap(m, labels) <==> k in m || exists i :: 0 <= i < |labels| && labels[i].name == k
    ensures forall k :: k in m && (forall i :: 0 <= i < |labels| ==> labels[i].name != k) ==>
              k in LabelMap(m, labels) && LabelMap(m, labels)[k] == m[k]
    decreases |labels|
  {
    if labels != [] {
      var first, rest := labels[0], labels[1..];
      var n := m[first.name := first.value];
      LabelMapHas(n, rest);
      forall k ensures k in LabelMap(m, labels) <==> k in m || exists i :: 0 <= i < |labels| && labels[i].name == k {
        if k == first.name { assert labels[0].name == k; }
        if exists i :: 0 <= i < |rest| && rest[i].name == k {
          var i :| 0 <= i < |rest| && rest[i].name == k;
          assert labels[i + 1].name == k;
        }
        if exists i :: 0 < i < |labels| && labels[i].name == k {
          var i :| 0 < i < |labels| && labels[i].name == k;
          assert rest[i - 1].name == k;
        }
      }
      forall i | 0 <= i < |rest| ensures rest[i].name != first.name { assert labels[i + 1] == rest[i]; }
      forall i | 0 <= i < |labels|
        ensures labels[i].name in LabelMap(m, labels) && LabelMap(m, labels)[labels[i].name] == labels[i].value
      {
        if i > 0 { assert labels[i] == rest[i - 1]; }
      }
      forall k | k in m && (forall i :: 0 <= i < |labels| ==> labels[i].name != k)
        ensures k in LabelMap(m, labels) && LabelMap(m, labels)[k] == m[k]
      {
        assert labels[0].name != k;
        forall i | 0 <= i < |rest| ensures rest[i].name != k { assert labels[i + 1] == rest[i]; }
      }
    }
  }

  /** The parsed map of printed labels with distinct valid names holds each of them, and nothing else. */
  lemma ParsedLabelsAre(labels: seq<Label>)
    requires forall l :: l in labels ==> ValidName(l.name)
    requires forall i, j :: 0 <= i < j < |labels| ==> labels[i].name != labels[j].name
    ensures var m := LabelMap(map[], Labels(PrintLabels(labels)));
            && (forall i :: 0 <= i < |labels| ==> labels[i].name in m && m[labels[i].name] == labels[i].value)
            && (forall k :: k in m ==> exists i :: 0 <= i < |labels| && labels[i].name == k)
  {
    hide ValidName, Labels, PrintLabels;
    LabelsInvertPrinting(labels);
    LabelMapHas(map[], labels);
  }

  // ---- Where a metric line ends its labels ----

  /** The line parser takes everything up to the first closing brace for the labels. */
  function LabelBlock(rest: string): Option<(string, string)>
    requires rest != ""
  {
    var end := IndexOf(rest, '}');
    if end == |rest| || end == 0 then None else Some((rest[1..end], rest[end + 1..]))
  }

  lemma {:induction false} BraceSurvives(v: string)
    ensures '}' in EscapeValue(v) <==> '}' in v
  {
    if v != "" {
      BraceSurvives(v[1..]);
      assert v == [v[0]] + v[1..];
    }
  }

  lemma {:induction false} BraceInLabels(labels: seq<Label>)
    requires forall l :: l in labels ==> ValidName(l.name)
    ensures '}' in PrintLabels(labels) <==> exists i :: 0 <= i < |labels| && '}' in labels[i].value
  {
    hide ValidName;
    if labels != [] {
      var l, rest := labels[0], labels[1..];
      assert forall m :: m in rest ==> m in labels;
      BraceInLabels(rest);
      BraceSurvives(l.value);
      NameHasNoBrace(l.name);
      assert '}' in PrintLabel(l) <==> '}' in l.value;
      hide PrintLabel;
      assert '}' in PrintLabels(labels) <==> '}' in PrintLabel(l) || '}' in PrintLabels(rest);
      forall i | 0 <= i < |labels| ensures i > 0 ==> labels[i] == rest[i - 1] {}
      forall i | 0 <= i < |rest| ensures rest[i] == labels[i + 1] {}
    }
  }

  lemma NameHasNoBrace(s: string)
    requires ValidName(s)
    ensures '}' !in s
  {
  }

  lemma BlockIff(body: string, tail: string)
    ensures LabelBlock("{" + body + "}" + tail) == Some((body, tail)) <==> '}' !in body
  {
    var s, n := "{" + body + "}" + tail, |body| + 1;
    assert s[n] == '}' && s[1..n] == body && s[n + 1..] == tail && s[..n] == "{" + body;
    if '}' !in body {
      FirstOccurrence(s, '}', n);
    } else {
      var k :| 0 <= k < |body| && body[k] == '}';
      assert s[k + 1] == '}';
      IndexAtMost(s, '}', k + 1);
    }
  }

  lemma {:induction false} IndexAtMost(s: string, c: char, k: nat)
    requires k < |s| && s[k] == c
    ensures IndexOf(s, c) <= k
  {
    if k > 0 && s[0] != c { IndexAtMost(s[1..], c, k - 1); }
  }

  /** A metric line's label block is cut where it was closed exactly when no label value holds a closing brace. */
  lemma LabelBlockIff(labels: seq<Label>, tail: string)
    requires forall l :: l in labels ==> ValidName(l.name)
    ensures LabelBlock("{" + PrintLabels(labels) + "}" + tail) == Some((PrintLabels(labels), tail))
            <==> forall i :: 0 <= i < |labels| ==> '}' !in labels[i].value
  {
    hide ValidName, PrintLabels, LabelBlock;
    BraceInLabels(labels);
    BlockIff(PrintLabels(labels), tail);
  }
}
