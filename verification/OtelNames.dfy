/** Component names: what the renaming of source ids always yields. */
module OtelNames {
  import opened OtelModel
  import opened Text

  predicate NameChars(s: string) {
    forall i :: 0 <= i < |s| ==> NameChar(s[i])
  }

  /** A name the collector accepts: name characters only, at least one, none of the edge characters at an end. */
  predicate WellFormedName(s: string) {
    s != "" && NameChars(s) && !Edge(s[0]) && !Edge(s[|s| - 1])
  }

  lemma {:induction false} SqueezeChars(s: string)
    ensures NameChars(Squeeze(s))
  {
    hide Separator;
    if s != "" { SqueezeChars(s[..|s| - 1]); }
  }

  lemma {:induction false} TrimEdgesProps(s: string)
    requires NameChars(s)
    ensures NameChars(TrimEdges(s))
    ensures TrimEdges(s) != "" ==> WellFormedName(TrimEdges(s))
  {
    hide NameChar, Edge;
    if s == "" {
    } else if Edge(s[0]) {
      TrimEdgesProps(s[1..]);
    } else if Edge(s[|s| - 1]) {
      TrimEdgesProps(s[..|s| - 1]);
    }
  }

  lemma {:induction false} SqueezeFixed(s: string)
    requires NameChars(s)
    ensures Squeeze(s) == s
  {
    hide NameChar, Separator;
    if s != "" {
      SqueezeFixed(s[..|s| - 1]);
      assert s == s[..|s| - 1] + [s[|s| - 1]];
    }
  }

  lemma LowerFixed(s: string)
    requires NameChars(s)
    ensures Lower(s) == s
  {
    forall i | 0 <= i < |s| ensures Lower(s)[i] == s[i] {
      assert NameChar(s[i]);
    }
  }

  lemma NamesAreTrimmed(s: string)
    requires NameChars(s)
    ensures Trim(s) == s
  {
    if s != "" { assert NameChar(s[0]) && NameChar(s[|s| - 1]); }
    TrimFixed(s);
  }

  /** Renaming always yields a well-formed name, and every well-formed name keeps its name. */
  lemma ComponentNameStable(value: string)
    ensures WellFormedName(ComponentName(value))
    ensures WellFormedName(value) ==> ComponentName(value) == value
  {
    hide Squeeze, TrimEdges, Trim, Lower, Separator;
    SqueezeChars(Trim(Lower(value)));
    TrimEdgesProps(Squeeze(Trim(Lower(value))));
    if WellFormedName(value) {
      LowerFixed(value);
      NamesAreTrimmed(value);
      SqueezeFixed(value);
      TrimEdgesFixed(value);
    }
  }

  lemma TrimEdgesFixed(s: string)
    requires WellFormedName(s)
    ensures TrimEdges(s) == s
  {
  }
}
