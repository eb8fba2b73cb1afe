/** A map read from configuration into one with trimmed keys and values, blank ones left out. The source takes the
    entries in the order of a map, which is any, so keys that trim alike can be decided by that order. */
module TrimmedMaps {
  import opened Text

  type Table = map<string, string>

  datatype Entry = Entry(key: string, value: string)

  predicate Filled(e: Entry) {
    Trim(e.key) != "" && Trim(e.value) != ""
  }

  function Add(t: Table, e: Entry): Table {
    if Filled(e) then t[Trim(e.key) := Trim(e.value)] else t
  }

  function AddAll(t: Table, es: seq<Entry>): Table {
    if es == [] then t else Add(AddAll(t, es[..|es| - 1]), es[|es| - 1])
  }

  /** The entries of a map in some order. */
  ghost predicate Enumerates(es: seq<Entry>, raw: Table) {
    && (forall e :: e in es <==> e.key in raw && raw[e.key] == e.value)
    && (forall i, j :: 0 <= i < j < |es| ==> es[i].key != es[j].key)
  }

  /** The loop over the raw map; `base` is what the result holds before it. */
  method TrimEntries(base: Table, raw: Table) returns (r: Table, ghost order: seq<Entry>)
    ensures Enumerates(order, raw) && r == AddAll(base, order)
  {
    hide Trim, AddAll;
    r, order := base, [];
    NoEntries(base);
    var left := raw.Keys;
    while left != {}
      invariant left <= raw.Keys && r == AddAll(base, order)
      invariant forall e :: e in order <==> e.key in raw && e.key !in left && raw[e.key] == e.value
      invariant forall i, j :: 0 <= i < j < |order| ==> order[i].key != order[j].key
      decreases |left|
    {
      var key :| key in left;
      left := left - {key};
      AddLast(base, order, Entry(key, raw[key]));
      var name, value := Trim(key), Trim(raw[key]);
      if name != "" && value != "" {
        r := r[name := value];
      }
      order := order + [Entry(key, raw[key])];
    }
  }

  lemma NoEntries(t: Table)
    ensures AddAll(t, []) == t
  {
  }

  lemma AddLast(t: Table, es: seq<Entry>, e: Entry)
    ensures AddAll(t, es + [e]) == Add(AddAll(t, es), e)
  {
    assert (es + [e])[..|es|] == es;
  }

  /** Two entries fight over a key: they trim to the same one, with values that do not. */
  predicate Collide(d: Entry, e: Entry) {
    Filled(d) && Filled(e) && Trim(d.key) == Trim(e.key) && Trim(d.value) != Trim(e.value)
  }

  ghost predicate Peaceful(es: seq<Entry>) {
    forall d, e :: d in es && e in es ==> !Collide(d, e)
  }

  /** Without such entries each key has the value of the entries that trim to it, or what it had before. */
  lemma {:induction false} TableAt(base: Table, es: seq<Entry>, k: string)
    requires Peaceful(es)
    ensures forall e :: e in es && Filled(e) && Trim(e.key) == k ==> k in AddAll(base, es) && AddAll(base, es)[k] == Trim(e.value)
    ensures (forall e :: e in es && Filled(e) ==> Trim(e.key) != k)
            ==> (k in AddAll(base, es) <==> k in base) && (k in base ==> AddAll(base, es)[k] == base[k])
  {
    hide Trim;
    if es != [] {
      var front, last := es[..|es| - 1], es[|es| - 1];
      assert es == front + [last];
      TableAt(base, front, k);
      forall e | e in es && Filled(e) && Trim(e.key) == k
        ensures k in AddAll(base, es) && AddAll(base, es)[k] == Trim(e.value)
      {
        assert !Collide(e, last);
      }
    }
  }

  lemma SameTable(base: Table, s: seq<Entry>, t: seq<Entry>, k: string)
    requires Peaceful(s) && forall e :: e in s <==> e in t
    ensures k in AddAll(base, s) <==> k in AddAll(base, t)
    ensures k in AddAll(base, s) ==> AddAll(base, s)[k] == AddAll(base, t)[k]
  {
    hide Trim, AddAll;
    TableAt(base, s, k);
    TableAt(base, t, k);
    if e :| e in s && Filled(e) && Trim(e.key) == k {
      assert e in t;
    }
  }

  lemma {:induction false} SomeListing(raw: Table) returns (es: seq<Entry>)
    ensures Enumerates(es, raw)
    decreases |raw|
  {
    if raw == map[] {
      es := [];
    } else {
      var k :| k in raw;
      var rest := raw - {k};
      assert |rest| < |raw| by { assert raw.Keys == rest.Keys + {k}; }
      es := SomeListing(rest);
      es := es + [Entry(k, raw[k])];
    }
  }

  lemma ListingEnds(raw: Table, d: Entry, e: Entry) returns (es: seq<Entry>)
    requires d.key in raw && raw[d.key] == d.value && e.key in raw && raw[e.key] == e.value && d.key != e.key
    ensures Enumerates(es + [d, e], raw) && Enumerates(es + [e, d], raw)
  {
    es := SomeListing(raw - {d.key, e.key});
  }

  lemma LastWins(base: Table, es: seq<Entry>, d: Entry, e: Entry)
    requires Filled(e)
    ensures var t := AddAll(base, es + [d, e]);
            Trim(e.key) in t && t[Trim(e.key)] == Trim(e.value)
  {
    hide Trim;
    assert es + [d, e] == (es + [d]) + [e];
    AddLast(base, es + [d], e);
  }

  predicate InMap(e: Entry, raw: Table) {
    e.key in raw && raw[e.key] == e.value
  }

  /** All orders of the raw map give one table exactly when no two of its keys trim alike and keep values that do not. */
  lemma TrimOrderIff(base: Table, raw: Table)
    ensures (forall s, t :: Enumerates(s, raw) && Enumerates(t, raw) ==> AddAll(base, s) == AddAll(base, t))
            <==> (forall d, e :: InMap(d, raw) && InMap(e, raw) ==> !Collide(d, e))
  {
    hide AddAll, Trim, Enumerates;
    if d, e :| InMap(d, raw) && InMap(e, raw) && Collide(d, e) {
      var es := ListingEnds(raw, d, e);
      LastWins(base, es, d, e);
      LastWins(base, es, e, d);
    } else {
      forall s, t | Enumerates(s, raw) && Enumerates(t, raw) ensures AddAll(base, s) == AddAll(base, t) {
        ListedAlike(s, t, raw);
        assert Peaceful(s);
        forall k ensures k in AddAll(base, s) <==> k in AddAll(base, t) { SameTable(base, s, t, k); }
        forall k | k in AddAll(base, s) ensures AddAll(base, s)[k] == AddAll(base, t)[k] { SameTable(base, s, t, k); }
      }
    }
  }

  lemma ListedAlike(s: seq<Entry>, t: seq<Entry>, raw: Table)
    requires Enumerates(s, raw) && Enumerates(t, raw)
    ensures forall e :: e in s <==> e in t
    ensures forall e :: e in s <==> InMap(e, raw)
  {
  }
}
