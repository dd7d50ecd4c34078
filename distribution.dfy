/** The portfolio distribution: how many records there are of each property type,
    listed in the order in which each type first appears among the records.
    The reference definition is built from `Count` and `FirstSeen`; the method
    `CalculatePropertyTypes` is the dashboard's reduce over the records, which
    fills a dictionary in place and then lists its entries. */
module Distribution {
  import opened Records

  /** One slice of the distribution pie: a property type and its number of records. */
  datatype TypeCount = TypeCount(name: string, value: nat)

  /** Some record of `s` has property type `t`. */
  predicate Occurs(s: seq<PropertyRecord>, t: string) {
    exists k | 0 <= k < |s| :: s[k].propertyType == t
  }

  /** No name is listed twice. */
  predicate Distinct(names: seq<string>) {
    forall i, j | 0 <= i < j < |names| :: names[i] != names[j]
  }

  /** The number of records of `s` whose property type is `t`, counted from the
      first record to the last. */
  function Count(s: seq<PropertyRecord>, t: string): (n: nat)
    ensures n <= |s|
    ensures n > 0 <==> Occurs(s, t)
  {
    if s == [] then 0
    else
      var front := s[..|s| - 1];
      assert forall k | 0 <= k < |front| :: front[k] == s[k];
      assert Occurs(s, t) <==> Occurs(front, t) || s[|s| - 1].propertyType == t;
      Count(front, t) + (if s[|s| - 1].propertyType == t then 1 else 0)
  }

  /** The distinct property types of `s`, each where it first appears: the key
      order of the dictionary that the reduce builds, since a key is appended
      when it is first assigned. */
  function FirstSeen(s: seq<PropertyRecord>): (names: seq<string>)
    ensures Distinct(names)
    ensures forall t :: t in names <==> Occurs(s, t)
  {
    if s == [] then []
    else
      var front := s[..|s| - 1];
      var t := s[|s| - 1].propertyType;
      assert forall k | 0 <= k < |front| :: front[k] == s[k];
      assert forall u :: Occurs(s, u) <==> Occurs(front, u) || u == t;
      var names := FirstSeen(front);
      if t in names then names else names + [t]
  }

  /** The entries `{name, value}` for the given names, each paired with its count in `s`. */
  function Tally(names: seq<string>, s: seq<PropertyRecord>): (entries: seq<TypeCount>)
    ensures |entries| == |names|
    ensures forall i | 0 <= i < |names| :: entries[i] == TypeCount(names[i], Count(s, names[i]))
  {
    if names == [] then [] else [TypeCount(names[0], Count(s, names[0]))] + Tally(names[1..], s)
  }

  /** The distribution the dashboard shows: one entry per distinct type, in first-seen order. */
  function PropertyTypes(s: seq<PropertyRecord>): seq<TypeCount> {
    Tally(FirstSeen(s), s)
  }

  /** The sum of the entries' values. */
  function Total(entries: seq<TypeCount>): nat {
    if entries == [] then 0 else entries[0].value + Total(entries[1..])
  }

  /** The position of the first record of `s` whose type is `t`. */
  function FirstIndex(s: seq<PropertyRecord>, t: string): (k: nat)
    requires Occurs(s, t)
    ensures k < |s| && s[k].propertyType == t
    ensures forall j | 0 <= j < k :: s[j].propertyType != t
  {
    if s[0].propertyType == t then 0
    else
      assert forall k | 1 <= k < |s| :: s[1..][k - 1] == s[k];
      1 + FirstIndex(s[1..], t)
  }

  /** `acc[t] || 0`: the value stored under `t`, with the falsy fallback of
      JavaScript's `||`. A stored zero falls back to zero, so the fallback only
      ever replaces a missing key. */
  function Lookup(acc: map<string, nat>, t: string): (n: nat)
    ensures t in acc ==> n == acc[t]
    ensures t !in acc ==> n == 0
  {
    OrElse(if t in acc then Some(acc[t]) else None, 0, 0)
  }

  /** The reduce of the dashboard: one pass over the records that increments the
      count of each record's type in a dictionary, appending the type to the key
      order when it is first met, followed by the listing of the entries. */
  method CalculatePropertyTypes(props: seq<PropertyRecord>) returns (entries: seq<TypeCount>)
    ensures entries == PropertyTypes(props)
  {
    var acc: map<string, nat> := map[];
    var keys: seq<string> := [];
    var i := 0;
    while i < |props|
      invariant 0 <= i <= |props|
      invariant keys == FirstSeen(props[..i])
      invariant forall t :: t in acc <==> t in keys
      invariant forall t | t in acc :: acc[t] == Count(props[..i], t)
    {
      var t := props[i].propertyType;
      assert props[..i + 1][..i] == props[..i];
      if t !in acc {
        keys := keys + [t];
      }
      acc := acc[t := Lookup(acc, t) + 1];
      i := i + 1;
    }
    assert props[..i] == props;
    entries := [];
    var j := 0;
    while j < |keys|
      invariant 0 <= j <= |keys|
      invariant |entries| == j
      invariant forall k | 0 <= k < j :: entries[k] == TypeCount(keys[k], Count(props, keys[k]))
    {
      entries := entries + [TypeCount(keys[j], acc[keys[j]])];
      j := j + 1;
    }
  }

  // ---------------------------------------------------------------------------
  // What the distribution promises

  /** Every record is counted exactly once: the values add up to the number of records. */
  lemma {:induction false} TotalIsRecordCount(s: seq<PropertyRecord>)
    ensures Total(PropertyTypes(s)) == |s|
  {
    var names := FirstSeen(s);
    forall k | 0 <= k < |s| ensures s[k].propertyType in names {
      assert Occurs(s, s[k].propertyType);
    }
    TallyCoversAll(names, s);
  }

  /** Each distinct type has exactly one entry, and its value is its number of
      records, which is at least one; a type with no record has no entry. */
  lemma EntriesAreTypeCounts(s: seq<PropertyRecord>, t: string)
    ensures Distinct(Names(PropertyTypes(s)))
    ensures Occurs(s, t) <==> exists i | 0 <= i < |PropertyTypes(s)| :: PropertyTypes(s)[i].name == t
    ensures forall i | 0 <= i < |PropertyTypes(s)| ::
      PropertyTypes(s)[i].value == Count(s, PropertyTypes(s)[i].name) >= 1
  {
  }

  /** The names of the entries, in order. */
  function Names(entries: seq<TypeCount>): (names: seq<string>)
    ensures |names| == |entries|
    ensures forall i | 0 <= i < |entries| :: names[i] == entries[i].name
  {
    seq(|entries|, i requires 0 <= i < |entries| => entries[i].name)
  }

  /** The entries are ordered by the first appearance of their type among the records. */
  lemma {:induction false} OrderedByFirstAppearance(s: seq<PropertyRecord>)
    ensures forall i | 0 <= i < |FirstSeen(s)| :: Occurs(s, FirstSeen(s)[i])
    ensures forall i, j | 0 <= i < j < |PropertyTypes(s)| ::
      FirstIndex(s, PropertyTypes(s)[i].name) < FirstIndex(s, PropertyTypes(s)[j].name)
  {
    forall i | 0 <= i < |FirstSeen(s)| ensures Occurs(s, FirstSeen(s)[i]) {
      assert FirstSeen(s)[i] in FirstSeen(s);
    }
    FirstSeenOrdered(s);
  }

  /** The example the distribution is meant for: Apartment, House, Apartment gives
      two Apartments first and one House second. */
  lemma ApartmentHouseApartment(a: PropertyRecord, b: PropertyRecord, c: PropertyRecord)
    requires a.propertyType == "Apartment" && c.propertyType == "Apartment"
    requires b.propertyType == "House"
    ensures PropertyTypes([a, b, c]) == [TypeCount("Apartment", 2), TypeCount("House", 1)]
  {
    var s := [a, b, c];
    assert s[..2] == [a, b] && s[..2][..1] == [a] && [a][..0] == [];
    assert FirstSeen([a]) == ["Apartment"];
    assert FirstSeen([a, b]) == ["Apartment", "House"];
    assert FirstSeen(s) == ["Apartment", "House"];
    assert Count([a], "Apartment") == 1 && Count([a], "House") == 0;
    assert Count([a, b], "Apartment") == 1 && Count([a, b], "House") == 1;
  }

  // ---------------------------------------------------------------------------
  // Helper lemmas

  /** How often `t` is listed in `names`. */
  function Multiplicity(names: seq<string>, t: string): nat {
    if names == [] then 0 else (if names[0] == t then 1 else 0) + Multiplicity(names[1..], t)
  }

  lemma {:induction false} MultiplicityOfDistinct(names: seq<string>, t: string)
    requires Distinct(names) && t in names
    ensures Multiplicity(names, t) == 1
  {
    if names[0] == t {
      MultiplicityOfAbsent(names[1..], t);
    } else {
      MultiplicityOfDistinct(names[1..], t);
    }
  }

  lemma {:induction false} MultiplicityOfAbsent(names: seq<string>, t: string)
    requires t !in names
    ensures Multiplicity(names, t) == 0
  {
    if names != [] {
      MultiplicityOfAbsent(names[1..], t);
    }
  }

  /** Adding one record to the end raises the total by the number of times its type is listed. */
  lemma {:induction false} TallySnoc(names: seq<string>, s: seq<PropertyRecord>)
    requires s != []
    ensures Total(Tally(names, s)) ==
      Total(Tally(names, s[..|s| - 1])) + Multiplicity(names, s[|s| - 1].propertyType)
  {
    if names != [] {
      TallySnoc(names[1..], s);
      assert Tally(names, s)[1..] == Tally(names[1..], s);
      assert Tally(names, s[..|s| - 1])[1..] == Tally(names[1..], s[..|s| - 1]);
    }
  }

  lemma {:induction false} TallyCoversAll(names: seq<string>, s: seq<PropertyRecord>)
    requires Distinct(names)
    requires forall k | 0 <= k < |s| :: s[k].propertyType in names
    ensures Total(Tally(names, s)) == |s|
  {
    if s == [] {
      TallyOfNothing(names);
    } else {
      var front := s[..|s| - 1];
      forall k | 0 <= k < |front| ensures front[k].propertyType in names {
        assert front[k] == s[k];
      }
      TallyCoversAll(names, front);
      TallySnoc(names, s);
      MultiplicityOfDistinct(names, s[|s| - 1].propertyType);
    }
  }

  lemma {:induction false} TallyOfNothing(names: seq<string>)
    ensures Total(Tally(names, [])) == 0
  {
    if names != [] {
      TallyOfNothing(names[1..]);
      assert Tally(names, [])[1..] == Tally(names[1..], []);
    }
  }

  lemma {:induction false} FirstSeenOrdered(s: seq<PropertyRecord>)
    ensures forall i | 0 <= i < |FirstSeen(s)| :: Occurs(s, FirstSeen(s)[i])
    ensures forall i, j | 0 <= i < j < |FirstSeen(s)| ::
      FirstIndex(s, FirstSeen(s)[i]) < FirstIndex(s, FirstSeen(s)[j])
  {
    var names := FirstSeen(s);
    forall i | 0 <= i < |names| ensures Occurs(s, names[i]) {
      assert names[i] in names;
    }
    if s != [] {
      var front := s[..|s| - 1];
      var t := s[|s| - 1].propertyType;
      var names' := FirstSeen(front);
      FirstSeenOrdered(front);
      forall i | 0 <= i < |names'| ensures FirstIndex(s, names'[i]) == FirstIndex(front, names'[i]) {
        FirstIndexOfPrefix(s, names'[i]);
      }
      if t !in names' {
        assert !Occurs(front, t);
      }
    }
  }

  lemma FirstIndexOfPrefix(s: seq<PropertyRecord>, t: string)
    requires s != [] && Occurs(s[..|s| - 1], t)
    ensures Occurs(s, t)
    ensures FirstIndex(s, t) == FirstIndex(s[..|s| - 1], t)
  {
    var front := s[..|s| - 1];
    var k := FirstIndex(front, t);
    assert s[k] == front[k];
    var m := FirstIndex(s, t);
    assert m <= k;
    assert front[m] == s[m];
  }
}
