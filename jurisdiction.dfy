/** Jurisdiction: which state a project's city belongs to.

    The application keeps an ordered table from state to its cities and
    resolves a city in two ways: `getUserState` answers with the sentinel
    `"Unknown"` for a city in no list, while the inline lookup of the
    approval handler answers with `undefined`. */
module Jurisdiction {
  import opened Wrappers
  import opened JsValues

  /** State names with their city lists, in the order `Object.entries` visits them. */
  type Table = seq<(string, seq<string>)>

  /** The application's state-to-cities table. */
  const StateMapping: Table := [
    ("Uttar Pradesh", ["Lucknow", "Kanpur", "Meerut", "Agra", "Varanasi"]),
    ("Maharashtra", ["Mumbai", "Pune", "Nagpur"]),
    ("Karnataka", ["Bengaluru", "Mysore"]),
    ("Tamil Nadu", ["Chennai", "Coimbatore"]),
    ("West Bengal", ["Kolkata", "Siliguri"]),
    ("Rajasthan", ["Jaipur", "Jodhpur"]),
    ("Gujarat", ["Ahmedabad", "Surat"]),
    ("Telangana", ["Hyderabad", "Warangal"]),
    ("Delhi", ["Delhi"])
  ]

  /** What `getUserState` answers for a city in no list. */
  const UnknownState: string := "Unknown"

  /** Entry `i` of `t` lists `city`. */
  predicate Lists(t: Table, i: int, city: string) {
    0 <= i < |t| && city in t[i].1
  }

  /** Entry `i` is the first entry of `t` that lists `city`. */
  predicate FirstLists(t: Table, i: int, city: string) {
    Lists(t, i, city) && forall j :: 0 <= j < i ==> city !in t[j].1
  }

  /** No city appears in the lists of two different entries. */
  predicate PairwiseDisjoint(t: Table) {
    forall i, j, c :: 0 <= i < j < |t| && c in t[i].1 ==> c !in t[j].1
  }

  /** The state of the first entry whose city list contains `city`, if any. */
  function FirstStateOf(t: Table, city: string): Option<string>
    decreases |t|
  {
    if t == [] then None
    else if city in t[0].1 then Some(t[0].0)
    else FirstStateOf(t[1..], city)
  }

  /** The first listing entry is what the scan finds. */
  lemma {:induction false} FirstStateOfFirst(t: Table, i: int, city: string)
    requires FirstLists(t, i, city)
    ensures FirstStateOf(t, city) == Some(t[i].0)
    decreases |t|
  {
    if i > 0 {
      assert city !in t[0].1;
      FirstStateOfFirst(t[1..], i - 1, city);
    }
  }

  /** The scan finds nothing exactly when no entry lists the city. */
  lemma {:induction false} FirstStateOfNone(t: Table, city: string)
    ensures FirstStateOf(t, city) == None <==> forall i :: 0 <= i < |t| ==> city !in t[i].1
    decreases |t|
  {
    if t != [] {
      FirstStateOfNone(t[1..], city);
      if city !in t[0].1 {
        forall i | 0 < i < |t| ensures t[i] == t[1..][i - 1] { }
      }
    }
  }

  /** What the scan finds is the state of an entry that lists the city. */
  lemma {:induction false} FirstStateOfFound(t: Table, city: string)
    requires FirstStateOf(t, city).Some?
    ensures exists i :: FirstLists(t, i, city) && FirstStateOf(t, city) == Some(t[i].0)
    decreases |t|
  {
    if city in t[0].1 {
      assert FirstLists(t, 0, city);
    } else {
      FirstStateOfFound(t[1..], city);
      var i :| FirstLists(t[1..], i, city) && FirstStateOf(t[1..], city) == Some(t[1..][i].0);
      assert FirstLists(t, i + 1, city);
    }
  }

  /** In a table with disjoint city lists a listed city resolves to the state
      of the one entry that lists it. */
  lemma ListedResolves(t: Table, i: int, city: string)
    requires PairwiseDisjoint(t) && Lists(t, i, city)
    ensures FirstStateOf(t, city) == Some(t[i].0)
  {
    assert FirstLists(t, i, city);
    FirstStateOfFirst(t, i, city);
  }

  /** No state in `t` is called `"Unknown"`, so the sentinel is unambiguous. */
  predicate NoUnknownState(t: Table) {
    forall i :: 0 <= i < |t| ==> t[i].0 != UnknownState
  }

  /** A table whose lookups are unambiguous: disjoint city lists and no
      state named like the sentinel. */
  predicate WellFormed(t: Table) {
    PairwiseDisjoint(t) && NoUnknownState(t)
  }

  /** The application's table is well formed: no city appears under two
      states and no state is called `"Unknown"`. */
  lemma StateMappingWellFormed()
    ensures WellFormed(StateMapping)
  {
  }

  /** `getUserState`: scans `mapping` (the application passes its
      `StateMapping`) in order and returns the first state whose cities
      include `location`, or `"Unknown"`. */
  method GetUserState(mapping: Table, location: string) returns (state: string)
    ensures state == UserStateOf(mapping, location)
    ensures forall i :: FirstLists(mapping, i, location) ==> state == mapping[i].0
    ensures (forall i :: 0 <= i < |mapping| ==> location !in mapping[i].1) ==> state == UnknownState
  {
    for i := 0 to |mapping|
      invariant forall j :: 0 <= j < i ==> location !in mapping[j].1
      invariant FirstStateOf(mapping, location) == FirstStateOf(mapping[i..], location)
    {
      if location in mapping[i].1 {
        assert FirstLists(mapping, i, location);
        FirstStateOfFirst(mapping, i, location);
        return mapping[i].0;
      }
      assert mapping[i..][1..] == mapping[i + 1..];
    }
    assert mapping[|mapping|..] == [];
    return UnknownState;
  }

  /** What `getUserState` returns, as a value for use in lemmas. */
  function UserStateOf(mapping: Table, location: string): string {
    FirstStateOf(mapping, location).GetOr(UnknownState)
  }

  /** In a well-formed table a city resolves to `"Unknown"` exactly when no
      state lists it, and every listed city resolves to the one state
      listing it. */
  lemma UserStateOfMeaning(mapping: Table, location: string)
    requires WellFormed(mapping)
    ensures UserStateOf(mapping, location) == UnknownState <==>
              forall i :: 0 <= i < |mapping| ==> location !in mapping[i].1
    ensures forall i :: Lists(mapping, i, location) ==> UserStateOf(mapping, location) == mapping[i].0
  {
    FirstStateOfNone(mapping, location);
    forall i | Lists(mapping, i, location)
      ensures UserStateOf(mapping, location) == mapping[i].0
    {
      ListedResolves(mapping, i, location);
    }
  }

  /** The lookup inside the approval handler,
      `Object.entries(stateMapping).find(...)?.[0]`: the first listing state,
      or `undefined`. It never yields `null`. */
  function ProjectStateOf(mapping: Table, location: string): (r: Attr)
    ensures r != Null
  {
    match FirstStateOf(mapping, location)
    case Some(s) => Text(s)
    case None => Undefined
  }

  /** The two lookups agree on listed cities and differ only in the answer for
      an unlisted one: `"Unknown"` against `undefined`. */
  lemma LookupsAgreeExceptUnlisted(mapping: Table, location: string)
    requires NoUnknownState(mapping)
    ensures ProjectStateOf(mapping, location) ==
              (if UserStateOf(mapping, location) == UnknownState then Undefined
               else Text(UserStateOf(mapping, location)))
    ensures ProjectStateOf(mapping, location) == Undefined <==>
              forall i :: 0 <= i < |mapping| ==> location !in mapping[i].1
  {
    FirstStateOfNone(mapping, location);
    if FirstStateOf(mapping, location).Some? {
      FirstStateOfFound(mapping, location);
    }
  }
}
