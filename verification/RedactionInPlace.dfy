/** The redaction walk as it runs: over dictionaries and lists on the heap, overwriting their entries. */
module RedactionInPlace {
  import opened Redaction

  /** A payload value; dictionaries and lists are objects, everything else is a JSON leaf. */
  datatype Cell = Leaf(v: Json) | DictCell(dict: Dict) | ListCell(list: Items)

  class Dict {
    var entries: map<string, Cell>
    ghost var parts: map<string, set<object>>  // the objects below each entry
  }

  class Items {
    var items: seq<Cell>
    ghost var parts: seq<set<object>>  // the objects below each item
  }

  /** The cell is the tree `v`, built from objects of `repr` with no object used twice. */
  ghost predicate Holds(c: Cell, v: Json, repr: set<object>)
    reads repr
    decreases v, 0
  {
    match c
    case Leaf(w) => w == v && !v.Object? && !v.List?
    case DictCell(d) =>
      && d in repr && v.Object?
      && d.entries.Keys == d.parts.Keys == v.fields.Keys
      && (forall k {:trigger EntryHolds(d, k, v.fields[k], repr)} :: k in v.fields ==> EntryHolds(d, k, v.fields[k], repr))
      && (forall j, k {:trigger Apart(d, j, k)} :: j in v.fields && k in v.fields && j != k ==> Apart(d, j, k))
    case ListCell(l) =>
      && l in repr && v.List?
      && |l.items| == |l.parts| == |v.items|
      && (forall i :: 0 <= i < |v.items| ==> l !in l.parts[i] && l.parts[i] <= repr && Holds(l.items[i], v.items[i], l.parts[i]))
      && (forall i, j :: 0 <= i < j < |v.items| ==> l.parts[i] !! l.parts[j])
  }

  ghost predicate EntryHolds(d: Dict, key: string, v: Json, repr: set<object>)
    reads d, repr
    decreases v, 1
  {
    && key in d.entries && key in d.parts
    && d !in d.parts[key] && d.parts[key] <= repr
    && Holds(d.entries[key], v, d.parts[key])
  }

  ghost predicate Apart(d: Dict, j: string, k: string)
    reads d
  {
    j in d.parts && k in d.parts && d.parts[j] !! d.parts[k]
  }

  /** The walk returns the object it was given, which now holds the redacted tree. */
  method Redact(names: set<string>, c: Cell, ghost v: Json, ghost repr: set<object>) returns (r: Cell)
    requires Holds(c, v, repr)
    modifies repr
    ensures r == c && Holds(c, Redacted(names, v), repr)
    decreases v, 2
  {
    r := c;
    match c
    case Leaf(_) =>
    case DictCell(d) => RedactDict(names, d, v, repr);
    case ListCell(l) => RedactItems(names, l, v, repr);
  }

  method RedactDict(names: set<string>, d: Dict, ghost v: Json, ghost repr: set<object>)
    requires Holds(DictCell(d), v, repr)
    modifies repr
    ensures Holds(DictCell(d), Redacted(names, v), repr)
    decreases v, 1
  {
    var todo := d.entries.Keys;
    ghost var fields := v.fields;
    while todo != {}
      invariant todo <= fields.Keys && Progress(names, d, fields, todo, repr)
    {
      var key :| key in todo;
      RedactNext(names, d, key, v, todo, repr);
      todo := todo - {key};
    }
    var done := Redacted(names, v).fields;
    forall k | k in fields
      ensures EntryHolds(d, k, done[k], repr)
    {
      assert EntryHolds(d, k, Entry(names, k, fields[k], todo), repr);
    }
  }

  /** Entries of `todo` are as they were, the others redacted. */
  ghost predicate Progress(names: set<string>, d: Dict, fields: map<string, Json>, todo: set<string>, repr: set<object>)
    reads d, repr
  {
    && d in repr && d.entries.Keys == d.parts.Keys == fields.Keys
    && (forall k {:trigger EntryHolds(d, k, Entry(names, k, fields[k], todo), repr)} :: k in fields ==>
          EntryHolds(d, k, Entry(names, k, fields[k], todo), repr))
    && (forall j, k {:trigger Apart(d, j, k)} :: j in fields && k in fields && j != k ==> Apart(d, j, k))
  }

  method RedactNext(names: set<string>, d: Dict, key: string, ghost v: Json, ghost todo: set<string>, ghost repr: set<object>)
    requires v.Object? && Progress(names, d, v.fields, todo, repr) && key in todo && todo <= v.fields.Keys
    modifies repr
    ensures Progress(names, d, v.fields, todo - {key}, repr)
    decreases v, 0
  {
    ghost var fields := v.fields;
    assert EntryHolds(d, key, Entry(names, key, fields[key], todo), repr);
    forall k | k in fields && k != key
      ensures Apart(d, k, key) && EntryHolds(d, k, Entry(names, k, fields[k], todo), repr)
    {
    }
    RedactEntry(names, d, key, fields[key]);
    forall k | k in fields
      ensures EntryHolds(d, k, Entry(names, k, fields[k], todo - {key}), repr)
    {
    }
    forall j, k | j in fields && k in fields && j != k
      ensures Apart(d, j, k)
    {
      assert old(Apart(d, j, k));
    }
  }

  /** The value under a key, before and after its turn. */
  ghost function Entry(names: set<string>, key: string, v: Json, todo: set<string>): Json {
    if key in todo then v else if Sensitive(names, key) then REDACTED else Redacted(names, v)
  }

  method RedactEntry(names: set<string>, d: Dict, key: string, ghost v: Json)
    requires key in d.entries && key in d.parts && d !in d.parts[key] && Holds(d.entries[key], v, d.parts[key])
    modifies d, d.parts[key]
    ensures d.entries.Keys == old(d.entries.Keys) && d.parts.Keys == old(d.parts.Keys)
    ensures forall k :: k in d.entries && k != key ==> d.entries[k] == old(d.entries)[k]
    ensures forall k :: k in d.parts && k != key ==> d.parts[k] == old(d.parts)[k]
    ensures d.parts[key] <= old(d.parts[key])
    ensures Holds(d.entries[key], Entry(names, key, v, {}), d.parts[key])
    decreases v, 3
  {
    if Sensitive(names, key) {
      d.entries := d.entries[key := Leaf(REDACTED)];
      d.parts := d.parts[key := {}];
    } else {
      var value := Redact(names, d.entries[key], v, d.parts[key]);
      d.entries := d.entries[key := value];
    }
  }

  method RedactItems(names: set<string>, l: Items, ghost v: Json, ghost repr: set<object>)
    requires Holds(ListCell(l), v, repr)
    modifies repr
    ensures Holds(ListCell(l), Redacted(names, v), repr)
    decreases v, 0
  {
    ghost var items := v.items;
    var n := |l.items|;
    for i := 0 to n
      invariant |l.items| == |l.parts| == |items| == n
      invariant forall j :: 0 <= j < n ==> l !in l.parts[j] && l.parts[j] <= repr
      invariant forall j :: i <= j < n ==> Holds(l.items[j], items[j], l.parts[j])
      invariant forall j :: 0 <= j < i ==> Holds(l.items[j], Redacted(names, items[j]), l.parts[j])
      invariant forall j, k :: 0 <= j < k < n ==> l.parts[j] !! l.parts[k]
    {
      var value := Redact(names, l.items[i], items[i], l.parts[i]);
      l.items := l.items[i := value];
    }
  }
}
