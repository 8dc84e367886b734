/** Redaction of sensitive fields in nested JSON payloads. */
module Redaction {
  import opened Common
  import Slug

  datatype Json =
    | Null
    | Bool(b: bool)
    | Number(n: real)
    | Text(s: string)
    | List(items: seq<Json>)
    | Object(fields: map<string, Json>)

  const REDACTED := Text("[REDACTED]")

  predicate Sensitive(names: set<string>, key: string) {
    Slug.Lower(key) in names
  }

  function Redacted(names: set<string>, v: Json): Json {
    match v
    case Object(fields) => Object(map k | k in fields :: if Sensitive(names, k) then REDACTED else Redacted(names, fields[k]))
    case List(items) => List(seq(|items|, i requires 0 <= i < |items| => Redacted(names, items[i])))
    case _ => v
  }

  // ----- what redaction means, position by position -----

  datatype Hop = Field(key: string) | Index(i: nat)

  /** The value at the end of a path through objects and lists. */
  function At(v: Json, path: seq<Hop>): Option<Json> {
    if path == [] then Some(v)
    else match v
      case Object(fields) =>
        if path[0].Field? && path[0].key in fields then At(fields[path[0].key], path[1..]) else None
      case List(items) =>
        if path[0].Index? && path[0].i < |items| then At(items[path[0].i], path[1..]) else None
      case _ => None
  }

  predicate Exposes(names: set<string>, path: seq<Hop>) {
    exists i :: 0 <= i < |path| && path[i].Field? && Slug.Lower(path[i].key) in names
  }

  /** Off the sensitive keys the tree keeps its shape: keys, list lengths and leaves are those of the input. */
  lemma {:induction false} ShapeKept(names: set<string>, v: Json, path: seq<Hop>)
    requires !Exposes(names, path)
    ensures At(Redacted(names, v), path)
         == match At(v, path) case None => None case Some(w) => Some(Redacted(names, w))
    decreases path
  {
    if path != [] {
      assert forall i :: 0 <= i < |path[1..]| ==> path[1..][i] == path[i + 1];
      assert !Exposes(names, path[1..]);
      match v
      case Object(fields) =>
        if path[0].Field? && path[0].key in fields {
          ShapeKept(names, fields[path[0].key], path[1..]);
        }
      case List(items) =>
        if path[0].Index? && path[0].i < |items| {
          ShapeKept(names, items[path[0].i], path[1..]);
        }
      case _ =>
    }
  }

  /** Whatever sits under a sensitive key, at any depth, is the marker text and nothing below it survives. */
  lemma {:induction false} NothingSensitiveSurvives(names: set<string>, v: Json, path: seq<Hop>, key: string)
    requires Slug.Lower(key) in names
    ensures At(Redacted(names, v), path + [Field(key)]) in {None, Some(Text("[REDACTED]"))}
    decreases path
  {
    var full := path + [Field(key)];
    match v
    case Object(fields) =>
      if path != [] && path[0].Field? && path[0].key in fields {
        assert full[1..] == path[1..] + [Field(key)];
        if Sensitive(names, path[0].key) {
          assert At(REDACTED, full[1..]) == None;
        } else {
          NothingSensitiveSurvives(names, fields[path[0].key], path[1..], key);
        }
      } else if path == [] {
        assert full[1..] == [];
      }
    case List(items) =>
      if path != [] && path[0].Index? && path[0].i < |items| {
        assert full[1..] == path[1..] + [Field(key)];
        NothingSensitiveSurvives(names, items[path[0].i], path[1..], key);
      }
    case _ =>
  }

  /** And it is there whenever something was: no sensitive field is dropped. */
  lemma MarkerInPlace(names: set<string>, v: Json, path: seq<Hop>, key: string)
    requires !Exposes(names, path) && Slug.Lower(key) in names
    ensures var before, after := At(v, path), At(Redacted(names, v), path);
      before.Some? && before.value.Object? && key in before.value.fields ==>
        after.Some? && after.value.Object? && key in after.value.fields && after.value.fields[key] == Text("[REDACTED]")
  {
    ShapeKept(names, v, path);
  }

  /** Every sensitive key that can be reached holds the marker. */
  predicate Clean(names: set<string>, v: Json) {
    match v
    case Object(fields) => forall k :: k in fields ==> if Slug.Lower(k) in names then fields[k] == Text("[REDACTED]") else Clean(names, fields[k])
    case List(items) => forall i :: 0 <= i < |items| ==> Clean(names, items[i])
    case _ => true
  }

  lemma {:induction false} RedactedIsClean(names: set<string>, v: Json)
    ensures Clean(names, Redacted(names, v))
  {
    match v
    case Object(fields) =>
      forall k | k in fields
        ensures !Sensitive(names, k) ==> Clean(names, Redacted(names, fields[k]))
      {
        RedactedIsClean(names, fields[k]);
      }
    case List(items) =>
      forall i | 0 <= i < |items|
        ensures Clean(names, Redacted(names, items[i]))
      {
        RedactedIsClean(names, items[i]);
      }
    case _ =>
  }

  /** Redaction leaves a payload alone exactly when it is clean already. */
  lemma {:induction false} CleanIsFixed(names: set<string>, v: Json)
    ensures Clean(names, v) <==> Redacted(names, v) == v
  {
    match v
    case Object(fields) =>
      forall k | k in fields
        ensures Clean(names, fields[k]) <==> Redacted(names, fields[k]) == fields[k]
      {
        CleanIsFixed(names, fields[k]);
      }
      if Redacted(names, v) == v {
        assert forall k :: k in fields ==> Redacted(names, v).fields[k] == fields[k];
      } else {
        assert Redacted(names, v).fields != fields;
      }
    case List(items) =>
      forall i | 0 <= i < |items|
        ensures Clean(names, items[i]) <==> Redacted(names, items[i]) == items[i]
      {
        CleanIsFixed(names, items[i]);
      }
      if Redacted(names, v) == v {
        assert forall i :: 0 <= i < |items| ==> Redacted(names, v).items[i] == items[i];
      } else {
        assert Redacted(names, v).items != items;
      }
    case _ =>
  }

  lemma {:induction false} RedactionIsIdempotent(names: set<string>, v: Json)
    ensures Redacted(names, Redacted(names, v)) == Redacted(names, v)
  {
    RedactedIsClean(names, v);
    CleanIsFixed(names, Redacted(names, v));
  }
}
