/**
 * Property access of the client's data models (app/lib/Model.js): get
 * reads a dotted path through nested property objects, set writes one,
 * creating the objects the path needs on the way.
 */
module Model {
  import JsString
  import opened Wrappers

  /** A property value: JSON without arrays. */
  datatype Json = Null | Bool(b: bool) | Num(n: int) | Str(s: string) | Obj(fields: map<string, Json>)

  /** obj[k] of an object, undefined (None) when it has no such property. */
  function Field(fields: map<string, Json>, k: string): Option<Json> {
    if k in fields then Some(fields[k]) else None
  }

  /**
   * The value a path reaches from obj, or None where the walk stops: the
   * source's test `!obj || typeof obj !== 'object'` refuses every value
   * that is not an object (null and the falsy values included).
   */
  function Lookup(obj: Option<Json>, path: seq<string>): Option<Json>
    decreases |path|
  {
    if |path| == 0 then obj
    else if obj.Some? && obj.value.Obj? then Lookup(Field(obj.value.fields, path[0]), path[1..])
    else None
  }

  /** pathKey(obj, path, def): the walk of the dotted path, def where it fails. */
  method PathKey(obj: Option<Json>, path: string, def: Option<Json>) returns (r: Option<Json>)
    ensures var found := Lookup(obj, JsString.Split(path, '.'));
      (found.Some? ==> r == found) && (found.None? ==> r == def)
  {
    var keys := JsString.Split(path, '.');
    var o := obj;
    var i := 0;
    while i < |keys|
      invariant 0 <= i <= |keys|
      invariant Lookup(o, keys[i..]) == Lookup(obj, keys)
    {
      if o.None? || !o.value.Obj? {
        return def;
      }
      assert keys[i..][1..] == keys[i + 1..];
      o := Field(o.value.fields, keys[i]);
      i := i + 1;
    }
    if o.None? {
      return def;
    }
    return o;
  }

  /** The object one step down a set path: an object stays, anything else becomes {}. */
  function Child(fields: map<string, Json>, k: string): map<string, Json> {
    if k in fields && fields[k].Obj? then fields[k].fields else map[]
  }

  /** What set(key, val) makes of the properties for the path keys. */
  function SetPath(props: map<string, Json>, keys: seq<string>, val: Json): (r: map<string, Json>)
    requires |keys| >= 1
    ensures r.Keys == props.Keys + {keys[0]}
    ensures forall k :: k in props && k != keys[0] ==> r[k] == props[k]
    decreases |keys|
  {
    if |keys| == 1 then props[keys[0] := val]
    else props[keys[0] := Obj(SetPath(Child(props, keys[0]), keys[1..], val))]
  }

  /** One step of the rebuild: the object at depth i gets the rebuilt object below it. */
  lemma RebuildStep(m: map<string, Json>, below: map<string, Json>, keys: seq<string>, i: nat,
                    val: Json, cur: map<string, Json>)
    requires i + 1 < |keys| && below == Child(m, keys[i])
    requires cur == SetPath(below, keys[i + 1..], val)
    ensures m[keys[i] := Obj(cur)] == SetPath(m, keys[i..], val)
  {
    assert keys[i..][1..] == keys[i + 1..];
  }

  /** After set(k, v), get(k) finds v. */
  lemma {:induction false} LookupAfterSet(props: map<string, Json>, keys: seq<string>, val: Json)
    requires |keys| >= 1
    ensures Lookup(Some(Obj(SetPath(props, keys, val))), keys) == Some(val)
    decreases |keys|
  {
    if |keys| > 1 {
      LookupAfterSet(Child(props, keys[0]), keys[1..], val);
    }
  }

  /** set leaves alone every path that starts with another key. */
  lemma SetKeepsOtherPaths(props: map<string, Json>, keys: seq<string>, val: Json, path: seq<string>)
    requires |keys| >= 1 && |path| >= 1 && path[0] != keys[0]
    ensures Lookup(Some(Obj(SetPath(props, keys, val))), path) == Lookup(Some(Obj(props)), path)
  {
  }

  /** set replaces a non-object on the path by {} and keeps the objects it walks through. */
  lemma SetKeepsSiblings(props: map<string, Json>, keys: seq<string>, val: Json, k: string)
    requires |keys| >= 2 && k != keys[1] && keys[0] in props && props[keys[0]].Obj?
    requires k in props[keys[0]].fields
    ensures Lookup(Some(Obj(SetPath(props, keys, val))), [keys[0], k]) == Some(props[keys[0]].fields[k])
  {
    var r := SetPath(props, keys, val);
    var inner := SetPath(props[keys[0]].fields, keys[1..], val);
    assert r[keys[0]] == Obj(inner);
    assert [keys[0], k][1..] == [k];
    assert Lookup(Some(Obj(r)), [keys[0], k]) == Lookup(Some(Obj(inner)), [k]);
    assert [k][1..] == [];
    assert Lookup(Some(Obj(inner)), [k]) == Lookup(Field(inner, k), []);
    assert inner[k] == props[keys[0]].fields[k];
  }

  class Model {
    /** data.properties */
    var properties: map<string, Json>

    constructor (props: map<string, Json>)
      ensures properties == props
    {
      properties := props;
    }

    /** has(prop): prop is a key of the properties. */
    function Has(prop: string): (b: bool)
      reads this
      ensures b <==> Field(properties, prop).Some?
    {
      prop in properties
    }

    /** get(key, def) */
    method Get(key: string, def: Option<Json>) returns (r: Option<Json>)
      ensures var found := Lookup(Some(Obj(properties)), JsString.Split(key, '.'));
        (found.Some? ==> r == found) && (found.None? ==> r == def)
    {
      r := PathKey(Some(Obj(properties)), key, def);
    }

    /**
     * set(key, val): walks the dotted key from the properties down, making
     * {} of every missing or non-object step, and writes val at the last key.
     * The nested objects the source updates through references are rebuilt
     * here from the bottom up.  The 'set' event and binder.update are not
     * part of this model.
     */
    method Set(key: string, val: Json)
      modifies this
      ensures properties == SetPath(old(properties), JsString.Split(key, '.'), val)
    {
      var keys := JsString.Split(key, '.');
      if |keys| == 1 {
        properties := properties[keys[0] := val];
        return;
      }
      properties := WriteAlong(properties, keys, val);
    }
  }

  /**
   * The loop of set for a key of two or more parts: the walk down, then the
   * objects rebuilt from the last key's up.
   */
  method WriteAlong(props: map<string, Json>, keys: seq<string>, val: Json) returns (r: map<string, Json>)
    requires |keys| >= 2
    ensures r == SetPath(props, keys, val)
  {
    var dicts := WalkDown(props, keys);
    r := Rebuild(dicts, keys, val);
  }

  /** The objects the walk of set goes through, top first. */
  predicate IsWalk(dicts: seq<map<string, Json>>, keys: seq<string>) {
    |dicts| == |keys| &&
    forall j :: 0 <= j < |keys| - 1 ==> dicts[j + 1] == Child(dicts[j], keys[j])
  }

  method WalkDown(props: map<string, Json>, keys: seq<string>) returns (dicts: seq<map<string, Json>>)
    requires |keys| >= 1
    ensures IsWalk(dicts, keys) && dicts[0] == props
  {
    var kl := |keys|;
    dicts := [props];
    var i := 0;
    while i < kl - 1
      invariant 0 <= i <= kl - 1 && |dicts| == i + 1 && dicts[0] == props
      invariant forall j :: 0 <= j < i ==> dicts[j + 1] == Child(dicts[j], keys[j])
    {
      dicts := dicts + [Child(dicts[i], keys[i])];
      i := i + 1;
    }
  }

  method Rebuild(dicts: seq<map<string, Json>>, keys: seq<string>, val: Json) returns (r: map<string, Json>)
    requires |keys| >= 1 && IsWalk(dicts, keys)
    ensures r == SetPath(dicts[0], keys, val)
  {
    var kl := |keys|;
    var cur := dicts[kl - 1][keys[kl - 1] := val];
    assert |keys[kl - 1..]| == 1 && keys[kl - 1..][0] == keys[kl - 1];
    assert cur == SetPath(dicts[kl - 1], keys[kl - 1..], val);
    var i := kl - 2;
    while i >= 0
      invariant -1 <= i <= kl - 2
      invariant cur == SetPath(dicts[i + 1], keys[i + 1..], val)
    {
      RebuildStep(dicts[i], dicts[i + 1], keys, i, val, cur);
      cur := dicts[i][keys[i] := Obj(cur)];
      i := i - 1;
    }
    assert keys[0..] == keys;
    r := cur;
  }

  /** After set(k, v) on a model, get(k) answers v, whatever the default. */
  lemma GetAfterSet(props: map<string, Json>, key: string, val: Json)
    ensures Lookup(Some(Obj(SetPath(props, JsString.Split(key, '.'), val))), JsString.Split(key, '.')) == Some(val)
  {
    LookupAfterSet(props, JsString.Split(key, '.'), val);
  }
}
