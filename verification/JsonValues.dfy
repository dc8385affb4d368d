/**
 JSON values as the language-model adapters exchange them, and the paths of
 the fields they hold. A missing field (`undefined` in the source) is the absence of
 a key, so an object is a map from names to values.
 */
module JsonValues {
  import opened Options

  datatype Scalar = Null | Bool(b: bool) | Num(n: real) | Str(s: string)

  datatype Value =
    | Lit(s: Scalar)
    | Arr(items: seq<Value>)
    | Obj(fields: map<string, Value>)

  const NULL: Value := Lit(Null)

  /** `value[name]`: None is the source's `undefined`. */
  function Get(fields: map<string, Value>, name: string): Option<Value> {
    if name in fields then Some(fields[name]) else None
  }

  /** No array, at any depth, has null as an item. */
  ghost predicate NoNullItems(v: Value) {
    match v
    case Lit(_) => true
    case Arr(items) => forall i :: 0 <= i < |items| ==> items[i] != NULL && NoNullItems(items[i])
    case Obj(fields) => forall k :: k in fields ==> NoNullItems(fields[k])
  }

  /** The path of a field in the object at `parent`; the root has the empty path. */
  function JoinPath(parent: string, name: string): string {
    if parent == "" then name else parent + "." + name
  }

  /** The paths of all object fields `v` holds, at every depth. */
  ghost function FieldPaths(v: Value, path: string): multiset<string>
    decreases v, 1
  {
    match v
    case Lit(_) => multiset{}
    case Arr(items) => ItemPaths(v, |items|, path)
    case Obj(fields) => PathsIn(v, fields.Keys, path)
  }

  ghost function ItemPaths(v: Value, n: nat, path: string): multiset<string>
    requires v.Arr? && n <= |v.items|
    decreases v, 0, n
  {
    if n == 0 then multiset{} else ItemPaths(v, n - 1, path) + FieldPaths(v.items[n - 1], path + "[]")
  }

  ghost function PathsIn(v: Value, keys: set<string>, path: string): multiset<string>
    requires v.Obj? && keys <= v.fields.Keys
    decreases v, 0, keys
  {
    if keys == {} then multiset{}
    else
      var k :| k in keys;
      var at := JoinPath(path, k);
      multiset{at} + FieldPaths(v.fields[k], at) + PathsIn(v, keys - {k}, path)
  }

  ghost function FieldAt(v: Value, k: string, path: string): multiset<string>
    requires v.Obj? && k in v.fields
  {
    multiset{JoinPath(path, k)} + FieldPaths(v.fields[k], JoinPath(path, k))
  }

  /** Any key may be taken first. */
  lemma {:induction false} PathsKey(v: Value, keys: set<string>, k: string, path: string)
    requires v.Obj? && keys <= v.fields.Keys && k in keys
    ensures PathsIn(v, keys, path) == FieldAt(v, k, path) + PathsIn(v, keys - {k}, path)
    decreases keys
  {
    var first :| first in keys && PathsIn(v, keys, path) == FieldAt(v, first, path) + PathsIn(v, keys - {first}, path);
    if first != k {
      PathsKey(v, keys - {first}, k, path);
      PathsKey(v, keys - {k}, first, path);
      assert keys - {first} - {k} == keys - {k} - {first};
    }
  }

  lemma {:induction false} PathsAgree(v: Value, w: Value, keys: set<string>, path: string)
    requires v.Obj? && w.Obj? && keys <= v.fields.Keys && keys <= w.fields.Keys
    requires forall k :: k in keys ==> v.fields[k] == w.fields[k]
    ensures PathsIn(v, keys, path) == PathsIn(w, keys, path)
    decreases keys
  {
    if keys != {} {
      var k :| k in keys;
      PathsKey(v, keys, k, path);
      PathsKey(w, keys, k, path);
      PathsAgree(v, w, keys - {k}, path);
    }
  }

  /** Writing one field changes the paths of that field alone. */
  lemma PathsWrite(fields: map<string, Value>, name: string, x: Value, path: string)
    ensures var at := JoinPath(path, name);
            var more := FieldPaths(Obj(fields), path) + multiset{at} + FieldPaths(x, at);
            if name in fields then FieldPaths(Obj(fields[name := x]), path) + FieldAt(Obj(fields), name, path) == more
            else FieldPaths(Obj(fields[name := x]), path) == more
  {
    var before, at := Obj(fields), JoinPath(path, name);
    var kept := PathsIn(before, fields.Keys - {name}, path);
    WrittenPaths(fields, name, x, path);
    if name in fields {
      PathsKey(before, fields.Keys, name, path);
      Swapped(FieldPaths(Obj(fields[name := x]), path), FieldPaths(before, path), FieldAt(before, name, path), kept,
              multiset{at}, FieldPaths(x, at));
    } else {
      assert fields.Keys - {name} == fields.Keys;
    }
  }

  lemma WrittenPaths(fields: map<string, Value>, name: string, x: Value, path: string)
    ensures FieldPaths(Obj(fields[name := x]), path) ==
            multiset{JoinPath(path, name)} + FieldPaths(x, JoinPath(path, name))
              + PathsIn(Obj(fields), fields.Keys - {name}, path)
  {
    var before, after := Obj(fields), Obj(fields[name := x]);
    var rest := fields.Keys - {name};
    assert after.fields.Keys - {name} == rest;
    PathsKey(after, after.fields.Keys, name, path);
    PathsAgree(before, after, rest, path);
  }

  lemma Swapped(after: multiset<string>, before: multiset<string>, was: multiset<string>, kept: multiset<string>,
                at: multiset<string>, more: multiset<string>)
    requires after == at + more + kept && before == was + kept
    ensures after + was == before + at + more
  {
  }
}
