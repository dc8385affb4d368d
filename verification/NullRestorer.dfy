/**
 The way back (`restoreOmittedNulls`): guided by the original schema, every
 nullable field the model left out becomes an explicit null.
 */
module NullRestorer {
  import opened Options
  import opened JsonValues
  import opened Schemas

  /** The node's own null option; unlike Nullable it does not look inside a one-branch union. */
  predicate AdmitsNull(s: Schema) {
    match s
    case Union(bs, _) => |Real(bs)| < |bs|
    case Node(ty, _, _, _, _, _, _) => ty.Many? && NullType in ty.ts
  }

  /** The type the walk goes by: of a type array, its first non-null name. */
  function WalkedType(ty: TypeKw): Option<TypeName> {
    match ty
    case Untyped => None
    case One(t) => Some(t)
    case Many(ts) => FirstNonNull(ts)
  }

  function FirstNonNull(ts: seq<TypeName>): Option<TypeName> {
    if ts == [] then None else if ts[0] != NullType then Some(ts[0]) else FirstNonNull(ts[1..])
  }

  predicate WalksFields(s: Schema) {
    s.Node? && WalkedType(s.ty) == Some(ObjectType) && s.props.Props?
  }

  predicate WalksItems(s: Schema) {
    s.Node? && WalkedType(s.ty) == Some(ArrayType) && s.items.Items?
  }

  predicate Missing(v: Option<Value>) {
    v.None? || v.value == NULL
  }

  function Restore(s: Schema, v: Option<Value>): (r: Option<Value>)
    ensures v.Some? ==> r.Some?
    decreases s, 1, 0
  {
    if Missing(v) then (if AdmitsNull(s) then Some(NULL) else v)
    else if s.Union? then
      var live := Real(s.branches);
      if |live| == 1 then
        assert live[0] in live;
        Restore(live[0], v)
      else v
    else if WalksFields(s) then
      (if v.value.Obj? then Some(Obj(RestoreFields(s, |s.props.ps|, v.value.fields))) else v)
    else if WalksItems(s) && v.value.Arr? then
      Some(Arr(RestoreItems(s, |v.value.items|, v.value.items)))
    else v
  }

  /** The object after the first `n` declared properties were visited. */
  function RestoreFields(s: Schema, n: nat, fields: map<string, Value>): map<string, Value>
    requires s.Node? && s.props.Props? && n <= |s.props.ps|
    decreases s, 0, n
  {
    if n == 0 then fields
    else
      var before := RestoreFields(s, n - 1, fields);
      var prop := s.props.ps[n - 1];
      var restored := Restore(prop.schema, Get(before, prop.name));
      if restored.Some? then before[prop.name := restored.value] else before
  }

  function RestoreItems(s: Schema, n: nat, items: seq<Value>): (r: seq<Value>)
    requires s.Node? && s.items.Items? && n <= |items|
    ensures |r| == n
    decreases s, 0, n
  {
    if n == 0 then []
    else RestoreItems(s, n - 1, items) + [Restore(s.items.item, Some(items[n - 1])).value]
  }

  /** The paths set to null because the model left them out, in the order of the walk. */
  ghost function Filled(s: Schema, v: Option<Value>, path: string): seq<string>
    decreases s, 1, 0
  {
    if Missing(v) then (if AdmitsNull(s) && v.None? then [path] else [])
    else if s.Union? then
      var live := Real(s.branches);
      if |live| == 1 then
        assert live[0] in live;
        Filled(live[0], v, path)
      else []
    else if WalksFields(s) then
      (if v.value.Obj? then FilledFields(s, |s.props.ps|, v.value.fields, path) else [])
    else if WalksItems(s) && v.value.Arr? then
      FilledItems(s, |v.value.items|, v.value.items, path)
    else []
  }

  ghost function FilledFields(s: Schema, n: nat, fields: map<string, Value>, path: string): seq<string>
    requires s.Node? && s.props.Props? && n <= |s.props.ps|
    decreases s, 0, n
  {
    if n == 0 then []
    else
      var prop := s.props.ps[n - 1];
      FilledFields(s, n - 1, fields, path)
        + Filled(prop.schema, Get(RestoreFields(s, n - 1, fields), prop.name), JoinPath(path, prop.name))
  }

  ghost function FilledItems(s: Schema, n: nat, items: seq<Value>, path: string): seq<string>
    requires s.Node? && s.items.Items? && n <= |items|
    decreases s, 0, n
  {
    if n == 0 then []
    else FilledItems(s, n - 1, items, path) + Filled(s.items.item, Some(items[n - 1]), path + "[]")
  }

  // ----- The walk ---------------------------------------------------------------------------

  class FilledPaths {
    var paths: seq<string>

    constructor ()
      ensures paths == []
    {
      paths := [];
    }
  }

  lemma Regroup(a: seq<string>, b: seq<string>, c: seq<string>)
    ensures (a + b) + c == a + (b + c)
  {
  }

  method RestoreOmittedNulls(s: Schema, v: Option<Value>, filled: FilledPaths, path: string) returns (r: Option<Value>)
    modifies filled
    ensures r == Restore(s, v)
    ensures filled.paths == old(filled.paths) + Filled(s, v, path)
    decreases s, 1, 0
  {
    if Missing(v) {
      if AdmitsNull(s) && v.None? {
        filled.paths := filled.paths + [path];
      }
      return if AdmitsNull(s) then Some(NULL) else v;
    }
    if s.Union? {
      var live := Real(s.branches);
      if |live| == 1 {
        assert live[0] in live;
        r := RestoreOmittedNulls(live[0], v, filled, path);
        return;
      }
      return v;
    }
    if WalksFields(s) {
      if !v.value.Obj? {
        return v;
      }
      var out := WalkFields(s, v.value.fields, filled, path);
      return Some(Obj(out));
    }
    if WalksItems(s) && v.value.Arr? {
      var out := WalkItems(s, v.value.items, filled, path);
      return Some(Arr(out));
    }
    return v;
  }

  method WalkFields(s: Schema, fields: map<string, Value>, filled: FilledPaths, path: string)
    returns (out: map<string, Value>)
    requires WalksFields(s)
    modifies filled
    ensures out == RestoreFields(s, |s.props.ps|, fields)
    ensures filled.paths == old(filled.paths) + FilledFields(s, |s.props.ps|, fields, path)
    decreases s, 0, 0
  {
    out := fields;
    ghost var start := filled.paths;
    for i := 0 to |s.props.ps|
      invariant out == RestoreFields(s, i, fields)
      invariant filled.paths == start + FilledFields(s, i, fields, path)
    {
      var prop := s.props.ps[i];
      ghost var more := Filled(prop.schema, Get(out, prop.name), JoinPath(path, prop.name));
      Regroup(start, FilledFields(s, i, fields, path), more);
      var restored := RestoreOmittedNulls(prop.schema, Get(out, prop.name), filled, JoinPath(path, prop.name));
      if restored.Some? {
        out := out[prop.name := restored.value];
      }
    }
  }

  method WalkItems(s: Schema, items: seq<Value>, filled: FilledPaths, path: string) returns (out: seq<Value>)
    requires WalksItems(s)
    modifies filled
    ensures out == RestoreItems(s, |items|, items)
    ensures filled.paths == old(filled.paths) + FilledItems(s, |items|, items, path)
    decreases s, 0, 0
  {
    out := [];
    ghost var start := filled.paths;
    for i := 0 to |items|
      invariant out == RestoreItems(s, i, items)
      invariant filled.paths == start + FilledItems(s, i, items, path)
    {
      Regroup(start, FilledItems(s, i, items, path), Filled(s.items.item, Some(items[i]), path + "[]"));
      var one := RestoreOmittedNulls(s.items.item, Some(items[i]), filled, path + "[]");
      out := out + [one.value];
    }
  }

  // ----- Field by field ---------------------------------------------------------------------

  lemma {:induction false} UntouchedField(s: Schema, n: nat, fields: map<string, Value>, name: string)
    requires s.Node? && s.props.Props? && n <= |s.props.ps|
    requires forall j :: 0 <= j < n ==> s.props.ps[j].name != name
    ensures Get(RestoreFields(s, n, fields), name) == Get(fields, name)
  {
    if n > 0 {
      UntouchedField(s, n - 1, fields, name);
    }
  }

  /** Each declared field of the result is the restoration of that field alone. */
  lemma {:induction false} RestoredField(s: Schema, n: nat, fields: map<string, Value>, i: nat)
    requires s.Node? && s.props.Props? && Keyed(s) && i < n <= |s.props.ps|
    ensures Get(RestoreFields(s, n, fields), s.props.ps[i].name) ==
            Restore(s.props.ps[i].schema, Get(fields, s.props.ps[i].name))
  {
    if i < n - 1 {
      RestoredField(s, n - 1, fields, i);
    } else {
      UntouchedField(s, n - 1, fields, s.props.ps[i].name);
    }
  }

  lemma {:induction false} RestoredItem(s: Schema, n: nat, items: seq<Value>, i: nat)
    requires s.Node? && s.items.Items? && i < n <= |items|
    ensures RestoreItems(s, n, items)[i] == Restore(s.items.item, Some(items[i])).value
  {
    if i < n - 1 {
      RestoredItem(s, n - 1, items, i);
    }
  }

  /** Two objects that restore to the same fields are equal. */
  lemma SameFields(a: map<string, Value>, b: map<string, Value>)
    requires forall name :: Get(a, name) == Get(b, name)
    ensures a == b
  {
    forall name ensures name in a <==> name in b {
      assert Get(a, name) == Get(b, name);
    }
    forall name | name in a ensures a[name] == b[name] {
      assert Get(a, name) == Get(b, name);
    }
  }

  /** Restoring an answer that was already restored changes nothing, whatever the schema and the answer. */
  lemma {:induction false} RestoreIdempotent(s: Schema, v: Option<Value>)
    requires Keyed(s)
    ensures Restore(s, Restore(s, v)) == Restore(s, v)
    decreases s
  {
    if !Missing(v) {
      if s.Union? {
        if |Real(s.branches)| == 1 {
          assert Real(s.branches)[0] in Real(s.branches);
          RestoreIdempotent(Real(s.branches)[0], v);
          RestoreNotNull(Real(s.branches)[0], v.value);
        }
      } else if WalksFields(s) && v.value.Obj? {
        var once := RestoreFields(s, |s.props.ps|, v.value.fields);
        var twice := RestoreFields(s, |s.props.ps|, once);
        forall name ensures Get(twice, name) == Get(once, name) {
          if i :| 0 <= i < |s.props.ps| && s.props.ps[i].name == name {
            RestoredField(s, |s.props.ps|, v.value.fields, i);
            RestoredField(s, |s.props.ps|, once, i);
            RestoreIdempotent(s.props.ps[i].schema, Get(v.value.fields, name));
          } else {
            UntouchedField(s, |s.props.ps|, once, name);
          }
        }
        SameFields(twice, once);
      } else if WalksItems(s) && v.value.Arr? {
        var once := RestoreItems(s, |v.value.items|, v.value.items);
        var twice := RestoreItems(s, |once|, once);
        forall i | 0 <= i < |once| ensures twice[i] == once[i] {
          RestoredItem(s, |once|, v.value.items, i);
          RestoredItem(s, |once|, once, i);
          RestoreIdempotent(s.items.item, Some(v.value.items[i]));
        }
        assert twice == once;
      }
    }
  }

  lemma {:induction false} RestoreNotNull(s: Schema, v: Value)
    requires v != NULL
    ensures Restore(s, Some(v)).value != NULL
  {
    if s.Union? && |Real(s.branches)| == 1 {
      assert Real(s.branches)[0] in Real(s.branches);
      RestoreNotNull(Real(s.branches)[0], v);
    }
  }

  // ----- The list of filled paths is the list of added fields ---------------------------------

  /** Main result: the fields of the result are those of the answer and, once each, the fields reported as filled. */
  lemma {:induction false} FilledIsAdded(s: Schema, v: Value, path: string)
    ensures FieldPaths(Restore(s, Some(v)).value, path) == FieldPaths(v, path) + multiset(Filled(s, Some(v), path))
    decreases s, 2, 0
  {
    if v != NULL {
      if s.Union? {
        if |Real(s.branches)| == 1 {
          assert Real(s.branches)[0] in Real(s.branches);
          FilledIsAdded(Real(s.branches)[0], v, path);
        }
      } else if WalksFields(s) && v.Obj? {
        FilledFieldsAdded(s, |s.props.ps|, v.fields, path);
      } else if WalksItems(s) && v.Arr? {
        FilledItemsAdded(s, v, |v.items|, path);
      }
    }
  }

  lemma {:induction false} FilledFieldsAdded(s: Schema, n: nat, fields: map<string, Value>, path: string)
    requires s.Node? && s.props.Props? && n <= |s.props.ps|
    ensures Grown(fields, RestoreFields(s, n, fields), path, FilledFields(s, n, fields, path))
    decreases s, 1, n
  {
    if n == 0 {
      assert FilledFields(s, 0, fields, path) == [];
    } else {
      FilledFieldsAdded(s, n - 1, fields, path);
      OneFieldAdded(s, n, fields, RestoreFields(s, n - 1, fields), path, FilledFields(s, n - 1, fields, path));
    }
  }

  lemma {:induction false} OneFieldAdded(s: Schema, n: nat, fields: map<string, Value>, before: map<string, Value>,
                                         path: string, filled: seq<string>)
    requires s.Node? && s.props.Props? && 0 < n <= |s.props.ps|
    requires before == RestoreFields(s, n - 1, fields) && filled == FilledFields(s, n - 1, fields, path)
    requires Grown(fields, before, path, filled)
    ensures Grown(fields, RestoreFields(s, n, fields), path, FilledFields(s, n, fields, path))
    decreases s, 0, 1
  {
    FilledVisit(s, n - 1, before, path);
    VisitStep(s, n, fields, before, path, filled);
  }

  lemma VisitStep(s: Schema, n: nat, fields: map<string, Value>, before: map<string, Value>, path: string,
                  filled: seq<string>)
    requires s.Node? && s.props.Props? && 0 < n <= |s.props.ps|
    requires before == RestoreFields(s, n - 1, fields) && filled == FilledFields(s, n - 1, fields, path)
    requires Grown(fields, before, path, filled)
    requires Grown(before, Visited(before, s.props.ps[n - 1]), path, VisitFilled(before, s.props.ps[n - 1], path))
    ensures Grown(fields, RestoreFields(s, n, fields), path, FilledFields(s, n, fields, path))
  {
    var after, more := Visited(before, s.props.ps[n - 1]), VisitFilled(before, s.props.ps[n - 1], path);
    assert RestoreFields(s, n, fields) == after && FilledFields(s, n, fields, path) == filled + more;
    GrownTwice(fields, before, after, path, filled, more);
  }

  /** The object after has the fields of the one before, and those at the paths `filled`. */
  ghost predicate Grown(before: map<string, Value>, after: map<string, Value>, path: string, filled: seq<string>) {
    FieldPaths(Obj(after), path) == FieldPaths(Obj(before), path) + multiset(filled)
  }

  lemma GrownTwice(a: map<string, Value>, b: map<string, Value>, c: map<string, Value>, path: string,
                   f: seq<string>, g: seq<string>)
    requires Grown(a, b, path, f) && Grown(b, c, path, g)
    ensures Grown(a, c, path, f + g)
  {
  }

  lemma {:induction false} FilledVisit(s: Schema, i: nat, before: map<string, Value>, path: string)
    requires s.Node? && s.props.Props? && i < |s.props.ps|
    ensures Grown(before, Visited(before, s.props.ps[i]), path, VisitFilled(before, s.props.ps[i], path))
    decreases s, 0, 0
  {
    var prop := s.props.ps[i];
    if prop.name in before {
      FilledIsAdded(prop.schema, before[prop.name], JoinPath(path, prop.name));
    }
    FieldFilled(before, prop, path);
  }

  /** The object after one property was visited, and what was filled there. */
  ghost function Visited(before: map<string, Value>, prop: Prop): map<string, Value> {
    var restored := Restore(prop.schema, Get(before, prop.name));
    if restored.Some? then before[prop.name := restored.value] else before
  }

  ghost function VisitFilled(before: map<string, Value>, prop: Prop, path: string): seq<string> {
    Filled(prop.schema, Get(before, prop.name), JoinPath(path, prop.name))
  }

  lemma FieldFilled(before: map<string, Value>, prop: Prop, path: string)
    requires prop.name in before ==>
               FieldPaths(Restore(prop.schema, Some(before[prop.name])).value, JoinPath(path, prop.name)) ==
               FieldPaths(before[prop.name], JoinPath(path, prop.name)) +
               multiset(Filled(prop.schema, Some(before[prop.name]), JoinPath(path, prop.name)))
    ensures Grown(before, Visited(before, prop), path, VisitFilled(before, prop, path))
  {
    var restored := Restore(prop.schema, Get(before, prop.name));
    var at := JoinPath(path, prop.name);
    if prop.name in before {
      PathsWrite(before, prop.name, restored.value, path);
      Cancel(FieldPaths(Obj(Visited(before, prop)), path),
             FieldPaths(Obj(before), path) + multiset(VisitFilled(before, prop, path)),
             FieldAt(Obj(before), prop.name, path));
    } else if AdmitsNull(prop.schema) {
      assert restored == Some(NULL) && VisitFilled(before, prop, path) == [at];
      PathsWrite(before, prop.name, NULL, path);
      assert FieldPaths(NULL, at) == multiset{};
    } else {
      assert restored == None && VisitFilled(before, prop, path) == [];
    }
  }

  lemma Cancel(a: multiset<string>, b: multiset<string>, c: multiset<string>)
    requires a + c == b + c
    ensures a == b
  {
    forall p ensures a[p] == b[p] {
      assert (a + c)[p] == (b + c)[p];
    }
  }

  lemma {:induction false} FilledItemsAdded(s: Schema, v: Value, n: nat, path: string)
    requires s.Node? && s.items.Items? && v.Arr? && n <= |v.items|
    ensures ItemPaths(Arr(RestoreItems(s, |v.items|, v.items)), n, path) ==
            ItemPaths(v, n, path) + multiset(FilledItems(s, n, v.items, path))
    decreases s, 0, n
  {
    if n > 0 {
      FilledItemsAdded(s, v, n - 1, path);
      FilledIsAdded(s.items.item, v.items[n - 1], path + "[]");
      RestoredItem(s, |v.items|, v.items, n - 1);
    }
  }

  // ----- What is entered, and what is put back, by the schema's own keywords ---------------------

  lemma {:induction false} FirstNonNullIff(ts: seq<TypeName>, t: TypeName)
    requires t != NullType
    ensures FirstNonNull(ts) == Some(t) <==> NamesType(Many(ts), t)
  {
    if ts != [] && ts[0] == NullType {
      FirstNonNullIff(ts[1..], t);
      NamesAfterNull(ts, t);
    }
  }

  lemma NamesAfterNull(ts: seq<TypeName>, t: TypeName)
    requires ts != [] && ts[0] == NullType != t
    ensures NamesType(Many(ts), t) <==> NamesType(Many(ts[1..]), t)
  {
    var rest := ts[1..];
    if k :| 0 <= k < |rest| && rest[k] == t && forall j :: 0 <= j < k ==> rest[j] == NullType {
      assert ts[k + 1] == t && forall j :: 0 <= j < k + 1 ==> ts[j] == NullType;
    }
    if k :| 0 <= k < |ts| && ts[k] == t && forall j :: 0 <= j < k ==> ts[j] == NullType {
      assert rest[k - 1] == t && forall j :: 0 <= j < k - 1 ==> rest[j] == NullType;
    }
  }

  lemma WalksIff(s: Schema)
    ensures WalksFields(s) <==> HasFields(s)
    ensures WalksItems(s) <==> HasItems(s)
  {
    if s.Node? && s.ty.Many? {
      FirstNonNullIff(s.ty.ts, ObjectType);
      FirstNonNullIff(s.ty.ts, ArrayType);
    }
  }

  lemma AdmitsIff(s: Schema)
    ensures AdmitsNull(s) <==> OffersNull(s)
  {
    if s.Union? {
      assert OffersNull(s) <==> exists i :: 0 <= i < |s.branches| && IsNullSchema(s.branches[i]);
    }
  }

  /**
   Main result: in an object the walk enters - one whose node names the type object
   first and declares properties - a declared field that was left out comes back as
   null if and only if its own node lists null among its types or its branches.
   */
  lemma OmittedNullIff(s: Schema, fields: map<string, Value>, i: nat)
    requires Keyed(s) && HasFields(s) && i < |s.props.ps| && s.props.ps[i].name !in fields
    ensures var r := Restore(s, Some(Obj(fields)));
            && r.Some? && r.value.Obj?
            && Get(r.value.fields, s.props.ps[i].name) ==
               if OffersNull(s.props.ps[i].schema) then Some(NULL) else None
  {
    WalksIff(s);
    AdmitsIff(s.props.ps[i].schema);
    RestoredField(s, |s.props.ps|, fields, i);
  }

  /** ... and the walk enters these objects, the arrays of nodes that name the type array first, and nothing else. */
  lemma WalkEnters(s: Schema, v: Value)
    ensures s.Union? ==> forall i: nat :: OnlyReal(s.branches, i) && v != NULL ==>
              Restore(s, Some(v)) == Restore(s.branches[i], Some(v))
    ensures s.Union? && !(exists i: nat :: OnlyReal(s.branches, i)) ==> Restore(s, Some(v)) == Some(v)
    ensures s.Node? && !(HasFields(s) && v.Obj?) && !(HasItems(s) && v.Arr?) ==> Restore(s, Some(v)) == Some(v)
    ensures s.Node? && HasItems(s) && v.Arr? ==>
              var r := Restore(s, Some(v)).value;
              && r.Arr? && |r.items| == |v.items|
              && forall i :: 0 <= i < |v.items| ==> Some(r.items[i]) == Restore(s.items.item, Some(v.items[i]))
  {
    WalksIff(s);
    if s.Union? {
      if |Real(s.branches)| == 1 {
        var i := OnlyOne(s.branches);
      }
      forall i: nat | OnlyReal(s.branches, i) ensures Real(s.branches) == [s.branches[i]] {
        RealOnly(s.branches, i);
      }
    } else if WalksItems(s) && v.Arr? {
      forall i | 0 <= i < |v.items|
        ensures RestoreItems(s, |v.items|, v.items)[i] == Restore(s.items.item, Some(v.items[i])).value
      {
        RestoredItem(s, |v.items|, v.items, i);
      }
    }
  }
}
