/**
 The round trip: an answer the API accepts under the compiled schema, once the
 omitted nulls are put back, is an answer the original schema accepts; and every
 original answer survives the trip unchanged.
 */
module RoundTrip {
  import opened Options
  import opened JsonValues
  import opened Schemas
  import opened SchemaCompiler
  import opened NullRestorer

  // ----- Which schemas the trip is sound for --------------------------------------------------

  /** Compiling lost nothing below this node, so it may be left unrestored. */
  ghost predicate Stable(s: Schema) {
    match s
    case Union(bs, _) => forall i :: 0 <= i < |bs| ==> Stable(bs[i])
    case Node(_, props, required, items, _, _, _) =>
      && (props.Props? ==> forall i :: 0 <= i < |props.ps| ==>
            Stable(props.ps[i].schema) && (OffersNullInside(props.ps[i].schema) ==> props.ps[i].name !in required))
      && (items.Items? ==> Stable(items.item))
  }

  /** What the node accepts when null is put there: its enum or its null branch does not refuse it. */
  predicate TakesNull(s: Schema) {
    match s
    case Union(bs, _) => exists b :: b in bs && IsNullSchema(b) && EnumAllows(b.enums, NULL)
    case Node(ty, _, _, _, _, enums, _) => EnumAllows(enums, NULL)
  }

  /**
   A required nullable property can only be put back by its own null option: a
   one-branch union whose nullability comes from inside is compiled to an
   optional field but never restored.
   */
  ghost predicate PropRestorable(prop: Prop, required: seq<string>) {
    && (OffersNullInside(prop.schema) && prop.name in required ==> OffersNull(prop.schema))
    && (OffersNull(prop.schema) ==> TakesNull(prop.schema))
  }

  ghost predicate Restorable(s: Schema) {
    match s
    case Union(bs, _) =>
      var live := Real(bs);
      if |live| == 1 then
        assert live[0] in live;
        Restorable(live[0])
      else forall b :: b in bs ==> Stable(b)
    case Node(_, props, required, items, _, _, _) =>
      && (props.Props? ==> forall i :: 0 <= i < |props.ps| ==>
            if HasFields(s) then Restorable(props.ps[i].schema) && PropRestorable(props.ps[i], required)
            else Stable(props.ps[i].schema) && (OffersNullInside(props.ps[i].schema) ==> props.ps[i].name !in required))
      && (items.Items? ==> if HasItems(s) then Restorable(items.item) else Stable(items.item))
  }

  // ----- Soundness ----------------------------------------------------------------------------

  lemma CompiledType(ty: TypeKw, v: Value)
    requires TypeAllows(ConvertType(ty), v)
    ensures TypeAllows(ty, v)
  {
    if ty.Many? && |WithoutNull(ty.ts)| == 1 {
      assert WithoutNull(ty.ts)[0] in WithoutNull(ty.ts);
    }
  }

  lemma CompiledRequired(s: Schema, v: Value, name: string)
    requires s.Node? && v.Obj? && Valid(Convert(s), v)
    requires name in s.required && !OptionalName(s.props, name)
    ensures name in v.fields
  {
    KeptNames(s.required, |s.required|, s.props);
    assert s.required[..|s.required|] == s.required;
  }

  /** A field dropped from `required` belongs to a nullable property. */
  lemma DroppedProp(s: Schema, name: string) returns (i: nat)
    requires s.Node? && OptionalName(s.props, name)
    ensures s.props.Props? && i < |s.props.ps| && s.props.ps[i].name == name && OffersNullInside(s.props.ps[i].schema)
  {
    i :| 0 <= i < |s.props.ps| && s.props.ps[i].name == name && OffersNullInside(s.props.ps[i].schema);
  }

  lemma CompiledProp(s: Schema, v: Value, i: nat)
    requires s.Node? && s.props.Props? && i < |s.props.ps| && v.Obj? && Valid(Convert(s), v)
    requires s.props.ps[i].name in v.fields
    ensures Valid(Convert(s.props.ps[i].schema), v.fields[s.props.ps[i].name])
  {
    ConvertPropAt(s, |s.props.ps|, i);
    assert Convert(s).props.ps[i].name in v.fields;
  }

  /** A value valid for a compiled union is valid for one of its compiled real branches. */
  lemma CompiledBranch(s: Schema, v: Value) returns (j: nat)
    requires s.Union? && Valid(Convert(s), v)
    ensures j < |Real(s.branches)| && Real(s.branches)[j] in s.branches
    ensures Valid(Convert(Real(s.branches)[j]), v)
  {
    if |Real(s.branches)| == 1 {
      j := 0;
    } else {
      j :| 0 <= j < |Convert(s).branches| && Valid(Convert(s).branches[j], v);
      ConvertBranchAt(s, |Real(s.branches)|, j);
    }
    assert Real(s.branches)[j] in Real(s.branches);
  }

  lemma CompiledUnion(s: Schema, j: nat, v: Value)
    requires s.Union? && j < |Real(s.branches)| && Valid(Convert(Real(s.branches)[j]), v)
    ensures Valid(Convert(s), v)
  {
    if |Real(s.branches)| != 1 {
      ConvertBranchAt(s, |Real(s.branches)|, j);
      assert Valid(Convert(s).branches[j], v);
    }
  }

  lemma {:induction false} StableSound(s: Schema, v: Value)
    requires Stable(s) && Valid(Convert(s), v)
    ensures Valid(s, v)
  {
    match s
    case Union(bs, _) =>
      var j := CompiledBranch(s, v);
      var i :| 0 <= i < |bs| && bs[i] == Real(bs)[j];
      StableSound(bs[i], v);
    case Node(ty, props, required, items, _, _, _) =>
      CompiledType(ty, v);
      if v.Obj? {
        forall name | name in required ensures name in v.fields {
          if OptionalName(props, name) {
            var i := DroppedProp(s, name);
          } else {
            CompiledRequired(s, v, name);
          }
        }
        if props.Props? {
          forall i | 0 <= i < |props.ps| && props.ps[i].name in v.fields
            ensures Valid(props.ps[i].schema, v.fields[props.ps[i].name])
          {
            CompiledProp(s, v, i);
            StableSound(props.ps[i].schema, v.fields[props.ps[i].name]);
          }
        }
        CompiledNames(s, v);
      }
      if v.Arr? && items.Items? {
        forall i | 0 <= i < |v.items| ensures Valid(items.item, v.items[i]) {
          StableSound(items.item, v.items[i]);
        }
      }
  }

  /** An object valid for a closed compiled node has declared names only. */
  lemma CompiledNames(s: Schema, v: Value)
    requires s.Node? && v.Obj? && Valid(Convert(s), v)
    ensures Convert(s).closed ==> forall name :: name in v.fields ==> s.props.Props? && Declares(s.props.ps, name)
  {
    if Convert(s).closed {
      forall name | name in v.fields ensures s.props.Props? && Declares(s.props.ps, name) {
        assert Convert(s).props.Props? && Declares(Convert(s).props.ps, name);
        var i :| 0 <= i < |Convert(s).props.ps| && Convert(s).props.ps[i].name == name;
        ConvertPropAt(s, |s.props.ps|, i);
        assert s.props.ps[i].name == name;
      }
    }
  }

  // ----- Which answers come back valid ----------------------------------------------------------

  /** A field left out may be: it is not required or its own null is put back, and the property takes that null. */
  ghost predicate MayBeLeftOut(prop: Prop, required: seq<string>) {
    && (prop.name in required ==> OffersNull(prop.schema))
    && (OffersNull(prop.schema) ==> Valid(prop.schema, NULL))
  }

  /**
   What an answer to the compiled schema must be for its restoration to be valid.
   It descends where the walk descends and asks for every field left out that it
   may be; where the walk stops, the answer must be valid as it is.
   */
  ghost predicate Mended(s: Schema, v: Value) {
    if v.Lit? then true
    else match s
         case Union(bs, _) =>
           var live := Real(bs);
           if |live| == 1 then
             assert live[0] in live;
             Mended(live[0], v)
           else Valid(s, v)
         case Node(_, props, required, items, _, _, _) =>
           if HasFields(s) && v.Obj? then
             forall i :: 0 <= i < |props.ps| ==>
               if props.ps[i].name in v.fields then Mended(props.ps[i].schema, v.fields[props.ps[i].name])
               else MayBeLeftOut(props.ps[i], required)
           else if HasItems(s) && v.Arr? then forall i :: 0 <= i < |v.items| ==> Mended(items.item, v.items[i])
           else Valid(s, v)
  }

  lemma {:induction false} PlainKept(s: Schema, v: Value)
    requires v.Lit?
    ensures Restore(s, Some(v)).value == v
  {
    if s.Union? && |Real(s.branches)| == 1 {
      assert Real(s.branches)[0] in Real(s.branches);
      PlainKept(Real(s.branches)[0], v);
    }
  }

  /** Compiling gains no plain value. */
  lemma {:induction false} PlainSound(s: Schema, v: Value)
    requires v.Lit? && Valid(Convert(s), v)
    ensures Valid(s, v)
  {
    match s
    case Union(bs, _) =>
      var j := CompiledBranch(s, v);
      PlainSound(Real(bs)[j], v);
      InUnion(s, Real(bs)[j], v);
    case Node(ty, _, _, _, _, _, _) => CompiledType(ty, v);
  }

  lemma InUnion(s: Schema, branch: Schema, v: Value)
    requires s.Union? && branch in s.branches && Valid(branch, v)
    ensures Valid(s, v)
  {
    var i :| 0 <= i < |s.branches| && s.branches[i] == branch;
    assert Valid(s.branches[i], v);
  }

  /** The single real branch of a union: what is not null is valid for the one if and only if for the other. */
  lemma OnlyBranch(s: Schema, v: Value) returns (only: Schema)
    requires s.Union? && |Real(s.branches)| == 1 && Keyed(s) && v != NULL
    ensures only == Real(s.branches)[0] && only < s && Keyed(only) && Convert(s) == Convert(only)
    ensures forall r :: r != NULL ==> (Valid(s, r) <==> Valid(only, r))
  {
    only := Real(s.branches)[0];
    assert only in Real(s.branches);
    KeyedBranch(s, only);
    forall r | r != NULL ensures Valid(s, r) <==> Valid(only, r) {
      if Valid(s, r) {
        var i :| 0 <= i < |s.branches| && Valid(s.branches[i], r);
        OnlyRealBranch(s.branches, i);
      } else if Valid(only, r) {
        InUnion(s, only, r);
      }
    }
  }

  /** In a union with one real branch, every branch that is not that one is the null schema. */
  lemma OnlyRealBranch(bs: seq<Schema>, i: nat)
    requires |Real(bs)| == 1 && i < |bs|
    ensures IsNullSchema(bs[i]) || bs[i] == Real(bs)[0]
  {
    if !IsNullSchema(bs[i]) {
      assert bs[i] in Real(bs);
    }
  }

  lemma KeyedBranch(s: Schema, branch: Schema)
    requires s.Union? && Keyed(s) && branch in s.branches
    ensures Keyed(branch)
  {
    var i :| 0 <= i < |s.branches| && s.branches[i] == branch;
    assert Keyed(s.branches[i]);
  }

  /** A container stays a container of its kind. */
  lemma SameKind(ty: TypeKw, v: Value, w: Value)
    requires TypeAllows(ty, v) && ((v.Obj? && w.Obj?) || (v.Arr? && w.Arr?))
    ensures TypeAllows(ty, w)
  {
    if ty.Many? {
      var t :| t in ty.ts && HasType(t, v);
      assert HasType(t, w);
    }
  }

  /** Field `i` of a restored object is there if required, and valid if there. */
  ghost predicate FieldFits(s: Schema, fields: map<string, Value>, i: nat)
    requires HasFields(s) && i < |s.props.ps|
  {
    var p := s.props.ps[i];
    (p.name in s.required ==> p.name in fields) && (p.name in fields ==> Valid(p.schema, fields[p.name]))
  }

  /** The type, the enum, the undeclared fields and the closing of a restored object never fail. */
  lemma RestoredObjectIff(s: Schema, v: Value)
    requires Keyed(s) && HasFields(s) && v.Obj? && Valid(Convert(s), v)
    ensures var fields := RestoreFields(s, |s.props.ps|, v.fields);
            Valid(s, Obj(fields)) <==> forall i :: 0 <= i < |s.props.ps| ==> FieldFits(s, fields, i)
  {
    var ps := s.props.ps;
    var fields := RestoreFields(s, |ps|, v.fields);
    CompiledType(s.ty, v);
    SameKind(s.ty, v, Obj(fields));
    CompiledNames(s, v);
    forall name | !Declares(ps, name) ensures name in fields <==> name in v.fields {
      UntouchedField(s, |ps|, v.fields, name);
    }
    if forall i :: 0 <= i < |ps| ==> FieldFits(s, fields, i) {
      forall name | name in s.required ensures name in fields {
        RequiredFits(s, v, name);
      }
      assert forall i :: 0 <= i < |ps| && ps[i].name in fields ==> FieldFits(s, fields, i);
    } else {
      var i :| 0 <= i < |ps| && !FieldFits(s, fields, i);
      assert ps[i].name in s.required || ps[i].name in fields;
    }
  }

  lemma RequiredFits(s: Schema, v: Value, name: string)
    requires Keyed(s) && HasFields(s) && v.Obj? && Valid(Convert(s), v) && name in s.required
    requires forall i :: 0 <= i < |s.props.ps| ==> FieldFits(s, RestoreFields(s, |s.props.ps|, v.fields), i)
    ensures name in RestoreFields(s, |s.props.ps|, v.fields)
  {
    if i :| 0 <= i < |s.props.ps| && s.props.ps[i].name == name {
      assert FieldFits(s, RestoreFields(s, |s.props.ps|, v.fields), i);
    } else {
      CompiledRequired(s, v, name);
      UntouchedField(s, |s.props.ps|, v.fields, name);
    }
  }

  /**
   Main result: for every schema and every answer its compiled form accepts, the
   restored answer is valid if and only if the answer is mended.
   */
  lemma {:induction false} RestoredValidIff(s: Schema, v: Value)
    requires Keyed(s) && Valid(Convert(s), v)
    ensures Valid(s, Restore(s, Some(v)).value) <==> Mended(s, v)
    decreases s, 1
  {
    WalksIff(s);
    if v.Lit? {
      PlainSound(s, v);
      PlainKept(s, v);
    } else if s.Union? {
      if |Real(s.branches)| == 1 {
        var only := OnlyBranch(s, v);
        RestoreNotNull(only, v);
        RestoredValidIff(only, v);
      }
    } else if HasFields(s) && v.Obj? {
      var fields := RestoreFields(s, |s.props.ps|, v.fields);
      RestoredObjectIff(s, v);
      forall i | 0 <= i < |s.props.ps|
        ensures FieldFits(s, fields, i) <==>
                if s.props.ps[i].name in v.fields then Mended(s.props.ps[i].schema, v.fields[s.props.ps[i].name])
                else MayBeLeftOut(s.props.ps[i], s.required)
      {
        RestoredFieldIff(s, v, i);
      }
    } else if HasItems(s) && v.Arr? {
      RestoredItemsIff(s, v);
    }
  }

  lemma {:induction false} RestoredFieldIff(s: Schema, v: Value, i: nat)
    requires Keyed(s) && HasFields(s) && v.Obj? && Valid(Convert(s), v) && i < |s.props.ps|
    ensures FieldFits(s, RestoreFields(s, |s.props.ps|, v.fields), i) <==>
            if s.props.ps[i].name in v.fields then Mended(s.props.ps[i].schema, v.fields[s.props.ps[i].name])
            else MayBeLeftOut(s.props.ps[i], s.required)
    decreases s, 0
  {
    var p := s.props.ps[i];
    var fields := RestoreFields(s, |s.props.ps|, v.fields);
    AdmitsIff(p.schema);
    RestoredField(s, |s.props.ps|, v.fields, i);
    assert Get(fields, p.name) == Restore(p.schema, Get(v.fields, p.name));
    if p.name in v.fields {
      CompiledProp(s, v, i);
      RestoredValidIff(p.schema, v.fields[p.name]);
    }
  }

  lemma {:induction false} RestoredItemsIff(s: Schema, v: Value)
    requires Keyed(s) && HasItems(s) && v.Arr? && Valid(Convert(s), v)
    ensures Valid(s, Restore(s, Some(v)).value) <==> Mended(s, v)
    decreases s, 0
  {
    WalksIff(s);
    var r := Restore(s, Some(v)).value;
    CompiledType(s.ty, v);
    SameKind(s.ty, v, r);
    forall i | 0 <= i < |v.items| ensures Valid(s.items.item, r.items[i]) <==> Mended(s.items.item, v.items[i]) {
      RestoredItem(s, |v.items|, v.items, i);
      RestoredValidIff(s.items.item, v.items[i]);
    }
  }

  // ----- Schemas whose answers all come back valid ------------------------------------------------

  lemma TakesNullValid(s: Schema)
    requires OffersNull(s) && TakesNull(s)
    ensures Valid(s, NULL)
  {
    if s.Union? {
      var b :| b in s.branches && IsNullSchema(b) && EnumAllows(b.enums, NULL);
      InUnion(s, b, NULL);
    } else {
      assert NullType in s.ty.ts && HasType(NullType, NULL);
    }
  }

  /** A restorable schema leaves nothing to mend in any answer. */
  lemma {:induction false} RestorableMends(s: Schema, v: Value)
    requires Keyed(s) && Restorable(s) && Valid(Convert(s), v)
    ensures Mended(s, v)
  {
    if v.Lit? {
    } else if s.Union? {
      if |Real(s.branches)| == 1 {
        var only := OnlyBranch(s, v);
        RestorableMends(only, v);
      } else {
        var j := CompiledBranch(s, v);
        StableSound(Real(s.branches)[j], v);
        InUnion(s, Real(s.branches)[j], v);
      }
    } else if HasFields(s) && v.Obj? {
      forall i | 0 <= i < |s.props.ps|
        ensures if s.props.ps[i].name in v.fields then Mended(s.props.ps[i].schema, v.fields[s.props.ps[i].name])
                else MayBeLeftOut(s.props.ps[i], s.required)
      {
        if s.props.ps[i].name in v.fields {
          CompiledProp(s, v, i);
          RestorableMends(s.props.ps[i].schema, v.fields[s.props.ps[i].name]);
        } else {
          RestorableLeftOut(s, v, i);
        }
      }
    } else if HasItems(s) && v.Arr? {
      forall i | 0 <= i < |v.items| ensures Mended(s.items.item, v.items[i]) {
        RestorableMends(s.items.item, v.items[i]);
      }
    } else {
      UnwalkedValid(s, v);
    }
  }

  lemma RestorableLeftOut(s: Schema, v: Value, i: nat)
    requires Keyed(s) && Restorable(s) && HasFields(s) && v.Obj? && Valid(Convert(s), v)
    requires i < |s.props.ps| && s.props.ps[i].name !in v.fields
    ensures MayBeLeftOut(s.props.ps[i], s.required)
  {
    var p := s.props.ps[i];
    assert PropRestorable(p, s.required);
    if p.name in s.required {
      LeftOutNullable(s, v, i);
    }
    if OffersNull(p.schema) {
      TakesNullValid(p.schema);
    }
  }

  /** Only a nullable field may be left out of a compiled answer when the original requires it. */
  lemma LeftOutNullable(s: Schema, v: Value, i: nat)
    requires Keyed(s) && s.Node? && s.props.Props? && v.Obj? && Valid(Convert(s), v)
    requires i < |s.props.ps| && s.props.ps[i].name !in v.fields && s.props.ps[i].name in s.required
    ensures OffersNullInside(s.props.ps[i].schema)
  {
    if !OptionalName(s.props, s.props.ps[i].name) {
      CompiledRequired(s, v, s.props.ps[i].name);
    } else {
      var j := DroppedProp(s, s.props.ps[i].name);
      assert j == i;
    }
  }

  lemma UnwalkedValid(s: Schema, v: Value)
    requires s.Node? && Restorable(s) && Valid(Convert(s), v)
    requires !(HasFields(s) && v.Obj?) && !(HasItems(s) && v.Arr?)
    ensures Valid(s, v)
  {
    CompiledType(s.ty, v);
    if v.Obj? {
      forall name | name in s.required ensures name in v.fields {
        if OptionalName(s.props, name) {
          var i := DroppedProp(s, name);
        } else {
          CompiledRequired(s, v, name);
        }
      }
      if s.props.Props? {
        forall i | 0 <= i < |s.props.ps| && s.props.ps[i].name in v.fields
          ensures Valid(s.props.ps[i].schema, v.fields[s.props.ps[i].name])
        {
          CompiledProp(s, v, i);
          StableSound(s.props.ps[i].schema, v.fields[s.props.ps[i].name]);
        }
      }
      CompiledNames(s, v);
    }
    if v.Arr? && s.items.Items? {
      forall i | 0 <= i < |v.items| ensures Valid(s.items.item, v.items[i]) {
        StableSound(s.items.item, v.items[i]);
      }
    }
  }

  /** Under a restorable schema, whatever the API may answer is valid again once restored. */
  lemma RestoredValid(s: Schema, v: Value)
    requires Keyed(s) && Restorable(s) && Valid(Convert(s), v)
    ensures Valid(s, Restore(s, Some(v)).value)
  {
    RestorableMends(s, v);
    RestoredValidIff(s, v);
  }

  /**
   A required field left out comes back if and only if its own node admits null,
   and comes back valid if and only if that node also takes the null.
   */
  lemma OmittedFieldRestoredIff(s: Schema, v: Value, i: nat)
    requires Keyed(s) && HasFields(s) && i < |s.props.ps| && v.Obj?
    requires Valid(Convert(s), v) && s.props.ps[i].name !in v.fields && s.props.ps[i].name in s.required
    ensures OffersNullInside(s.props.ps[i].schema)
    ensures var r := Restore(s, Some(v)).value;
            && r.Obj? && (s.props.ps[i].name in r.fields <==> OffersNull(s.props.ps[i].schema))
            && (FieldFits(s, r.fields, i) <==> OffersNull(s.props.ps[i].schema) && Valid(s.props.ps[i].schema, NULL))
    ensures !(OffersNull(s.props.ps[i].schema) && Valid(s.props.ps[i].schema, NULL)) ==>
              !Valid(s, Restore(s, Some(v)).value)
  {
    LeftOutNullable(s, v, i);
    OmittedNullIff(s, v.fields, i);
    WalksIff(s);
    RestoredObjectIff(s, v);
  }

  // ----- The ways an answer comes back refused -------------------------------------------------------

  const TEXT_OR_NULL: Schema := Node(Many([StringType, NullType]), NoProps, [], NoItems, false, AnyValue, [])

  /** An object that requires `note`. */
  function NoteObject(note: Schema): Schema {
    NoteNode(One(ObjectType), note)
  }

  function NoteNode(ty: TypeKw, note: Schema): Schema {
    Node(ty, Props([Prop("note", note)]), ["note"], NoItems, true, AnyValue, [])
  }

  lemma EmptyAccepted(ty: TypeKw, note: Schema)
    requires Keyed(note) && OffersNullInside(note) && (ty == One(ObjectType) || ty.Untyped?)
    ensures Keyed(NoteNode(ty, note)) && Valid(Convert(NoteNode(ty, note)), Obj(map[]))
    ensures !Valid(NoteNode(ty, note), Obj(map[]))
  {
    var s := NoteNode(ty, note);
    DropsIff(s.props, "note");
    assert s.props.ps[0].name == "note" && OffersNullInside(s.props.ps[0].schema);
    assert OptionalName(s.props, s.required[0]);
    assert Kept(s.required, 1, s.props) == Kept(s.required, 0, s.props) == [];
    assert "note" in s.required;
  }

  lemma TextOrNullNullable()
    ensures OffersNullInside(TEXT_OR_NULL) && Keyed(TEXT_OR_NULL) && OffersNull(TEXT_OR_NULL)
  {
    assert NullType in TEXT_OR_NULL.ty.ts;
  }

  /** The compiled schema accepts the answer, and the original refuses it restored. */
  ghost predicate ComesBackRefused(s: Schema, v: Value) {
    Keyed(s) && Valid(Convert(s), v) && !Valid(s, Restore(s, Some(v)).value)
  }

  /** A required union of one nullable type is sent as optional and never put back. */
  lemma OwnNullNeeded() returns (s: Schema)
    ensures ComesBackRefused(s, Obj(map[]))
    ensures HasFields(s) && |s.props.ps| == 1 && !OffersNull(s.props.ps[0].schema)
  {
    var wrapped := Union([TEXT_OR_NULL], []);
    s := NoteObject(wrapped);
    TextOrNullNullable();
    assert Real(wrapped.branches) == [TEXT_OR_NULL] by {
      assert forall b :: b in wrapped.branches ==> !IsNullSchema(b);
    }
    EmptyAccepted(One(ObjectType), wrapped);
    OmittedFieldRestoredIff(s, Obj(map[]), 0);
  }

  /** A required nullable type whose enum lists no null is put back as a null its own node refuses. */
  lemma TakenNullNeeded() returns (s: Schema)
    ensures ComesBackRefused(s, Obj(map[]))
    ensures HasFields(s) && |s.props.ps| == 1 && OffersNull(s.props.ps[0].schema)
  {
    var picked := TEXT_OR_NULL.(enums := OneOf([Str("a")]));
    s := NoteObject(picked);
    assert NullType in picked.ty.ts;
    EmptyAccepted(One(ObjectType), picked);
    assert !Valid(picked, NULL) by {
      assert !EnumAllows(picked.enums, NULL);
    }
    OmittedFieldRestoredIff(s, Obj(map[]), 0);
  }

  /** Among two real branches nothing is restored, so an object branch with a required nullable field is refused. */
  lemma SingleBranchNeeded() returns (s: Schema)
    ensures ComesBackRefused(s, Obj(map[]))
    ensures s.Union? && |Real(s.branches)| == 2
  {
    TextOrNullNullable();
    EmptyAccepted(One(ObjectType), TEXT_OR_NULL);
    s := BesideNumber(NoteObject(TEXT_OR_NULL), Obj(map[]));
  }

  lemma BesideNumber(note: Schema, v: Value) returns (s: Schema)
    requires Keyed(note) && !IsNullSchema(note) && Valid(Convert(note), v) && !Valid(note, v) && v.Obj?
    ensures ComesBackRefused(s, v) && s.Union? && |Real(s.branches)| == 2
  {
    var number := Node(One(NumberType), NoProps, [], NoItems, false, AnyValue, []);
    s := Union([note, number], []);
    assert Real(s.branches) == s.branches by {
      assert forall b :: b in s.branches ==> !IsNullSchema(b);
    }
    CompiledUnion(s, 0, v);
    RestoredValidIff(s, v);
  }

  /** A node that does not name its type is compiled and not walked: its required nullable field is never restored. */
  lemma NamedTypeNeeded() returns (s: Schema)
    ensures ComesBackRefused(s, Obj(map[]))
    ensures s.Node? && s.props.Props? && s.ty.Untyped?
  {
    s := NoteNode(Untyped, TEXT_OR_NULL);
    TextOrNullNullable();
    EmptyAccepted(Untyped, TEXT_OR_NULL);
    RestoredValidIff(s, Obj(map[]));
  }
}
