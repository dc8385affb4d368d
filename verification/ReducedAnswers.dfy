/**
 The other way round the trip: an original answer with its dropped nulls left out,
 as the API would give it, is accepted by the compiled schema and restored to the
 original - exactly when nothing the walk does not see is lost on the way.
 */
module ReducedAnswers {
  import opened Options
  import opened JsonValues
  import opened Schemas
  import opened SchemaCompiler
  import opened NullRestorer
  import opened RoundTrip

  // ----- Lossless schemas -----------------------------------------------------------------------

  /** A union that does not itself offer null has no branch that does. */
  predicate OwnNullOnly(bs: seq<Schema>) {
    |Real(bs)| < |bs| || forall b :: b in bs ==> !OffersNullInside(b)
  }

  /** Compiling refuses no value of this node, with nothing dropped from it. */
  ghost predicate Faithful(s: Schema) {
    match s
    case Union(bs, _) => OwnNullOnly(bs) && forall i :: 0 <= i < |bs| ==> Faithful(bs[i])
    case Node(ty, props, _, items, closed, _, _) =>
      && (ObjectAlone(ty) || props.Props? ==> closed)
      && (props.Props? ==> forall i :: 0 <= i < |props.ps| ==>
            Faithful(props.ps[i].schema) && !OffersNullInside(props.ps[i].schema))
      && (items.Items? ==> Faithful(items.item))
  }

  /** Every object is closed already and every nullable property is required and admits its own null. */
  ghost predicate Lossless(s: Schema) {
    match s
    case Union(bs, _) =>
      && OwnNullOnly(bs)
      && var live := Real(bs);
         if |live| == 1 then
           assert live[0] in live;
           Lossless(live[0])
         else forall b :: b in bs ==> Faithful(b)
    case Node(ty, props, required, items, closed, _, _) =>
      && (ObjectAlone(ty) || props.Props? ==> closed)
      && (props.Props? ==> forall i :: 0 <= i < |props.ps| ==>
            if HasFields(s) then
              && Lossless(props.ps[i].schema)
              && (OffersNullInside(props.ps[i].schema) ==>
                    props.ps[i].name in required && OffersNull(props.ps[i].schema))
            else Faithful(props.ps[i].schema) && !OffersNullInside(props.ps[i].schema))
      && (items.Items? ==> if HasItems(s) then Lossless(items.item) else Faithful(items.item))
  }

  /** The answer as the API gives it: null-valued nullable fields are left out. */
  ghost function Drop(s: Schema, v: Value): Value
    decreases s, 1, 0
  {
    if v == NULL then v
    else if s.Union? then
      var live := Real(s.branches);
      if |live| == 1 then
        assert live[0] in live;
        Drop(live[0], v)
      else v
    else if HasFields(s) && v.Obj? then Obj(DropFields(s, |s.props.ps|, v.fields))
    else if HasItems(s) && v.Arr? then Arr(DropItems(s, |v.items|, v.items))
    else v
  }

  ghost function DropFields(s: Schema, n: nat, fields: map<string, Value>): map<string, Value>
    requires HasFields(s) && n <= |s.props.ps|
    decreases s, 0, n
  {
    if n == 0 then fields
    else
      var before := DropFields(s, n - 1, fields);
      var prop := s.props.ps[n - 1];
      if prop.name !in before then before
      else if OffersNullInside(prop.schema) && before[prop.name] == NULL then before - {prop.name}
      else before[prop.name := Drop(prop.schema, before[prop.name])]
  }

  ghost function DropItems(s: Schema, n: nat, items: seq<Value>): (r: seq<Value>)
    requires HasItems(s) && n <= |items|
    ensures |r| == n
    decreases s, 0, n
  {
    if n == 0 then [] else DropItems(s, n - 1, items) + [Drop(s.items.item, items[n - 1])]
  }

  ghost function DropField(p: Schema, x: Option<Value>): Option<Value> {
    if x.None? || (OffersNullInside(p) && x.value == NULL) then None else Some(Drop(p, x.value))
  }

  lemma {:induction false} UndroppedField(s: Schema, n: nat, fields: map<string, Value>, name: string)
    requires HasFields(s) && n <= |s.props.ps|
    requires forall j :: 0 <= j < n ==> s.props.ps[j].name != name
    ensures Get(DropFields(s, n, fields), name) == Get(fields, name)
  {
    if n > 0 {
      UndroppedField(s, n - 1, fields, name);
    }
  }

  lemma {:induction false} DroppedField(s: Schema, n: nat, fields: map<string, Value>, i: nat)
    requires HasFields(s) && Keyed(s) && i < n <= |s.props.ps|
    ensures Get(DropFields(s, n, fields), s.props.ps[i].name) ==
            DropField(s.props.ps[i].schema, Get(fields, s.props.ps[i].name))
  {
    if i < n - 1 {
      DroppedField(s, n - 1, fields, i);
    } else {
      UndroppedField(s, n - 1, fields, s.props.ps[i].name);
    }
  }

  lemma {:induction false} DroppedItem(s: Schema, n: nat, items: seq<Value>, i: nat)
    requires HasItems(s) && i < n <= |items|
    ensures DropItems(s, n, items)[i] == Drop(s.items.item, items[i])
  {
    if i < n - 1 {
      DroppedItem(s, n - 1, items, i);
    }
  }

  lemma {:induction false} DropNotNull(s: Schema, v: Value)
    requires v != NULL
    ensures Drop(s, v) != NULL
    decreases s
  {
    if s.Union? && |Real(s.branches)| == 1 {
      assert Real(s.branches)[0] in Real(s.branches);
      DropNotNull(Real(s.branches)[0], v);
    }
  }

  /** A single real branch takes every answer that is not the union's own null. */
  lemma OnlyBranchTakes(s: Schema, v: Value) returns (only: Schema)
    requires s.Union? && |Real(s.branches)| == 1 && Keyed(s) && Lossless(s) && Valid(s, v)
    requires v == NULL ==> !OffersNullInside(s)
    ensures only == Real(s.branches)[0] && only < s && Keyed(only) && Lossless(only) && Valid(only, v)
    ensures (v == NULL ==> !OffersNullInside(only)) && Convert(s) == Convert(only) && Drop(s, v) == Drop(only, v)
  {
    var j := RealBranchValid(s, v);
    only := Real(s.branches)[0];
    assert only in Real(s.branches);
    KeyedBranch(s, only);
    if !OffersNullInside(s) {
      OnlyBranchBare(s);
    }
  }

  /** A union that offers no null, with one real branch, is that branch alone. */
  lemma OnlyBranchBare(s: Schema)
    requires s.Union? && |Real(s.branches)| == 1 && !OffersNullInside(s)
    ensures s.branches == Real(s.branches) && !OffersNullInside(s.branches[0])
  {
    forall b | b in s.branches ensures !IsNullSchema(b) {
      var i :| 0 <= i < |s.branches| && s.branches[i] == b;
    }
  }

  /**
   What survives reducing and restoring: a null that is dropped can be put back,
   and no field that was never there is put in.
   */
  ghost predicate Retained(s: Schema, v: Value) {
    if v.Lit? then true
    else match s
         case Union(bs, _) =>
           var live := Real(bs);
           |live| == 1 ==>
             assert live[0] in live;
             Retained(live[0], v)
         case Node(_, props, _, items, _, _, _) =>
           if HasFields(s) && v.Obj? then
             forall i :: 0 <= i < |props.ps| ==>
               if props.ps[i].name !in v.fields then !OffersNull(props.ps[i].schema)
               else if OffersNullInside(props.ps[i].schema) && v.fields[props.ps[i].name] == NULL then
                 OffersNull(props.ps[i].schema)
               else Retained(props.ps[i].schema, v.fields[props.ps[i].name])
           else HasItems(s) && v.Arr? ==> forall i :: 0 <= i < |v.items| ==> Retained(items.item, v.items[i])
  }

  /**
   Main result: for every schema and every value, reducing and restoring gives the value back if and
   only if it is retained.
   */
  lemma {:induction false} DropRestoredIff(s: Schema, v: Value)
    requires Keyed(s)
    ensures Restore(s, Some(Drop(s, v))) == Some(v) <==> Retained(s, v)
    decreases s, 1
  {
    WalksIff(s);
    if v.Lit? {
      DropPlain(s, v);
      PlainKept(s, v);
    } else if s.Union? {
      DropNotNull(s, v);
      if |Real(s.branches)| == 1 {
        var only := OnlyBranch(s, v);
        DropNotNull(only, v);
        DropRestoredIff(only, v);
      }
    } else if HasFields(s) && v.Obj? {
      DropRestoredFields(s, v);
    } else if HasItems(s) && v.Arr? {
      DropRestoredItems(s, v);
    }
  }

  lemma {:induction false} DropPlain(s: Schema, v: Value)
    requires v.Lit?
    ensures Drop(s, v) == v
  {
    if v != NULL && s.Union? && |Real(s.branches)| == 1 {
      assert Real(s.branches)[0] in Real(s.branches);
      DropPlain(Real(s.branches)[0], v);
    }
  }

  lemma {:induction false} DropRestoredFields(s: Schema, v: Value)
    requires Keyed(s) && HasFields(s) && v.Obj?
    ensures RestoreFields(s, |s.props.ps|, DropFields(s, |s.props.ps|, v.fields)) == v.fields <==> Retained(s, v)
    decreases s, 0, 1
  {
    var ps := s.props.ps;
    var back := RestoreFields(s, |ps|, DropFields(s, |ps|, v.fields));
    forall i | 0 <= i < |ps| ensures Get(back, ps[i].name) == Get(v.fields, ps[i].name) <==> FieldRetained(s, v, i) {
      DropRestoredField(s, v, i);
    }
    RetainedFields(s, v);
    if Retained(s, v) {
      forall name ensures Get(back, name) == Get(v.fields, name) {
        if !Declares(ps, name) {
          UndroppedField(s, |ps|, v.fields, name);
          UntouchedField(s, |ps|, DropFields(s, |ps|, v.fields), name);
        }
      }
      SameFields(back, v.fields);
    }
  }

  ghost predicate FieldRetained(s: Schema, v: Value, i: nat)
    requires HasFields(s) && v.Obj? && i < |s.props.ps|
  {
    var p := s.props.ps[i];
    if p.name !in v.fields then !OffersNull(p.schema)
    else if OffersNullInside(p.schema) && v.fields[p.name] == NULL then OffersNull(p.schema)
    else Retained(p.schema, v.fields[p.name])
  }

  lemma RetainedFields(s: Schema, v: Value)
    requires HasFields(s) && v.Obj?
    ensures Retained(s, v) <==> forall i :: 0 <= i < |s.props.ps| ==> FieldRetained(s, v, i)
  {
    if forall i :: 0 <= i < |s.props.ps| ==> FieldRetained(s, v, i) {
      forall i | 0 <= i < |s.props.ps|
        ensures var p := s.props.ps[i];
                if p.name !in v.fields then !OffersNull(p.schema)
                else if OffersNullInside(p.schema) && v.fields[p.name] == NULL then OffersNull(p.schema)
                else Retained(p.schema, v.fields[p.name])
      {
        assert FieldRetained(s, v, i);
      }
    }
  }

  lemma {:induction false} DropRestoredField(s: Schema, v: Value, i: nat)
    requires Keyed(s) && HasFields(s) && v.Obj? && i < |s.props.ps|
    ensures var p := s.props.ps[i];
            Get(RestoreFields(s, |s.props.ps|, DropFields(s, |s.props.ps|, v.fields)), p.name) == Get(v.fields, p.name)
            <==> FieldRetained(s, v, i)
    decreases s, 0, 0
  {
    var p := s.props.ps[i];
    AdmitsIff(p.schema);
    DroppedField(s, |s.props.ps|, v.fields, i);
    RestoredField(s, |s.props.ps|, DropFields(s, |s.props.ps|, v.fields), i);
    if p.name in v.fields && !(OffersNullInside(p.schema) && v.fields[p.name] == NULL) {
      DropRestoredIff(p.schema, v.fields[p.name]);
    }
  }

  lemma {:induction false} DropRestoredItems(s: Schema, v: Value)
    requires Keyed(s) && HasItems(s) && v.Arr?
    ensures RestoreItems(s, |v.items|, DropItems(s, |v.items|, v.items)) == v.items <==> Retained(s, v)
    decreases s, 0
  {
    var dropped := DropItems(s, |v.items|, v.items);
    var back := RestoreItems(s, |v.items|, dropped);
    forall i | 0 <= i < |v.items| ensures back[i] == v.items[i] <==> Retained(s.items.item, v.items[i]) {
      DroppedItem(s, |v.items|, v.items, i);
      RestoredItem(s, |v.items|, dropped, i);
      DropRestoredIff(s.items.item, v.items[i]);
    }
    if Retained(s, v) {
      assert back == v.items;
    }
  }

  /** A lossless schema retains every valid answer. */
  lemma {:induction false} LosslessRetains(s: Schema, v: Value)
    requires Keyed(s) && Lossless(s) && Valid(s, v)
    ensures Retained(s, v)
  {
    if v.Lit? {
    } else if s.Union? {
      if |Real(s.branches)| == 1 {
        var only := OnlyBranchTakes(s, v);
        LosslessRetains(only, v);
      }
    } else if HasFields(s) && v.Obj? {
      forall i | 0 <= i < |s.props.ps| ensures FieldRetained(s, v, i) {
        LosslessField(s, v, i);
        if s.props.ps[i].name in v.fields {
          LosslessRetains(s.props.ps[i].schema, v.fields[s.props.ps[i].name]);
        }
      }
      RetainedFields(s, v);
    } else if HasItems(s) && v.Arr? {
      forall i | 0 <= i < |v.items| ensures Retained(s.items.item, v.items[i]) {
        LosslessRetains(s.items.item, v.items[i]);
      }
    }
  }

  lemma LosslessField(s: Schema, v: Value, i: nat)
    requires Keyed(s) && Lossless(s) && HasFields(s) && v.Obj? && Valid(s, v) && i < |s.props.ps|
    ensures var p := s.props.ps[i];
            && Keyed(p.schema) && Lossless(p.schema)
            && (p.name in v.fields ==> Valid(p.schema, v.fields[p.name]))
            && (p.name !in v.fields ==> !OffersNull(p.schema))
            && (OffersNullInside(p.schema) ==> OffersNull(p.schema))
  {
    var p := s.props.ps[i];
    assert OffersNull(p.schema) ==> OffersNullInside(p.schema);
    assert OffersNullInside(p.schema) ==> p.name in s.required && OffersNull(p.schema);
    assert p.name in s.required ==> p.name in v.fields;
  }

  lemma DropRestored(s: Schema, v: Value)
    requires Keyed(s) && Lossless(s) && Valid(s, v)
    ensures Restore(s, Some(Drop(s, v))) == Some(v)
  {
    LosslessRetains(s, v);
    DropRestoredIff(s, v);
  }

  lemma KeptType(ty: TypeKw, v: Value)
    requires TypeAllows(ty, v)
    requires v == NULL ==> !(ty.Many? && NullType in ty.ts)
    ensures TypeAllows(ConvertType(ty), v)
  {
    if ty.Many? {
      var t :| t in ty.ts && HasType(t, v);
      assert t in WithoutNull(ty.ts);
    }
  }

  /** A value valid for a union, other than its own null, is valid for one of its real branches. */
  lemma RealBranchValid(s: Schema, v: Value) returns (j: nat)
    requires s.Union? && Valid(s, v) && (v == NULL ==> !OffersNullInside(s))
    ensures j < |Real(s.branches)| && Real(s.branches)[j] in s.branches && Valid(Real(s.branches)[j], v)
  {
    var i :| 0 <= i < |s.branches| && Valid(s.branches[i], v);
    assert !IsNullSchema(s.branches[i]);
    j := RealBranch(s, i);
  }

  lemma {:induction false} FaithfulValid(s: Schema, v: Value)
    requires Faithful(s) && Valid(s, v) && NoNullItems(v)
    requires v == NULL ==> !OffersNullInside(s)
    ensures Valid(Convert(s), v)
    decreases s
  {
    match s
    case Union(bs, _) =>
      var j := RealBranchValid(s, v);
      var i :| 0 <= i < |bs| && bs[i] == Real(bs)[j];
      FaithfulValid(bs[i], v);
      CompiledUnion(s, j, v);
    case Node(ty, props, required, items, _, _, _) =>
      KeptType(ty, v);
      if v.Obj? {
        CompiledObject(s, v, v);
        if props.Props? {
          forall i | 0 <= i < |props.ps| && props.ps[i].name in v.fields
            ensures Valid(Convert(s).props.ps[i].schema, v.fields[props.ps[i].name])
          {
            ConvertPropAt(s, |props.ps|, i);
            FaithfulValid(props.ps[i].schema, v.fields[props.ps[i].name]);
          }
          SameNames(s);
        }
      }
      if v.Arr? && items.Items? {
        forall i | 0 <= i < |v.items| ensures Valid(Convert(items.item), v.items[i]) {
          FaithfulValid(items.item, v.items[i]);
        }
      }
  }

  lemma SameNames(s: Schema)
    requires s.Node? && s.props.Props?
    ensures forall i :: 0 <= i < |s.props.ps| ==> Convert(s).props.ps[i].name == s.props.ps[i].name
  {
    forall i | 0 <= i < |s.props.ps| ensures Convert(s).props.ps[i].name == s.props.ps[i].name {
      ConvertPropAt(s, |s.props.ps|, i);
    }
  }

  /** The name constraints of the compiled node hold of an object that kept every field compiling still asks for. */
  lemma CompiledObject(s: Schema, v: Value, w: Value)
    requires s.Node? && v.Obj? && w.Obj? && Valid(s, v) && (ObjectAlone(s.ty) || s.props.Props? ==> s.closed)
    requires w.fields.Keys <= v.fields.Keys
    requires forall name :: name in v.fields && name !in w.fields ==> OptionalName(s.props, name)
    ensures forall name :: name in Convert(s).required ==> name in w.fields
    ensures Convert(s).closed ==>
              forall name :: name in w.fields ==> Convert(s).props.Props? && Declares(Convert(s).props.ps, name)
  {
    KeptNames(s.required, |s.required|, s.props);
    assert s.required[..|s.required|] == s.required;
    ForcedIff(s);
    if Convert(s).closed {
      forall name | name in w.fields ensures Convert(s).props.Props? && Declares(Convert(s).props.ps, name) {
        assert name in v.fields && Declares(s.props.ps, name);
        var i :| 0 <= i < |s.props.ps| && s.props.ps[i].name == name;
        ConvertPropAt(s, |s.props.ps|, i);
        assert Convert(s).props.ps[i].name == name;
      }
    }
  }

  /** Among several real branches an answer is faithful as it is. */
  lemma FaithfulBranch(s: Schema, j: nat, v: Value)
    requires s.Union? && Lossless(s) && |Real(s.branches)| != 1 && j < |Real(s.branches)|
    requires Real(s.branches)[j] in s.branches && Valid(Real(s.branches)[j], v) && NoNullItems(v)
    requires v == NULL ==> !OffersNullInside(Real(s.branches)[j])
    ensures Valid(Convert(s), v)
  {
    FaithfulValid(Real(s.branches)[j], v);
    CompiledUnion(s, j, v);
  }

  lemma UnwalkedFaithful(s: Schema, v: Value)
    requires s.Node? && Lossless(s) && Valid(s, v) && NoNullItems(v) && TypeAllows(ConvertType(s.ty), v)
    requires !(HasFields(s) && v.Obj?) && !(HasItems(s) && v.Arr?)
    ensures Valid(Convert(s), v)
  {
    if v.Obj? {
      CompiledObject(s, v, v);
      if s.props.Props? {
        forall i | 0 <= i < |s.props.ps| && s.props.ps[i].name in v.fields
          ensures Valid(Convert(s).props.ps[i].schema, v.fields[s.props.ps[i].name])
        {
          ConvertPropAt(s, |s.props.ps|, i);
          FaithfulValid(s.props.ps[i].schema, v.fields[s.props.ps[i].name]);
        }
        SameNames(s);
      }
    }
    if v.Arr? && s.items.Items? {
      forall i | 0 <= i < |v.items| ensures Valid(Convert(s.items.item), v.items[i]) {
        FaithfulValid(s.items.item, v.items[i]);
      }
    }
  }

  /** Dropping adds no field, and takes only fields whose name the compiler drops from `required`. */
  lemma DroppedNames(s: Schema, v: Value)
    requires Keyed(s) && HasFields(s) && v.Obj?
    ensures var w := Drop(s, v);
            w.Obj? && forall name :: (name in w.fields ==> name in v.fields) &&
                                     (name in v.fields && name !in w.fields ==> OptionalName(s.props, name))
  {
    var ps := s.props.ps;
    var w := Drop(s, v);
    forall name ensures name in w.fields ==> name in v.fields
      ensures name in v.fields && name !in w.fields ==> OptionalName(s.props, name)
    {
      if i :| 0 <= i < |ps| && ps[i].name == name {
        DroppedField(s, |ps|, v.fields, i);
      } else {
        UndroppedField(s, |ps|, v.fields, name);
      }
    }
  }

  // ----- Which reduced answers the compiled schema accepts -----------------------------------------

  /**
   What an answer must be for the compiled schema to accept its reduction: no
   undeclared field in an object the walk enters, and where the walk stops a value
   the compiled schema accepts as it is.
   */
  ghost predicate Accepted(s: Schema, v: Value) {
    if v.Lit? then Valid(Convert(s), v)
    else match s
         case Union(bs, _) =>
           var live := Real(bs);
           if |live| == 1 then
             assert live[0] in live;
             Accepted(live[0], v)
           else Valid(Convert(s), v)
         case Node(_, props, _, items, _, _, _) =>
           if HasFields(s) && v.Obj? then
             && (forall name :: name in v.fields ==> Declares(props.ps, name))
             && forall i :: 0 <= i < |props.ps| && props.ps[i].name in v.fields ==>
                  var x := v.fields[props.ps[i].name];
                  (OffersNullInside(props.ps[i].schema) && x == NULL) || Accepted(props.ps[i].schema, x)
           else if HasItems(s) && v.Arr? then forall i :: 0 <= i < |v.items| ==> Accepted(items.item, v.items[i])
           else Valid(Convert(s), v)
  }

  /**
   Main result: for every schema and every valid answer, the compiled schema accepts the reduction if
   and only if that holds.
   */
  lemma {:induction false} DroppedValidIff(s: Schema, v: Value)
    requires Keyed(s) && Valid(s, v)
    ensures Valid(Convert(s), Drop(s, v)) <==> Accepted(s, v)
    decreases s, 1
  {
    if v.Lit? {
      DropPlain(s, v);
    } else if s.Union? {
      if |Real(s.branches)| == 1 {
        var only := OnlyBranch(s, v);
        DroppedValidIff(only, v);
      }
    } else if HasFields(s) && v.Obj? {
      DroppedObjectIff(s, v);
      forall i | 0 <= i < |s.props.ps| ensures FieldAccepted(s, v, i) <==> KeptFieldValid(s, v, i) {
        DroppedFieldIff(s, v, i);
      }
      AcceptedFields(s, v);
    } else if HasItems(s) && v.Arr? {
      DroppedItemsIff(s, v);
    }
  }

  ghost predicate FieldAccepted(s: Schema, v: Value, i: nat)
    requires HasFields(s) && v.Obj? && i < |s.props.ps|
  {
    var p := s.props.ps[i];
    p.name in v.fields ==>
      (OffersNullInside(p.schema) && v.fields[p.name] == NULL) || Accepted(p.schema, v.fields[p.name])
  }

  /** Property `i` of the compiled node accepts what the reduction kept of it. */
  ghost predicate KeptFieldValid(s: Schema, v: Value, i: nat)
    requires HasFields(s) && v.Obj? && i < |s.props.ps|
  {
    var p, fields := s.props.ps[i], DropFields(s, |s.props.ps|, v.fields);
    p.name in fields ==> Valid(Convert(p.schema), fields[p.name])
  }

  lemma AcceptedFields(s: Schema, v: Value)
    requires HasFields(s) && v.Obj?
    ensures Accepted(s, v) <==>
            && (forall name :: name in v.fields ==> Declares(s.props.ps, name))
            && forall i :: 0 <= i < |s.props.ps| ==> FieldAccepted(s, v, i)
  {
    if forall i :: 0 <= i < |s.props.ps| ==> FieldAccepted(s, v, i) {
      forall i | 0 <= i < |s.props.ps| && s.props.ps[i].name in v.fields
        ensures var x := v.fields[s.props.ps[i].name];
                (OffersNullInside(s.props.ps[i].schema) && x == NULL) || Accepted(s.props.ps[i].schema, x)
      {
        assert FieldAccepted(s, v, i);
      }
    }
  }

  lemma {:induction false} DroppedFieldIff(s: Schema, v: Value, i: nat)
    requires Keyed(s) && HasFields(s) && v.Obj? && Valid(s, v) && i < |s.props.ps|
    ensures FieldAccepted(s, v, i) <==> KeptFieldValid(s, v, i)
    decreases s, 0
  {
    var p, fields := s.props.ps[i], DropFields(s, |s.props.ps|, v.fields);
    DroppedField(s, |s.props.ps|, v.fields, i);
    assert Get(fields, p.name) == DropField(p.schema, Get(v.fields, p.name));
    if p.name in v.fields {
      DroppedValidIff(p.schema, v.fields[p.name]);
    }
  }

  lemma {:induction false} DroppedItemsIff(s: Schema, v: Value)
    requires Keyed(s) && HasItems(s) && v.Arr? && Valid(s, v)
    ensures Valid(Convert(s), Drop(s, v)) <==> Accepted(s, v)
    decreases s, 0
  {
    var w := Drop(s, v);
    KeptType(s.ty, v);
    SameKind(ConvertType(s.ty), v, w);
    forall i | 0 <= i < |v.items|
      ensures Valid(Convert(s.items.item), w.items[i]) <==> Accepted(s.items.item, v.items[i])
    {
      DroppedItem(s, |v.items|, v.items, i);
      DroppedValidIff(s.items.item, v.items[i]);
    }
  }

  /** The type, the enum and `required` of the compiled node never refuse the reduction of a valid object. */
  lemma DroppedObjectIff(s: Schema, v: Value)
    requires Keyed(s) && HasFields(s) && v.Obj? && Valid(s, v)
    ensures Valid(Convert(s), Drop(s, v)) <==>
            && (forall name :: name in v.fields ==> Declares(s.props.ps, name))
            && forall i :: 0 <= i < |s.props.ps| ==> KeptFieldValid(s, v, i)
  {
    var w, c := Drop(s, v), Convert(s);
    ReducedObjectIff(s, v);
    UndeclaredKept(s, v);
    forall name ensures Declares(c.props.ps, name) <==> Declares(s.props.ps, name) {
      DeclaresSame(s, name);
    }
    forall i | 0 <= i < |s.props.ps| ensures PropFits(c, w, i) <==> KeptFieldValid(s, v, i) {
      ConvertPropAt(s, |s.props.ps|, i);
    }
  }

  ghost predicate PropFits(c: Schema, w: Value, i: nat)
    requires c.Node? && c.props.Props? && w.Obj? && i < |c.props.ps|
  {
    c.props.ps[i].name in w.fields ==> Valid(c.props.ps[i].schema, w.fields[c.props.ps[i].name])
  }

  lemma ReducedObjectIff(s: Schema, v: Value)
    requires Keyed(s) && HasFields(s) && v.Obj? && Valid(s, v)
    ensures var c, w := Convert(s), Drop(s, v);
            && c.Node? && c.props.Props? && |c.props.ps| == |s.props.ps| && w.Obj?
            && (Valid(c, w) <==>
                  && (forall name :: name in w.fields ==> Declares(c.props.ps, name))
                  && forall i :: 0 <= i < |c.props.ps| ==> PropFits(c, w, i))
  {
    var c, w := Convert(s), Drop(s, v);
    KeptType(s.ty, v);
    SameKind(c.ty, v, w);
    KeptRequired(s, v);
    if Valid(c, w) {
      assert forall i :: 0 <= i < |c.props.ps| ==> PropFits(c, w, i);
    } else if forall i :: 0 <= i < |c.props.ps| ==> PropFits(c, w, i) {
      assert forall i :: 0 <= i < |c.props.ps| && c.props.ps[i].name in w.fields ==> PropFits(c, w, i);
    }
  }

  lemma KeptRequired(s: Schema, v: Value)
    requires Keyed(s) && HasFields(s) && v.Obj? && Valid(s, v)
    ensures forall name :: name in Convert(s).required ==> name in Drop(s, v).fields
  {
    DroppedNames(s, v);
    KeptNames(s.required, |s.required|, s.props);
    assert s.required[..|s.required|] == s.required;
  }

  lemma DeclaresSame(s: Schema, name: string)
    requires s.Node? && s.props.Props?
    ensures Declares(Convert(s).props.ps, name) <==> Declares(s.props.ps, name)
  {
    SameNames(s);
    if i :| 0 <= i < |s.props.ps| && s.props.ps[i].name == name {
      assert Convert(s).props.ps[i].name == name;
    }
  }

  lemma UndeclaredKept(s: Schema, v: Value)
    requires Keyed(s) && HasFields(s) && v.Obj?
    ensures forall name :: name in v.fields && !Declares(s.props.ps, name) ==> name in Drop(s, v).fields
    ensures forall name :: name in Drop(s, v).fields ==> name in v.fields
  {
    DroppedNames(s, v);
    forall name | name in v.fields && !Declares(s.props.ps, name) ensures name in Drop(s, v).fields {
      UndroppedField(s, |s.props.ps|, v.fields, name);
      assert Get(Drop(s, v).fields, name) == Get(v.fields, name);
    }
  }

  /**
   Main result: a valid answer makes the whole trip unchanged - reduced, accepted
   by the compiled schema, restored - if and only if it is accepted and retained.
   */
  lemma TripIff(s: Schema, v: Value)
    requires Keyed(s) && Valid(s, v)
    ensures Valid(Convert(s), Drop(s, v)) && Restore(s, Some(Drop(s, v))) == Some(v) <==>
            Accepted(s, v) && Retained(s, v)
  {
    DroppedValidIff(s, v);
    DropRestoredIff(s, v);
  }

  /** A lossless schema accepts the reduction of every valid answer without null items, and restores it. */
  lemma {:induction false} LosslessAccepts(s: Schema, v: Value)
    requires Keyed(s) && Lossless(s) && Valid(s, v) && NoNullItems(v)
    requires v == NULL ==> !OffersNullInside(s)
    ensures Accepted(s, v)
  {
    if s.Union? {
      if |Real(s.branches)| == 1 {
        var only := OnlyBranchTakes(s, v);
        LosslessAccepts(only, v);
      } else {
        var j := RealBranchValid(s, v);
        FaithfulBranch(s, j, v);
      }
    } else if HasFields(s) && v.Obj? {
      forall i | 0 <= i < |s.props.ps| ensures FieldAccepted(s, v, i) {
        LosslessField(s, v, i);
        var p := s.props.ps[i];
        if p.name in v.fields && !(OffersNullInside(p.schema) && v.fields[p.name] == NULL) {
          LosslessAccepts(p.schema, v.fields[p.name]);
        }
      }
      AcceptedFields(s, v);
    } else if HasItems(s) && v.Arr? {
      forall i | 0 <= i < |v.items| ensures Accepted(s.items.item, v.items[i]) {
        LosslessAccepts(s.items.item, v.items[i]);
      }
    } else {
      KeptType(s.ty, v);
      UnwalkedFaithful(s, v);
    }
  }

  lemma DroppedValid(s: Schema, v: Value)
    requires Keyed(s) && Lossless(s) && Valid(s, v) && NoNullItems(v)
    requires v == NULL ==> !OffersNullInside(s)
    ensures Valid(Convert(s), Drop(s, v))
  {
    LosslessAccepts(s, v);
    DroppedValidIff(s, v);
  }

  /** The whole trip of an original answer: reduced, accepted by the compiled schema, restored to itself. */
  lemma LosslessTrip(s: Schema, v: Value)
    requires Keyed(s) && Lossless(s) && Valid(s, v) && NoNullItems(v)
    requires v == NULL ==> !OffersNullInside(s)
    ensures Valid(Convert(s), Drop(s, v)) && Restore(s, Some(Drop(s, v))) == Some(v)
  {
    DroppedValid(s, v);
    DropRestored(s, v);
  }

  // ----- The ways an answer is lost ----------------------------------------------------------------

  /** An open object with one optional nullable field. */
  const OPEN_NOTE: Schema :=
    Node(One(ObjectType), Props([Prop("note", TEXT_OR_NULL)]), [], NoItems, false, AnyValue, [])

  /** A field the schema does not declare is valid in an open object, and refused once compiling has closed it. */
  lemma UndeclaredRefused() returns (v: Value)
    ensures Keyed(OPEN_NOTE) && Valid(OPEN_NOTE, v) && !Valid(Convert(OPEN_NOTE), Drop(OPEN_NOTE, v))
  {
    v := Obj(map["more" := Lit(Str("a"))]);
    assert OPEN_NOTE.props.ps[0].name == "note" != "more";
    assert !Declares(OPEN_NOTE.props.ps, "more");
    assert "more" in v.fields;
    DroppedValidIff(OPEN_NOTE, v);
  }

  /** An optional nullable field that was left out comes back as a null that was never there. */
  lemma NullPutIn()
    ensures Keyed(OPEN_NOTE) && Valid(OPEN_NOTE, Obj(map[]))
    ensures Restore(OPEN_NOTE, Some(Drop(OPEN_NOTE, Obj(map[])))) != Some(Obj(map[]))
  {
    TextOrNullNullable();
    assert !FieldRetained(OPEN_NOTE, Obj(map[]), 0);
    RetainedFields(OPEN_NOTE, Obj(map[]));
    DropRestoredIff(OPEN_NOTE, Obj(map[]));
  }

  /** The null of a union of one nullable type is dropped, and not put back. */
  lemma NullNotPutBack() returns (s: Schema, v: Value)
    ensures Keyed(s) && Valid(s, v) && Restore(s, Some(Drop(s, v))) != Some(v)
  {
    var wrapped := Union([TEXT_OR_NULL], []);
    s, v := NoteObject(wrapped), Obj(map["note" := NULL]);
    TextOrNullNullable();
    assert Real(wrapped.branches) == [TEXT_OR_NULL] by {
      assert forall b :: b in wrapped.branches ==> !IsNullSchema(b);
    }
    assert Valid(TEXT_OR_NULL, NULL) by {
      assert NullType in TEXT_OR_NULL.ty.ts && HasType(NullType, NULL);
    }
    InUnion(wrapped, TEXT_OR_NULL, NULL);
    assert Keyed(s) && Valid(s, v) by {
      assert s.props.ps[0] == Prop("note", wrapped);
    }
    assert !FieldRetained(s, v, 0);
    RetainedFields(s, v);
    DropRestoredIff(s, v);
  }

  /** A null item of an array has no field to leave out, and the compiled schema refuses it. */
  lemma NullItemRefused() returns (s: Schema, v: Value)
    ensures Keyed(s) && Valid(s, v) && !Valid(Convert(s), Drop(s, v))
  {
    s := Node(One(ArrayType), NoProps, [], Items(TEXT_OR_NULL), false, AnyValue, []);
    v := Arr([NULL]);
    TextOrNullNullable();
    assert Valid(TEXT_OR_NULL, NULL) by {
      assert NullType in TEXT_OR_NULL.ty.ts && HasType(NullType, NULL);
    }
    ConvertNormal(TEXT_OR_NULL);
    assert !Valid(Convert(TEXT_OR_NULL), NULL);
    assert !Accepted(s.items.item, v.items[0]);
    DroppedValidIff(s, v);
  }
}
