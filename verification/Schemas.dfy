/**
 The JSON schemas of the answer contracts, and what it means for a value to be
 valid against one (JSON Schema Validation draft-07, sections 6.1.1 type, 6.1.2
 enum, 6.4.1 items, 6.5.3 required, 6.5.4 properties, 6.5.6 additionalProperties
 and 6.7.2 anyOf). Each keyword constrains the values of its own kind only.
 */
module Schemas {
  import opened JsonValues

  datatype TypeName = NullType | BooleanType | NumberType | IntegerType | StringType | ArrayType | ObjectType

  /** The `type` keyword: absent, one name, or an array of names. */
  datatype TypeKw = Untyped | One(t: TypeName) | Many(ts: seq<TypeName>)

  datatype Prop = Prop(name: string, schema: Schema)
  datatype PropsKw = NoProps | Props(ps: seq<Prop>)
  datatype ItemsKw = NoItems | Items(item: Schema)
  datatype EnumKw = AnyValue | OneOf(vals: seq<Scalar>)

  /**
   A schema node. `stripped` lists the keywords on it that the Anthropic API
   refuses (they bound a value and are ignored by Valid); `closed` says
   `additionalProperties: false`; an absent `required` is the empty list.
   */
  datatype Schema =
    | Union(branches: seq<Schema>, stripped: seq<string>)
    | Node(ty: TypeKw, props: PropsKw, required: seq<string>, items: ItemsKw, closed: bool, enums: EnumKw,
        stripped: seq<string>)

  /** The source's isNullSchema: the node whose type is exactly 'null'. */
  predicate IsNullSchema(s: Schema) {
    s.Node? && s.ty == One(NullType)
  }

  /** The node offers null itself: a branch of type null, or null among the names of its type array. */
  predicate OffersNull(s: Schema) {
    match s
    case Union(bs, _) => exists i :: 0 <= i < |bs| && bs[i].Node? && bs[i].ty == One(NullType)
    case Node(ty, _, _, _, _, _, _) => ty.Many? && NullType in ty.ts
  }

  /** It offers null, or it is a union of one branch that does. */
  predicate OffersNullInside(s: Schema) {
    OffersNull(s) || (s.Union? && |s.branches| == 1 && OffersNullInside(s.branches[0]))
  }

  /** The property of this name offers null. */
  predicate OptionalName(props: PropsKw, name: string) {
    props.Props? && exists i :: 0 <= i < |props.ps| && props.ps[i].name == name && OffersNullInside(props.ps[i].schema)
  }

  /** The node's type is `t`: its one name, or the first in its type array that is not null. */
  predicate NamesType(ty: TypeKw, t: TypeName) {
    match ty
    case Untyped => false
    case One(name) => name == t
    case Many(ts) => exists k :: 0 <= k < |ts| && ts[k] == t && forall j :: 0 <= j < k ==> ts[j] == NullType
  }

  /** An object node that declares properties, an array node that declares its items. */
  predicate HasFields(s: Schema) {
    s.Node? && s.props.Props? && NamesType(s.ty, ObjectType)
  }

  predicate HasItems(s: Schema) {
    s.Node? && s.items.Items? && NamesType(s.ty, ArrayType)
  }

  /** No other type than object: the one name, or the one name in the array that is not null. */
  predicate ObjectAlone(ty: TypeKw) {
    match ty
    case Untyped => false
    case One(name) => name == ObjectType
    case Many(ts) => exists k :: 0 <= k < |ts| && ts[k] == ObjectType &&
                                 forall j :: 0 <= j < |ts| && j != k ==> ts[j] == NullType
  }

  /** Branch `i` is the one that is not the null schema. */
  predicate OnlyReal(bs: seq<Schema>, i: nat) {
    && i < |bs| && !(bs[i].Node? && bs[i].ty == One(NullType))
    && forall j :: 0 <= j < |bs| && j != i ==> bs[j].Node? && bs[j].ty == One(NullType)
  }

  /** The branches of a union that are not the null schema, in order. */
  function Real(bs: seq<Schema>): (r: seq<Schema>)
    ensures |r| <= |bs|
    ensures forall b :: b in r <==> b in bs && !IsNullSchema(b)
    ensures |r| == |bs| <==> forall b :: b in bs ==> !IsNullSchema(b)
    ensures (forall b :: b in bs ==> !IsNullSchema(b)) ==> r == bs
  {
    if bs == [] then []
    else
      assert bs == [bs[0]] + bs[1..];
      (if IsNullSchema(bs[0]) then [] else [bs[0]]) + Real(bs[1..])
  }

  predicate HasType(t: TypeName, v: Value) {
    match t
    case NullType => v == NULL
    case BooleanType => v.Lit? && v.s.Bool?
    case NumberType => v.Lit? && v.s.Num?
    case IntegerType => v.Lit? && v.s.Num? && v.s.n == v.s.n.Floor as real
    case StringType => v.Lit? && v.s.Str?
    case ArrayType => v.Arr?
    case ObjectType => v.Obj?
  }

  predicate TypeAllows(ty: TypeKw, v: Value) {
    match ty
    case Untyped => true
    case One(t) => HasType(t, v)
    case Many(ts) => exists t :: t in ts && HasType(t, v)
  }

  predicate EnumAllows(e: EnumKw, v: Value) {
    e.AnyValue? || (v.Lit? && v.s in e.vals)
  }

  predicate Declares(ps: seq<Prop>, name: string) {
    exists i :: 0 <= i < |ps| && ps[i].name == name
  }

  ghost predicate Valid(s: Schema, v: Value) {
    match s
    case Union(bs, _) => exists i :: 0 <= i < |bs| && Valid(bs[i], v)
    case Node(ty, props, required, items, closed, enums, _) =>
      && TypeAllows(ty, v)
      && EnumAllows(enums, v)
      && (v.Obj? ==>
            && (forall name :: name in required ==> name in v.fields)
            && (props.Props? ==> forall i :: 0 <= i < |props.ps| && props.ps[i].name in v.fields ==>
                                 Valid(props.ps[i].schema, v.fields[props.ps[i].name]))
            && (closed ==> forall name :: name in v.fields ==> props.Props? && Declares(props.ps, name)))
      && (v.Arr? && items.Items? ==> forall i :: 0 <= i < |v.items| ==> Valid(items.item, v.items[i]))
  }

  /** Property names are the keys of one JavaScript object, so no name occurs twice. */
  ghost predicate Keyed(s: Schema) {
    match s
    case Union(bs, _) => forall i :: 0 <= i < |bs| ==> Keyed(bs[i])
    case Node(_, props, _, items, _, _, _) =>
      && (props.Props? ==>
            && (forall i, j :: 0 <= i < j < |props.ps| ==> props.ps[i].name != props.ps[j].name)
            && forall i :: 0 <= i < |props.ps| ==> Keyed(props.ps[i].schema))
      && (items.Items? ==> Keyed(items.item))
  }

  lemma {:induction false} RealNone(bs: seq<Schema>)
    ensures Real(bs) == [] <==> forall j :: 0 <= j < |bs| ==> bs[j].Node? && bs[j].ty == One(NullType)
  {
    if bs != [] {
      RealNone(bs[1..]);
      assert forall j :: 1 <= j < |bs| ==> bs[j] == bs[1..][j - 1];
    }
  }

  lemma {:induction false} RealOnly(bs: seq<Schema>, i: nat)
    requires OnlyReal(bs, i)
    ensures Real(bs) == [bs[i]]
  {
    if i == 0 {
      RealNone(bs[1..]);
    } else {
      assert IsNullSchema(bs[0]);
      RealOnly(bs[1..], i - 1);
    }
  }

  lemma {:induction false} OnlyOne(bs: seq<Schema>) returns (i: nat)
    requires |Real(bs)| == 1
    ensures OnlyReal(bs, i)
  {
    if IsNullSchema(bs[0]) {
      var k := OnlyOne(bs[1..]);
      i := k + 1;
    } else {
      RealNone(bs[1..]);
      i := 0;
      assert forall j :: 1 <= j < |bs| ==> bs[j] == bs[1..][j - 1];
    }
  }

  lemma RealBranch(s: Schema, i: nat) returns (j: nat)
    requires s.Union? && i < |s.branches| && !IsNullSchema(s.branches[i])
    ensures j < |Real(s.branches)| && Real(s.branches)[j] == s.branches[i]
  {
    assert s.branches[i] in Real(s.branches);
    j :| 0 <= j < |Real(s.branches)| && Real(s.branches)[j] == s.branches[i];
  }
}
