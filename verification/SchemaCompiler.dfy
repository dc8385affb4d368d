/**
 The null-union schema compiler (`toAnthropicSchema`): "null when unused" becomes
 "omitted when unused", so that no null is left in any union the API would count.
 The functions here say what the compiled schema is; the pass that builds it loop by
 loop and fills the change collector as it goes is in SchemaChanges.
 */
module SchemaCompiler {
  import opened Schemas

  function WithoutNull(ts: seq<TypeName>): (r: seq<TypeName>)
    ensures forall t :: t in r <==> t in ts && t != NullType
    ensures |r| <= |ts|
    ensures |r| == |ts| <==> NullType !in ts
    ensures NullType !in ts ==> r == ts
  {
    if ts == [] then []
    else
      assert ts == [ts[0]] + ts[1..];
      (if ts[0] == NullType then [] else [ts[0]]) + WithoutNull(ts[1..])
  }

  function ConvertType(ty: TypeKw): TypeKw {
    match ty
    case Many(ts) => var types := WithoutNull(ts); if |types| == 1 then One(types[0]) else Many(types)
    case _ => ty
  }

  /** The original schema admitted null, so the parent makes the property optional. */
  predicate Nullable(s: Schema) {
    match s
    case Union(bs, _) =>
      var live := Real(bs);
      |live| < |bs| || (|live| == 1 && Nullable(live[0]))
    case Node(ty, _, _, _, _, _, _) => ty.Many? && NullType in ty.ts
  }

  /** That is: it offers null itself, or as the one branch of a union. */
  lemma {:induction false} NullableIff(s: Schema)
    ensures Nullable(s) <==> OffersNullInside(s)
  {
    if s.Union? {
      var bs := s.branches;
      assert OffersNull(s) <==> exists i :: 0 <= i < |bs| && IsNullSchema(bs[i]);
      if |bs| == 1 && !IsNullSchema(bs[0]) {
        assert Real(bs) == bs;
        NullableIff(bs[0]);
      }
    }
  }

  /** One of the first `n` properties has this name and is nullable. */
  predicate NullableAmong(ps: seq<Prop>, n: nat, name: string)
    requires n <= |ps|
  {
    n > 0 && ((ps[n - 1].name == name && Nullable(ps[n - 1].schema)) || NullableAmong(ps, n - 1, name))
  }

  lemma {:induction false} NullableAmongIndex(ps: seq<Prop>, n: nat, name: string)
    requires n <= |ps|
    ensures NullableAmong(ps, n, name) <==> exists i :: 0 <= i < n && ps[i].name == name && Nullable(ps[i].schema)
  {
    if n > 0 {
      NullableAmongIndex(ps, n - 1, name);
    }
  }

  lemma DropsIff(props: PropsKw, name: string)
    ensures DropsRequired(props, name) <==> OptionalName(props, name)
  {
    if props.Props? {
      NullableAmongIndex(props.ps, |props.ps|, name);
      forall i | 0 <= i < |props.ps| ensures Nullable(props.ps[i].schema) <==> OffersNullInside(props.ps[i].schema) {
        NullableIff(props.ps[i].schema);
      }
    }
  }

  predicate DropsRequired(props: PropsKw, name: string) {
    props.Props? && NullableAmong(props.ps, |props.ps|, name)
  }

  /** Of the first `n` required names, those whose property is not nullable, in order. */
  function Kept(required: seq<string>, n: nat, props: PropsKw): seq<string>
    requires n <= |required|
  {
    if n == 0 then []
    else
      var before := Kept(required, n - 1, props);
      if DropsRequired(props, required[n - 1]) then before else before + [required[n - 1]]
  }

  lemma {:induction false} KeptNames(required: seq<string>, n: nat, props: PropsKw)
    requires n <= |required|
    ensures forall name :: name in Kept(required, n, props) <==> name in required[..n] && !OptionalName(props, name)
  {
    if n > 0 {
      DropsIff(props, required[n - 1]);
      KeptNames(required, n - 1, props);
      assert required[..n] == required[..n - 1] + [required[n - 1]];
    }
  }

  lemma {:induction false} KeptAll(required: seq<string>, n: nat, props: PropsKw)
    requires n <= |required|
    requires forall name :: name in required ==> !OptionalName(props, name)
    ensures Kept(required, n, props) == required[..n]
  {
    if n > 0 {
      DropsIff(props, required[n - 1]);
      KeptAll(required, n - 1, props);
      assert required[..n] == required[..n - 1] + [required[n - 1]];
    }
  }

  predicate ForcedClosed(s: Schema)
    requires s.Node?
  {
    ConvertType(s.ty) == One(ObjectType) || s.props.Props?
  }

  /** That is: its type is object and nothing else, or it declares properties. */
  lemma ForcedIff(s: Schema)
    requires s.Node?
    ensures ForcedClosed(s) <==> ObjectAlone(s.ty) || s.props.Props?
  {
    if s.ty.Many? {
      if ConvertType(s.ty) == One(ObjectType) {
        assert WithoutNull(s.ty.ts) == [ObjectType];
        var k := AloneFound(s.ty.ts);
      }
      if k: nat :| k < |s.ty.ts| && s.ty.ts[k] == ObjectType &&
                   forall j :: 0 <= j < |s.ty.ts| && j != k ==> s.ty.ts[j] == NullType {
        AloneKept(s.ty.ts, k);
      }
    }
  }

  lemma {:induction false} NoneLeft(ts: seq<TypeName>)
    requires forall j :: 0 <= j < |ts| ==> ts[j] == NullType
    ensures WithoutNull(ts) == []
  {
    if ts != [] {
      NoneLeft(ts[1..]);
    }
  }

  lemma {:induction false} AloneKept(ts: seq<TypeName>, k: nat)
    requires k < |ts| && ts[k] == ObjectType && forall j :: 0 <= j < |ts| && j != k ==> ts[j] == NullType
    ensures WithoutNull(ts) == [ObjectType]
  {
    if k == 0 {
      NoneLeft(ts[1..]);
    } else {
      AloneKept(ts[1..], k - 1);
    }
  }

  lemma {:induction false} AloneFound(ts: seq<TypeName>) returns (k: nat)
    requires WithoutNull(ts) == [ObjectType]
    ensures k < |ts| && ts[k] == ObjectType && forall j :: 0 <= j < |ts| && j != k ==> ts[j] == NullType
  {
    if ts[0] == NullType {
      var rest := AloneFound(ts[1..]);
      k := rest + 1;
    } else {
      k := 0;
      assert WithoutNull(ts) == [ts[0]] + WithoutNull(ts[1..]);
      assert WithoutNull(ts)[0] == ts[0] && WithoutNull(ts[1..]) == [];
      forall j | 1 <= j < |ts| ensures ts[j] == NullType {
        assert ts[j] in ts[1..];
      }
    }
  }

  function Convert(s: Schema): Schema
    decreases s, 1, 0
  {
    match s
    case Union(bs, _) =>
      var live := Real(bs);
      if |live| == 1 then
        assert live[0] in live;
        Convert(live[0])
      else Union(ConvertBranches(s, |live|), [])
    case Node(ty, props, required, items, closed, enums, _) =>
      Node(ConvertType(ty),
           if props.NoProps? then NoProps else Props(ConvertProps(s, |props.ps|)),
           Kept(required, |required|, props),
           if items.NoItems? then NoItems else Items(Convert(items.item)),
           closed || ForcedClosed(s),
           enums,
           [])
  }

  function ConvertBranches(s: Schema, n: nat): (r: seq<Schema>)
    requires s.Union? && n <= |Real(s.branches)|
    ensures |r| == n
    decreases s, 0, n
  {
    if n == 0 then []
    else
      assert Real(s.branches)[n - 1] in Real(s.branches);
      ConvertBranches(s, n - 1) + [Convert(Real(s.branches)[n - 1])]
  }

  function ConvertProps(s: Schema, n: nat): (r: seq<Prop>)
    requires s.Node? && s.props.Props? && n <= |s.props.ps|
    ensures |r| == n
    decreases s, 0, n
  {
    if n == 0 then []
    else ConvertProps(s, n - 1) + [Prop(s.props.ps[n - 1].name, Convert(s.props.ps[n - 1].schema))]
  }

  lemma {:induction false} ConvertBranchAt(s: Schema, n: nat, i: nat)
    requires s.Union? && i < n <= |Real(s.branches)|
    ensures ConvertBranches(s, n)[i] == Convert(Real(s.branches)[i])
  {
    var before, last := ConvertBranches(s, n - 1), Convert(Real(s.branches)[n - 1]);
    assert ConvertBranches(s, n) == before + [last];
    if i < n - 1 {
      ConvertBranchAt(s, n - 1, i);
      assert (before + [last])[i] == before[i];
    }
  }

  lemma {:induction false} ConvertPropAt(s: Schema, n: nat, i: nat)
    requires s.Node? && s.props.Props? && i < n <= |s.props.ps|
    ensures ConvertProps(s, n)[i] == Prop(s.props.ps[i].name, Convert(s.props.ps[i].schema))
  {
    if i < n - 1 {
      ConvertPropAt(s, n - 1, i);
    }
  }

  // ----- Normal form ------------------------------------------------------------------------

  /** No null is left to rewrite in a union or a type array, anywhere. */
  ghost predicate NoUnionNulls(s: Schema) {
    match s
    case Union(bs, _) =>
      |bs| != 1 && forall i :: 0 <= i < |bs| ==> !IsNullSchema(bs[i]) && NoUnionNulls(bs[i])
    case Node(ty, props, _, items, _, _, _) =>
      && (ty.Many? ==> NullType !in ty.ts && |ty.ts| != 1)
      && (props.Props? ==> forall i :: 0 <= i < |props.ps| ==> NoUnionNulls(props.ps[i].schema))
      && (items.Items? ==> NoUnionNulls(items.item))
  }

  /** No refused keyword is left, and every object is closed. */
  ghost predicate ClosedAndBare(s: Schema) {
    s.stripped == [] &&
    match s
    case Union(bs, _) => forall i :: 0 <= i < |bs| ==> ClosedAndBare(bs[i])
    case Node(ty, props, _, items, closed, _, _) =>
      && (ObjectAlone(ty) || props.Props? ==> closed)
      && (props.Props? ==> forall i :: 0 <= i < |props.ps| ==> ClosedAndBare(props.ps[i].schema))
      && (items.Items? ==> ClosedAndBare(items.item))
  }

  /** A converted schema is never the bare null schema unless its source was. */
  lemma {:induction false} ConvertKeepsReal(s: Schema)
    requires !IsNullSchema(s)
    ensures !IsNullSchema(Convert(s))
  {
    match s
    case Union(bs, _) =>
      if |Real(bs)| == 1 {
        assert Real(bs)[0] in Real(bs);
        ConvertKeepsReal(Real(bs)[0]);
      }
    case Node(ty, _, _, _, _, _, _) =>
      if ty.Many? && |WithoutNull(ty.ts)| == 1 {
        assert WithoutNull(ty.ts)[0] in WithoutNull(ty.ts);
      }
  }

  lemma ConvertTypeFixed(ty: TypeKw)
    ensures ConvertType(ConvertType(ty)) == ConvertType(ty)
  {
  }

  lemma {:induction false} ConvertNormal(s: Schema)
    ensures NoUnionNulls(Convert(s)) && ClosedAndBare(Convert(s))
  {
    match s
    case Union(bs, _) =>
      var live := Real(bs);
      forall i | 0 <= i < |live|
        ensures NoUnionNulls(Convert(live[i])) && ClosedAndBare(Convert(live[i])) && !IsNullSchema(Convert(live[i]))
        ensures |live| != 1 ==> Convert(s).branches[i] == Convert(live[i])
      {
        assert live[i] in live;
        ConvertNormal(live[i]);
        ConvertKeepsReal(live[i]);
        if |live| != 1 {
          ConvertBranchAt(s, |live|, i);
        }
      }
    case Node(ty, props, _, items, _, _, _) =>
      ConvertTypeFixed(ty);
      ForcedIff(Convert(s));
      if props.Props? {
        forall i | 0 <= i < |props.ps|
          ensures NoUnionNulls(Convert(s).props.ps[i].schema) && ClosedAndBare(Convert(s).props.ps[i].schema)
        {
          ConvertNormal(props.ps[i].schema);
          ConvertPropAt(s, |props.ps|, i);
        }
      }
      if items.Items? {
        ConvertNormal(items.item);
      }
  }

  lemma NormalNotNullable(s: Schema)
    requires NoUnionNulls(s)
    ensures !Nullable(s)
  {
    if s.Union? {
      assert forall b :: b in s.branches ==> !IsNullSchema(b);
    }
  }

  /** The compiled schema is a fixed point exactly when nothing was left to compile. */
  lemma {:induction false} NormalFixed(s: Schema)
    requires NoUnionNulls(s) && ClosedAndBare(s)
    ensures Convert(s) == s
  {
    match s
    case Union(bs, _) =>
      assert forall b :: b in bs ==> !IsNullSchema(b);
      assert Real(bs) == bs;
      forall i | 0 <= i < |bs| ensures Convert(s).branches[i] == bs[i] {
        NormalFixed(bs[i]);
        ConvertBranchAt(s, |bs|, i);
      }
      assert Convert(s).branches == bs;
    case Node(ty, props, required, items, _, _, _) =>
      ForcedIff(s);
      if props.Props? {
        forall i | 0 <= i < |props.ps|
          ensures Convert(s).props.ps[i] == props.ps[i] && !Nullable(props.ps[i].schema)
        {
          ConvertPropAt(s, |props.ps|, i);
          NormalFixed(props.ps[i].schema);
          NormalNotNullable(props.ps[i].schema);
        }
        assert Convert(s).props.ps == props.ps;
      }
      if items.Items? {
        NormalFixed(items.item);
      }
      forall name | name in required ensures !OptionalName(props, name) {
        DropsIff(props, name);
        if props.Props? {
          NullableAmongIndex(props.ps, |props.ps|, name);
        }
      }
      KeptAll(required, |required|, props);
      assert required[..|required|] == required;
  }

  /** Main result: compiling twice is compiling once, and a schema is unchanged iff it was already normal. */
  lemma ConvertIdempotent(s: Schema)
    ensures Convert(Convert(s)) == Convert(s)
    ensures Convert(s) == s <==> NoUnionNulls(s) && ClosedAndBare(s)
  {
    ConvertNormal(s);
    NormalFixed(Convert(s));
    if NoUnionNulls(s) && ClosedAndBare(s) {
      NormalFixed(s);
    }
  }
}
