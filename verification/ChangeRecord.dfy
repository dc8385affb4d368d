/**
 What the recorded changes mean: one path per nullable property of the schema, at
 every depth, and no name dropped from `required` that is not among them.
 */
module ChangeRecord {
  import opened JsonValues
  import opened Schemas
  import opened SchemaCompiler
  import opened SchemaChanges

  /** The nullable properties under a schema, at every depth the compiler reaches. */
  ghost function NullableProps(s: Schema): nat
    decreases s, 1, 0
  {
    match s
    case Union(bs, _) => InBranches(s, |Real(bs)|)
    case Node(_, props, _, items, _, _, _) =>
      (if props.Props? then InProps(s, |props.ps|) else 0) + (if items.Items? then NullableProps(items.item) else 0)
  }

  ghost function InBranches(s: Schema, n: nat): nat
    requires s.Union? && n <= |Real(s.branches)|
    decreases s, 0, n
  {
    if n == 0 then 0
    else
      assert Real(s.branches)[n - 1] in Real(s.branches);
      InBranches(s, n - 1) + NullableProps(Real(s.branches)[n - 1])
  }

  ghost function InProps(s: Schema, n: nat): nat
    requires s.Node? && s.props.Props? && n <= |s.props.ps|
    decreases s, 0, n
  {
    if n == 0 then 0
    else
      var prop := s.props.ps[n - 1].schema;
      InProps(s, n - 1) + NullableProps(prop) + if OffersNullInside(prop) then 1 else 0
  }

  ghost predicate DropsExplained(c: Changes) {
    forall p :: p in c.requiredDropped ==> p in c.nullRemoved
  }

  /** `n` more removed nulls, the earlier ones kept, no unexplained drop added, and no entry of any kind lost. */
  ghost predicate Extends(c: Changes, c': Changes, n: nat) {
    && |c'.nullRemoved| == |c.nullRemoved| + n
    && (forall p :: p in c.nullRemoved ==> p in c'.nullRemoved)
    && (DropsExplained(c) ==> DropsExplained(c'))
    && Entries(c) <= Entries(c')
  }

  lemma ExtendsTwice(c: Changes, c': Changes, c'': Changes, m: nat, n: nat)
    requires Extends(c, c', m) && Extends(c', c'', n)
    ensures Extends(c, c'', m + n)
  {
  }

  lemma {:induction false} StripExtends(c: Changes, keywords: seq<string>, path: string)
    ensures Extends(c, Strip(c, keywords, path), 0)
    decreases |keywords|
  {
    if keywords != [] {
      StripExtends(c.(keywordsStripped := c.keywordsStripped + [(ShownPath(path), keywords[0])]), keywords[1..], path);
    }
  }

  lemma {:induction false} BranchesExtend(c: Changes, s: Schema, n: nat, path: string)
    requires s.Union? && n <= |Real(s.branches)|
    ensures Extends(c, RecordBranches(c, s, n, path), InBranches(s, n))
    decreases s, 0, n
  {
    if n > 0 {
      var branch := Real(s.branches)[n - 1];
      assert branch in Real(s.branches);
      BranchesExtend(c, s, n - 1, path);
      var before := RecordBranches(c, s, n - 1, path);
      RecordExtends(before, branch, path);
      ExtendsTwice(c, before, Record(before, branch, path), InBranches(s, n - 1), NullableProps(branch));
    }
  }

  lemma {:induction false} PropsExtend(c: Changes, s: Schema, n: nat, path: string)
    requires s.Node? && s.props.Props? && n <= |s.props.ps|
    ensures Extends(c, RecordProps(c, s, n, path), InProps(s, n))
    ensures forall i :: 0 <= i < n && Nullable(s.props.ps[i].schema) ==>
              JoinPath(path, s.props.ps[i].name) in RecordProps(c, s, n, path).nullRemoved
    decreases s, 0, n
  {
    if n > 0 {
      var prop := s.props.ps[n - 1];
      var at := JoinPath(path, prop.name);
      PropsExtend(c, s, n - 1, path);
      var before := RecordProps(c, s, n - 1, path);
      RecordExtends(before, prop.schema, at);
      NullableIff(prop.schema);
      RemoveExtends(before, Record(before, prop.schema, at), NullableProps(prop.schema), Nullable(prop.schema), at);
    }
  }

  lemma RemoveExtends(c: Changes, c': Changes, n: nat, when: bool, at: string)
    requires Extends(c, c', n)
    ensures Extends(c, RemoveNull(c', when, at), n + if when then 1 else 0)
    ensures when ==> at in RemoveNull(c', when, at).nullRemoved
  {
  }

  /** The names a node drops from `required` are nullable properties of its own, recorded before. */
  lemma {:induction false} RequiredExtends(c: Changes, required: seq<string>, n: nat, props: PropsKw, path: string)
    requires n <= |required|
    requires forall name :: DropsRequired(props, name) ==> JoinPath(path, name) in c.nullRemoved
    ensures Extends(c, RecordRequired(c, required, n, props, path), 0)
    ensures RecordRequired(c, required, n, props, path).nullRemoved == c.nullRemoved
  {
    if n > 0 {
      RequiredExtends(c, required, n - 1, props, path);
    }
  }

  lemma {:induction false} RecordExtends(c: Changes, s: Schema, path: string)
    ensures Extends(c, Record(c, s, path), NullableProps(s))
    decreases s, 1, 0
  {
    StripExtends(c, s.stripped, path);
    var stripped := Strip(c, s.stripped, path);
    if s.Union? {
      BranchesExtend(stripped, s, |Real(s.branches)|, path);
    } else {
      var inProps := stripped;
      if s.props.Props? {
        PropsExtend(stripped, s, |s.props.ps|, path);
        inProps := RecordProps(stripped, s, |s.props.ps|, path);
      }
      var inItems := inProps;
      if s.items.Items? {
        RecordExtends(inProps, s.items.item, path + "[]");
        inItems := Record(inProps, s.items.item, path + "[]");
      }
      forall name | DropsRequired(s.props, name) ensures JoinPath(path, name) in inItems.nullRemoved {
        NullableAmongIndex(s.props.ps, |s.props.ps|, name);
      }
      RequiredExtends(inItems, s.required, |s.required|, s.props, path);
    }
  }

  /**
   Main result: a fresh record lists one removed null per nullable property of the
   schema, at every depth, and every name it lists as dropped from `required` is
   one of them.
   */
  lemma RecordMeans(s: Schema, path: string)
    ensures |Record(NOTHING, s, path).nullRemoved| == NullableProps(s)
    ensures forall p :: p in Record(NOTHING, s, path).requiredDropped ==> p in Record(NOTHING, s, path).nullRemoved
  {
    RecordExtends(NOTHING, s, path);
  }

  // ----- Every entry, by the keyword it is made for ------------------------------------------------

  datatype Entry =
    | NullRemoved(path: string)
    | RequiredDropped(path: string)
    | Stripped(path: string, keyword: string)
    | Forced(path: string)

  predicate Has(c: Changes, e: Entry) {
    match e
    case NullRemoved(p) => p in c.nullRemoved
    case RequiredDropped(p) => p in c.requiredDropped
    case Stripped(p, k) => (p, k) in c.keywordsStripped
    case Forced(p) => p in c.closedForced
  }

  /** What is left of the schema when unions of one real branch give way to it is an object node. */
  ghost predicate ObjectInside(s: Schema) {
    match s
    case Union(bs, _) => exists i: nat :: OnlyReal(bs, i) && ObjectInside(bs[i])
    case Node(ty, props, _, _, _, _, _) => ObjectAlone(ty) || props.Props?
  }

  ghost predicate PropEntry(prop: Prop, path: string, e: Entry) {
    e.NullRemoved? && e.path == JoinPath(path, prop.name) && OffersNullInside(prop.schema)
  }

  /** The node at `path` itself gives rise to the entry. */
  ghost predicate Own(s: Schema, path: string, e: Entry) {
    match e
    case NullRemoved(_) =>
      s.Node? && s.props.Props? && exists i :: 0 <= i < |s.props.ps| && PropEntry(s.props.ps[i], path, e)
    case RequiredDropped(p) =>
      s.Node? && exists name :: name in s.required && OptionalName(s.props, name) && p == JoinPath(path, name)
    case Stripped(p, k) => p == ShownPath(path) && k in s.stripped
    case Forced(p) => p == ShownPath(path) && ObjectInside(s) && (s.Node? ==> !s.closed)
  }

  /** It, or a node under it that compiling reaches. */
  ghost predicate CallsFor(s: Schema, path: string, e: Entry)
    decreases s, 1
  {
    Own(s, path, e) || Below(s, path, e)
  }

  ghost predicate Below(s: Schema, path: string, e: Entry)
    decreases s, 0
  {
    match s
    case Union(bs, _) => exists i :: 0 <= i < |bs| && !IsNullSchema(bs[i]) && CallsFor(bs[i], path, e)
    case Node(_, props, _, items, _, _, _) =>
      || (props.Props? &&
            exists i :: 0 <= i < |props.ps| && CallsFor(props.ps[i].schema, JoinPath(path, props.ps[i].name), e))
      || (items.Items? && CallsFor(items.item, path + "[]", e))
  }

  lemma {:induction false} CompiledObjectIff(s: Schema)
    ensures var c := Convert(s); c.Node? && (c.ty == One(ObjectType) || c.props.Props?) <==> ObjectInside(s)
  {
    match s
    case Union(bs, _) =>
      if |Real(bs)| == 1 {
        var i := OnlyOne(bs);
        RealOnly(bs, i);
        CompiledObjectIff(bs[i]);
        forall j: nat | OnlyReal(bs, j) ensures j == i {}
      } else {
        forall i: nat | OnlyReal(bs, i) ensures false {
          RealOnly(bs, i);
        }
      }
    case Node(ty, props, _, _, _, _, _) => ForcedIff(s);
  }

  lemma CollapseIff(s: Schema)
    requires s.Union?
    ensures CollapsesOntoObject(s) <==> ObjectInside(s)
  {
    var bs := s.branches;
    if |Real(bs)| == 1 {
      var i := OnlyOne(bs);
      RealOnly(bs, i);
      CompiledObjectIff(bs[i]);
      forall j: nat | OnlyReal(bs, j) ensures j == i {}
    } else {
      forall i: nat | OnlyReal(bs, i) ensures false {
        RealOnly(bs, i);
      }
    }
  }

  lemma {:induction false} StripHas(c: Changes, keywords: seq<string>, path: string, e: Entry)
    ensures Has(Strip(c, keywords, path), e) <==>
            Has(c, e) || (e.Stripped? && e.path == ShownPath(path) && e.keyword in keywords)
    decreases |keywords|
  {
    if keywords != [] {
      StripHas(c.(keywordsStripped := c.keywordsStripped + [(ShownPath(path), keywords[0])]), keywords[1..], path, e);
      assert keywords == [keywords[0]] + keywords[1..];
    }
  }

  lemma {:induction false} RequiredHas(c: Changes, required: seq<string>, n: nat, props: PropsKw, path: string,
                                       e: Entry)
    requires n <= |required|
    ensures Has(RecordRequired(c, required, n, props, path), e) <==>
            Has(c, e) || (e.RequiredDropped? && exists name :: name in required[..n] && OptionalName(props, name)
                                                               && e.path == JoinPath(path, name))
  {
    if n > 0 {
      RequiredHas(c, required, n - 1, props, path, e);
      DropsIff(props, required[n - 1]);
      assert required[..n] == required[..n - 1] + [required[n - 1]];
    }
  }

  lemma {:induction false} BranchesHas(c: Changes, s: Schema, n: nat, path: string, e: Entry)
    requires s.Union? && n <= |Real(s.branches)|
    ensures Has(RecordBranches(c, s, n, path), e) <==> Has(c, e) || RealCalls(Real(s.branches), n, path, e)
    decreases s, 0, n
  {
    if n > 0 {
      var before, after := RecordBranches(c, s, n - 1, path), RecordBranches(c, s, n, path);
      BranchesHas(c, s, n - 1, path, e);
      BranchHas(c, before, after, s, n, path, e);
    }
  }

  lemma {:induction false} BranchHas(c: Changes, before: Changes, after: Changes, s: Schema, n: nat, path: string,
                                     e: Entry)
    requires s.Union? && 0 < n <= |Real(s.branches)|
    requires before == RecordBranches(c, s, n - 1, path) && after == RecordBranches(c, s, n, path)
    requires Has(before, e) <==> Has(c, e) || RealCalls(Real(s.branches), n - 1, path, e)
    ensures Has(after, e) <==> Has(c, e) || RealCalls(Real(s.branches), n, path, e)
    decreases s, 0, 0
  {
    assert Real(s.branches)[n - 1] in Real(s.branches);
    RecordHas(before, Real(s.branches)[n - 1], path, e);
    RealCallsMore(Has(c, e), Has(before, e), Has(after, e), Real(s.branches), n, path, e);
  }

  /** One of the first `n` real branches. */
  ghost predicate RealCalls(live: seq<Schema>, n: nat, path: string, e: Entry)
    requires n <= |live|
  {
    exists j :: 0 <= j < n && CallsFor(live[j], path, e)
  }

  lemma RealCallsMore(first: bool, before: bool, after: bool, live: seq<Schema>, n: nat, path: string, e: Entry)
    requires 0 < n <= |live|
    requires before <==> first || RealCalls(live, n - 1, path, e)
    requires after <==> before || CallsFor(live[n - 1], path, e)
    ensures after <==> first || RealCalls(live, n, path, e)
  {
  }

  lemma BranchesCall(s: Schema, path: string, e: Entry)
    requires s.Union?
    ensures RealCalls(Real(s.branches), |Real(s.branches)|, path, e) <==> Below(s, path, e)
  {
    if j :| 0 <= j < |Real(s.branches)| && CallsFor(Real(s.branches)[j], path, e) {
      assert Real(s.branches)[j] in Real(s.branches);
    }
    if i :| 0 <= i < |s.branches| && !IsNullSchema(s.branches[i]) && CallsFor(s.branches[i], path, e) {
      var j := RealBranch(s, i);
    }
  }

  /** Property `i`, or a node under it. */
  ghost predicate PropCalls(prop: Prop, path: string, e: Entry) {
    PropEntry(prop, path, e) || CallsFor(prop.schema, JoinPath(path, prop.name), e)
  }

  /** One of the first `n` properties. */
  ghost predicate SomeProp(s: Schema, n: nat, path: string, e: Entry)
    requires s.Node? && s.props.Props? && n <= |s.props.ps|
  {
    exists i :: 0 <= i < n && PropCalls(s.props.ps[i], path, e)
  }

  lemma {:induction false} PropsHas(c: Changes, s: Schema, n: nat, path: string, e: Entry)
    requires s.Node? && s.props.Props? && n <= |s.props.ps|
    ensures Has(RecordProps(c, s, n, path), e) <==> Has(c, e) || SomeProp(s, n, path, e)
    decreases s, 0, n
  {
    if n > 0 {
      var before, after := RecordProps(c, s, n - 1, path), RecordProps(c, s, n, path);
      PropsHas(c, s, n - 1, path, e);
      PropHas(c, before, after, s, n, path, e);
    }
  }

  lemma SomePropMore(first: bool, before: bool, after: bool, s: Schema, n: nat, path: string, e: Entry)
    requires s.Node? && s.props.Props? && 0 < n <= |s.props.ps|
    requires before <==> first || SomeProp(s, n - 1, path, e)
    requires after <==> before || PropCalls(s.props.ps[n - 1], path, e)
    ensures after <==> first || SomeProp(s, n, path, e)
  {
  }

  lemma {:induction false} PropHas(c: Changes, before: Changes, after: Changes, s: Schema, n: nat, path: string,
                                   e: Entry)
    requires s.Node? && s.props.Props? && 0 < n <= |s.props.ps|
    requires before == RecordProps(c, s, n - 1, path) && after == RecordProps(c, s, n, path)
    requires Has(before, e) <==> Has(c, e) || SomeProp(s, n - 1, path, e)
    ensures Has(after, e) <==> Has(c, e) || SomeProp(s, n, path, e)
    decreases s, 0, 0
  {
    RecordHas(before, s.props.ps[n - 1].schema, JoinPath(path, s.props.ps[n - 1].name), e);
    NullableIff(s.props.ps[n - 1].schema);
    SomePropMore(Has(c, e), Has(before, e), Has(after, e), s, n, path, e);
  }

  lemma {:induction false} RecordHas(c: Changes, s: Schema, path: string, e: Entry)
    ensures Has(Record(c, s, path), e) <==> Has(c, e) || CallsFor(s, path, e)
    decreases s, 2, 0
  {
    StripHas(c, s.stripped, path, e);
    var stripped := Strip(c, s.stripped, path);
    if s.Union? {
      BranchesHas(stripped, s, |Real(s.branches)|, path, e);
      BranchesCall(s, path, e);
      CollapseIff(s);
    } else {
      NodeHas(stripped, s, path, e);
    }
  }

  lemma {:induction false} NodeHas(stripped: Changes, s: Schema, path: string, e: Entry)
    requires s.Node?
    ensures var inProps := if s.props.Props? then RecordProps(stripped, s, |s.props.ps|, path) else stripped;
            var inItems := if s.items.Items? then Record(inProps, s.items.item, path + "[]") else inProps;
            var all := Force(RecordRequired(inItems, s.required, |s.required|, s.props, path),
                             ForcedClosed(s) && !s.closed, path);
            Has(all, e) <==> Has(stripped, e) || (!e.Stripped? && Own(s, path, e)) || Below(s, path, e)
    decreases s, 1, 0
  {
    var inProps := stripped;
    if s.props.Props? {
      PropsHas(stripped, s, |s.props.ps|, path, e);
      inProps := RecordProps(stripped, s, |s.props.ps|, path);
    }
    var inItems := inProps;
    if s.items.Items? {
      RecordHas(inProps, s.items.item, path + "[]", e);
      inItems := Record(inProps, s.items.item, path + "[]");
    }
    RequiredHas(inItems, s.required, |s.required|, s.props, path, e);
    assert s.required[..|s.required|] == s.required;
    ForcedIff(s);
  }

  /**
   Main result: a fresh record has an entry if and only if some node of the schema calls
   for it, at that node's path: a null taken from a property, a name dropped from
   `required`, a keyword stripped, an object closed.
   */
  lemma EntriesMean(s: Schema, path: string, e: Entry)
    ensures Has(Record(NOTHING, s, path), e) <==> CallsFor(s, path, e)
  {
    RecordHas(NOTHING, s, path, e);
  }
}
