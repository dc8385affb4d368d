/**
 The compiler's pass over a schema, with the collector that records what it
 changed by JSON path for the call log and the client's trace.
 */
module SchemaChanges {
  import opened JsonValues
  import opened Schemas
  import opened SchemaCompiler

  datatype Changes = Changes(
    nullRemoved: seq<string>, requiredDropped: seq<string>,
    keywordsStripped: seq<(string, string)>, closedForced: seq<string>)

  const NOTHING: Changes := Changes([], [], [], [])

  function ShownPath(path: string): string {
    if path == "" then "(root)" else path
  }

  // ----- What one compilation adds to the record `c` ----------------------------------------

  function Strip(c: Changes, keywords: seq<string>, path: string): Changes
    decreases |keywords|
  {
    if keywords == [] then c
    else Strip(c.(keywordsStripped := c.keywordsStripped + [(ShownPath(path), keywords[0])]), keywords[1..], path)
  }

  function Force(c: Changes, when: bool, path: string): Changes {
    if when then c.(closedForced := c.closedForced + [ShownPath(path)]) else c
  }

  function RemoveNull(c: Changes, when: bool, path: string): Changes {
    if when then c.(nullRemoved := c.nullRemoved + [path]) else c
  }

  function DropRequired(c: Changes, when: bool, path: string): Changes {
    if when then c.(requiredDropped := c.requiredDropped + [path]) else c
  }

  /** The union wrapper itself carries no additionalProperties, so a collapsed object always counts as forced. */
  predicate CollapsesOntoObject(s: Schema)
    requires s.Union?
  {
    && |Real(s.branches)| == 1
    && var only := Convert(Real(s.branches)[0]);
    only.Node? && (only.ty == One(ObjectType) || only.props.Props?)
  }

  ghost function Record(c: Changes, s: Schema, path: string): Changes
    decreases s, 1, 0
  {
    var stripped := Strip(c, s.stripped, path);
    match s
    case Union(bs, _) =>
      Force(RecordBranches(stripped, s, |Real(bs)|, path), CollapsesOntoObject(s), path)
    case Node(_, props, required, items, closed, _, _) =>
      var inProps := if props.Props? then RecordProps(stripped, s, |props.ps|, path) else stripped;
      var inItems := if items.Items? then Record(inProps, items.item, path + "[]") else inProps;
      Force(RecordRequired(inItems, required, |required|, props, path), ForcedClosed(s) && !closed, path)
  }

  ghost function RecordBranches(c: Changes, s: Schema, n: nat, path: string): Changes
    requires s.Union? && n <= |Real(s.branches)|
    decreases s, 0, n
  {
    if n == 0 then c
    else
      assert Real(s.branches)[n - 1] in Real(s.branches);
      Record(RecordBranches(c, s, n - 1, path), Real(s.branches)[n - 1], path)
  }

  ghost function RecordProps(c: Changes, s: Schema, n: nat, path: string): Changes
    requires s.Node? && s.props.Props? && n <= |s.props.ps|
    decreases s, 0, n
  {
    if n == 0 then c
    else
      var prop := s.props.ps[n - 1];
      var at := JoinPath(path, prop.name);
      RemoveNull(Record(RecordProps(c, s, n - 1, path), prop.schema, at), Nullable(prop.schema), at)
  }

  ghost function RecordRequired(c: Changes, required: seq<string>, n: nat, props: PropsKw, path: string): Changes
    requires n <= |required|
  {
    if n == 0 then c
    else
      DropRequired(RecordRequired(c, required, n - 1, props, path),
                   DropsRequired(props, required[n - 1]), JoinPath(path, required[n - 1]))
  }

  // ----- The pass ---------------------------------------------------------------------------

  class Collector {
    var nullRemoved: seq<string>
    var requiredDropped: seq<string>
    var keywordsStripped: seq<(string, string)>
    var closedForced: seq<string>

    function View(): Changes
      reads this
    {
      Changes(nullRemoved, requiredDropped, keywordsStripped, closedForced)
    }

    /** emptySchemaChanges() */
    constructor ()
      ensures View() == NOTHING
    {
      nullRemoved, requiredDropped, keywordsStripped, closedForced := [], [], [], [];
    }

    method Put(c: Changes)
      modifies this
      ensures View() == c
    {
      nullRemoved, requiredDropped := c.nullRemoved, c.requiredDropped;
      keywordsStripped, closedForced := c.keywordsStripped, c.closedForced;
    }
  }

  /** Some entry was made. */
  predicate SchemaChanged(c: Changes) {
    |c.nullRemoved| > 0 || |c.requiredDropped| > 0 || |c.keywordsStripped| > 0 || |c.closedForced| > 0
  }

  /** One call of the source's convert on an object node. */
  method Pass(s: Schema, path: string, log: Collector) returns (out: Schema, nullable: bool)
    modifies log
    ensures out == Convert(s) && nullable == Nullable(s)
    ensures log.View() == Record(old(log.View()), s, path)
    decreases s, 1
  {
    log.Put(Strip(log.View(), s.stripped, path));
    if s.Union? {
      out, nullable := PassUnion(s, path, log);
    } else {
      out := PassKeywords(s, path, log);
      nullable := s.ty.Many? && NullType in s.ty.ts;
    }
  }

  method PassUnion(s: Schema, path: string, log: Collector) returns (out: Schema, nullable: bool)
    requires s.Union?
    modifies log
    ensures out == Convert(s) && nullable == Nullable(s)
    ensures log.View() ==
            Force(RecordBranches(old(log.View()), s, |Real(s.branches)|, path), CollapsesOntoObject(s), path)
    decreases s, 0
  {
    var live := Real(s.branches);
    nullable := |live| < |s.branches|;
    ghost var start := log.View();
    if |live| == 1 {
      assert live[0] in live;
      var admits;
      out, admits := Pass(live[0], path, log);
      nullable := nullable || admits;
      assert RecordBranches(start, s, 1, path) == Record(RecordBranches(start, s, 0, path), live[0], path);
      log.Put(Force(log.View(), out.Node? && (out.ty == One(ObjectType) || out.props.Props?), path));
    } else {
      var converted := [];
      for i := 0 to |live|
        invariant converted == ConvertBranches(s, i)
        invariant log.View() == RecordBranches(start, s, i, path)
      {
        assert live[i] in live;
        var one, _ := Pass(live[i], path, log);
        converted := converted + [one];
      }
      out := Union(converted, []);
    }
  }

  method PassKeywords(s: Schema, path: string, log: Collector) returns (out: Schema)
    requires s.Node?
    modifies log
    ensures out == Convert(s)
    ensures log.View() ==
            var was := old(log.View());
            var inProps := if s.props.Props? then RecordProps(was, s, |s.props.ps|, path) else was;
            var inItems := if s.items.Items? then Record(inProps, s.items.item, path + "[]") else inProps;
            Force(RecordRequired(inItems, s.required, |s.required|, s.props, path), ForcedClosed(s) && !s.closed, path)
    decreases s, 0
  {
    var props, nullableNames := PassProps(s, path, log);
    var items := NoItems;
    if s.items.Items? {
      var item, _ := Pass(s.items.item, path + "[]", log);
      items := Items(item);
    }
    var required := PassRequired(s, nullableNames, path, log);
    var ty := ConvertType(s.ty);
    var forced := ty == One(ObjectType) || props.Props?;
    log.Put(Force(log.View(), forced && !s.closed, path));
    out := Node(ty, props, required, items, s.closed || forced, s.enums, []);
  }

  method PassProps(s: Schema, path: string, log: Collector) returns (props: PropsKw, nullableNames: set<string>)
    requires s.Node?
    modifies log
    ensures props == Convert(s).props
    ensures forall n :: n in nullableNames <==> DropsRequired(s.props, n)
    ensures log.View() ==
            if s.props.Props? then RecordProps(old(log.View()), s, |s.props.ps|, path) else old(log.View())
    decreases s, 0, 0
  {
    props, nullableNames := NoProps, {};
    if s.props.Props? {
      var ps := [];
      ghost var start := log.View();
      for i := 0 to |s.props.ps|
        invariant ps == ConvertProps(s, i)
        invariant forall n :: n in nullableNames <==> NullableAmong(s.props.ps, i, n)
        invariant log.View() == RecordProps(start, s, i, path)
      {
        var prop := s.props.ps[i];
        var at := JoinPath(path, prop.name);
        var converted, admits := Pass(prop.schema, at, log);
        if admits {
          nullableNames := nullableNames + {prop.name};
          log.nullRemoved := log.nullRemoved + [at];
        }
        ps := ps + [Prop(prop.name, converted)];
      }
      props := Props(ps);
    }
  }

  method PassRequired(s: Schema, nullableNames: set<string>, path: string, log: Collector)
    returns (required: seq<string>)
    requires s.Node?
    requires forall n :: n in nullableNames <==> DropsRequired(s.props, n)
    modifies log
    ensures required == Kept(s.required, |s.required|, s.props)
    ensures log.View() == RecordRequired(old(log.View()), s.required, |s.required|, s.props, path)
  {
    required := [];
    ghost var start := log.View();
    for i := 0 to |s.required|
      invariant required == Kept(s.required, i, s.props)
      invariant log.View() == RecordRequired(start, s.required, i, s.props, path)
    {
      if s.required[i] in nullableNames {
        log.requiredDropped := log.requiredDropped + [JoinPath(path, s.required[i])];
      } else {
        required := required + [s.required[i]];
      }
    }
  }

  // ----- What the record tells --------------------------------------------------------------

  function Entries(c: Changes): nat {
    |c.nullRemoved| + |c.requiredDropped| + |c.keywordsStripped| + |c.closedForced|
  }

  lemma {:induction false} StripEntries(c: Changes, keywords: seq<string>, path: string)
    ensures Entries(Strip(c, keywords, path)) == Entries(c) + |keywords|
    decreases |keywords|
  {
    if keywords != [] {
      StripEntries(c.(keywordsStripped := c.keywordsStripped + [(ShownPath(path), keywords[0])]), keywords[1..], path);
    }
  }

  lemma {:induction false} RequiredQuiet(c: Changes, required: seq<string>, n: nat, props: PropsKw, path: string)
    requires n <= |required| && forall name :: name in required ==> !DropsRequired(props, name)
    ensures RecordRequired(c, required, n, props, path) == c
  {
    if n > 0 {
      RequiredQuiet(c, required, n - 1, props, path);
    }
  }

  lemma NoNullableProps(s: Schema)
    requires s.Node? && NoUnionNulls(s)
    ensures forall name :: !DropsRequired(s.props, name)
    ensures s.props.Props? ==> forall i :: 0 <= i < |s.props.ps| ==> !Nullable(s.props.ps[i].schema)
  {
    if s.props.Props? {
      forall i | 0 <= i < |s.props.ps| ensures !Nullable(s.props.ps[i].schema) {
        NormalNotNullable(s.props.ps[i].schema);
      }
      forall name ensures !DropsRequired(s.props, name) {
        NullableAmongIndex(s.props.ps, |s.props.ps|, name);
      }
    }
  }

  /** `c'` has the entries of `c` and, unless `quiet`, some more. */
  ghost predicate Adds(c: Changes, c': Changes, quiet: bool) {
    Entries(c) <= Entries(c') && (quiet <==> Entries(c') == Entries(c))
  }

  lemma AddsTwice(c: Changes, c': Changes, c'': Changes, first: bool, second: bool)
    requires Adds(c, c', first) && Adds(c', c'', second)
    ensures Adds(c, c'', first && second)
  {
  }

  /** With no null left to rewrite, the pass records something exactly when a keyword or an open object is left. */
  lemma {:induction false} QuietIff(c: Changes, s: Schema, path: string)
    requires NoUnionNulls(s)
    ensures Adds(c, Record(c, s, path), ClosedAndBare(s))
    decreases s, 1, 0
  {
    StripEntries(c, s.stripped, path);
    var stripped := Strip(c, s.stripped, path);
    if s.Union? {
      assert forall b :: b in s.branches ==> !IsNullSchema(b);
      assert Real(s.branches) == s.branches;
      QuietBranchesIff(stripped, s, |s.branches|, path);
      BareBranchesAll(s, |s.branches|);
    } else {
      ForcedIff(s);
      NoNullableProps(s);
      var inProps := stripped;
      if s.props.Props? {
        QuietPropsIff(stripped, s, |s.props.ps|, path);
        BarePropsAll(s, |s.props.ps|);
        inProps := RecordProps(stripped, s, |s.props.ps|, path);
      }
      var inItems := inProps;
      if s.items.Items? {
        QuietIff(inProps, s.items.item, path + "[]");
        inItems := Record(inProps, s.items.item, path + "[]");
      }
      RequiredQuiet(inItems, s.required, |s.required|, s.props, path);
    }
  }

  ghost predicate BareBranches(s: Schema, n: nat)
    requires s.Union? && n <= |s.branches|
  {
    n == 0 || (BareBranches(s, n - 1) && ClosedAndBare(s.branches[n - 1]))
  }

  ghost predicate BareProps(s: Schema, n: nat)
    requires s.Node? && s.props.Props? && n <= |s.props.ps|
  {
    n == 0 || (BareProps(s, n - 1) && ClosedAndBare(s.props.ps[n - 1].schema))
  }

  lemma {:induction false} BareBranchesAll(s: Schema, n: nat)
    requires s.Union? && n <= |s.branches|
    ensures BareBranches(s, n) <==> forall i :: 0 <= i < n ==> ClosedAndBare(s.branches[i])
  {
    if n > 0 {
      BareBranchesAll(s, n - 1);
    }
  }

  lemma {:induction false} BarePropsAll(s: Schema, n: nat)
    requires s.Node? && s.props.Props? && n <= |s.props.ps|
    ensures BareProps(s, n) <==> forall i :: 0 <= i < n ==> ClosedAndBare(s.props.ps[i].schema)
  {
    if n > 0 {
      BarePropsAll(s, n - 1);
    }
  }

  lemma {:induction false} QuietBranchesIff(c: Changes, s: Schema, n: nat, path: string)
    requires s.Union? && NoUnionNulls(s) && n <= |Real(s.branches)| && Real(s.branches) == s.branches
    ensures Adds(c, RecordBranches(c, s, n, path), BareBranches(s, n))
    decreases s, 0, n
  {
    if n > 0 {
      var before := RecordBranches(c, s, n - 1, path);
      QuietBranchesIff(c, s, n - 1, path);
      QuietIff(before, s.branches[n - 1], path);
      AddsTwice(c, before, Record(before, s.branches[n - 1], path), BareBranches(s, n - 1),
          ClosedAndBare(s.branches[n - 1]));
    }
  }

  lemma {:induction false} QuietPropsIff(c: Changes, s: Schema, n: nat, path: string)
    requires s.Node? && s.props.Props? && NoUnionNulls(s) && n <= |s.props.ps|
    ensures Adds(c, RecordProps(c, s, n, path), BareProps(s, n))
    decreases s, 0, n
  {
    if n > 0 {
      var prop := s.props.ps[n - 1];
      var before := RecordProps(c, s, n - 1, path);
      NormalNotNullable(prop.schema);
      QuietPropsIff(c, s, n - 1, path);
      QuietIff(before, prop.schema, JoinPath(path, prop.name));
      AddsTwice(c, before, Record(before, prop.schema, JoinPath(path, prop.name)), BareProps(s, n - 1),
          ClosedAndBare(prop.schema));
    }
  }

  /**
   Main result about the trace: a fresh collector stays empty and the schema holds
   no null-union exactly when the schema is sent as it was declared. The second
   half is needed: a null removed from an array item or from the root is not a
   field, and nothing is recorded for it.
   */
  lemma UnchangedIff(s: Schema, path: string)
    ensures Convert(s) == s <==> !SchemaChanged(Record(NOTHING, s, path)) && NoUnionNulls(s)
  {
    ConvertIdempotent(s);
    if NoUnionNulls(s) {
      QuietIff(NOTHING, s, path);
    }
  }

  lemma UnrecordedNull()
    ensures exists s :: Convert(s) != s && !SchemaChanged(Record(NOTHING, s, ""))
  {
    var item := Node(Many([StringType, NullType]), NoProps, [], NoItems, false, AnyValue, []);
    var s := Node(One(ArrayType), NoProps, [], Items(item), false, AnyValue, []);
    assert NullType in item.ty.ts;
    ConvertIdempotent(s);
    assert !NoUnionNulls(item);
    assert Record(NOTHING, item, "[]") == NOTHING;
    assert Record(NOTHING, s, "") == NOTHING;
  }
}
