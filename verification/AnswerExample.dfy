/**
 One answer contract taken all the way: what its compilation records, and what comes
 back for an answer that left its nullable field out.
 */
module AnswerExample {
  import opened Options
  import opened JsonValues
  import opened Schemas
  import opened SchemaCompiler
  import opened SchemaChanges
  import opened NullRestorer

  const ACCOUNT: Schema := Node(Many([StringType, NullType]), NoProps, [], NoItems, false, AnyValue, [])
  const HOLDING: Schema :=
    Node(One(ObjectType), Props([Prop("account_number", ACCOUNT)]), ["account_number"], NoItems, false, AnyValue, [])
  const HOLDINGS: Schema := Node(One(ArrayType), NoProps, [], Items(HOLDING), false, AnyValue, ["minItems"])
  const CONTRACT: Schema :=
    Node(One(ObjectType), Props([Prop("holdings", HOLDINGS)]), ["holdings"], NoItems, true, AnyValue, ["$schema"])

  const ACCOUNT_PATH := "holdings[].account_number"

  lemma AccountRecorded(c: Changes)
    ensures Nullable(ACCOUNT) && AdmitsNull(ACCOUNT) && Record(c, ACCOUNT, ACCOUNT_PATH) == c
  {
    assert NullType in ACCOUNT.ty.ts;
    assert WithoutNull(ACCOUNT.ty.ts) == [StringType] + WithoutNull(ACCOUNT.ty.ts[1..]);
    assert Strip(c, [], ACCOUNT_PATH) == c;
  }

  lemma AccountPath()
    ensures JoinPath("holdings[]", "account_number") == ACCOUNT_PATH && "holdings" + "[]" == "holdings[]"
  {
    assert "holdings[]" + "." + "account_number" == ACCOUNT_PATH;
  }

  lemma HoldingProps(c: Changes)
    ensures RecordProps(c, HOLDING, 1, "holdings[]") == c.(nullRemoved := c.nullRemoved + [ACCOUNT_PATH])
  {
    AccountPath();
    AccountRecorded(c);
    assert RecordProps(c, HOLDING, 0, "holdings[]") == c;
  }

  lemma HoldingRequired(c: Changes)
    ensures RecordRequired(c, HOLDING.required, 1, HOLDING.props, "holdings[]") ==
            c.(requiredDropped := c.requiredDropped + [ACCOUNT_PATH])
  {
    AccountPath();
    AccountRecorded(c);
    assert NullableAmong(HOLDING.props.ps, 1, HOLDING.required[0]);
    assert RecordRequired(c, HOLDING.required, 0, HOLDING.props, "holdings[]") == c;
  }

  lemma HoldingRecorded(c: Changes)
    ensures Record(c, HOLDING, "holdings[]") ==
            Changes(c.nullRemoved + [ACCOUNT_PATH], c.requiredDropped + [ACCOUNT_PATH],
                    c.keywordsStripped, c.closedForced + ["holdings[]"])
  {
    assert Strip(c, HOLDING.stripped, "holdings[]") == c;
    HoldingProps(c);
    HoldingRequired(c.(nullRemoved := c.nullRemoved + [ACCOUNT_PATH]));
  }

  lemma HoldingsRecorded(c: Changes)
    ensures Record(c, HOLDINGS, "holdings") ==
            Changes(c.nullRemoved + [ACCOUNT_PATH], c.requiredDropped + [ACCOUNT_PATH],
                    c.keywordsStripped + [("holdings", "minItems")], c.closedForced + ["holdings[]"])
  {
    var stripped := c.(keywordsStripped := c.keywordsStripped + [("holdings", "minItems")]);
    assert Strip(stripped, HOLDINGS.stripped[1..], "holdings") == stripped;
    assert Strip(c, HOLDINGS.stripped, "holdings") == stripped;
    AccountPath();
    HoldingRecorded(stripped);
    assert RecordRequired(Record(stripped, HOLDING, "holdings[]"), [], 0, NoProps, "holdings") ==
           Record(stripped, HOLDING, "holdings[]");
  }

  /** The paths as the call log and the trace show them. */
  lemma ContractRecorded()
    ensures Record(NOTHING, CONTRACT, "") ==
            Changes([ACCOUNT_PATH], [ACCOUNT_PATH], [("(root)", "$schema"), ("holdings", "minItems")], ["holdings[]"])
  {
    var root := NOTHING.(keywordsStripped := [("(root)", "$schema")]);
    assert Strip(root, CONTRACT.stripped[1..], "") == root;
    assert Strip(NOTHING, CONTRACT.stripped, "") == root;
    HoldingsRecorded(root);
    var all := Record(root, HOLDINGS, "holdings");
    assert RecordProps(root, CONTRACT, 0, "") == root;
    assert !Nullable(HOLDINGS) && RecordProps(root, CONTRACT, 1, "") == all;
    assert !NullableAmong(CONTRACT.props.ps, 1, CONTRACT.required[0]);
    assert RecordRequired(all, CONTRACT.required, 0, CONTRACT.props, "") == all;
    assert RecordRequired(all, CONTRACT.required, 1, CONTRACT.props, "") == all;
  }

  const EMPTY: map<string, Value> := map[]
  const RESTORED: map<string, Value> := map["account_number" := NULL]

  lemma HoldingRestored()
    ensures Restore(HOLDING, Some(Obj(EMPTY))) == Some(Obj(RESTORED))
    ensures Filled(HOLDING, Some(Obj(EMPTY)), "holdings[]") == [ACCOUNT_PATH]
  {
    AccountPath();
    AccountRecorded(NOTHING);
    assert RestoreFields(HOLDING, 0, EMPTY) == EMPTY;
    assert RestoreFields(HOLDING, 1, EMPTY) == RESTORED;
    assert FilledFields(HOLDING, 0, EMPTY, "holdings[]") == [];
    assert FilledFields(HOLDING, 1, EMPTY, "holdings[]") == [ACCOUNT_PATH];
  }

  lemma HoldingsRestored()
    ensures Restore(HOLDINGS, Some(Arr([Obj(EMPTY)]))) == Some(Arr([Obj(RESTORED)]))
    ensures Filled(HOLDINGS, Some(Arr([Obj(EMPTY)])), "holdings") == [ACCOUNT_PATH]
  {
    AccountPath();
    HoldingRestored();
    assert RestoreItems(HOLDINGS, 0, [Obj(EMPTY)]) == [];
    assert RestoreItems(HOLDINGS, 1, [Obj(EMPTY)]) == [Obj(RESTORED)];
    assert FilledItems(HOLDINGS, 0, [Obj(EMPTY)], "holdings") == [];
    assert FilledItems(HOLDINGS, 1, [Obj(EMPTY)], "holdings") == [ACCOUNT_PATH];
  }

  /** A holding without its account number gets it back as null, and that is reported. */
  lemma ContractRestored()
    ensures var answer := Obj(map["holdings" := Arr([Obj(EMPTY)])]);
            && Restore(CONTRACT, Some(answer)) == Some(Obj(map["holdings" := Arr([Obj(RESTORED)])]))
            && Filled(CONTRACT, Some(answer), "") == [ACCOUNT_PATH]
  {
    var fields := map["holdings" := Arr([Obj(EMPTY)])];
    HoldingsRestored();
    assert RestoreFields(CONTRACT, 0, fields) == fields;
    assert RestoreFields(CONTRACT, 1, fields) == map["holdings" := Arr([Obj(RESTORED)])];
    assert FilledFields(CONTRACT, 0, fields, "") == [];
    assert FilledFields(CONTRACT, 1, fields, "") == [ACCOUNT_PATH];
  }
}
