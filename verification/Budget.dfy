/**
 The daily LLM budget: ceilings judged against the priced rows of the day, through
 a cache that is reloaded when it is a minute old and bumped by this process's own
 calls. A check waits for the database up to three times, and a finished call waits
 for the insert of its row after it was noted on the cached counters; whatever else
 the process does may happen while they wait. Sums are over one day.
 */
module Budget {
  import opened Options

  const CACHE_TTL_MS := 60_000

  /** Agent instance row ids. */
  type InstanceId = nat

  /** One call row: when it was written, for which instance, and its cost when the model is priced. */
  datatype Row = Row(at: int, instance: Option<InstanceId>, cost: Option<real>)

  /** A finished call, noted and not yet written. */
  datatype Charge = Charge(instance: Option<InstanceId>, cost: Option<real>)

  // ----- The process ------------------------------------------------------------------------------------

  /** The instance sums, a Map that successive cache objects share; `made` is when it was created. */
  datatype Table = Table(made: int, sums: map<InstanceId, real>)

  /** A cache object. `asOf` is the model's own note: the figures count every row written before it. */
  datatype Cache = Cache(
    at: int, platformDaily: real, instanceDaily: real, platformSpent: real, table: nat, asOf: int)

  /** Where a check waits, and what it has in hand: `For...` = a query is out, `Got...` = answered, not resumed. */
  datatype Stage =
    | ForSettings
    | GotSettings(platformDaily: real, instanceDaily: real)
    | ForPlatform(platformDaily: real, instanceDaily: real)
    | GotPlatform(platformDaily: real, instanceDaily: real, sum: real, asOf: int)
    | ForInstance(platformDaily: real, instanceDaily: real, platformSpent: real, table: nat, asOf: int)
    | GotInstance(platformDaily: real, instanceDaily: real, platformSpent: real, table: nat, asOf: int, sum: real)

  /** A check in progress: the instance it is for, and the time it read when it began. */
  datatype OpenCheck = OpenCheck(instance: Option<InstanceId>, began: int, stage: Stage)

  datatype Scope = Platform | Instance
  datatype Verdict = Allowed | Exceeded(scope: Scope, spent: real, budget: real)

  /** The process's cache, Maps, open checks, inserts under way and alerts, the shared tables, and the clock. */
  datatype Books = Books(
    cache: Option<Cache>, tables: seq<Table>, open: map<nat, OpenCheck>, unwritten: seq<Charge>,
    audits: seq<Verdict>, rows: seq<Row>, platformSetting: Option<real>, instanceSetting: Option<real>, now: int)

  /** An unset, unreadable, zero or negative setting is no ceiling: 0. */
  function ParseUsd(setting: Option<real>): real {
    if setting.Some? && setting.value > 0.0 then setting.value else 0.0
  }

  function CostOf(cost: Option<real>): real {
    if cost.Some? then cost.value else 0.0
  }

  /** Rows of one instance, or of all; of any time, or before one. */
  predicate Counts(row: Row, instance: Option<InstanceId>, before: Option<int>) {
    (instance.Some? ==> row.instance == instance) && (before.Some? ==> row.at < before.value)
  }

  function Spent(rows: seq<Row>, instance: Option<InstanceId>, before: Option<int>): real {
    if rows == [] then 0.0
    else
      var last := rows[|rows| - 1];
      Spent(rows[..|rows| - 1], instance, before) + if Counts(last, instance, before) then CostOf(last.cost) else 0.0
  }

  /** A figure's scope: the platform's spend (None), or one instance's. A call of `instance` belongs to it. */
  predicate Covers(scope: Option<InstanceId>, instance: Option<InstanceId>) {
    scope.None? || scope == instance
  }

  function Owed(unwritten: seq<Charge>, scope: Option<InstanceId>): real {
    if unwritten == [] then 0.0
    else
      var last := unwritten[|unwritten| - 1];
      Owed(unwritten[..|unwritten| - 1], scope) + if Covers(scope, last.instance) then CostOf(last.cost) else 0.0
  }

  /** What was spent, written or still to be written. */
  function Due(b: Books, scope: Option<InstanceId>): real {
    Spent(b.rows, scope, None) + Owed(b.unwritten, scope)
  }

  /** The cache is there and young, by the clock of a check that began then. */
  predicate Live(b: Books, began: int) {
    b.cache.Some? && began - b.cache.value.at < CACHE_TTL_MS
  }

  function SumsIn(b: Books, table: nat): map<InstanceId, real> {
    if table < |b.tables| then b.tables[table].sums else map[]
  }

  predicate Holds(b: Books, table: nat, instance: Option<InstanceId>) {
    instance.None? || instance.value in SumsIn(b, table)
  }

  // ----- The verdict ------------------------------------------------------------------------------------

  function Judge(
    platformDaily: real, platformSpent: real, instanceDaily: real, instanceSpent: real,
    instance: Option<InstanceId>): Verdict
  {
    if platformDaily > 0.0 && platformSpent >= platformDaily then Exceeded(Platform, platformSpent, platformDaily)
    else if instance.Some? && instanceDaily > 0.0 && instanceSpent >= instanceDaily
    then Exceeded(Instance, instanceSpent, instanceDaily)
    else Allowed
  }

  function InstanceSpent(b: Books, table: nat, instance: Option<InstanceId>): real {
    if instance.Some? && instance.value in SumsIn(b, table) then SumsIn(b, table)[instance.value] else 0.0
  }

  function CachedVerdict(b: Books, instance: Option<InstanceId>): Verdict
    requires b.cache.Some?
  {
    var c := b.cache.value;
    Judge(c.platformDaily, c.platformSpent, c.instanceDaily, InstanceSpent(b, c.table, instance), instance)
  }

  /** The decision from the settings and the sums as the database holds them, once every row is written. */
  function FreshVerdict(b: Books, instance: Option<InstanceId>): Verdict {
    if Reached(b.platformSetting, Due(b, None)) then Exceeded(Platform, Due(b, None), b.platformSetting.value)
    else if instance.Some? && Reached(b.instanceSetting, Due(b, instance))
    then Exceeded(Instance, Due(b, instance), b.instanceSetting.value)
    else Allowed
  }

  /** A ceiling above zero is set, and the spend has come up to it. */
  predicate Reached(setting: Option<real>, spent: real) {
    setting.Some? && setting.value > 0.0 && spent >= setting.value
  }

  /** The rest of assertWithinBudget, once the cache is loaded: every refusal is alerted. */
  function Decide(b: Books, instance: Option<InstanceId>): (Books, Option<Verdict>)
    requires b.cache.Some?
  {
    var v := CachedVerdict(b, instance);
    (if v.Exceeded? then b.(audits := b.audits + [v]) else b, Some(v))
  }

  // ----- A check, from wait to wait ---------------------------------------------------------------------

  /** The check stops here until the database answers. */
  function Await(b: Books, k: nat, c: OpenCheck): (Books, Option<Verdict>) {
    (b.(open := b.open[k := c]), None)
  }

  /** assertWithinBudget called: a young cache that knows the instance decides at once. */
  function Begin(b: Books, k: nat, instance: Option<InstanceId>): (Books, Option<Verdict>) {
    if Live(b, b.now) then
      var c := b.cache.value;
      if Holds(b, c.table, instance) then Decide(b, instance)
      else
        var check := OpenCheck(instance, b.now, ForSettings);
        LoadInstance(b, k, check, c.platformDaily, c.instanceDaily, c.platformSpent, c.table, c.asOf)
    else Await(b, k, OpenCheck(instance, b.now, ForSettings))
  }

  /** The Map of the cache as it is now, while that is young; a new one otherwise. */
  function PickTable(b: Books, k: nat, check: OpenCheck, platformDaily: real, instanceDaily: real,
                     platformSpent: real, asOf: int): (Books, Option<Verdict>)
  {
    if Live(b, check.began) then
      var earlier := if b.cache.value.asOf < asOf then b.cache.value.asOf else asOf;
      LoadInstance(b, k, check, platformDaily, instanceDaily, platformSpent, b.cache.value.table, earlier)
    else
      var b' := b.(tables := b.tables + [Table(b.now, map[])]);
      LoadInstance(b', k, check, platformDaily, instanceDaily, platformSpent, |b.tables|, asOf)
  }

  function LoadInstance(b: Books, k: nat, check: OpenCheck, platformDaily: real, instanceDaily: real,
                        platformSpent: real, table: nat, asOf: int): (Books, Option<Verdict>)
  {
    if !Holds(b, table, check.instance) && instanceDaily > 0.0
    then Await(b, k, check.(stage := ForInstance(platformDaily, instanceDaily, platformSpent, table, asOf)))
    else Store(b, k, check, platformDaily, instanceDaily, platformSpent, table, asOf)
  }

  /** A new cache object replaces whatever is there by now, and keeps its time while that is young. */
  function Store(b: Books, k: nat, check: OpenCheck, platformDaily: real, instanceDaily: real,
                 platformSpent: real, table: nat, asOf: int): (Books, Option<Verdict>)
  {
    var at := if Live(b, check.began) then b.cache.value.at else check.began;
    Decide(b.(cache := Some(Cache(at, platformDaily, instanceDaily, platformSpent, table, asOf)),
              open := b.open - {k}), check.instance)
  }

  predicate Asking(s: Stage) {
    s.ForSettings? || s.ForPlatform? || s.ForInstance?
  }

  /** The database answers with what it holds now. */
  function Answered(b: Books, check: OpenCheck): Stage
    requires Asking(check.stage)
  {
    match check.stage
    case ForSettings => GotSettings(ParseUsd(b.platformSetting), ParseUsd(b.instanceSetting))
    case ForPlatform(pd, id) => GotPlatform(pd, id, Spent(b.rows, None, None), b.now)
    case ForInstance(pd, id, spent, table, asOf) =>
      GotInstance(pd, id, spent, table, asOf, Spent(b.rows, check.instance, None))
  }

  function Answer(b: Books, k: nat): Books
    requires k in b.open && Asking(b.open[k].stage)
  {
    b.(open := b.open[k := b.open[k].(stage := Answered(b, b.open[k]))])
  }

  /** The code between an answer and the next wait, or the verdict. */
  function Resume(b: Books, k: nat): (Books, Option<Verdict>)
    requires k in b.open && !Asking(b.open[k].stage)
  {
    var check := b.open[k];
    match check.stage
    case GotSettings(pd, id) =>
      if pd > 0.0 && !Live(b, check.began) then Await(b, k, check.(stage := ForPlatform(pd, id)))
      else PickTable(b, k, check, pd, id, if b.cache.Some? then b.cache.value.platformSpent else 0.0, b.now)
    case GotPlatform(pd, id, sum, asOf) => PickTable(b, k, check, pd, id, sum, asOf)
    case GotInstance(pd, id, spent, table, asOf, sum) =>
      Store(WithSum(b, table, check.instance, sum), k, check, pd, id, spent, table, asOf)
  }

  /** The Map, updated in place. */
  function WithSum(b: Books, table: nat, instance: Option<InstanceId>, sum: real): Books {
    if table < |b.tables| && instance.Some? then
      b.(tables := b.tables[table := b.tables[table].(sums := b.tables[table].sums[instance.value := sum])])
    else b
  }

  /** A query fails: the check gives up and the call is allowed. */
  function Fail(b: Books, k: nat): (Books, Option<Verdict>) {
    (b.(open := b.open - {k}), Some(Allowed))
  }

  // ----- What else the process does ----------------------------------------------------------------------

  /** noteSpend: the cost lands on the cache as it is now, and in its Map if that knows the instance. */
  function Noted(b: Books, instance: Option<InstanceId>, cost: Option<real>): Books {
    if b.cache.None? || cost.None? || cost.value == 0.0 then b
    else
      var c := b.cache.value;
      var b' := b.(cache := Some(c.(platformSpent := c.platformSpent + cost.value)));
      if instance.Some? && Holds(b, c.table, instance)
      then WithSum(b', c.table, instance, SumsIn(b, c.table)[instance.value] + cost.value) else b'
  }

  /** A call of this process finishes: its cost is noted, and the insert of its row is under way. */
  function End(b: Books, instance: Option<InstanceId>, cost: Option<real>): Books {
    Noted(b, instance, cost).(unwritten := b.unwritten + [Charge(instance, cost)])
  }

  /** An insert gets through. */
  function Write(b: Books, i: nat): Books
    requires i < |b.unwritten|
  {
    var c := b.unwritten[i];
    b.(unwritten := b.unwritten[..i] + b.unwritten[i + 1..], rows := b.rows + [Row(b.now, c.instance, c.cost)])
  }

  /** A finished call whose row is written before anything else happens. */
  function Spend(b: Books, instance: Option<InstanceId>, cost: Option<real>): Books {
    Noted(b, instance, cost).(rows := b.rows + [Row(b.now, instance, cost)])
  }

  lemma SpendIsBoth(b: Books, instance: Option<InstanceId>, cost: Option<real>)
    ensures Write(End(b, instance, cost), |b.unwritten|) == Spend(b, instance, cost)
  {
    var ended := End(b, instance, cost);
    assert ended.unwritten[..|b.unwritten|] + ended.unwritten[|b.unwritten| + 1..] == b.unwritten;
  }

  function SaveSettings(b: Books, platform: Option<real>, instance: Option<real>): Books {
    b.(cache := None, platformSetting := platform, instanceSetting := instance)
  }

  // ----- A check nothing happens in -----------------------------------------------------------------------

  function StepsLeft(s: Stage): nat {
    match s
    case ForSettings => 6
    case GotSettings(_, _) => 5
    case ForPlatform(_, _) => 4
    case GotPlatform(_, _, _, _) => 3
    case ForInstance(_, _, _, _, _) => 2
    case GotInstance(_, _, _, _, _, _) => 1
  }

  function Left(b: Books, k: nat): nat {
    if k in b.open then StepsLeft(b.open[k].stage) else 0
  }

  /** One answer or one resumption of the check. */
  function Advance(b: Books, k: nat): (Books, Option<Verdict>)
    requires k in b.open
  {
    if Asking(b.open[k].stage) then (Answer(b, k), None) else Resume(b, k)
  }

  /** The check runs to its verdict with nothing in between. */
  function Finish(b: Books, k: nat): (Books, Option<Verdict>)
    decreases Left(b, k)
  {
    if k !in b.open then (b, None)
    else
      var (b', v) := Advance(b, k);
      AdvanceShortens(b, k);
      if v.Some? then (b', v) else Finish(b', k)
  }

  lemma AdvanceShortens(b: Books, k: nat)
    requires k in b.open
    ensures var (b', v) := Advance(b, k); Left(b', k) < Left(b, k) && (v.Some? <==> k !in b'.open)
  {
  }

  function WholeCheck(b: Books, k: nat, instance: Option<InstanceId>): (Books, Option<Verdict>) {
    var (b', v) := Begin(b, k, instance);
    if v.Some? then (b', v) else Finish(b', k)
  }

  lemma SpentExtends(rows: seq<Row>, i: nat, instance: Option<InstanceId>, before: Option<int>)
    requires i < |rows|
    ensures Spent(rows[..i + 1], instance, before) ==
            Spent(rows[..i], instance, before) + if Counts(rows[i], instance, before) then CostOf(rows[i].cost) else 0.0
  {
    assert rows[..i + 1][..i] == rows[..i];
  }

  lemma SpentAppends(rows: seq<Row>, row: Row, instance: Option<InstanceId>, before: Option<int>)
    ensures Spent(rows + [row], instance, before) ==
            Spent(rows, instance, before) + if Counts(row, instance, before) then CostOf(row.cost) else 0.0
  {
    assert (rows + [row])[..|rows|] == rows;
  }

  // ----- The module's functions (src/gemini/budget.ts) --------------------------------------------------

  class BudgetGuard {
    var cache: Option<Cache>
    var tables: seq<Table>
    var open: map<nat, OpenCheck>
    var unwritten: seq<Charge>
    var audits: seq<Verdict>
    var rows: seq<Row>
    var platformSetting: Option<real>
    var instanceSetting: Option<real>
    var now: int

    function B(): Books
      reads this
    {
      Books(cache, tables, open, unwritten, audits, rows, platformSetting, instanceSetting, now)
    }

    method SpentSince(instance: Option<InstanceId>) returns (spent: real)
      ensures spent == Spent(rows, instance, None)
    {
      spent := 0.0;
      var i := 0;
      while i < |rows|
        invariant 0 <= i <= |rows|
        invariant spent == Spent(rows[..i], instance, None)
      {
        SpentExtends(rows, i, instance, None);
        if Counts(rows[i], instance, None) {
          spent := spent + CostOf(rows[i].cost);
        }
        i := i + 1;
      }
      assert rows[..i] == rows;
    }

    /** Throws, after an alert, when the loaded cache has reached a ceiling. */
    method DecideNow(instance: Option<InstanceId>) returns (v: Option<Verdict>)
      requires cache.Some?
      modifies this`audits
      ensures B() == Decide(old(B()), instance).0
      ensures v == Decide(old(B()), instance).1
    {
      var verdict := CachedVerdict(B(), instance);
      if verdict.Exceeded? {
        audits := audits + [verdict];
      }
      v := Some(verdict);
    }

    method Wait(k: nat, check: OpenCheck) returns (v: Option<Verdict>)
      modifies this`open
      ensures B() == Await(old(B()), k, check).0 && v.None?
    {
      open := open[k := check];
      v := None;
    }

    /** loadCache's last statement, and the verdict. */
    method StoreCache(k: nat, check: OpenCheck, platformDaily: real, instanceDaily: real,
                      platformSpent: real, table: nat, asOf: int) returns (v: Option<Verdict>)
      modifies this`cache, this`open, this`audits
      ensures B() == Store(old(B()), k, check, platformDaily, instanceDaily, platformSpent, table, asOf).0
      ensures v == Store(old(B()), k, check, platformDaily, instanceDaily, platformSpent, table, asOf).1
    {
      var at := check.began;
      if cache.Some? && check.began - cache.value.at < CACHE_TTL_MS {
        at := cache.value.at;
      }
      cache := Some(Cache(at, platformDaily, instanceDaily, platformSpent, table, asOf));
      open := open - {k};
      v := DecideNow(check.instance);
    }

    method LoadInstanceSum(k: nat, check: OpenCheck, platformDaily: real, instanceDaily: real,
                           platformSpent: real, table: nat, asOf: int) returns (v: Option<Verdict>)
      modifies this`cache, this`open, this`audits
      ensures B() == LoadInstance(old(B()), k, check, platformDaily, instanceDaily, platformSpent, table, asOf).0
      ensures v == LoadInstance(old(B()), k, check, platformDaily, instanceDaily, platformSpent, table, asOf).1
    {
      if check.instance.Some? && instanceDaily > 0.0 && !Holds(B(), table, check.instance) {
        v := Wait(k, check.(stage := ForInstance(platformDaily, instanceDaily, platformSpent, table, asOf)));
      } else {
        v := StoreCache(k, check, platformDaily, instanceDaily, platformSpent, table, asOf);
      }
    }

    method PickMap(k: nat, check: OpenCheck, platformDaily: real, instanceDaily: real,
                   platformSpent: real, asOf: int) returns (v: Option<Verdict>)
      modifies this`cache, this`tables, this`open, this`audits
      ensures B() == PickTable(old(B()), k, check, platformDaily, instanceDaily, platformSpent, asOf).0
      ensures v == PickTable(old(B()), k, check, platformDaily, instanceDaily, platformSpent, asOf).1
    {
      if Live(B(), check.began) {
        var earlier := if cache.value.asOf < asOf then cache.value.asOf else asOf;
        v := LoadInstanceSum(k, check, platformDaily, instanceDaily, platformSpent, cache.value.table, earlier);
      } else {
        var table := |tables|;
        tables := tables + [Table(now, map[])];
        v := LoadInstanceSum(k, check, platformDaily, instanceDaily, platformSpent, table, asOf);
      }
    }

    /** assertWithinBudget, up to its first wait. */
    method CheckBegins(k: nat, instance: Option<InstanceId>) returns (v: Option<Verdict>)
      modifies this`cache, this`open, this`audits
      ensures B() == Begin(old(B()), k, instance).0
      ensures v == Begin(old(B()), k, instance).1
    {
      var check := OpenCheck(instance, now, ForSettings);
      if !Live(B(), now) {
        v := Wait(k, check);
        return;
      }
      var c := cache.value;
      if Holds(B(), c.table, instance) {
        v := DecideNow(instance);
      } else {
        v := LoadInstanceSum(k, check, c.platformDaily, c.instanceDaily, c.platformSpent, c.table, c.asOf);
      }
    }

    /** The database answers the query a check waits for. */
    method CheckAnswered(k: nat)
      requires k in open && Asking(open[k].stage)
      modifies this`open
      ensures B() == Answer(old(B()), k)
    {
      var check := open[k];
      match check.stage {
        case ForSettings =>
          open := open[k := check.(stage := GotSettings(ParseUsd(platformSetting), ParseUsd(instanceSetting)))];
        case ForPlatform(pd, id) =>
          var sum := SpentSince(None);
          open := open[k := check.(stage := GotPlatform(pd, id, sum, now))];
        case ForInstance(pd, id, spent, table, asOf) =>
          var sum := SpentSince(check.instance);
          open := open[k := check.(stage := GotInstance(pd, id, spent, table, asOf, sum))];
      }
    }

    /** assertWithinBudget, from an answer to its next wait or to the verdict. */
    method CheckResumes(k: nat) returns (v: Option<Verdict>)
      requires k in open && !Asking(open[k].stage)
      modifies this`cache, this`tables, this`open, this`audits
      ensures B() == Resume(old(B()), k).0
      ensures v == Resume(old(B()), k).1
    {
      var check := open[k];
      match check.stage {
        case GotSettings(pd, id) =>
          if pd > 0.0 && !Live(B(), check.began) {
            v := Wait(k, check.(stage := ForPlatform(pd, id)));
          } else {
            var spent := if cache.Some? then cache.value.platformSpent else 0.0;
            v := PickMap(k, check, pd, id, spent, now);
          }
        case GotPlatform(pd, id, sum, asOf) =>
          v := PickMap(k, check, pd, id, sum, asOf);
        case GotInstance(pd, id, spent, table, asOf, sum) =>
          if table < |tables| && check.instance.Some? {
            tables := tables[table := tables[table].(sums := tables[table].sums[check.instance.value := sum])];
          }
          v := StoreCache(k, check, pd, id, spent, table, asOf);
      }
    }

    /** A query fails: logged, and the call is let go. */
    method CheckFails(k: nat) returns (v: Option<Verdict>)
      modifies this`open
      ensures B() == Fail(old(B()), k).0
      ensures v == Fail(old(B()), k).1
    {
      open := open - {k};
      v := Some(Allowed);
    }

    /** A check nothing else happens in. */
    method AssertWithinBudget(k: nat, instance: Option<InstanceId>) returns (v: Option<Verdict>)
      requires k !in open
      modifies this
      ensures B() == WholeCheck(old(B()), k, instance).0
      ensures v == WholeCheck(old(B()), k, instance).1
    {
      v := CheckBegins(k, instance);
      while v.None? && k in open
        invariant v.None? ==> WholeCheck(old(B()), k, instance) == Finish(B(), k)
        invariant v.Some? ==> WholeCheck(old(B()), k, instance) == (B(), v)
        decreases Left(B(), k)
      {
        AdvanceShortens(B(), k);
        if Asking(open[k].stage) {
          CheckAnswered(k);
        } else {
          v := CheckResumes(k);
        }
      }
    }

    method NoteSpend(instance: Option<InstanceId>, cost: Option<real>)
      modifies this`cache, this`tables
      ensures B() == Noted(old(B()), instance, cost)
    {
      if cache.None? || cost.None? || cost.value == 0.0 {
        return;
      }
      var c := cache.value;
      cache := Some(c.(platformSpent := c.platformSpent + cost.value));
      if instance.Some? && c.table < |tables| && instance.value in tables[c.table].sums {
        var t := tables[c.table];
        tables := tables[c.table := t.(sums := t.sums[instance.value := t.sums[instance.value] + cost.value])];
      }
    }

    /** The end of a call's record: the note, and the insert it starts. */
    method CallEnds(instance: Option<InstanceId>, cost: Option<real>)
      modifies this`cache, this`tables, this`unwritten
      ensures B() == End(old(B()), instance, cost)
    {
      NoteSpend(instance, cost);
      unwritten := unwritten + [Charge(instance, cost)];
    }

    method RowInserted(i: nat)
      requires i < |unwritten|
      modifies this`unwritten, this`rows
      ensures B() == Write(old(B()), i)
    {
      var c := unwritten[i];
      unwritten := unwritten[..i] + unwritten[i + 1..];
      rows := rows + [Row(now, c.instance, c.cost)];
    }

    method RecordSpend(instance: Option<InstanceId>, cost: Option<real>)
      modifies this
      ensures B() == Spend(old(B()), instance, cost)
    {
      SpendIsBoth(B(), instance, cost);
      CallEnds(instance, cost);
      RowInserted(|unwritten| - 1);
    }

    method SaveBudgetSettings(platform: Option<real>, instance: Option<real>)
      modifies this
      ensures B() == SaveSettings(old(B()), platform, instance)
    {
      platformSetting := platform;
      instanceSetting := instance;
      cache := None;
    }
  }
}
