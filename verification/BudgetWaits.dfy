/**
 One check under the glass: what it decides when nothing happens while it waits, and
 exactly when something that does leaves a wrong figure behind.
 */
module BudgetWaits {
  import opened Options
  import opened Budget
  import opened BudgetRuns
  import opened BudgetBounds

  // ----- A check nothing happens in ---------------------------------------------------------------------

  /**
   Every row is written, and the ceilings and figures in hand, or in a cache that checks
   begun since may use, are the database's.
   */
  ghost predicate Exact(b: Books, since: int) {
    b.unwritten == [] && (forall scope :: Accounted(b, scope, since, 0.0)) && CeilingsOk(b, since, Now(b))
  }

  /** The cache holds what the database holds. */
  ghost predicate Right(b: Books)
    requires b.cache.Some?
  {
    forall scope :: CacheLacks(b, scope, 0.0)
  }

  function AdvanceAction(b: Books, k: nat): Action
    requires k in b.open
  {
    if Asking(b.open[k].stage) then Answers(k) else Resumes(k)
  }

  lemma QuietStep(b: Books, a: Action, since: int)
    requires Enabled(b, a) && Exact(b, since) && (a.Begins? || a.Answers? || a.Resumes?)
    ensures var (r, v) := Move(b, a);
            Exact(r, since) && FreshVerdict(r, Asker(b, a)) == FreshVerdict(b, Asker(b, a)) && (v.Some? ==>
              v.value == FreshVerdict(b, Asker(b, a)) && Live(r, since) && Right(r))
  {
    var r := Move(b, a).0;
    forall scope ensures Accounted(r, scope, since, 0.0) {
      StepAccounted(b, a, scope, since, 0.0, 0.0);
    }
    CeilingsFollow(b, a, since);
    RowsStay(b, a);
    SettingsStay(b, a);
    if Move(b, a).1.Some? {
      ExactStep(b, a, since);
      VerdictGoesBy(b, a, None, since, 0.0);
      ExactIsRight(r, since);
    }
  }

  lemma ExactIsRight(b: Books, since: int)
    requires Exact(b, since) && Live(b, since)
    ensures Right(b)
  {
    forall scope ensures CacheLacks(b, scope, 0.0) {
      assert Accounted(b, scope, since, 0.0);
    }
  }

  lemma {:induction false} FinishExact(b: Books, k: nat, since: int)
    requires Exact(b, since) && k in b.open
    ensures var (r, v) := Finish(b, k);
            Exact(r, since) && v == Some(FreshVerdict(b, b.open[k].instance)) && r.cache.Some? && Right(r)
    decreases Left(b, k)
  {
    var (r, v) := Advance(b, k);
    QuietStep(b, AdvanceAction(b, k), since);
    AdvanceShortens(b, k);
    if v.None? {
      SameChecked(b, k);
      FinishExact(r, k, since);
    }
  }

  lemma SameChecked(b: Books, k: nat)
    requires k in b.open && Advance(b, k).1.None?
    ensures var r := Advance(b, k).0;
            k in r.open && r.open[k].instance == b.open[k].instance && r.open[k].began == b.open[k].began
  {
  }

  /** From exact books a check that nothing disturbs decides as the database would, and leaves the books exact. */
  lemma CheckAgrees(b: Books, k: nat, instance: Option<InstanceId>, since: int)
    requires Exact(b, since) && k !in b.open
    ensures var (r, v) := WholeCheck(b, k, instance);
            Exact(r, since) && v == Some(FreshVerdict(b, instance)) && r.cache.Some? && Right(r)
  {
    QuietStep(b, Begins(k, instance), since);
    if Begin(b, k, instance).1.None? {
      BeginOpens(b, k, instance);
      FinishExact(Begin(b, k, instance).0, k, since);
    }
  }

  lemma BeginOpens(b: Books, k: nat, instance: Option<InstanceId>)
    requires Begin(b, k, instance).1.None?
    ensures var r := Begin(b, k, instance).0; k in r.open && r.open[k].instance == instance && r.open[k].began == b.now
  {
  }

  // ----- What a check asks for -------------------------------------------------------------------------------

  /** The cache is less than a minute older than the check, as it is by now. */
  predicate Young(b: Books, check: OpenCheck) {
    b.cache.Some? && check.began - b.cache.value.at < 60_000
  }

  /** The Map it would use - the cache's if that is young, a new one otherwise - knows the check's instance. */
  predicate KnownByNow(b: Books, check: OpenCheck) {
    check.instance.None? ||
    (Young(b, check) && b.cache.value.table < |b.tables| &&
     check.instance.value in b.tables[b.cache.value.table].sums)
  }

  /**
   Between two waits: the platform's sum is asked for if and only if there is a ceiling and the
   cache is not young by then; the instance's, next, if and only if there is a ceiling for it and
   the Map does not know it; with both in hand the check is over.
   */
  lemma ResumeAsks(b: Books, k: nat)
    requires k in b.open && !Asking(b.open[k].stage)
    ensures var (r, v) := Resume(b, k);
            var check := b.open[k];
            match check.stage
            case GotSettings(pd, id) =>
              var asks := pd > 0.0 && !Young(b, check);
              && (v.None? <==> asks || (id > 0.0 && !KnownByNow(b, check)))
              && (v.None? ==> k in r.open && (r.open[k].stage.ForPlatform? <==> asks))
            case GotPlatform(_, id, _, _) =>
              && (v.None? <==> id > 0.0 && !KnownByNow(b, check))
              && (v.None? ==> k in r.open && r.open[k].stage.ForInstance?)
            case GotInstance(_, _, _, _, _, _) => v.Some?
  {
  }

  // ----- A call that finishes inside a check ----------------------------------------------------------------

  /** The row of `instance` counts in a figure the check has in hand: the platform's, or the instance's. */
  predicate InHand(b: Books, c: OpenCheck, instance: Option<InstanceId>) {
    Misses(b, c, None) || Misses(b, c, instance)
  }

  lemma SpendSpares(b: Books, k: nat, instance: Option<InstanceId>, cost: real, since: int)
    requires Exact(b, since) && b.open.Keys == {k} && cost >= 0.0 && (cost == 0.0 || !InHand(b, b.open[k], instance))
    ensures Exact(Spend(b, instance, Some(cost)), since)
  {
    var b', a := Spend(b, instance, Some(cost)), Ends(instance, Some(cost));
    forall scope ensures Accounted(b', scope, since, 0.0) {
      assert Slip(b, a, scope) == 0.0;
      EndAccounted(b, a, scope, since, 0.0, 0.0);
      SpendIsBoth(b, instance, Some(cost));
      WriteAccounted(End(b, instance, Some(cost)), 0, scope, since, 0.0);
    }
    SameNow(b, b');
    SpendCeilings(b, instance, cost, since);
  }

  lemma SpendCeilings(b: Books, instance: Option<InstanceId>, cost: real, since: int)
    requires CeilingsOk(b, since, Now(b))
    ensures CeilingsOk(Spend(b, instance, Some(cost)), since, Now(b))
  {
  }

  /** A figure the check has in hand, and will store, is not what the database holds. */
  predicate Wrong(b: Books, c: OpenCheck, scope: Option<InstanceId>) {
    Misses(b, c, scope) && !HandLacks(b, c, scope, 0.0)
  }

  lemma SpendWrongs(b: Books, c: OpenCheck, instance: Option<InstanceId>, cost: real, scope: Option<InstanceId>)
    requires HandLacks(b, c, scope, 0.0) && Misses(b, c, scope) && Covers(scope, instance) && cost > 0.0
    ensures Wrong(Spend(b, instance, Some(cost)), c, scope)
  {
    SpentAppends(b.rows, Row(b.now, instance, Some(cost)), scope, None);
  }

  /** What is in hand belongs to a check that got this far. */
  predicate Shaped(c: OpenCheck) {
    match c.stage
    case GotPlatform(pd, _, _, _) => pd > 0.0
    case ForInstance(_, _, _, _, _) => c.instance.Some?
    case GotInstance(_, _, _, _, _, _) => c.instance.Some?
    case _ => true
  }

  /** A wrong figure in hand ends up in the cache. */
  lemma {:induction false} WrongIsStored(b: Books, k: nat, scope: Option<InstanceId>)
    requires k in b.open && Wrong(b, b.open[k], scope) && Shaped(b.open[k])
    ensures var r := Finish(b, k).0; r.cache.Some? && !CacheLacks(r, scope, 0.0)
    decreases Left(b, k)
  {
    var (r, v) := Advance(b, k);
    WrongStays(b, k, scope);
    if v.None? {
      WrongIsStored(r, k, scope);
    }
  }

  lemma WrongStays(b: Books, k: nat, scope: Option<InstanceId>)
    requires k in b.open && Wrong(b, b.open[k], scope) && Shaped(b.open[k])
    ensures var (r, v) := Advance(b, k);
            if v.None? then k in r.open && Wrong(r, r.open[k], scope) && Shaped(r.open[k])
            else r.cache.Some? && !CacheLacks(r, scope, 0.0)
  {
    var check := b.open[k];
    match check.stage
    case GotPlatform(pd, id, sum, asOf) => WrongPicked(b, k, check, pd, id, sum, asOf);
    case ForInstance(pd, id, spent, table, asOf) =>
    case GotInstance(pd, id, spent, table, asOf, sum) =>
      assert SumsIn(WithSum(b, table, check.instance, sum), table) ==
             if table < |b.tables| then SumsIn(b, table)[check.instance.value := sum] else map[];
  }

  lemma WrongPicked(b: Books, k: nat, check: OpenCheck, pd: real, id: real, spent: real, asOf: int)
    requires pd > 0.0 && !PlatformLacks(b, None, pd, spent, 0.0)
    ensures var (r, v) := PickTable(b, k, check, pd, id, spent, asOf);
            if v.None? then k in r.open && Wrong(r, r.open[k], None) && Shaped(r.open[k])
            else r.cache.Some? && !CacheLacks(r, None, 0.0)
  {
  }

  /**
   Main result: a call of this process that finishes while a check waits leaves the
   cache wrong if and only if it cost something and the check has a figure in hand
   that its row counts in.
   */
  lemma SpendInsideIff(b: Books, k: nat, instance: Option<InstanceId>, cost: real, since: int)
    requires Exact(b, since) && b.open.Keys == {k} && cost >= 0.0
    ensures var r := Finish(Spend(b, instance, Some(cost)), k).0;
            r.cache.Some? && (Right(r) <==> cost == 0.0 || !InHand(b, b.open[k], instance))
  {
    var b' := Spend(b, instance, Some(cost));
    if cost == 0.0 || !InHand(b, b.open[k], instance) {
      SpendSpares(b, k, instance, cost, since);
      FinishExact(b', k, since);
    } else {
      var scope := if Misses(b, b.open[k], None) then None else instance;
      assert Accounted(b, scope, since, 0.0);
      SpendWrongs(b, b.open[k], instance, cost, scope);
      WrongIsStored(b', k, scope);
    }
  }

  // ----- A save inside a check ---------------------------------------------------------------------------------

  /** A check that has read the settings stores what it read. */
  lemma {:induction false} CeilingsStored(b: Books, k: nat, ok: (real, real) -> bool)
    requires k in b.open && !b.open[k].stage.ForSettings?
    ensures var r := Finish(b, k).0;
            && r.cache.Some?
            && (ok(r.cache.value.platformDaily, r.cache.value.instanceDaily) <==> HandCeilings(b.open[k].stage, ok))
    decreases Left(b, k)
  {
    var (r, v) := Advance(b, k);
    AdvanceKeepsCeilings(b, k, ok);
    if v.None? {
      CeilingsStored(r, k, ok);
    }
  }

  lemma AdvanceKeepsCeilings(b: Books, k: nat, ok: (real, real) -> bool)
    requires k in b.open && !b.open[k].stage.ForSettings?
    ensures var (r, v) := Advance(b, k);
            if v.None? then
              && !r.open[k].stage.ForSettings?
              && (HandCeilings(r.open[k].stage, ok) <==> HandCeilings(b.open[k].stage, ok))
            else
              && r.cache.Some?
              && (ok(r.cache.value.platformDaily, r.cache.value.instanceDaily) <==> HandCeilings(b.open[k].stage, ok))
  {
  }

  /**
   Main result: after a save inside a check, the check leaves the saved ceilings in
   the cache if and only if it had not read the settings yet, or had read the same.
   */
  lemma SaveInsideIff(b: Books, k: nat, platform: Option<real>, perInstance: Option<real>)
    requires k in b.open
    ensures var saved := SaveSettings(b, platform, perInstance);
            var r := Finish(saved, k).0;
            r.cache.Some? && (Now(saved)(r.cache.value.platformDaily, r.cache.value.instanceDaily) <==>
                              HandCeilings(b.open[k].stage, Now(saved)))
  {
    var saved := SaveSettings(b, platform, perInstance);
    if b.open[k].stage.ForSettings? {
      var read := Answer(saved, k);
      CeilingsStored(read, k, Now(saved));
      assert Finish(saved, k) == Finish(read, k);
    } else {
      CeilingsStored(saved, k, Now(saved));
    }
  }

  // ----- What an undisturbed check loads --------------------------------------------------------------------------

  /** The check's outcome, if it still has to wait. */
  function Completed(r: (Books, Option<Verdict>), k: nat): Books {
    if r.1.Some? then r.0 else Finish(r.0, k).0
  }

  function SumsAfter(sums: map<InstanceId, real>, rows: seq<Row>, asked: Option<InstanceId>, instanceDaily: real)
    : map<InstanceId, real>
  {
    if asked.Some? && instanceDaily > 0.0 && asked.value !in sums then sums[asked.value := Spent(rows, asked, None)]
    else sums
  }

  /** The cache object and its Map, figure by figure. */
  ghost predicate Leaves(r: Books, at: int, pd: real, id: real, spent: real, sums: map<InstanceId, real>) {
    && r.cache.Some? && r.cache.value.at == at && r.cache.value.platformDaily == pd && r.cache.value.instanceDaily == id
    && r.cache.value.platformSpent == spent && r.cache.value.table < |r.tables|
    && SumsIn(r, r.cache.value.table) == sums
  }

  lemma LoadLeaves(b: Books, k: nat, check: OpenCheck, pd: real, id: real, spent: real, table: nat, asOf: int)
    requires table < |b.tables|
    ensures Leaves(Completed(LoadInstance(b, k, check, pd, id, spent, table, asOf), k),
                   if Live(b, check.began) then b.cache.value.at else check.began,
                   pd, id, spent, SumsAfter(SumsIn(b, table), b.rows, check.instance, id))
  {
    var (r, v) := LoadInstance(b, k, check, pd, id, spent, table, asOf);
    if v.None? {
      var r1 := Answer(r, k);
      assert r1.open[k].stage.GotInstance?;
      assert Finish(r1, k) == Resume(r1, k);
      assert Finish(r, k) == Finish(r1, k);
    }
  }

  /**
   The one-step reading of loadCache: a check nothing happens in keeps a young cache
   and adds a missing instance's sum, or loads everything it needs anew.
   */
  lemma WholeCheckLoads(b: Books, k: nat, asked: Option<InstanceId>)
    requires b.cache.Some? ==> b.cache.value.table < |b.tables|
    ensures var r := WholeCheck(b, k, asked).0;
            if Live(b, b.now) then
              var c := b.cache.value;
              Leaves(r, c.at, c.platformDaily, c.instanceDaily, c.platformSpent,
                     SumsAfter(SumsIn(b, c.table), b.rows, asked, c.instanceDaily))
            else
              var pd, id := ParseUsd(b.platformSetting), ParseUsd(b.instanceSetting);
              Leaves(r, b.now, pd, id, if pd > 0.0 then Spent(b.rows, None, None)
                                else if b.cache.Some? then b.cache.value.platformSpent else 0.0,
                     SumsAfter(map[], b.rows, asked, id))
  {
    if Live(b, b.now) {
      var c := b.cache.value;
      if !Holds(b, c.table, asked) {
        LoadLeaves(b, k, OpenCheck(asked, b.now, ForSettings), c.platformDaily, c.instanceDaily, c.platformSpent,
                   c.table, c.asOf);
      }
    } else {
      ReloadLeaves(b, k, asked);
    }
  }

  lemma ReloadLeaves(b: Books, k: nat, asked: Option<InstanceId>)
    requires !Live(b, b.now)
    ensures var pd, id := ParseUsd(b.platformSetting), ParseUsd(b.instanceSetting);
            Leaves(WholeCheck(b, k, asked).0, b.now, pd, id,
                   if pd > 0.0 then Spent(b.rows, None, None)
                   else if b.cache.Some? then b.cache.value.platformSpent else 0.0,
                   SumsAfter(map[], b.rows, asked, id))
  {
    var pd, id := ParseUsd(b.platformSetting), ParseUsd(b.instanceSetting);
    var r1 := Begin(b, k, asked).0;
    var r2 := Answer(r1, k);
    assert r2.open[k] == OpenCheck(asked, b.now, GotSettings(pd, id));
    assert Finish(r1, k) == Finish(r2, k);
    if pd > 0.0 {
      var r3 := Resume(r2, k).0;
      var r4 := Answer(r3, k);
      assert r4.open[k] == OpenCheck(asked, b.now, GotPlatform(pd, id, Spent(b.rows, None, None), b.now));
      assert Finish(r2, k) == Finish(r3, k) == Finish(r4, k);
      NewTableLeaves(r4, k, r4.open[k], pd, id, Spent(b.rows, None, None), b.now);
    } else {
      var spent := if b.cache.Some? then b.cache.value.platformSpent else 0.0;
      NewTableLeaves(r2, k, r2.open[k], pd, id, spent, b.now);
    }
  }

  lemma NewTableLeaves(b: Books, k: nat, check: OpenCheck, pd: real, id: real, spent: real, asOf: int)
    requires !Live(b, check.began)
    ensures Leaves(Completed(PickTable(b, k, check, pd, id, spent, asOf), k),
                   check.began, pd, id, spent, SumsAfter(map[], b.rows, check.instance, id))
  {
    var b' := b.(tables := b.tables + [Table(b.now, map[])]);
    LoadLeaves(b', k, check, pd, id, spent, |b.tables|, asOf);
  }

  // ----- A note and its insert apart ---------------------------------------------------------------------------------

  /** A check for `asked` loads a figure that the noted, not yet inserted row of `instance` belongs to. */
  predicate LoadsCounted(b: Books, instance: Option<InstanceId>, asked: Option<InstanceId>) {
    || (!Live(b, b.now) && ParseUsd(b.platformSetting) > 0.0)
    || (instance.Some? && asked == instance && ParseUsd(b.instanceSetting) > 0.0
        && (!Live(b, b.now) || !Holds(b, b.cache.value.table, instance)))
  }

  /** A call's end, an undisturbed check for `asked`, and only then the insert of the call's row. */
  function SplitSpend(b: Books, k: nat, instance: Option<InstanceId>, cost: real, asked: Option<InstanceId>): Books {
    var checked := WholeCheck(End(b, instance, Some(cost)), k, asked).0;
    if checked.unwritten == [] then checked else Write(checked, |checked.unwritten| - 1)
  }

  /** The check leaves the clock, the tables of the database and the inserts under way alone. */
  lemma WholeCheckKeeps(b: Books, k: nat, instance: Option<InstanceId>)
    ensures var r := WholeCheck(b, k, instance).0;
            Capped(r) == Capped(b) && r.rows == b.rows && r.unwritten == b.unwritten && r.now == b.now
  {
    if Begin(b, k, instance).1.None? {
      FinishKeeps(Begin(b, k, instance).0, k);
    }
  }

  lemma {:induction false} FinishKeeps(b: Books, k: nat)
    ensures var r := Finish(b, k).0;
            Capped(r) == Capped(b) && r.rows == b.rows && r.unwritten == b.unwritten && r.now == b.now
    decreases Left(b, k)
  {
    if k in b.open {
      AdvanceKeeps(b, k);
      if Advance(b, k).1.None? {
        FinishKeeps(Advance(b, k).0, k);
      }
    }
  }

  lemma AdvanceKeeps(b: Books, k: nat)
    requires k in b.open
    ensures var r := Advance(b, k).0;
            Capped(r) == Capped(b) && r.rows == b.rows && r.unwritten == b.unwritten && r.now == b.now
  {
  }

  /** The figures an object of the cache's form holds are those of the database. */
  ghost predicate FiguresExact(rows: seq<Row>, pd: real, spent: real, sums: map<InstanceId, real>) {
    && (pd > 0.0 ==> spent == Spent(rows, None, None))
    && forall id :: id in sums ==> sums[id] == Spent(rows, Some(id), None)
  }

  lemma LeavesExact(r: Books, rows: seq<Row>, at: int, pd: real, id: real, spent: real, sums: map<InstanceId, real>)
    requires Leaves(r, at, pd, id, spent, sums) && (pd > 0.0 <==> Capped(r)) && r.unwritten == [] && r.rows == rows
    ensures Right(r) <==> FiguresExact(rows, pd, spent, sums)
  {
    if Right(r) {
      assert CacheLacks(r, None, 0.0);
      forall i | i in sums ensures sums[i] == Spent(rows, Some(i), None) {
        assert CacheLacks(r, Some(i), 0.0);
      }
    }
  }

  /**
   Why a note and its insert must be one step: an undisturbed check between them leaves
   every cached figure right if and only if it loads none that the row counts in, or the
   call was free. A young cache is no protection: it still loads an instance it lacks.
   */
  lemma SplitSpendIff(b: Books, k: nat, instance: Option<InstanceId>, cost: real, asked: Option<InstanceId>, since: int)
    requires Exact(b, since)
    ensures var r := SplitSpend(b, k, instance, cost, asked);
            r.cache.Some? && (Right(r) <==> cost == 0.0 || !LoadsCounted(b, instance, asked))
  {
    if Live(b, b.now) {
      NotedYoung(b, k, instance, cost, asked, since);
    } else {
      NotedStale(b, k, instance, cost, asked);
    }
  }

  /** The check's outcome, with the row written. */
  lemma SplitLeaves(b: Books, k: nat, instance: Option<InstanceId>, cost: real, asked: Option<InstanceId>,
                    at: int, pd: real, id: real, spent: real, sums: map<InstanceId, real>)
    requires b.unwritten == [] && (pd > 0.0 <==> Capped(b))
    requires Leaves(WholeCheck(End(b, instance, Some(cost)), k, asked).0, at, pd, id, spent, sums)
    ensures var r := SplitSpend(b, k, instance, cost, asked);
            r.cache.Some? &&
            (Right(r) <==> FiguresExact(b.rows + [Row(b.now, instance, Some(cost))], pd, spent, sums))
  {
    WholeCheckKeeps(End(b, instance, Some(cost)), k, asked);
    var r := SplitSpend(b, k, instance, cost, asked);
    assert r.unwritten == [] && r.rows == b.rows + [Row(b.now, instance, Some(cost))];
    LeavesExact(r, r.rows, at, pd, id, spent, sums);
  }

  lemma NotedStale(b: Books, k: nat, instance: Option<InstanceId>, cost: real, asked: Option<InstanceId>)
    requires !Live(b, b.now) && b.unwritten == []
    ensures var r := SplitSpend(b, k, instance, cost, asked);
            r.cache.Some? && (Right(r) <==> cost == 0.0 || !LoadsCounted(b, instance, asked))
  {
    var ended := End(b, instance, Some(cost));
    var row := Row(b.now, instance, Some(cost));
    var pd, id := ParseUsd(b.platformSetting), ParseUsd(b.instanceSetting);
    var spent := if pd > 0.0 then Spent(b.rows, None, None)
                 else if ended.cache.Some? then ended.cache.value.platformSpent else 0.0;
    ReloadLeaves(ended, k, asked);
    SplitLeaves(b, k, instance, cost, asked, b.now, pd, id, spent, SumsAfter(map[], b.rows, asked, id));
    ReloadedExact(b.rows, row, pd, id, spent, asked);
  }

  /** What a reload read, against the rows with one more. */
  lemma ReloadedExact(rows: seq<Row>, row: Row, pd: real, id: real, spent: real, asked: Option<InstanceId>)
    requires pd > 0.0 ==> spent == Spent(rows, None, None)
    ensures FiguresExact(rows + [row], pd, spent, SumsAfter(map[], rows, asked, id)) <==>
            CostOf(row.cost) == 0.0 || !(pd > 0.0 || (asked.Some? && id > 0.0 && row.instance == asked))
  {
    SpentAppends(rows, row, None, None);
    SpentAppends(rows, row, asked, None);
    if asked.Some? && id > 0.0 {
      assert asked.value in SumsAfter(map[], rows, asked, id);
    }
  }

  lemma NotedYoung(b: Books, k: nat, instance: Option<InstanceId>, cost: real, asked: Option<InstanceId>, since: int)
    requires Exact(b, since) && Live(b, b.now)
    ensures var r := SplitSpend(b, k, instance, cost, asked);
            r.cache.Some? && (Right(r) <==> cost == 0.0 || !LoadsCounted(b, instance, asked))
  {
    var ended := End(b, instance, Some(cost));
    var row := Row(b.now, instance, Some(cost));
    ExactIsRight(b, since);
    NotedFigures(b, instance, cost);
    assert CacheLacks(b, None, 0.0);
    WholeCheckLoads(ended, k, asked);
    var c := ended.cache.value;
    var sums := SumsIn(ended, c.table);
    SplitLeaves(b, k, instance, cost, asked, c.at, c.platformDaily, c.instanceDaily, c.platformSpent,
                SumsAfter(sums, b.rows, asked, c.instanceDaily));
    LoadedExact(b.rows, row, c.platformDaily, c.instanceDaily, c.platformSpent, sums, asked);
  }

  /** What a load read into a Map that already counts one row more. */
  lemma LoadedExact(rows: seq<Row>, row: Row, pd: real, id: real, spent: real, sums: map<InstanceId, real>,
                    asked: Option<InstanceId>)
    requires FiguresExact(rows + [row], pd, spent, sums)
    ensures FiguresExact(rows + [row], pd, spent, SumsAfter(sums, rows, asked, id)) <==>
            CostOf(row.cost) == 0.0 || !(asked.Some? && id > 0.0 && row.instance == asked && asked.value !in sums)
  {
    SpentAppends(rows, row, asked, None);
    if asked.Some? && id > 0.0 {
      assert asked.value in SumsAfter(sums, rows, asked, id);
    }
  }

  /** The note brings every figure of the cache to what the insert will make of it. */
  lemma NotedFigures(b: Books, instance: Option<InstanceId>, cost: real)
    requires b.cache.Some? && Right(b) && b.unwritten == []
    ensures var (noted, c) := (End(b, instance, Some(cost)), b.cache.value);
            && noted.cache == Some(c.(platformSpent := c.platformSpent + cost))
            && c.table < |noted.tables| && SumsIn(noted, c.table).Keys == SumsIn(b, c.table).Keys
            && FiguresExact(b.rows + [Row(b.now, instance, Some(cost))], c.platformDaily, c.platformSpent + cost,
                            SumsIn(noted, c.table))
  {
    var t := b.cache.value.table;
    var row := Row(b.now, instance, Some(cost));
    assert CacheLacks(b, None, 0.0);
    SpentAppends(b.rows, row, None, None);
    forall id | id in SumsIn(b, t)
      ensures SumsIn(b, t)[id] == Spent(b.rows, Some(id), None)
      ensures SumsIn(End(b, instance, Some(cost)), t)[id] == Spent(b.rows + [row], Some(id), None)
    {
      assert CacheLacks(b, Some(id), 0.0);
      SpentAppends(b.rows, row, Some(id), None);
    }
  }

  /** Both ways exist: an old cache loses the platform's figure, a young one the figure of the call's own instance. */
  lemma SplitSpendLost() returns (stale: Books, young: Books)
    ensures var r := SplitSpend(stale, 0, None, 1.0, None); Exact(stale, 0) && r.cache.Some? && !Right(r)
    ensures var r := SplitSpend(young, 0, Some(7), 1.0, Some(7));
            Exact(young, 0) && Live(young, young.now) && r.cache.Some? && !Right(r)
  {
    stale := Books(None, [], map[], [], [], [], Some(10.0), None, 0);
    young := Books(Some(Cache(0, 0.0, 10.0, 0.0, 0, 0)), [Table(0, map[])], map[], [], [], [], None, Some(10.0), 0);
    SplitSpendIff(stale, 0, None, 1.0, None, 0);
    SplitSpendIff(young, 0, Some(7), 1.0, Some(7), 0);
  }
}
