/**
 How far behind the database a check can be: other processes spend, checks overlap,
 and calls finish under them.
 */
module BudgetMinute {
  import opened Options
  import opened Budget
  import opened BudgetRuns
  import opened BudgetBounds

  // ----- Figures with a date -------------------------------------------------------------------------------

  ghost predicate RowsSane(b: Books) {
    forall i :: 0 <= i < |b.rows| ==> CostOf(b.rows[i].cost) >= 0.0 && b.rows[i].at <= b.now
  }

  lemma {:induction false} SpentMonotone(rows: seq<Row>, scope: Option<InstanceId>, t: int, t': Option<int>)
    requires forall i :: 0 <= i < |rows| ==> CostOf(rows[i].cost) >= 0.0
    requires t'.Some? ==> t <= t'.value
    ensures Spent(rows, scope, Some(t)) <= Spent(rows, scope, t')
  {
    if rows != [] {
      SpentMonotone(rows[..|rows| - 1], scope, t, t');
    }
  }

  /** The figure holds all of the scope that was written before `t`. */
  predicate HoldsUpTo(b: Books, scope: Option<InstanceId>, figure: real, t: int) {
    t <= b.now && Spent(b.rows, scope, Some(t)) <= figure
  }

  /** The platform's figure, where there is a ceiling for it. */
  predicate PlatformDated(b: Books, scope: Option<InstanceId>, pd: real, spent: real, asOf: int) {
    asOf <= b.now && CapFits(b, scope, pd) && (scope.None? && pd > 0.0 ==> HoldsUpTo(b, None, spent, asOf))
  }

  predicate TableDated(b: Books, scope: Option<InstanceId>, table: nat) {
    && table < |b.tables| && b.tables[table].made <= b.now
    && (scope.Some? && scope.value in SumsIn(b, table) ==>
          HoldsUpTo(b, scope, SumsIn(b, table)[scope.value], b.tables[table].made))
  }

  /** The Map is not older than the figures it is kept with. */
  predicate MapSince(b: Books, table: nat, asOf: int) {
    table < |b.tables| && asOf <= b.tables[table].made
  }

  predicate HandDated(b: Books, c: OpenCheck, scope: Option<InstanceId>) {
    match c.stage
    case ForSettings => true
    case GotSettings(pd, _) => CapFits(b, scope, pd)
    case ForPlatform(pd, _) => CapFits(b, scope, pd)
    case GotPlatform(pd, _, sum, asOf) => PlatformDated(b, scope, pd, sum, asOf)
    case ForInstance(pd, _, spent, table, asOf) => PlatformDated(b, scope, pd, spent, asOf) && MapSince(b, table, asOf)
    case GotInstance(pd, _, spent, table, asOf, sum) =>
      && PlatformDated(b, scope, pd, spent, asOf) && MapSince(b, table, asOf)
      && (scope.Some? && scope == c.instance ==> HoldsUpTo(b, scope, sum, b.tables[table].made))
  }

  /** Every Map holds what was spent before it was made, every cached or carried figure what was before its date. */
  ghost predicate Dated(b: Books, scope: Option<InstanceId>) {
    && RowsSane(b)
    && (forall t: nat :: t < |b.tables| ==> TableDated(b, scope, t))
    && (b.cache.Some? ==>
          && PlatformDated(b, scope, b.cache.value.platformDaily, b.cache.value.platformSpent, b.cache.value.asOf)
          && MapSince(b, b.cache.value.table, b.cache.value.asOf))
    && (forall k :: k in b.open ==> HandDated(b, b.open[k], scope))
  }

  // ----- A check's steps --------------------------------------------------------------------------------------

  lemma HandStays(b: Books, b': Books, c: OpenCheck, scope: Option<InstanceId>)
    requires b'.rows == b.rows && b'.now == b.now && b'.platformSetting == b.platformSetting && HandDated(b, c, scope)
    requires |b.tables| <= |b'.tables| && forall t: nat :: t < |b.tables| ==> b'.tables[t].made == b.tables[t].made
    ensures HandDated(b', c, scope)
  {
  }

  lemma AwaitDated(b: Books, k: nat, check: OpenCheck, scope: Option<InstanceId>)
    requires Dated(b, scope) && HandDated(b, check, scope)
    ensures Dated(Await(b, k, check).0, scope)
  {
    var b' := Await(b, k, check).0;
    forall t: nat | t < |b'.tables| ensures TableDated(b', scope, t) {
      assert TableDated(b, scope, t);
    }
    forall j | j in b'.open ensures HandDated(b', b'.open[j], scope) {
      HandStays(b, b', b'.open[j], scope);
    }
  }

  lemma StoreDated(b: Books, k: nat, check: OpenCheck, pd: real, id: real, spent: real, table: nat, asOf: int,
                   scope: Option<InstanceId>)
    requires Dated(b, scope) && PlatformDated(b, scope, pd, spent, asOf) && MapSince(b, table, asOf)
    ensures Dated(Store(b, k, check, pd, id, spent, table, asOf).0, scope)
  {
    var b' := Store(b, k, check, pd, id, spent, table, asOf).0;
    forall t: nat | t < |b'.tables| ensures TableDated(b', scope, t) {
      assert TableDated(b, scope, t);
    }
    forall j | j in b'.open ensures HandDated(b', b'.open[j], scope) {
      HandStays(b, b', b.open[j], scope);
    }
  }

  lemma LoadInstanceDated(b: Books, k: nat, check: OpenCheck, pd: real, id: real, spent: real, table: nat, asOf: int,
                          scope: Option<InstanceId>)
    requires Dated(b, scope) && PlatformDated(b, scope, pd, spent, asOf) && MapSince(b, table, asOf)
    ensures Dated(LoadInstance(b, k, check, pd, id, spent, table, asOf).0, scope)
  {
    if !Holds(b, table, check.instance) && id > 0.0 {
      AwaitDated(b, k, check.(stage := ForInstance(pd, id, spent, table, asOf)), scope);
    } else {
      StoreDated(b, k, check, pd, id, spent, table, asOf, scope);
    }
  }

  lemma NewTableDated(b: Books, scope: Option<InstanceId>)
    requires Dated(b, scope)
    ensures Dated(b.(tables := b.tables + [Table(b.now, map[])]), scope)
  {
    var b' := b.(tables := b.tables + [Table(b.now, map[])]);
    forall t: nat | t < |b'.tables| ensures TableDated(b', scope, t) {
      assert t < |b.tables| ==> TableDated(b, scope, t);
    }
    forall j | j in b'.open ensures HandDated(b', b'.open[j], scope) {
      HandStays(b, b', b.open[j], scope);
    }
  }

  lemma PickTableDated(b: Books, k: nat, check: OpenCheck, pd: real, id: real, spent: real, asOf: int,
                       scope: Option<InstanceId>)
    requires Dated(b, scope) && asOf <= b.now && CapFits(b, scope, pd)
    requires scope.None? && pd > 0.0 ==>
               HoldsUpTo(b, None, spent, asOf) ||
               (Live(b, check.began) && spent == b.cache.value.platformSpent)
    ensures Dated(PickTable(b, k, check, pd, id, spent, asOf).0, scope)
  {
    if Live(b, check.began) {
      var earlier := if b.cache.value.asOf < asOf then b.cache.value.asOf else asOf;
      SpentMonotone(b.rows, None, earlier, Some(asOf));
      SpentMonotone(b.rows, None, earlier, Some(b.cache.value.asOf));
      LoadInstanceDated(b, k, check, pd, id, spent, b.cache.value.table, earlier, scope);
    } else {
      NewTableDated(b, scope);
      var b' := b.(tables := b.tables + [Table(b.now, map[])]);
      LoadInstanceDated(b', k, check, pd, id, spent, |b.tables|, asOf, scope);
    }
  }

  lemma WithSumDated(b: Books, k: nat, scope: Option<InstanceId>)
    requires Dated(b, scope) && k in b.open && b.open[k].stage.GotInstance?
    ensures Dated(WithSum(b, b.open[k].stage.table, b.open[k].instance, b.open[k].stage.sum), scope)
  {
    var c := b.open[k];
    var b' := WithSum(b, c.stage.table, c.instance, c.stage.sum);
    assert HandDated(b, c, scope);
    forall t: nat | t < |b'.tables| ensures TableDated(b', scope, t) {
      assert TableDated(b, scope, t);
    }
    forall j | j in b'.open ensures HandDated(b', b'.open[j], scope) {
      HandStays(b, b', b.open[j], scope);
    }
  }

  lemma ResumeDated(b: Books, k: nat, scope: Option<InstanceId>)
    requires Dated(b, scope) && k in b.open && !Asking(b.open[k].stage)
    ensures Dated(Resume(b, k).0, scope)
  {
    var check := b.open[k];
    assert HandDated(b, check, scope);
    match check.stage
    case GotSettings(pd, id) =>
      if pd > 0.0 && !Live(b, check.began) {
        AwaitDated(b, k, check.(stage := ForPlatform(pd, id)), scope);
      } else {
        var spent := if b.cache.Some? then b.cache.value.platformSpent else 0.0;
        PickTableDated(b, k, check, pd, id, spent, b.now, scope);
      }
    case GotPlatform(pd, id, sum, asOf) => PickTableDated(b, k, check, pd, id, sum, asOf, scope);
    case GotInstance(pd, id, spent, table, asOf, sum) =>
      WithSumDated(b, k, scope);
      StoreDated(WithSum(b, table, check.instance, sum), k, check, pd, id, spent, table, asOf, scope);
  }

  lemma BeginDated(b: Books, k: nat, instance: Option<InstanceId>, scope: Option<InstanceId>)
    requires Dated(b, scope)
    ensures Dated(Begin(b, k, instance).0, scope)
  {
    if !Live(b, b.now) {
      AwaitDated(b, k, OpenCheck(instance, b.now, ForSettings), scope);
    } else if !Holds(b, b.cache.value.table, instance) {
      var c := b.cache.value;
      LoadInstanceDated(b, k, OpenCheck(instance, b.now, ForSettings), c.platformDaily, c.instanceDaily,
                        c.platformSpent, c.table, c.asOf, scope);
    } else {
      DecideDated(b, instance, scope);
    }
  }

  lemma DecideDated(b: Books, instance: Option<InstanceId>, scope: Option<InstanceId>)
    requires Dated(b, scope) && b.cache.Some?
    ensures Dated(Decide(b, instance).0, scope)
  {
    var b' := Decide(b, instance).0;
    forall t: nat | t < |b'.tables| ensures TableDated(b', scope, t) {
      assert TableDated(b, scope, t);
    }
    forall j | j in b'.open ensures HandDated(b', b'.open[j], scope) {
      HandStays(b, b', b.open[j], scope);
    }
  }

  lemma AnswerDated(b: Books, k: nat, scope: Option<InstanceId>)
    requires Dated(b, scope) && k in b.open && Asking(b.open[k].stage)
    ensures Dated(Answer(b, k), scope)
  {
    var c := b.open[k];
    assert HandDated(b, c, scope);
    SpentMonotone(b.rows, None, b.now, None);
    if c.stage.ForInstance? {
      assert TableDated(b, scope, c.stage.table);
      SpentMonotone(b.rows, c.instance, b.tables[c.stage.table].made, None);
    }
    AwaitDated(b, k, c.(stage := Answered(b, c)), scope);
  }

  lemma FailDated(b: Books, k: nat, scope: Option<InstanceId>)
    requires Dated(b, scope)
    ensures Dated(Fail(b, k).0, scope)
  {
    var b' := Fail(b, k).0;
    forall t: nat | t < |b'.tables| ensures TableDated(b', scope, t) {
      assert TableDated(b, scope, t);
    }
    forall j | j in b'.open ensures HandDated(b', b'.open[j], scope) {
      HandStays(b, b', b.open[j], scope);
    }
  }

  // ----- What else happens ------------------------------------------------------------------------------------

  /** A row written now belongs to nothing before now. */
  lemma LaterRow(b: Books, b': Books, row: Row, scope: Option<InstanceId>, figure: real, t: int)
    requires b'.rows == b.rows + [row] && b'.now == b.now <= row.at && HoldsUpTo(b, scope, figure, t)
    ensures HoldsUpTo(b', scope, figure, t)
  {
    SpentAppends(b.rows, row, scope, Some(t));
  }

  /** A row is written. */
  lemma RowDated(b: Books, b': Books, row: Row, scope: Option<InstanceId>)
    requires Dated(b, scope) && row.at == b.now && CostOf(row.cost) >= 0.0 && b'.rows == b.rows + [row]
    requires b'.cache == b.cache && b'.tables == b.tables && b'.open == b.open
    requires b'.now == b.now && b'.platformSetting == b.platformSetting
    ensures Dated(b', scope)
  {
    forall s, figure, t | HoldsUpTo(b, s, figure, t) ensures HoldsUpTo(b', s, figure, t) {
      LaterRow(b, b', row, s, figure, t);
    }
    forall t: nat | t < |b'.tables| ensures TableDated(b', scope, t) {
      assert TableDated(b, scope, t);
    }
    forall j | j in b'.open ensures HandDated(b', b'.open[j], scope) {
      assert HandDated(b, b.open[j], scope);
    }
  }

  /** A call ends: the note only raises figures. */
  lemma EndDated(b: Books, instance: Option<InstanceId>, cost: Option<real>, scope: Option<InstanceId>)
    requires Dated(b, scope) && CostOf(cost) >= 0.0
    ensures Dated(End(b, instance, cost), scope)
  {
    var b' := End(b, instance, cost);
    forall t: nat | t < |b'.tables| ensures TableDated(b', scope, t) {
      assert TableDated(b, scope, t);
    }
    forall j | j in b'.open ensures HandDated(b', b'.open[j], scope) {
      HandStays(b, b', b.open[j], scope);
    }
  }

  lemma StillDated(b: Books, a: Action, scope: Option<InstanceId>)
    requires Dated(b, scope) && (a.Saves? || a.Waits?) && !Switches(b, a)
    ensures Dated(Move(b, a).0, scope)
  {
    var b' := Move(b, a).0;
    forall t: nat | t < |b'.tables| ensures TableDated(b', scope, t) {
      assert TableDated(b, scope, t);
    }
    forall j | j in b'.open ensures HandDated(b', b'.open[j], scope) {
      assert HandDated(b, b.open[j], scope);
    }
  }

  lemma StepDated(b: Books, a: Action, scope: Option<InstanceId>)
    requires Enabled(b, a) && Dated(b, scope) && OwesNothingBack(b)
    requires (Costs(a) ==> a.cost.value >= 0.0) && !Switches(b, a)
    ensures Dated(Move(b, a).0, scope)
  {
    match a
    case Begins(k, instance) => BeginDated(b, k, instance, scope);
    case Answers(k) => AnswerDated(b, k, scope);
    case Resumes(k) => ResumeDated(b, k, scope);
    case Fails(k) => FailDated(b, k, scope);
    case Ends(instance, cost) => EndDated(b, instance, cost, scope);
    case Writes(i) => RowDated(b, Write(b, i), Row(b.now, b.unwritten[i].instance, b.unwritten[i].cost), scope);
    case SpendsElsewhere(instance, cost) => RowDated(b, Move(b, a).0, Row(b.now, instance, cost), scope);
    case _ => StillDated(b, a, scope);
  }

  lemma {:induction false} DatedThroughout(bs: seq<Books>, acts: seq<Action>, scope: Option<InstanceId>, i: nat)
    requires IsRun(bs, acts) && PricedNonNegative(acts) && i < |bs| && Unswitched(bs, acts, 0, i)
    ensures Dated(bs[i], scope)
  {
    if i > 0 {
      assert Unswitched(bs, acts, 0, i - 1) && !Switches(bs[i - 1], acts[i - 1]);
      DatedThroughout(bs, acts, scope, i - 1);
      NonNegative(bs, acts, i - 1);
      assert Costs(acts[i - 1]) ==> acts[i - 1].cost.value >= 0.0;
      StepDated(bs[i - 1], acts[i - 1], scope);
    }
  }

  // ----- At most a minute behind --------------------------------------------------------------------------------

  /** The ceiling of a scope: of an instance, or of the platform. */
  function Ceiling(b: Books, scope: Option<InstanceId>): real {
    var setting := if scope.None? then b.platformSetting else b.instanceSetting;
    if setting.Some? && setting.value > 0.0 then setting.value else 0.0
  }

  /** The cache counts as younger than its figures are. */
  predicate Backdated(b: Books) {
    b.cache.Some? && b.cache.value.asOf < b.cache.value.at
  }

  /** An allowed check found its figure below the ceiling, and the figure holds what was spent before its date. */
  lemma AllowedSince(r: Books, scope: Option<InstanceId>, asker: Option<InstanceId>)
    requires Dated(r, scope) && r.cache.Some? && Covers(scope, asker) && CachedVerdict(r, asker) == Allowed
    requires Now(r)(r.cache.value.platformDaily, r.cache.value.instanceDaily) && Ceiling(r, scope) > 0.0
    requires r.cache.value.instanceDaily > 0.0 ==> Holds(r, r.cache.value.table, asker)
    ensures Spent(r.rows, scope, Some(r.cache.value.asOf)) < Ceiling(r, scope)
  {
    var c := r.cache.value;
    CeilingsRead(r);
    if scope.Some? {
      assert TableDated(r, scope, c.table);
      SpentMonotone(r.rows, scope, c.asOf, Some(r.tables[c.table].made));
    }
  }

  /** A refusal found a figure at the ceiling, and no figure holds what was not spent. */
  lemma RefusedRightly(r: Books, asker: Option<InstanceId>, u: real)
    requires r.cache.Some? && CacheLacks(r, None, u) && CacheLacks(r, asker, u) && CachedVerdict(r, asker).Exceeded?
    requires Now(r)(r.cache.value.platformDaily, r.cache.value.instanceDaily)
    requires r.cache.value.instanceDaily > 0.0 ==> Holds(r, r.cache.value.table, asker)
    ensures var v := CachedVerdict(r, asker);
            var reached := if v.scope.Platform? then None else asker;
            v.budget == Ceiling(r, reached) > 0.0 && Due(r, reached) >= v.spent >= v.budget
  {
    CeilingsRead(r);
  }

  /** The ceilings in the cache are those of the settings. */
  lemma CeilingsRead(r: Books)
    requires r.cache.Some? && Now(r)(r.cache.value.platformDaily, r.cache.value.instanceDaily)
    ensures r.cache.value.platformDaily == Ceiling(r, None)
    ensures forall id :: r.cache.value.instanceDaily == Ceiling(r, Some(id))
  {
    assert r.cache.value.platformDaily == ParseUsd(r.platformSetting);
    assert r.cache.value.instanceDaily == ParseUsd(r.instanceSetting);
  }

  /** Where the check's verdict comes from, in a run in which no save overtakes a check. */
  lemma Verdicts(bs: seq<Books>, acts: seq<Action>, i: nat)
    requires IsRun(bs, acts) && PricedNonNegative(acts) && i < |acts|
    requires Move(bs[i], acts[i]).1.Some? && !acts[i].Fails?
    requires forall j :: 0 <= j < i ==> !Overtakes(bs[j], acts[j])
    ensures GoesBy(bs[i], Move(bs[i], acts[i]), Asker(bs[i], acts[i]), Began(bs[i], acts[i])) && OfCheck(acts[i])
    ensures bs[0].now <= Began(bs[i], acts[i]) && Unswitched(bs, acts, 0, i)
    ensures CeilingsOk(bs[i + 1], bs[0].now, Now(bs[i + 1])) && Now(bs[i + 1]) == Now(bs[i])
  {
    CeilingsFollowed(bs, acts, 0, i);
    FiguresAccounted(bs, acts, None, 0, i);
    VerdictGoesBy(bs[i], acts[i], None, bs[0].now, Slipped(bs, acts, None, 0, i));
    CeilingsFollow(bs[i], acts[i], bs[0].now);
    SettingsStay(bs[i], acts[i]);
    SameNow(bs[i], bs[i + 1]);
  }

  /** A refusal is right by what was spent, whatever overlaps and whoever spends. */
  lemma RefusalsRight(bs: seq<Books>, acts: seq<Action>, i: nat)
    requires IsRun(bs, acts) && PricedNonNegative(acts) && i < |acts|
    requires Move(bs[i], acts[i]).1.Some? && Move(bs[i], acts[i]).1.value.Exceeded?
    requires forall j :: 0 <= j < i ==> !Overtakes(bs[j], acts[j])
    ensures var v := Move(bs[i], acts[i]).1.value;
            var reached := if v.scope.Platform? then None else Asker(bs[i], acts[i]);
            v.budget == Ceiling(bs[i], reached) > 0.0 && Due(bs[i], reached) >= v.spent >= v.budget
  {
    var b, a, asker := bs[i], acts[i], Asker(bs[i], acts[i]);
    Verdicts(bs, acts, i);
    var platform, own := Slipped(bs, acts, None, 0, i), Slipped(bs, acts, asker, 0, i);
    var u := if platform < own then own else platform;
    SlippedGrows(bs, acts, None, 0, i);
    SlippedGrows(bs, acts, asker, 0, i);
    FiguresAccounted(bs, acts, None, 0, i);
    CheckAccounted(b, a, None, bs[0].now, platform);
    LacksMore(bs[i + 1], None, platform, u);
    FiguresAccounted(bs, acts, asker, 0, i);
    CheckAccounted(b, a, asker, bs[0].now, own);
    LacksMore(bs[i + 1], asker, own, u);
    RefusedRightly(bs[i + 1], asker, u);
    SettingsStay(b, a);
  }

  /**
   Main result: however checks overlap, whoever spends and whatever slips, an allowed call
   finds every applying ceiling unreached by all that was spent before the date of the
   cached figures; and that is at most a minute before the check began, unless the cache
   is backdated.
   */
  lemma AtMostAMinuteBehind(bs: seq<Books>, acts: seq<Action>, i: nat, scope: Option<InstanceId>)
    requires IsRun(bs, acts) && PricedNonNegative(acts) && i < |acts| && !acts[i].Fails?
    requires Move(bs[i], acts[i]).1 == Some(Allowed) && Covers(scope, Asker(bs[i], acts[i]))
    requires Ceiling(bs[i], scope) > 0.0 && forall j :: 0 <= j < i ==> !Overtakes(bs[j], acts[j])
    ensures bs[i + 1].cache.Some?
    ensures Spent(bs[i].rows, scope, Some(bs[i + 1].cache.value.asOf)) < Ceiling(bs[i], scope)
    ensures !Backdated(bs[i + 1]) ==>
              Spent(bs[i].rows, scope, Some(Began(bs[i], acts[i]) - CACHE_TTL_MS + 1)) < Ceiling(bs[i], scope)
  {
    var b, a := bs[i], acts[i];
    Verdicts(bs, acts, i);
    DatedThroughout(bs, acts, scope, i);
    NonNegative(bs, acts, i);
    StepDated(b, a, scope);
    SettingsStay(b, a);
    AllowedSince(bs[i + 1], scope, Asker(b, a));
    if !Backdated(bs[i + 1]) {
      SpentMonotone(b.rows, scope, Began(b, a) - CACHE_TTL_MS + 1, Some(bs[i + 1].cache.value.asOf));
    }
  }

  // ----- When no cache is backdated -------------------------------------------------------------------------------

  /** The time the check would give the cache it stores now. */
  function StoredAt(b: Books, c: OpenCheck): int {
    if Live(b, c.began) then b.cache.value.at else c.began
  }

  predicate HandPunctual(b: Books, c: OpenCheck) {
    && c.began <= b.now && (b.cache.Some? ==> b.cache.value.at <= c.began)
    && match c.stage
       case GotPlatform(_, _, _, asOf) => c.began <= asOf
       case ForInstance(_, _, _, _, asOf) => StoredAt(b, c) <= asOf
       case GotInstance(_, _, _, _, asOf, _) => StoredAt(b, c) <= asOf
       case _ => true
  }

  /** Neither the cache nor an open check dates its figures later than they are; a check that reloads is alone. */
  ghost predicate Punctual(b: Books) {
    && (b.cache.Some? ==> b.cache.value.at <= b.cache.value.asOf && b.cache.value.at <= b.now)
    && (forall j, k :: j in b.open && k in b.open && !Live(b, b.open[j].began) ==> j == k)
    && (forall k :: k in b.open ==> HandPunctual(b, b.open[k]))
  }

  /** A check that finds the cache old begins, or the settings are saved, only while no check is open. */
  predicate Apart(b: Books, a: Action) {
    (a.Begins? && !Live(b, b.now)) || a.Saves? ==> b.open == map[]
  }

  lemma LoadInstancePunctual(b: Books, k: nat, check: OpenCheck, pd: real, id: real, spent: real, table: nat, asOf: int)
    requires Punctual(b) && check.began <= b.now && StoredAt(b, check) <= asOf
    requires b.cache.Some? ==> b.cache.value.at <= check.began
    requires forall j :: j in b.open && !(Live(b, check.began) && Live(b, b.open[j].began)) ==> j == k
    ensures Punctual(LoadInstance(b, k, check, pd, id, spent, table, asOf).0)
  {
  }

  lemma PickTablePunctual(b: Books, k: nat, check: OpenCheck, pd: real, id: real, spent: real, asOf: int)
    requires Punctual(b) && check.began <= b.now && check.began <= asOf
    requires b.cache.Some? ==> b.cache.value.at <= check.began
    requires forall j :: j in b.open && !(Live(b, check.began) && Live(b, b.open[j].began)) ==> j == k
    ensures Punctual(PickTable(b, k, check, pd, id, spent, asOf).0)
  {
    if Live(b, check.began) {
      var earlier := if b.cache.value.asOf < asOf then b.cache.value.asOf else asOf;
      LoadInstancePunctual(b, k, check, pd, id, spent, b.cache.value.table, earlier);
    } else {
      LoadInstancePunctual(b.(tables := b.tables + [Table(b.now, map[])]), k, check, pd, id, spent, |b.tables|, asOf);
    }
  }

  lemma ResumePunctual(b: Books, k: nat)
    requires Punctual(b) && k in b.open && !Asking(b.open[k].stage)
    ensures Punctual(Resume(b, k).0)
  {
    var check := b.open[k];
    assert HandPunctual(b, check);
    match check.stage
    case GotSettings(pd, id) =>
      if !(pd > 0.0 && !Live(b, check.began)) {
        PickTablePunctual(b, k, check, pd, id, if b.cache.Some? then b.cache.value.platformSpent else 0.0, b.now);
      }
    case GotPlatform(pd, id, sum, asOf) => PickTablePunctual(b, k, check, pd, id, sum, asOf);
    case GotInstance(pd, id, spent, table, asOf, sum) =>
  }

  lemma StepPunctual(b: Books, a: Action)
    requires Enabled(b, a) && Punctual(b) && Apart(b, a)
    ensures Punctual(Move(b, a).0)
  {
    match a
    case Begins(k, instance) => BeginPunctual(b, k, instance);
    case Resumes(k) => ResumePunctual(b, k);
    case Answers(k) => AnswerPunctual(b, k);
    case Ends(instance, cost) => EndPunctual(b, instance, cost);
    case _ =>
  }

  lemma BeginPunctual(b: Books, k: nat, instance: Option<InstanceId>)
    requires Punctual(b) && k !in b.open && (!Live(b, b.now) ==> b.open == map[])
    ensures Punctual(Begin(b, k, instance).0)
  {
    if Live(b, b.now) && !Holds(b, b.cache.value.table, instance) {
      var c := b.cache.value;
      LoadInstancePunctual(b, k, OpenCheck(instance, b.now, ForSettings), c.platformDaily, c.instanceDaily,
                           c.platformSpent, c.table, c.asOf);
    }
  }

  lemma AnswerPunctual(b: Books, k: nat)
    requires Punctual(b) && k in b.open && Asking(b.open[k].stage)
    ensures Punctual(Answer(b, k))
  {
    assert HandPunctual(b, b.open[k]);
  }

  lemma EndPunctual(b: Books, instance: Option<InstanceId>, cost: Option<real>)
    requires Punctual(b)
    ensures Punctual(End(b, instance, cost))
  {
    var b' := End(b, instance, cost);
    forall k | k in b'.open ensures HandPunctual(b', b'.open[k]) && StoredAt(b', b.open[k]) == StoredAt(b, b.open[k]) {
      assert HandPunctual(b, b.open[k]);
    }
  }

  /** If checks that reload are alone, and saves land between checks, no cache is ever backdated. */
  lemma {:induction false} NeverBackdated(bs: seq<Books>, acts: seq<Action>, i: nat)
    requires IsRun(bs, acts) && i < |bs| && forall j :: 0 <= j < i ==> Apart(bs[j], acts[j])
    ensures Punctual(bs[i]) && !Backdated(bs[i])
  {
    if i > 0 {
      NeverBackdated(bs, acts, i - 1);
      StepPunctual(bs[i - 1], acts[i - 1]);
    }
  }
}
