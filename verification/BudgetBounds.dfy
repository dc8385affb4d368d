/**
 What the budget check promises over whole runs: decisions as the database would
 make them while nothing slips past an open check, and otherwise a spend that
 overshoots by no more than the calls in flight and what slipped.
 */
module BudgetBounds {
  import opened Options
  import opened Budget
  import opened BudgetRuns
  import opened Exposure

  // ----- Where a verdict comes from -----------------------------------------------------------------------

  /** The clock the check that moves with the step goes by. */
  function Began(b: Books, a: Action): int
    requires Enabled(b, a)
  {
    match a
    case Answers(k) => b.open[k].began
    case Resumes(k) => b.open[k].began
    case Fails(k) => b.open[k].began
    case _ => b.now
  }

  /**
   The verdict goes by the cache the step leaves, which is young by the check's clock and
   holds the asker's sum if instances have a ceiling.
   */
  predicate GoesBy(b: Books, r: (Books, Option<Verdict>), asker: Option<InstanceId>, began: int) {
    && r.0.rows == b.rows && r.0.unwritten == b.unwritten && r.0.now == b.now
    && (r.1.Some? ==>
          && Live(r.0, began) && r.1.value == CachedVerdict(r.0, asker)
          && (r.0.cache.value.instanceDaily > 0.0 ==> Holds(r.0, r.0.cache.value.table, asker)))
  }

  lemma LoadInstanceGoesBy(b: Books, k: nat, check: OpenCheck, pd: real, id: real, spent: real, table: nat, asOf: int)
    ensures GoesBy(b, LoadInstance(b, k, check, pd, id, spent, table, asOf), check.instance, check.began)
  {
  }

  lemma PickTableGoesBy(b: Books, k: nat, check: OpenCheck, pd: real, id: real, spent: real, asOf: int)
    ensures GoesBy(b, PickTable(b, k, check, pd, id, spent, asOf), check.instance, check.began)
  {
    if Live(b, check.began) {
      var earlier := if b.cache.value.asOf < asOf then b.cache.value.asOf else asOf;
      LoadInstanceGoesBy(b, k, check, pd, id, spent, b.cache.value.table, earlier);
    } else {
      LoadInstanceGoesBy(b.(tables := b.tables + [Table(b.now, map[])]), k, check, pd, id, spent, |b.tables|, asOf);
    }
  }

  lemma ResumeGoesBy(b: Books, k: nat, scope: Option<InstanceId>, u: real)
    requires k in b.open && !Asking(b.open[k].stage) && HandLacks(b, b.open[k], scope, u)
    ensures GoesBy(b, Resume(b, k), b.open[k].instance, b.open[k].began)
  {
    var check := b.open[k];
    match check.stage
    case GotSettings(pd, id) =>
      if !(pd > 0.0 && !Live(b, check.began)) {
        PickTableGoesBy(b, k, check, pd, id, if b.cache.Some? then b.cache.value.platformSpent else 0.0, b.now);
      }
    case GotPlatform(pd, id, sum, asOf) => PickTableGoesBy(b, k, check, pd, id, sum, asOf);
    case GotInstance(pd, id, spent, table, asOf, sum) =>
  }

  lemma BeginGoesBy(b: Books, k: nat, instance: Option<InstanceId>)
    ensures GoesBy(b, Begin(b, k, instance), instance, b.now)
  {
    if Live(b, b.now) && !Holds(b, b.cache.value.table, instance) {
      var c := b.cache.value;
      LoadInstanceGoesBy(b, k, OpenCheck(instance, b.now, ForSettings), c.platformDaily, c.instanceDaily,
                         c.platformSpent, c.table, c.asOf);
    }
  }

  /** A check that was answered all along: its verdict goes by the cache it leaves. */
  lemma VerdictGoesBy(b: Books, a: Action, scope: Option<InstanceId>, since: int, u: real)
    requires Enabled(b, a) && Accounted(b, scope, since, u) && Move(b, a).1.Some? && !a.Fails?
    ensures GoesBy(b, Move(b, a), Asker(b, a), Began(b, a)) && since <= Began(b, a) && OfCheck(a)
  {
    match a
    case Begins(k, instance) => BeginGoesBy(b, k, instance);
    case Resumes(k) =>
      assert HandLacks(b, b.open[k], scope, u);
      ResumeGoesBy(b, k, scope, u);
  }

  // ----- The ceilings in use --------------------------------------------------------------------------------

  predicate HandCeilings(s: Stage, ok: (real, real) -> bool) {
    match s
    case ForSettings => true
    case GotSettings(pd, id) => ok(pd, id)
    case ForPlatform(pd, id) => ok(pd, id)
    case GotPlatform(pd, id, _, _) => ok(pd, id)
    case ForInstance(pd, id, _, _, _) => ok(pd, id)
    case GotInstance(pd, id, _, _, _, _) => ok(pd, id)
  }

  predicate SettingsOk(b: Books, ok: (real, real) -> bool) {
    ok(ParseUsd(b.platformSetting), ParseUsd(b.instanceSetting))
  }

  /** The ceilings in the settings, in the hands of open checks, and in a cache that checks begun since may use. */
  ghost predicate CeilingsOk(b: Books, since: int, ok: (real, real) -> bool) {
    && since <= b.now && SettingsOk(b, ok)
    && (Live(b, since) ==> ok(b.cache.value.platformDaily, b.cache.value.instanceDaily))
    && forall k :: k in b.open ==> HandCeilings(b.open[k].stage, ok)
  }

  lemma LoadInstanceCeilings(b: Books, k: nat, check: OpenCheck, pd: real, id: real, spent: real, table: nat,
                             asOf: int, since: int, ok: (real, real) -> bool)
    requires CeilingsOk(b, since, ok) && ok(pd, id)
    ensures CeilingsOk(LoadInstance(b, k, check, pd, id, spent, table, asOf).0, since, ok)
  {
  }

  lemma PickTableCeilings(b: Books, k: nat, check: OpenCheck, pd: real, id: real, spent: real, asOf: int,
                          since: int, ok: (real, real) -> bool)
    requires CeilingsOk(b, since, ok) && ok(pd, id)
    ensures CeilingsOk(PickTable(b, k, check, pd, id, spent, asOf).0, since, ok)
  {
    if Live(b, check.began) {
      var earlier := if b.cache.value.asOf < asOf then b.cache.value.asOf else asOf;
      LoadInstanceCeilings(b, k, check, pd, id, spent, b.cache.value.table, earlier, since, ok);
    } else {
      var b' := b.(tables := b.tables + [Table(b.now, map[])]);
      LoadInstanceCeilings(b', k, check, pd, id, spent, |b.tables|, asOf, since, ok);
    }
  }

  lemma ResumeCeilings(b: Books, k: nat, since: int, ok: (real, real) -> bool)
    requires CeilingsOk(b, since, ok) && k in b.open && !Asking(b.open[k].stage)
    ensures CeilingsOk(Resume(b, k).0, since, ok)
  {
    var check := b.open[k];
    assert HandCeilings(check.stage, ok);
    match check.stage
    case GotSettings(pd, id) =>
      var spent := if b.cache.Some? then b.cache.value.platformSpent else 0.0;
      PickTableCeilings(b, k, check, pd, id, spent, b.now, since, ok);
    case GotPlatform(pd, id, sum, asOf) => PickTableCeilings(b, k, check, pd, id, sum, asOf, since, ok);
    case GotInstance(pd, id, spent, table, asOf, sum) =>
  }

  lemma StepCeilings(b: Books, a: Action, since: int, ok: (real, real) -> bool)
    requires Enabled(b, a) && CeilingsOk(b, since, ok) && SettingsOk(Move(b, a).0, ok)
    ensures CeilingsOk(Move(b, a).0, since, ok)
  {
    match a
    case Begins(k, instance) =>
      if Live(b, b.now) {
        var c := b.cache.value;
        LoadInstanceCeilings(b, k, OpenCheck(instance, b.now, ForSettings), c.platformDaily, c.instanceDaily,
                             c.platformSpent, c.table, c.asOf, since, ok);
      }
    case Resumes(k) => ResumeCeilings(b, k, since, ok);
    case _ =>
  }

  lemma SettingsStay(b: Books, a: Action)
    requires Enabled(b, a) && !a.Saves?
    ensures var b' := Move(b, a).0;
            b'.platformSetting == b.platformSetting && b'.instanceSetting == b.instanceSetting
  {
  }

  /** The ceilings last saved, or those the day began with. */
  function LastSaved(bs: seq<Books>, acts: seq<Action>, n: nat): (Option<real>, Option<real>)
    requires n <= |acts| < |bs|
  {
    if n == 0 then (bs[0].platformSetting, bs[0].instanceSetting)
    else if acts[n - 1].Saves? then (acts[n - 1].platform, acts[n - 1].perInstance)
    else LastSaved(bs, acts, n - 1)
  }

  /** They are the settings at every moment, and a save leaves nothing cached. */
  lemma {:induction false} SettingsSaved(bs: seq<Books>, acts: seq<Action>, n: nat)
    requires IsRun(bs, acts) && n <= |acts|
    ensures (bs[n].platformSetting, bs[n].instanceSetting) == LastSaved(bs, acts, n)
    ensures n > 0 && acts[n - 1].Saves? ==> bs[n].cache.None?
  {
    if n > 0 {
      SettingsSaved(bs, acts, n - 1);
      if !acts[n - 1].Saves? {
        SettingsStay(bs[n - 1], acts[n - 1]);
      }
    }
  }

  // ----- Decisions as the database would make them ----------------------------------------------------------

  /** Exactly the ceilings the settings hold now. */
  function Now(b: Books): (real, real) -> bool {
    (pd: real, id: real) => pd == ParseUsd(b.platformSetting) && id == ParseUsd(b.instanceSetting)
  }

  lemma SameNow(b: Books, b': Books)
    requires b'.platformSetting == b.platformSetting && b'.instanceSetting == b.instanceSetting
    ensures Now(b') == Now(b)
  {
  }

  /** A save that finds an open check with other ceilings in hand. */
  predicate Overtakes(b: Books, a: Action) {
    a.Saves? &&
    exists k :: k in b.open && !HandCeilings(b.open[k].stage, Now(SaveSettings(b, a.platform, a.perInstance)))
  }

  /** A cost that slips from a figure the asker's check goes by, or a save that overtakes. */
  predicate Disturbs(b: Books, a: Action, asker: Option<InstanceId>)
    requires Enabled(b, a)
  {
    Slip(b, a, None) != 0.0 || Slip(b, a, asker) != 0.0 || Overtakes(b, a)
  }

  ghost predicate Undisturbed(bs: seq<Books>, acts: seq<Action>, asker: Option<InstanceId>, m: nat, n: nat)
    requires IsRun(bs, acts) && n <= |acts|
  {
    forall j :: m <= j < n ==> !Disturbs(bs[j], acts[j], asker)
  }

  lemma CeilingsFollow(b: Books, a: Action, since: int)
    requires Enabled(b, a) && CeilingsOk(b, since, Now(b)) && !Overtakes(b, a)
    ensures CeilingsOk(Move(b, a).0, since, Now(Move(b, a).0)) && !Switches(b, a)
  {
    if !a.Saves? {
      SettingsStay(b, a);
      SameNow(b, Move(b, a).0);
      StepCeilings(b, a, since, Now(b));
    } else {
      forall k | k in b.open && HasCeilings(b.open[k].stage)
        ensures ParseUsd(a.platform) == ParseUsd(b.platformSetting)
      {
        assert HandCeilings(b.open[k].stage, Now(b)) && HandCeilings(b.open[k].stage, Now(Move(b, a).0));
      }
    }
  }

  lemma {:induction false} NothingSlipped(bs: seq<Books>, acts: seq<Action>, scope: Option<InstanceId>, m: nat, n: nat)
    requires IsRun(bs, acts) && n <= |acts| && forall j :: m <= j < n ==> Slip(bs[j], acts[j], scope) == 0.0
    ensures Slipped(bs, acts, scope, m, n) == 0.0
  {
    if m < n {
      NothingSlipped(bs, acts, scope, m, n - 1);
    }
  }

  lemma {:induction false} CeilingsFollowed(bs: seq<Books>, acts: seq<Action>, m: nat, n: nat)
    requires IsRun(bs, acts) && m <= n < |bs| && Quiet(bs[m])
    requires forall j :: m <= j < n ==> !Overtakes(bs[j], acts[j])
    ensures CeilingsOk(bs[n], bs[m].now, Now(bs[n])) && Unswitched(bs, acts, m, n)
  {
    if m < n {
      CeilingsFollowed(bs, acts, m, n - 1);
      CeilingsFollow(bs[n - 1], acts[n - 1], bs[m].now);
    }
  }

  /** Exact figures and ceilings give the exact verdict. */
  lemma ExactVerdict(r: Books, asker: Option<InstanceId>)
    requires r.cache.Some? && CacheLacks(r, None, 0.0) && CacheLacks(r, asker, 0.0)
    requires Now(r)(r.cache.value.platformDaily, r.cache.value.instanceDaily)
    requires r.cache.value.instanceDaily > 0.0 ==> Holds(r, r.cache.value.table, asker)
    ensures CachedVerdict(r, asker) == FreshVerdict(r, asker)
  {
    var c := r.cache.value;
    assert c.platformDaily == ParseUsd(r.platformSetting) && c.instanceDaily == ParseUsd(r.instanceSetting);
    assert Reached(r.platformSetting, Due(r, None)) <==> c.platformDaily > 0.0 && c.platformSpent >= c.platformDaily;
    if asker.Some? && c.instanceDaily > 0.0 {
      assert InstanceSpent(r, c.table, asker) == Due(r, asker);
    }
  }

  /** The step's verdict is that of the database, if the books are exact for the asker. */
  lemma ExactStep(b: Books, a: Action, since: int)
    requires Enabled(b, a) && Move(b, a).1.Some? && !a.Fails?
    requires Accounted(b, None, since, 0.0) && Accounted(b, Asker(b, a), since, 0.0) && CeilingsOk(b, since, Now(b))
    ensures Move(b, a).1 == Some(FreshVerdict(b, Asker(b, a)))
  {
    var r := Move(b, a).0;
    VerdictGoesBy(b, a, None, since, 0.0);
    CheckAccounted(b, a, None, since, 0.0);
    CheckAccounted(b, a, Asker(b, a), since, 0.0);
    CeilingsFollow(b, a, since);
    SettingsStay(b, a);
    ExactVerdict(r, Asker(b, a));
  }

  /**
   Main result: a check decides as the database would, figures included, if since some
   moment when no check was open and the cache was old nothing disturbed the figures it
   goes by: no save overtook a check, no other process spent, and no own call finished
   while a check had one of those figures in hand, or had its row unwritten while one was
   read. How checks overlap does not matter.
   */
  lemma DecisionsFresh(bs: seq<Books>, acts: seq<Action>, m: nat, i: nat)
    requires IsRun(bs, acts) && PricedNonNegative(acts) && m <= i < |acts| && Quiet(bs[m])
    requires Move(bs[i], acts[i]).1.Some? && !acts[i].Fails?
    requires Undisturbed(bs, acts, Asker(bs[i], acts[i]), m, i)
    ensures Move(bs[i], acts[i]).1 == Some(FreshVerdict(bs[i], Asker(bs[i], acts[i])))
  {
    var asker := Asker(bs[i], acts[i]);
    forall j | m <= j < i
      ensures !Overtakes(bs[j], acts[j]) && Slip(bs[j], acts[j], None) == Slip(bs[j], acts[j], asker) == 0.0
    {
      assert !Disturbs(bs[j], acts[j], asker);
    }
    CeilingsFollowed(bs, acts, m, i);
    NothingSlipped(bs, acts, None, m, i);
    NothingSlipped(bs, acts, asker, m, i);
    FiguresAccounted(bs, acts, None, m, i);
    FiguresAccounted(bs, acts, asker, m, i);
    ExactStep(bs[i], acts[i], bs[m].now);
  }

  // ----- Overshoot --------------------------------------------------------------------------------------------

  /** The last moment, up to step `n`, when no check was open and the cache was old: the day's start is one. */
  function LastQuiet(bs: seq<Books>, n: nat): (m: nat)
    requires n < |bs|
    ensures m <= n && (m > 0 ==> Quiet(bs[m]))
  {
    if n == 0 || Quiet(bs[n]) then n else LastQuiet(bs, n - 1)
  }

  /** The most that ever slipped from the scope's figures between two such moments. */
  ghost function MostSlipped(bs: seq<Books>, acts: seq<Action>, scope: Option<InstanceId>, n: nat): real
    requires IsRun(bs, acts) && n <= |acts|
  {
    var since := Slipped(bs, acts, scope, LastQuiet(bs, n), n);
    if n == 0 || MostSlipped(bs, acts, scope, n - 1) <= since then since else MostSlipped(bs, acts, scope, n - 1)
  }

  /** A covered call is let go by the step, or comes back with it. */
  function Turnover(b: Books, a: Action, scope: Option<InstanceId>): int
    requires Enabled(b, a)
  {
    if Move(b, a).1 == Some(Allowed) && Covers(scope, Asker(b, a)) then 1
    else if a.Ends? && Covers(scope, a.own) then -1
    else 0
  }

  /** The calls a ceiling covers that were allowed and have not finished, after `n` steps. */
  ghost function InFlight(bs: seq<Books>, acts: seq<Action>, scope: Option<InstanceId>, n: nat): int
    requires n <= |acts| <= |bs| && forall i :: 0 <= i < |acts| ==> Enabled(bs[i], acts[i])
  {
    if n == 0 then 0
    else
      InFlight(bs, acts, scope, n - 1) + Turnover(bs[n - 1], acts[n - 1], scope)
  }

  /** The ceilings of the scope are set, and none is above `ceiling`. */
  function Below(scope: Option<InstanceId>, ceiling: real): (real, real) -> bool {
    (pd: real, id: real) => 0.0 < (if scope.None? then pd else id) <= ceiling
  }

  /**
   One process whose database answers: every setting saved is a ceiling up to
   `ceiling`, calls cost up to `most`, at most `n` are in flight, and a call ends
   only after it was allowed.
   */
  ghost predicate WithinLimits(bs: seq<Books>, acts: seq<Action>, scope: Option<InstanceId>,
                               ceiling: real, most: real, n: nat)
    requires IsRun(bs, acts)
  {
    && PricedNonNegative(acts) && most >= 0.0 && SettingsOk(bs[0], Below(scope, ceiling))
    && (forall i :: 0 <= i < |acts| ==>
          && !acts[i].Fails? && !acts[i].SpendsElsewhere?
          && (acts[i].Saves? ==> SettingsOk(bs[i + 1], Below(scope, ceiling)))
          && (acts[i].Ends? && acts[i].cost.Some? ==> acts[i].cost.value <= most))
    && forall i :: 0 <= i <= |acts| ==> 0 <= InFlight(bs, acts, scope, i) <= n
  }

  lemma {:induction false} CeilingsWithin(bs: seq<Books>, acts: seq<Action>, scope: Option<InstanceId>,
                                          ceiling: real, most: real, n: nat, i: nat)
    requires IsRun(bs, acts) && WithinLimits(bs, acts, scope, ceiling, most, n) && i < |bs|
    ensures CeilingsOk(bs[i], bs[0].now, Below(scope, ceiling))
  {
    if i > 0 {
      CeilingsWithin(bs, acts, scope, ceiling, most, n, i - 1);
      if !acts[i - 1].Saves? {
        SettingsStay(bs[i - 1], acts[i - 1]);
      }
      StepCeilings(bs[i - 1], acts[i - 1], bs[0].now, Below(scope, ceiling));
    }
  }

  /** A platform ceiling that is always set is never switched. */
  lemma NeverSwitched(bs: seq<Books>, acts: seq<Action>, ceiling: real, most: real, n: nat, m: nat, i: nat)
    requires IsRun(bs, acts) && WithinLimits(bs, acts, None, ceiling, most, n) && i <= |acts|
    ensures Unswitched(bs, acts, m, i)
  {
    forall j | m <= j < i ensures !Switches(bs[j], acts[j]) {
      CeilingsWithin(bs, acts, None, ceiling, most, n, j);
      CeilingsWithin(bs, acts, None, ceiling, most, n, j + 1);
    }
  }

  /** An allowed check found its figure below the ceiling, so what is due is below it but for what the figure lacks. */
  lemma AllowedBelow(r: Books, scope: Option<InstanceId>, asker: Option<InstanceId>, ceiling: real, u: real)
    requires r.cache.Some? && CacheLacks(r, scope, u) && Covers(scope, asker)
    requires Below(scope, ceiling)(r.cache.value.platformDaily, r.cache.value.instanceDaily)
    requires r.cache.value.instanceDaily > 0.0 ==> Holds(r, r.cache.value.table, asker)
    requires CachedVerdict(r, asker) == Allowed
    ensures Due(r, scope) < ceiling + u
  {
  }

  lemma {:induction false} ClockRuns(bs: seq<Books>, acts: seq<Action>, i: nat)
    requires IsRun(bs, acts) && i < |bs|
    ensures bs[0].now <= bs[i].now
  {
    if i > 0 {
      ClockRuns(bs, acts, i - 1);
      assert Enabled(bs[i - 1], acts[i - 1]) && bs[i] == Move(bs[i - 1], acts[i - 1]).0;
    }
  }

  lemma CheckedBelow(bs: seq<Books>, acts: seq<Action>, scope: Option<InstanceId>,
                     ceiling: real, most: real, n: nat, i: nat)
    requires IsRun(bs, acts) && WithinLimits(bs, acts, scope, ceiling, most, n) && i < |acts|
    requires Move(bs[i], acts[i]).1 == Some(Allowed) && Covers(scope, Asker(bs[i], acts[i]))
    ensures Due(bs[i + 1], scope) < ceiling + Slipped(bs, acts, scope, LastQuiet(bs, i), i)
  {
    var b, a, m := bs[i], acts[i], LastQuiet(bs, i);
    var u := Slipped(bs, acts, scope, m, i);
    if scope.None? {
      NeverSwitched(bs, acts, ceiling, most, n, m, i);
    }
    FiguresAccounted(bs, acts, scope, m, i);
    SlippedGrows(bs, acts, scope, m, i);
    VerdictGoesBy(b, a, scope, bs[m].now, u);
    CheckAccounted(b, a, scope, bs[m].now, u);
    CeilingsWithin(bs, acts, scope, ceiling, most, n, i + 1);
    ClockRuns(bs, acts, m);
    AllowedBelow(bs[i + 1], scope, Asker(b, a), ceiling, u);
  }

  lemma {:induction false} OvershootUpTo(bs: seq<Books>, acts: seq<Action>, scope: Option<InstanceId>,
                                         ceiling: real, most: real, n: nat, i: nat)
    requires IsRun(bs, acts) && WithinLimits(bs, acts, scope, ceiling, most, n) && i < |bs|
    ensures Due(bs[i], scope) + Worth(InFlight(bs, acts, scope, i), most)
            < ceiling + Worth(n, most) + MostSlipped(bs, acts, scope, i)
  {
    if i == 0 {
      WorthMonotone(0, n, most);
    } else {
      OvershootUpTo(bs, acts, scope, ceiling, most, n, i - 1);
      MostSlippedGrows(bs, acts, scope, i);
      if Move(bs[i - 1], acts[i - 1]).1 == Some(Allowed) && Covers(scope, Asker(bs[i - 1], acts[i - 1])) {
        CheckedBelow(bs, acts, scope, ceiling, most, n, i - 1);
        WorthMonotone(InFlight(bs, acts, scope, i), n, most);
      } else {
        NotLetGo(bs, acts, scope, ceiling, most, n, i);
      }
    }
  }

  lemma NotLetGo(bs: seq<Books>, acts: seq<Action>, scope: Option<InstanceId>,
                 ceiling: real, most: real, n: nat, i: nat)
    requires IsRun(bs, acts) && WithinLimits(bs, acts, scope, ceiling, most, n) && 0 < i < |bs|
    requires !(Move(bs[i - 1], acts[i - 1]).1 == Some(Allowed) && Covers(scope, Asker(bs[i - 1], acts[i - 1])))
    ensures Due(bs[i], scope) + Worth(InFlight(bs, acts, scope, i), most) <=
            Due(bs[i - 1], scope) + Worth(InFlight(bs, acts, scope, i - 1), most)
  {
    NoneAllowed(bs[i - 1], acts[i - 1], scope,
                InFlight(bs, acts, scope, i - 1), InFlight(bs, acts, scope, i), most);
  }

  lemma MostSlippedGrows(bs: seq<Books>, acts: seq<Action>, scope: Option<InstanceId>, i: nat)
    requires IsRun(bs, acts) && 0 < i <= |acts|
    ensures Slipped(bs, acts, scope, LastQuiet(bs, i - 1), i - 1) <= MostSlipped(bs, acts, scope, i - 1)
    ensures MostSlipped(bs, acts, scope, i - 1) <= MostSlipped(bs, acts, scope, i)
  {
  }

  /** A step that lets no covered call go does not raise what is due and the exposure together. */
  lemma NoneAllowed(b: Books, a: Action, scope: Option<InstanceId>, before: nat, after: nat, most: real)
    requires Enabled(b, a) && !a.SpendsElsewhere? && most >= 0.0 && after == before + Turnover(b, a, scope)
    requires a.Ends? && a.cost.Some? ==> 0.0 <= a.cost.value <= most
    requires !(Move(b, a).1 == Some(Allowed) && Covers(scope, Asker(b, a)))
    ensures Due(Move(b, a).0, scope) + Worth(after, most) <= Due(b, scope) + Worth(before, most)
  {
    match a
    case Ends(own, cost) => EndDue(b, own, cost, scope);
    case Writes(i) => WriteDue(b, i, scope);
    case _ => RowsStay(b, a);
  }

  lemma RowsStay(b: Books, a: Action)
    requires Enabled(b, a) && !a.Ends? && !a.Writes? && !a.SpendsElsewhere?
    ensures Move(b, a).0.rows == b.rows && Move(b, a).0.unwritten == b.unwritten
  {
  }

  /**
   Main result: the day's spend of the platform, and of each instance, stays below its
   highest ceiling, plus the worst cost of the calls that may be in flight at once, plus
   the most that slipped between two moments when no check was open and the cache was old.
   */
  lemma OvershootBounded(bs: seq<Books>, acts: seq<Action>, scope: Option<InstanceId>,
                         ceiling: real, most: real, n: nat, i: nat)
    requires IsRun(bs, acts) && WithinLimits(bs, acts, scope, ceiling, most, n) && i < |bs|
    ensures Spent(bs[i].rows, scope, None) <= Due(bs[i], scope)
    ensures Due(bs[i], scope) < ceiling + n as real * most + MostSlipped(bs, acts, scope, i)
  {
    NonNegative(bs, acts, i);
    OwedNonNegative(bs[i].unwritten, scope);
    OvershootUpTo(bs, acts, scope, ceiling, most, n, i);
    WorthMonotone(0, InFlight(bs, acts, scope, i), most);
    WorthIs(n, most);
  }

  /** In particular, while nothing slips from the scope's figures, by the calls in flight alone. */
  lemma OvershootByFlightOnly(bs: seq<Books>, acts: seq<Action>, scope: Option<InstanceId>,
                              ceiling: real, most: real, n: nat, i: nat)
    requires IsRun(bs, acts) && WithinLimits(bs, acts, scope, ceiling, most, n) && i < |bs|
    requires forall j :: 0 <= j < i ==> Slip(bs[j], acts[j], scope) == 0.0
    ensures Spent(bs[i].rows, scope, None) <= Due(bs[i], scope) < ceiling + n as real * most
  {
    OvershootBounded(bs, acts, scope, ceiling, most, n, i);
    NoneSlipped(bs, acts, scope, i);
  }

  lemma {:induction false} NoneSlipped(bs: seq<Books>, acts: seq<Action>, scope: Option<InstanceId>, n: nat)
    requires IsRun(bs, acts) && n <= |acts| && forall j :: 0 <= j < n ==> Slip(bs[j], acts[j], scope) == 0.0
    ensures MostSlipped(bs, acts, scope, n) == 0.0
  {
    NothingSlipped(bs, acts, scope, LastQuiet(bs, n), n);
    if n > 0 {
      NoneSlipped(bs, acts, scope, n - 1);
    }
  }
}
