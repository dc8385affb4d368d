/**
 Runs of the budget check: any number of checks open at once, each moving from wait
 to wait in its own time, between this process's calls, other processes' calls, and
 changes of the settings.
 */
module BudgetRuns {
  import opened Options
  import opened Budget

  datatype Action =
    | Begins(k: nat, instance: Option<InstanceId>)
    | Answers(k: nat)
    | Resumes(k: nat)
    | Fails(k: nat)
    | Ends(own: Option<InstanceId>, cost: Option<real>)                // a call of this process is done, and noted
    | Writes(i: nat)                                                   // the insert of such a call's row
    | SpendsElsewhere(other: Option<InstanceId>, cost: Option<real>)   // a call of another process
    | Saves(platform: Option<real>, perInstance: Option<real>)
    | Waits(ms: nat)

  predicate Enabled(b: Books, a: Action) {
    match a
    case Begins(k, _) => k !in b.open
    case Answers(k) => k in b.open && Asking(b.open[k].stage)
    case Fails(k) => k in b.open && Asking(b.open[k].stage)
    case Resumes(k) => k in b.open && !Asking(b.open[k].stage)
    case Writes(i) => i < |b.unwritten|
    case _ => true
  }

  /** The step, and the verdict of the check that ends with it. */
  function Move(b: Books, a: Action): (Books, Option<Verdict>)
    requires Enabled(b, a)
  {
    match a
    case Begins(k, instance) => Begin(b, k, instance)
    case Answers(k) => (Answer(b, k), None)
    case Resumes(k) => Resume(b, k)
    case Fails(k) => Fail(b, k)
    case Ends(instance, cost) => (End(b, instance, cost), None)
    case Writes(i) => (Write(b, i), None)
    case SpendsElsewhere(instance, cost) => (b.(rows := b.rows + [Row(b.now, instance, cost)]), None)
    case Saves(platform, instance) => (SaveSettings(b, platform, instance), None)
    case Waits(ms) => (b.(now := b.now + ms), None)
  }

  /** The instance whose check ends with the step. */
  function Asker(b: Books, a: Action): Option<InstanceId>
    requires Enabled(b, a)
  {
    match a
    case Begins(_, instance) => instance
    case Answers(k) => b.open[k].instance
    case Resumes(k) => b.open[k].instance
    case Fails(k) => b.open[k].instance
    case _ => None
  }

  /** `bs` are the states of a day's run of one process; it starts with nothing cached and nothing spent. */
  ghost predicate IsRun(bs: seq<Books>, acts: seq<Action>) {
    && |bs| == |acts| + 1
    && bs[0].cache.None? && bs[0].tables == [] && bs[0].open == map[] && bs[0].unwritten == [] && bs[0].rows == []
    && forall i :: 0 <= i < |acts| ==> Enabled(bs[i], acts[i]) && bs[i + 1] == Move(bs[i], acts[i]).0
  }

  /** One more step. */
  lemma Appended(bs: seq<Books>, acts: seq<Action>, a: Action) returns (more: seq<Books>, moreActs: seq<Action>)
    requires IsRun(bs, acts) && Enabled(bs[|acts|], a)
    ensures more == bs + [Move(bs[|acts|], a).0] && moreActs == acts + [a] && IsRun(more, moreActs)
  {
    more, moreActs := bs + [Move(bs[|acts|], a).0], acts + [a];
    forall i | 0 <= i < |moreActs|
      ensures Enabled(more[i], moreActs[i]) && more[i + 1] == Move(more[i], moreActs[i]).0
    {
      if i < |acts| {
        assert Enabled(bs[i], acts[i]) && bs[i + 1] == Move(bs[i], acts[i]).0;
      }
    }
  }

  predicate Costs(a: Action) {
    (a.Ends? || a.SpendsElsewhere?) && a.cost.Some?
  }

  ghost predicate PricedNonNegative(acts: seq<Action>) {
    forall i :: 0 <= i < |acts| && Costs(acts[i]) ==> acts[i].cost.value >= 0.0
  }

  // ----- What slips past a check ---------------------------------------------------------------------------

  /** The Map knows the scope, and it is not the one that notes go to. */
  predicate MapMisses(b: Books, table: nat, scope: Option<InstanceId>) {
    && scope.Some? && scope.value in SumsIn(b, table)
    && !(b.cache.Some? && b.cache.value.table == table)
  }

  /** The check has a copy of the scope's figure in hand that no note reaches, and will store it. */
  predicate Misses(b: Books, c: OpenCheck, scope: Option<InstanceId>) {
    match c.stage
    case GotPlatform(_, _, _, _) => scope.None?
    case ForInstance(pd, _, _, table, _) =>
      if scope.None? then pd > 0.0 else scope != c.instance && MapMisses(b, table, scope)
    case GotInstance(pd, _, _, table, _, _) =>
      if scope.None? then pd > 0.0 else scope == c.instance || MapMisses(b, table, scope)
    case _ => false
  }

  /** A spend that some figure of the scope does not hear of: another process's, or one an open check misses. */
  predicate Slips(b: Books, a: Action, scope: Option<InstanceId>) {
    || (a.SpendsElsewhere? && Covers(scope, a.other))
    || (a.Ends? && Covers(scope, a.own) && exists k :: k in b.open && Misses(b, b.open[k], scope))
  }

  /** The check's query is for the scope's figure. */
  predicate Reads(c: OpenCheck, scope: Option<InstanceId>) {
    match c.stage
    case ForPlatform(_, _) => scope.None?
    case ForInstance(_, _, _, _, _) => scope == c.instance
    case _ => false
  }

  /** What slips with the step; a query answered while rows are unwritten lets those slip. */
  function Slip(b: Books, a: Action, scope: Option<InstanceId>): real
    requires Enabled(b, a)
  {
    if a.Answers? && Reads(b.open[a.k], scope) then Owed(b.unwritten, scope)
    else if Slips(b, a, scope) then CostOf(a.cost)
    else 0.0
  }

  /** What slipped from step `m` up to step `n`. */
  ghost function Slipped(bs: seq<Books>, acts: seq<Action>, scope: Option<InstanceId>, m: nat, n: nat): real
    requires IsRun(bs, acts) && n <= |acts|
  {
    if n <= m then 0.0 else Slipped(bs, acts, scope, m, n - 1) + Slip(bs[n - 1], acts[n - 1], scope)
  }

  // ----- Rows still to be written ----------------------------------------------------------------------------

  /** No unwritten row has a negative cost. */
  ghost predicate OwesNothingBack(b: Books) {
    forall i :: 0 <= i < |b.unwritten| ==> CostOf(b.unwritten[i].cost) >= 0.0
  }

  lemma {:induction false} OwedNonNegative(unwritten: seq<Charge>, scope: Option<InstanceId>)
    requires forall i :: 0 <= i < |unwritten| ==> CostOf(unwritten[i].cost) >= 0.0
    ensures Owed(unwritten, scope) >= 0.0
  {
    if unwritten != [] {
      OwedNonNegative(unwritten[..|unwritten| - 1], scope);
    }
  }

  lemma OwedAppends(unwritten: seq<Charge>, c: Charge, scope: Option<InstanceId>)
    ensures Owed(unwritten + [c], scope) ==
            Owed(unwritten, scope) + if Covers(scope, c.instance) then CostOf(c.cost) else 0.0
  {
    assert (unwritten + [c])[..|unwritten|] == unwritten;
  }

  lemma {:induction false} OwedWithout(unwritten: seq<Charge>, i: nat, scope: Option<InstanceId>)
    requires i < |unwritten|
    ensures Owed(unwritten[..i] + unwritten[i + 1..], scope) ==
            Owed(unwritten, scope) - if Covers(scope, unwritten[i].instance) then CostOf(unwritten[i].cost) else 0.0
  {
    var n := |unwritten| - 1;
    if i == n {
      assert unwritten[..i] + unwritten[i + 1..] == unwritten[..n];
    } else {
      OwedWithout(unwritten[..n], i, scope);
      OwedAppends(unwritten[..n][..i] + unwritten[..n][i + 1..], unwritten[n], scope);
      assert unwritten[..i] + unwritten[i + 1..] == unwritten[..n][..i] + unwritten[..n][i + 1..] + [unwritten[n]];
    }
  }

  /** Writing a row changes nothing of what is due. */
  lemma WriteDue(b: Books, i: nat, scope: Option<InstanceId>)
    requires i < |b.unwritten|
    ensures Due(Write(b, i), scope) == Due(b, scope)
  {
    var c := b.unwritten[i];
    OwedWithout(b.unwritten, i, scope);
    SpentAppends(b.rows, Row(b.now, c.instance, c.cost), scope, None);
  }

  lemma EndDue(b: Books, instance: Option<InstanceId>, cost: Option<real>, scope: Option<InstanceId>)
    ensures Due(End(b, instance, cost), scope) ==
            Due(b, scope) + if Covers(scope, instance) then CostOf(cost) else 0.0
  {
    OwedAppends(b.unwritten, Charge(instance, cost), scope);
  }

  // ----- What the figures of a scope lack -------------------------------------------------------------------

  /** A figure never holds what was not spent, and lacks at most `u` of what was. */
  predicate Lacks(b: Books, scope: Option<InstanceId>, figure: real, u: real) {
    0.0 <= Due(b, scope) - figure <= u
  }

  predicate Capped(b: Books) {
    ParseUsd(b.platformSetting) > 0.0
  }

  /** A platform ceiling that was read is set if and only if the one in the settings is. */
  predicate CapFits(b: Books, scope: Option<InstanceId>, platformDaily: real) {
    scope.None? ==> (platformDaily > 0.0 <==> Capped(b))
  }

  predicate PlatformLacks(b: Books, scope: Option<InstanceId>, platformDaily: real, spent: real, u: real) {
    CapFits(b, scope, platformDaily) && (scope.None? && platformDaily > 0.0 ==> Lacks(b, None, spent, u))
  }

  predicate TableLacks(b: Books, scope: Option<InstanceId>, table: nat, u: real) {
    && table < |b.tables|
    && (scope.Some? && scope.value in SumsIn(b, table) ==> Lacks(b, scope, SumsIn(b, table)[scope.value], u))
  }

  predicate CacheLacks(b: Books, scope: Option<InstanceId>, u: real)
    requires b.cache.Some?
  {
    && PlatformLacks(b, scope, b.cache.value.platformDaily, b.cache.value.platformSpent, u)
    && TableLacks(b, scope, b.cache.value.table, u)
  }

  predicate HandLacks(b: Books, c: OpenCheck, scope: Option<InstanceId>, u: real) {
    match c.stage
    case ForSettings => true
    case GotSettings(pd, _) => CapFits(b, scope, pd)
    case ForPlatform(pd, _) => pd > 0.0 && CapFits(b, scope, pd)
    case GotPlatform(pd, _, sum, _) => pd > 0.0 && PlatformLacks(b, scope, pd, sum, u)
    case ForInstance(pd, _, spent, table, _) =>
      && c.instance.Some? && table < |b.tables| && PlatformLacks(b, scope, pd, spent, u)
      && (scope != c.instance ==> TableLacks(b, scope, table, u))
    case GotInstance(pd, _, spent, table, _, sum) =>
      && c.instance.Some? && table < |b.tables| && PlatformLacks(b, scope, pd, spent, u)
      && if scope == c.instance then Lacks(b, scope, sum, u) else TableLacks(b, scope, table, u)
  }

  /**
   Every figure of the scope, in the hands of an open check or in a cache that checks
   begun at `since` or later may use, lacks at most `u`.
   */
  ghost predicate Accounted(b: Books, scope: Option<InstanceId>, since: int, u: real) {
    && since <= b.now && OwesNothingBack(b)
    && (Live(b, since) ==> CacheLacks(b, scope, u))
    && forall k :: k in b.open ==> since <= b.open[k].began && HandLacks(b, b.open[k], scope, u)
  }

  /** No check is open, and the cache is too old for the next one. */
  predicate Quiet(b: Books) {
    b.open == map[] && !Live(b, b.now)
  }

  predicate HasCeilings(s: Stage) {
    !s.ForSettings?
  }

  /** A save switches the platform ceiling on or off under a check that has read it. */
  predicate Switches(b: Books, a: Action) {
    && a.Saves? && (ParseUsd(a.platform) > 0.0 <==> !Capped(b))
    && exists k :: k in b.open && HasCeilings(b.open[k].stage)
  }

  // ----- A check's steps keep account ------------------------------------------------------------------------

  /** What a figure lacks depends on what is due, the Maps and the platform's setting alone. */
  lemma HandFrame(b: Books, b': Books, c: OpenCheck, scope: Option<InstanceId>, u: real)
    requires Due(b', scope) == Due(b, scope) && b'.tables == b.tables && b'.platformSetting == b.platformSetting
    requires HandLacks(b, c, scope, u)
    ensures HandLacks(b', c, scope, u)
  {
  }

  lemma AwaitAccounted(b: Books, k: nat, check: OpenCheck, scope: Option<InstanceId>, since: int, u: real)
    requires Accounted(b, scope, since, u) && since <= check.began && HandLacks(b, check, scope, u)
    ensures Accounted(Await(b, k, check).0, scope, since, u)
  {
    var b' := Await(b, k, check).0;
    forall j | j in b'.open ensures HandLacks(b', b'.open[j], scope, u) {
      HandFrame(b, b', b'.open[j], scope, u);
    }
  }

  lemma StoreAccounted(b: Books, k: nat, check: OpenCheck, pd: real, id: real, spent: real, table: nat, asOf: int,
                       scope: Option<InstanceId>, since: int, u: real)
    requires Accounted(b, scope, since, u) && since <= check.began
    requires PlatformLacks(b, scope, pd, spent, u) && TableLacks(b, scope, table, u)
    ensures Accounted(Store(b, k, check, pd, id, spent, table, asOf).0, scope, since, u)
  {
    var r := Store(b, k, check, pd, id, spent, table, asOf).0;
    forall j | j in r.open ensures j in b.open && r.open[j] == b.open[j] && HandLacks(r, r.open[j], scope, u) {
      HandFrame(b, r, b.open[j], scope, u);
    }
    assert TableLacks(r, scope, table, u);
  }

  lemma LoadInstanceAccounted(b: Books, k: nat, check: OpenCheck, pd: real, id: real, spent: real, table: nat,
                              asOf: int, scope: Option<InstanceId>, since: int, u: real)
    requires Accounted(b, scope, since, u) && since <= check.began
    requires PlatformLacks(b, scope, pd, spent, u) && TableLacks(b, scope, table, u)
    ensures Accounted(LoadInstance(b, k, check, pd, id, spent, table, asOf).0, scope, since, u)
  {
    if !Holds(b, table, check.instance) && id > 0.0 {
      AwaitAccounted(b, k, check.(stage := ForInstance(pd, id, spent, table, asOf)), scope, since, u);
    } else {
      StoreAccounted(b, k, check, pd, id, spent, table, asOf, scope, since, u);
    }
  }

  lemma NewTableAccounted(b: Books, scope: Option<InstanceId>, since: int, u: real)
    requires Accounted(b, scope, since, u)
    ensures var b' := b.(tables := b.tables + [Table(b.now, map[])]);
            Accounted(b', scope, since, u) && TableLacks(b', scope, |b.tables|, u)
  {
    var b' := b.(tables := b.tables + [Table(b.now, map[])]);
    forall t: nat | t < |b.tables| ensures SumsIn(b', t) == SumsIn(b, t) {}
  }

  lemma PickTableAccounted(b: Books, k: nat, check: OpenCheck, pd: real, id: real, spent: real, asOf: int,
                           scope: Option<InstanceId>, since: int, u: real)
    requires Accounted(b, scope, since, u) && since <= check.began && PlatformLacks(b, scope, pd, spent, u)
    ensures Accounted(PickTable(b, k, check, pd, id, spent, asOf).0, scope, since, u)
  {
    if Live(b, check.began) {
      var earlier := if b.cache.value.asOf < asOf then b.cache.value.asOf else asOf;
      LoadInstanceAccounted(b, k, check, pd, id, spent, b.cache.value.table, earlier, scope, since, u);
    } else {
      var b' := b.(tables := b.tables + [Table(b.now, map[])]);
      NewTableAccounted(b, scope, since, u);
      LoadInstanceAccounted(b', k, check, pd, id, spent, |b.tables|, asOf, scope, since, u);
    }
  }

  lemma WithSumAccounted(b: Books, k: nat, sum: real, scope: Option<InstanceId>, since: int, u: real)
    requires Accounted(b, scope, since, u) && k in b.open && b.open[k].stage.GotInstance?
    ensures var c := b.open[k];
            var b' := WithSum(b, c.stage.table, c.instance, c.stage.sum);
            Accounted(b', scope, since, u) && TableLacks(b', scope, c.stage.table, u)
  {
    var c := b.open[k];
    var b' := WithSum(b, c.stage.table, c.instance, c.stage.sum);
    assert HandLacks(b, c, scope, u);
    forall t: nat | TableLacks(b, scope, t, u) ensures TableLacks(b', scope, t, u) {
      var sums := SumsIn(b, t);
      assert SumsIn(b', t) == if t == c.stage.table then sums[c.instance.value := c.stage.sum] else sums;
    }
  }

  lemma ResumeAccounted(b: Books, k: nat, scope: Option<InstanceId>, since: int, u: real)
    requires Accounted(b, scope, since, u) && k in b.open && !Asking(b.open[k].stage)
    ensures Accounted(Resume(b, k).0, scope, since, u)
  {
    var check := b.open[k];
    assert HandLacks(b, check, scope, u);
    match check.stage
    case GotSettings(pd, id) =>
      if pd > 0.0 && !Live(b, check.began) {
        AwaitAccounted(b, k, check.(stage := ForPlatform(pd, id)), scope, since, u);
      } else {
        var spent := if b.cache.Some? then b.cache.value.platformSpent else 0.0;
        PickTableAccounted(b, k, check, pd, id, spent, b.now, scope, since, u);
      }
    case GotPlatform(pd, id, sum, asOf) => PickTableAccounted(b, k, check, pd, id, sum, asOf, scope, since, u);
    case GotInstance(pd, id, spent, table, asOf, sum) =>
      WithSumAccounted(b, k, sum, scope, since, u);
      StoreAccounted(WithSum(b, table, check.instance, sum), k, check, pd, id, spent, table, asOf, scope, since, u);
  }

  lemma BeginAccounted(b: Books, k: nat, instance: Option<InstanceId>, scope: Option<InstanceId>, since: int, u: real)
    requires Accounted(b, scope, since, u)
    ensures Accounted(Begin(b, k, instance).0, scope, since, u)
  {
    if !Live(b, b.now) {
      AwaitAccounted(b, k, OpenCheck(instance, b.now, ForSettings), scope, since, u);
    } else if !Holds(b, b.cache.value.table, instance) {
      var c := b.cache.value;
      LoadInstanceAccounted(b, k, OpenCheck(instance, b.now, ForSettings), c.platformDaily, c.instanceDaily,
                            c.platformSpent, c.table, c.asOf, scope, since, u);
    } else {
      DecideAccounted(b, instance, scope, since, u);
    }
  }

  lemma DecideAccounted(b: Books, instance: Option<InstanceId>, scope: Option<InstanceId>, since: int, u: real)
    requires Accounted(b, scope, since, u) && b.cache.Some?
    ensures Accounted(Decide(b, instance).0, scope, since, u)
  {
    var b' := Decide(b, instance).0;
    forall j | j in b'.open ensures HandLacks(b', b'.open[j], scope, u) {
      HandFrame(b, b', b.open[j], scope, u);
    }
  }

  /** A sum read now lacks the rows still to be written. */
  lemma AnswerAccounted(b: Books, k: nat, scope: Option<InstanceId>, since: int, u: real, more: real)
    requires Accounted(b, scope, since, u) && u >= 0.0 && k in b.open && Asking(b.open[k].stage)
    requires more == u + Slip(b, Answers(k), scope)
    ensures Accounted(Answer(b, k), scope, since, more)
  {
    OwedNonNegative(b.unwritten, scope);
    AccountedMore(b, scope, since, u, more);
    assert HandLacks(b, b.open[k], scope, more);
    AwaitAccounted(b, k, b.open[k].(stage := Answered(b, b.open[k])), scope, since, more);
  }

  lemma AccountedMore(b: Books, scope: Option<InstanceId>, since: int, u: real, more: real)
    requires Accounted(b, scope, since, u) && u <= more
    ensures Accounted(b, scope, since, more)
  {
    forall k | k in b.open ensures HandLacks(b, b.open[k], scope, more) {
      assert HandLacks(b, b.open[k], scope, u);
    }
  }

  predicate OfCheck(a: Action) {
    a.Begins? || a.Resumes? || a.Fails?
  }

  lemma CheckAccounted(b: Books, a: Action, scope: Option<InstanceId>, since: int, u: real)
    requires Enabled(b, a) && OfCheck(a) && Accounted(b, scope, since, u)
    ensures Accounted(Move(b, a).0, scope, since, u)
  {
    match a
    case Begins(k, instance) => BeginAccounted(b, k, instance, scope, since, u);
    case Resumes(k) => ResumeAccounted(b, k, scope, since, u);
    case Fails(k) =>
      var b' := Fail(b, k).0;
      forall j | j in b'.open ensures HandLacks(b', b'.open[j], scope, u) {
        HandFrame(b, b', b'.open[j], scope, u);
      }
  }

  lemma StillAccounted(b: Books, a: Action, scope: Option<InstanceId>, since: int, u: real)
    requires Accounted(b, scope, since, u) && (a.Saves? || a.Waits?) && (scope.None? ==> !Switches(b, a))
    ensures Accounted(Move(b, a).0, scope, since, u)
  {
    var b' := Move(b, a).0;
    forall j | j in b'.open ensures HandLacks(b', b'.open[j], scope, u) {
      assert HandLacks(b, b.open[j], scope, u);
    }
  }

  lemma WriteAccounted(b: Books, i: nat, scope: Option<InstanceId>, since: int, u: real)
    requires Accounted(b, scope, since, u) && i < |b.unwritten|
    ensures Accounted(Write(b, i), scope, since, u)
  {
    var b' := Write(b, i);
    WriteDue(b, i, scope);
    forall j | j in b'.open ensures HandLacks(b', b'.open[j], scope, u) {
      HandFrame(b, b', b.open[j], scope, u);
    }
  }

  // ----- Calls end ---------------------------------------------------------------------------------------

  /** More is due: a figure that did not hear of it lacks it too, one that did lacks what it lacked. */
  lemma DueGrows(b: Books, b': Books, more: real, scope: Option<InstanceId>, figure: real, u: real)
    requires Due(b', scope) == Due(b, scope) + more && Lacks(b, scope, figure, u)
    ensures more >= 0.0 ==> Lacks(b', scope, figure, u + more)
    ensures Lacks(b', scope, figure + more, u)
  {
  }

  /** `more` leaves room for the cost, if the call belongs to the scope and the figure misses it. */
  predicate Room(scope: Option<InstanceId>, instance: Option<InstanceId>, cost: real, missed: bool, u: real, more: real)
  {
    cost >= 0.0 && more >= u && (missed && Covers(scope, instance) ==> more >= u + cost)
  }

  /** A figure no note reaches. */
  lemma EndFigure(b: Books, instance: Option<InstanceId>, cost: Option<real>, scope: Option<InstanceId>,
                  figure: real, u: real, more: real)
    requires Lacks(b, scope, figure, u) && Room(scope, instance, CostOf(cost), true, u, more)
    ensures Lacks(End(b, instance, cost), scope, figure, more)
  {
    EndDue(b, instance, cost, scope);
  }

  lemma EndTables(b: Books, instance: Option<InstanceId>, cost: Option<real>, scope: Option<InstanceId>, t: nat,
                  u: real, more: real)
    requires TableLacks(b, scope, t, u) && Room(scope, instance, CostOf(cost), MapMisses(b, t, scope), u, more)
    ensures TableLacks(End(b, instance, cost), scope, t, more)
  {
    var b' := End(b, instance, cost);
    if scope.Some? && scope.value in SumsIn(b', t) {
      assert scope.value in SumsIn(b, t);
      EndDue(b, instance, cost, scope);
    }
  }

  lemma EndPlatform(b: Books, instance: Option<InstanceId>, cost: Option<real>, scope: Option<InstanceId>,
                    pd: real, spent: real, u: real, more: real)
    requires PlatformLacks(b, scope, pd, spent, u)
    requires Room(scope, instance, CostOf(cost), scope.None? && pd > 0.0, u, more)
    ensures PlatformLacks(End(b, instance, cost), scope, pd, spent, more)
  {
    if scope.None? && pd > 0.0 {
      EndFigure(b, instance, cost, None, spent, u, more);
    }
  }

  lemma EndHand(b: Books, instance: Option<InstanceId>, cost: Option<real>, c: OpenCheck,
                scope: Option<InstanceId>, u: real, more: real)
    requires HandLacks(b, c, scope, u) && Room(scope, instance, CostOf(cost), Misses(b, c, scope), u, more)
    ensures HandLacks(End(b, instance, cost), c, scope, more)
  {
    match c.stage
    case GotPlatform(pd, _, sum, _) => EndPlatform(b, instance, cost, scope, pd, sum, u, more);
    case ForInstance(pd, _, spent, table, _) =>
      EndPlatform(b, instance, cost, scope, pd, spent, u, more);
      if scope != c.instance {
        EndTables(b, instance, cost, scope, table, u, more);
      }
    case GotInstance(pd, _, spent, table, _, sum) =>
      EndPlatform(b, instance, cost, scope, pd, spent, u, more);
      if scope != c.instance {
        EndTables(b, instance, cost, scope, table, u, more);
      } else {
        EndFigure(b, instance, cost, scope, sum, u, more);
      }
    case _ =>
  }

  /** The cache and its Map hear of every own call. */
  lemma EndCache(b: Books, instance: Option<InstanceId>, cost: Option<real>, scope: Option<InstanceId>, u: real)
    requires b.cache.Some? && CacheLacks(b, scope, u) && (cost.Some? ==> cost.value >= 0.0)
    ensures End(b, instance, cost).cache.Some? && CacheLacks(End(b, instance, cost), scope, u)
  {
    EndTables(b, instance, cost, scope, b.cache.value.table, u, u);
    EndDue(b, instance, cost, None);
  }

  lemma LacksMore(b: Books, scope: Option<InstanceId>, u: real, more: real)
    requires b.cache.Some? && CacheLacks(b, scope, u) && u <= more
    ensures CacheLacks(b, scope, more)
  {
  }

  lemma EndKeeps(b: Books, instance: Option<InstanceId>, cost: Option<real>, since: int)
    ensures var b' := End(b, instance, cost);
            b'.open == b.open && b'.now == b.now && (Live(b', since) <==> Live(b, since))
  {
  }

  lemma EndAccounted(b: Books, a: Action, scope: Option<InstanceId>, since: int, u: real, more: real)
    requires Accounted(b, scope, since, u) && a.Ends? && (Costs(a) ==> a.cost.value >= 0.0)
    requires more == u + Slip(b, a, scope)
    ensures Accounted(Move(b, a).0, scope, since, more)
  {
    var b' := End(b, a.own, a.cost);
    if b.cache.Some? && CacheLacks(b, scope, u) {
      EndCache(b, a.own, a.cost, scope, u);
      LacksMore(b', scope, u, more);
    }
    forall k | k in b.open ensures HandLacks(b', b.open[k], scope, more) {
      EndHand(b, a.own, a.cost, b.open[k], scope, u, more);
    }
    EndKeeps(b, a.own, a.cost, since);
  }

  /** Another process's row: every figure of its scope misses it. */
  lemma ElsewhereAccounted(b: Books, a: Action, scope: Option<InstanceId>, since: int, u: real, more: real)
    requires Accounted(b, scope, since, u) && a.SpendsElsewhere? && (Costs(a) ==> a.cost.value >= 0.0)
    requires more == u + Slip(b, a, scope)
    ensures Accounted(Move(b, a).0, scope, since, more)
  {
    var b' := Move(b, a).0;
    SpentAppends(b.rows, Row(b.now, a.other, a.cost), scope, None);
    forall figure | Lacks(b, scope, figure, u) ensures Lacks(b', scope, figure, more) {
      DueGrows(b, b', more - u, scope, figure, u);
    }
    forall t: nat | TableLacks(b, scope, t, u) ensures TableLacks(b', scope, t, more) {}
    forall k | k in b.open ensures HandLacks(b', b.open[k], scope, more) {
      assert HandLacks(b, b.open[k], scope, u);
    }
  }

  // ----- Every step, and whole runs ---------------------------------------------------------------------------

  lemma StepAccounted(b: Books, a: Action, scope: Option<InstanceId>, since: int, u: real, more: real)
    requires Enabled(b, a) && Accounted(b, scope, since, u) && u >= 0.0 && more == u + Slip(b, a, scope)
    requires (Costs(a) ==> a.cost.value >= 0.0) && (scope.None? ==> !Switches(b, a))
    ensures Accounted(Move(b, a).0, scope, since, more)
  {
    match a
    case Ends(_, _) => EndAccounted(b, a, scope, since, u, more);
    case SpendsElsewhere(_, _) => ElsewhereAccounted(b, a, scope, since, u, more);
    case Answers(k) => AnswerAccounted(b, k, scope, since, u, more);
    case Writes(i) => WriteAccounted(b, i, scope, since, more);
    case _ =>
      if OfCheck(a) {
        CheckAccounted(b, a, scope, since, more);
      } else {
        StillAccounted(b, a, scope, since, more);
      }
  }

  lemma {:induction false} SlippedGrows(bs: seq<Books>, acts: seq<Action>, scope: Option<InstanceId>, m: nat, n: nat)
    requires IsRun(bs, acts) && PricedNonNegative(acts) && n <= |acts|
    ensures Slipped(bs, acts, scope, m, n) >= 0.0
  {
    if m < n {
      SlippedGrows(bs, acts, scope, m, n - 1);
      NonNegative(bs, acts, n - 1);
      OwedNonNegative(bs[n - 1].unwritten, scope);
      assert Costs(acts[n - 1]) ==> acts[n - 1].cost.value >= 0.0;
    }
  }

  lemma {:induction false} NonNegative(bs: seq<Books>, acts: seq<Action>, n: nat)
    requires IsRun(bs, acts) && PricedNonNegative(acts) && n < |bs|
    ensures OwesNothingBack(bs[n])
  {
    if n > 0 {
      NonNegative(bs, acts, n - 1);
      NonNegativeStep(bs[n - 1], acts[n - 1]);
    }
  }

  lemma NonNegativeStep(b: Books, a: Action)
    requires Enabled(b, a) && OwesNothingBack(b) && (Costs(a) ==> a.cost.value >= 0.0)
    ensures OwesNothingBack(Move(b, a).0)
  {
    assert !a.Ends? && !a.Writes? ==> Move(b, a).0.unwritten == b.unwritten;
  }

  ghost predicate Unswitched(bs: seq<Books>, acts: seq<Action>, m: nat, n: nat)
    requires n <= |acts| <= |bs|
  {
    forall j :: m <= j < n ==> !Switches(bs[j], acts[j])
  }

  lemma NextAccounted(bs: seq<Books>, acts: seq<Action>, scope: Option<InstanceId>, since: int, m: nat, n: nat)
    requires IsRun(bs, acts) && PricedNonNegative(acts) && m < n <= |acts|
    requires Accounted(bs[n - 1], scope, since, Slipped(bs, acts, scope, m, n - 1))
    requires scope.None? ==> !Switches(bs[n - 1], acts[n - 1])
    ensures Accounted(bs[n], scope, since, Slipped(bs, acts, scope, m, n))
  {
    var a := acts[n - 1];
    assert Costs(a) ==> a.cost.value >= 0.0;
    SlippedGrows(bs, acts, scope, m, n - 1);
    StepAccounted(bs[n - 1], a, scope, since, Slipped(bs, acts, scope, m, n - 1), Slipped(bs, acts, scope, m, n));
  }

  /**
   Main result: in every run, whatever checks overlap, no figure of a scope that a check
   goes by ever holds what was not spent, or lacks more than what slipped since the last
   moment when no check was open and the cache was old: calls of other processes, own calls
   that finished while a check had a copy of the figure in hand, and own calls whose rows
   were unwritten when it was read.
   */
  lemma {:induction false} FiguresAccounted(bs: seq<Books>, acts: seq<Action>, scope: Option<InstanceId>,
                                            m: nat, n: nat)
    requires IsRun(bs, acts) && PricedNonNegative(acts) && m <= n < |bs| && Quiet(bs[m])
    requires scope.None? ==> Unswitched(bs, acts, m, n)
    ensures Accounted(bs[n], scope, bs[m].now, Slipped(bs, acts, scope, m, n))
  {
    NonNegative(bs, acts, m);
    if m < n {
      assert scope.None? ==> Unswitched(bs, acts, m, n - 1) && !Switches(bs[n - 1], acts[n - 1]);
      FiguresAccounted(bs, acts, scope, m, n - 1);
      NextAccounted(bs, acts, scope, bs[m].now, m, n);
    }
  }
}
