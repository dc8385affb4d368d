/**
 Runs in which a check's waits let a spend or a save slip past it.
 */
module BudgetLeaks {
  import opened Options
  import opened Budget
  import opened BudgetRuns
  import opened BudgetBounds
  import opened BudgetMinute

  // ----- Runs grown step by step ----------------------------------------------------------------------------

  lemma {:induction false} SameInFlight(bs: seq<Books>, acts: seq<Action>, more: seq<Books>, moreActs: seq<Action>,
                                        scope: Option<InstanceId>, n: nat)
    requires n <= |acts| <= |moreActs| && |acts| <= |bs| <= |more| && |moreActs| <= |more|
    requires bs <= more && acts <= moreActs
    requires forall i :: 0 <= i < |moreActs| ==> Enabled(more[i], moreActs[i])
    requires forall i :: 0 <= i < |acts| ==> Enabled(bs[i], acts[i])
    ensures InFlight(more, moreActs, scope, n) == InFlight(bs, acts, scope, n)
  {
    if n > 0 {
      SameInFlight(bs, acts, more, moreActs, scope, n - 1);
    }
  }

  /** A platform ceiling of 1, an instance ceiling of 10. */
  function DayBegins(): Books {
    Books(None, [], map[], [], [], [], Some(1.0), Some(10.0), 0)
  }

  /** From the day's begin, no save and no wait; every verdict lets its call go, and so many are in flight now. */
  ghost predicate AllAllowed(bs: seq<Books>, acts: seq<Action>, calls: nat) {
    && IsRun(bs, acts) && bs[0] == DayBegins() && WithinLimits(bs, acts, None, 1.0, 1.0, 1)
    && (forall i :: 0 <= i < |acts| ==> !acts[i].Saves? && !acts[i].Waits?)
    && (forall i :: 0 <= i < |acts| && Move(bs[i], acts[i]).1.Some? ==> Move(bs[i], acts[i]).1 == Some(Allowed))
    && InFlight(bs, acts, None, |acts|) == calls
  }

  /** One more step. */
  lemma Grown(bs: seq<Books>, acts: seq<Action>, calls: nat, a: Action)
    returns (more: seq<Books>, moreActs: seq<Action>)
    requires AllAllowed(bs, acts, calls) && Enabled(bs[|acts|], a)
    requires a.Begins? || a.Answers? || a.Resumes? || a.Writes? || (a.Ends? && a.cost == Some(1.0))
    requires Move(bs[|acts|], a).1.Some? ==> Move(bs[|acts|], a).1 == Some(Allowed)
    requires 0 <= calls + Turnover(bs[|acts|], a, None) <= 1
    ensures more == bs + [Move(bs[|acts|], a).0] && moreActs == acts + [a]
    ensures AllAllowed(more, moreActs, calls + Turnover(bs[|acts|], a, None))
  {
    more, moreActs := Appended(bs, acts, a);
    forall i | 0 <= i <= |acts| ensures InFlight(more, moreActs, None, i) == InFlight(bs, acts, None, i) {
      SameInFlight(bs, acts, more, moreActs, None, i);
    }
    assert InFlight(more, moreActs, None, |moreActs|) == calls + Turnover(bs[|acts|], a, None);
  }

  // ----- Calls that finish inside checks -----------------------------------------------------------------------

  /** The cache has heard of nothing, and instances `j` and up are unknown to its Map and to the rows. */
  ghost predicate Leaking(b: Books, j: nat) {
    && b.cache.Some? && b.cache.value.at == 0 && b.cache.value.platformDaily == 1.0
    && b.cache.value.instanceDaily == 10.0 && b.cache.value.platformSpent == 0.0
    && b.open == map[] && b.unwritten == [] && b.now == 0 && b.cache.value.table < |b.tables|
    && (forall id :: id in SumsIn(b, b.cache.value.table) ==> id < j)
    && (forall i :: 0 <= i < |b.rows| ==> b.rows[i].instance.Some? && b.rows[i].instance.value < j)
  }

  /** Nothing is spent on an instance no row names. */
  lemma {:induction false} NoRows(rows: seq<Row>, id: InstanceId)
    requires forall i :: 0 <= i < |rows| ==> rows[i].instance != Some(id)
    ensures Spent(rows, Some(id), None) == 0.0
  {
    if rows != [] {
      NoRows(rows[..|rows| - 1], id);
    }
  }

  /** A check for a new instance waits for its sum, with the platform's figure from before in hand. */
  predicate Waiting(b: Books, j: nat, table: nat, asOf: int) {
    NewInstance(b, j, table, OpenCheck(Some(j), 0, ForInstance(1.0, 10.0, 0.0, table, asOf)))
  }

  /** It got its sum: nothing. */
  predicate HasSum(b: Books, j: nat, table: nat, asOf: int) {
    NewInstance(b, j, table, OpenCheck(Some(j), 0, GotInstance(1.0, 10.0, 0.0, table, asOf, 0.0)))
  }

  predicate NewInstance(b: Books, j: nat, table: nat, check: OpenCheck) {
    && b.open.Keys == {0} && b.open[0] == check && b.unwritten == []
    && b.now == 0 && table < |b.tables| && (b.cache.Some? ==> b.cache.value.at == 0)
    && (forall id :: id in SumsIn(b, table) ==> id < j)
    && (forall i :: 0 <= i < |b.rows| ==> b.rows[i].instance.Some? && b.rows[i].instance.value < j)
  }

  /** A call ends and is written while a check for a new instance waits; the check stores the figure from before. */
  lemma Round(bs: seq<Books>, acts: seq<Action>, j: nat) returns (more: seq<Books>, moreActs: seq<Action>)
    requires AllAllowed(bs, acts, 1) && Leaking(bs[|acts|], j) && j > 0
    ensures AllAllowed(more, moreActs, 1) && Leaking(more[|moreActs|], j + 1)
    ensures Spent(more[|moreActs|].rows, None, None) == Spent(bs[|acts|].rows, None, None) + 1.0
  {
    var b := bs[|acts|];
    var c := b.cache.value;
    CheckWaits(b, j);
    more, moreActs := Grown(bs, acts, 1, Begins(0, Some(j)));
    more, moreActs := CallComesIn(more, moreActs, j, c.table, c.asOf);
    more, moreActs := SumComes(more, moreActs, j, c.table, c.asOf);
  }

  lemma CallComesIn(bs: seq<Books>, acts: seq<Action>, j: nat, table: nat, asOf: int)
    returns (more: seq<Books>, moreActs: seq<Action>)
    requires AllAllowed(bs, acts, 1) && Waiting(bs[|acts|], j, table, asOf) && j > 0
    ensures AllAllowed(more, moreActs, 0) && Waiting(more[|moreActs|], j, table, asOf)
    ensures Spent(more[|moreActs|].rows, None, None) == Spent(bs[|acts|].rows, None, None) + 1.0
  {
    CallEndsInside(bs[|acts|], j, table, asOf);
    more, moreActs := Grown(bs, acts, 1, Ends(Some(j - 1), Some(1.0)));
    more, moreActs := Grown(more, moreActs, 0, Writes(0));
  }

  lemma CheckWaits(b: Books, j: nat)
    requires Leaking(b, j)
    ensures var (r, v) := Begin(b, 0, Some(j));
            Waiting(r, j, b.cache.value.table, b.cache.value.asOf) && v.None? && r.rows == b.rows
  {
  }

  lemma CallEndsInside(b: Books, j: nat, table: nat, asOf: int)
    requires Waiting(b, j, table, asOf) && j > 0
    ensures var ended := End(b, Some(j - 1), Some(1.0));
            var r := Write(ended, 0);
            Waiting(r, j, table, asOf) && Spent(r.rows, None, None) == Spent(b.rows, None, None) + 1.0
  {
    SpendIsBoth(b, Some(j - 1), Some(1.0));
    var r := Spend(b, Some(j - 1), Some(1.0));
    assert SumsIn(r, table).Keys == SumsIn(b, table).Keys;
    SpentAppends(b.rows, Row(0, Some(j - 1), Some(1.0)), None, None);
  }

  /** The check gets its sum, and stores. */
  lemma SumComes(bs: seq<Books>, acts: seq<Action>, j: nat, table: nat, asOf: int)
    returns (more: seq<Books>, moreActs: seq<Action>)
    requires AllAllowed(bs, acts, 0) && Waiting(bs[|acts|], j, table, asOf)
    ensures AllAllowed(more, moreActs, 1) && Leaking(more[|moreActs|], j + 1)
    ensures more[|moreActs|].rows == bs[|acts|].rows
  {
    SumAnswered(bs[|acts|], j, table, asOf);
    more, moreActs := Grown(bs, acts, 0, Answers(0));
    Stored(more[|moreActs|], j, table, asOf);
    more, moreActs := Grown(more, moreActs, 0, Resumes(0));
  }

  lemma SumAnswered(b: Books, j: nat, table: nat, asOf: int)
    requires Waiting(b, j, table, asOf)
    ensures HasSum(Answer(b, 0), j, table, asOf) && Answer(b, 0).rows == b.rows
  {
    NoRows(b.rows, j);
    var r := Answer(b, 0);
    assert r.open[0] == b.open[0].(stage := GotInstance(1.0, 10.0, 0.0, table, asOf, 0.0));
    assert SumsIn(r, table) == SumsIn(b, table);
  }

  /** The check's last step. */
  lemma Stored(b: Books, j: nat, table: nat, asOf: int)
    requires HasSum(b, j, table, asOf)
    ensures var (r, v) := Resume(b, 0); Leaking(r, j + 1) && v == Some(Allowed) && r.rows == b.rows
  {
    var r := Resume(b, 0).0;
    assert SumsIn(r, table) == SumsIn(b, table)[j := 0.0];
  }

  /** The day's first check, of instance 0. */
  lemma FirstCheck() returns (bs: seq<Books>, acts: seq<Action>)
    ensures AllAllowed(bs, acts, 1) && Leaking(bs[|acts|], 1) && bs[|acts|].rows == []
  {
    bs, acts := SettingsRead();
    var b := bs[|acts|];
    var asking := OpenCheck(Some(0), 0, ForPlatform(1.0, 10.0));
    assert b.open[0 := asking] == map[0 := asking];
    bs, acts := Grown(bs, acts, 0, Resumes(0));
    bs, acts := Grown(bs, acts, 0, Answers(0));
    PlatformRead(bs[|acts|]);
    bs, acts := Grown(bs, acts, 0, Resumes(0));
    bs, acts := SumComes(bs, acts, 0, 0, 0);
  }

  lemma SettingsRead() returns (bs: seq<Books>, acts: seq<Action>)
    ensures AllAllowed(bs, acts, 0)
    ensures bs[|acts|] == DayBegins().(open := map[0 := OpenCheck(Some(0), 0, GotSettings(1.0, 10.0))])
  {
    bs, acts := [DayBegins()], [];
    bs, acts := Grown(bs, acts, 0, Begins(0, Some(0)));
    bs, acts := Grown(bs, acts, 0, Answers(0));
  }

  lemma PlatformRead(b: Books)
    requires b == DayBegins().(open := map[0 := OpenCheck(Some(0), 0, GotPlatform(1.0, 10.0, 0.0, 0))])
    ensures var (r, v) := Resume(b, 0); Waiting(r, 0, 0, 0) && v.None? && r.rows == []
  {
  }

  lemma {:induction false} LeakingRun(k: nat) returns (bs: seq<Books>, acts: seq<Action>)
    ensures AllAllowed(bs, acts, 1) && Leaking(bs[|acts|], k + 1)
    ensures Spent(bs[|acts|].rows, None, None) == k as real
  {
    if k == 0 {
      bs, acts := FirstCheck();
    } else {
      bs, acts := LeakingRun(k - 1);
      bs, acts := Round(bs, acts, k);
    }
  }

  /**
   What slips is not bounded by the calls in flight: with one call in flight at a time,
   a platform ceiling of 1 and calls that cost 1 each, for every `k` there is a run, all
   at one instant, whose checks allow every call and which spends `k`.
   */
  lemma MissedSpendRun(k: nat) returns (bs: seq<Books>, acts: seq<Action>)
    ensures IsRun(bs, acts) && WithinLimits(bs, acts, None, 1.0, 1.0, 1)
    ensures forall i :: 0 <= i < |acts| ==> !acts[i].Saves? && !acts[i].Waits?
    ensures forall i :: 0 <= i < |acts| && Move(bs[i], acts[i]).1.Some? ==> Move(bs[i], acts[i]).1 == Some(Allowed)
    ensures Spent(bs[|acts|].rows, None, None) == k as real
  {
    bs, acts := LeakingRun(k);
  }

  // ----- A save that lands inside a check ------------------------------------------------------------------------

  /** Books without ceilings, and with a check that has read so. */
  function Unlimited(open: map<nat, OpenCheck>): Books {
    Books(None, [], open, [], [], [], None, None, 0)
  }

  function OldSettings(): OpenCheck {
    OpenCheck(None, 0, GotSettings(0.0, 0.0))
  }

  lemma SaveOvertakes(b: Books)
    requires b == Unlimited(map[0 := OldSettings()])
    ensures Overtakes(b, Saves(Some(1.0), None))
  {
    var saved := SaveSettings(b, Some(1.0), None);
    assert ParseUsd(saved.platformSetting) == 1.0;
    assert !Now(saved)(0.0, 0.0);
    assert !HandCeilings(b.open[0].stage, Now(saved));
  }

  lemma OvertakenRun() returns (bs: seq<Books>, acts: seq<Action>)
    ensures IsRun(bs, acts) && |acts| == 3 && Overtakes(bs[2], acts[2]) && bs[0].now == 0
    ensures forall i :: 0 <= i < 3 ==> !acts[i].SpendsElsewhere?
    ensures bs[3] == Unlimited(map[0 := OldSettings()]).(platformSetting := Some(1.0))
  {
    bs, acts := [Unlimited(map[])], [];
    bs, acts := Appended(bs, acts, Begins(0, None));
    bs, acts := Appended(bs, acts, Answers(0));
    var b := bs[2];
    assert b == Unlimited(map[0 := OldSettings()]);
    SaveOvertakes(b);
    bs, acts := Appended(bs, acts, Saves(Some(1.0), None));
  }

  /** The check puts the old ceilings back. */
  lemma OldCeilingsStored(b: Books)
    requires b == Unlimited(map[0 := OldSettings()]).(platformSetting := Some(1.0))
    ensures Resume(b, 0).0 ==
            b.(open := map[], tables := [Table(0, map[])], cache := Some(Cache(0, 0.0, 0.0, 0.0, 0, 0)))
  {
  }

  lemma ReinstalledRun() returns (bs: seq<Books>, acts: seq<Action>)
    ensures IsRun(bs, acts) && |acts| == 4 && Overtakes(bs[2], acts[2]) && bs[0].now == 0
    ensures forall i :: 0 <= i < 4 ==> !acts[i].SpendsElsewhere?
    ensures bs[4] == Unlimited(map[]).(
              platformSetting := Some(1.0), tables := [Table(0, map[])], cache := Some(Cache(0, 0.0, 0.0, 0.0, 0, 0)))
  {
    bs, acts := OvertakenRun();
    OldCeilingsStored(bs[3]);
    bs, acts := Appended(bs, acts, Resumes(0));
  }

  /** A call of 5 finishes, and almost a minute goes by. */
  lemma CallAndWait(b: Books)
    requires b.cache == Some(Cache(0, 0.0, 0.0, 0.0, 0, 0)) && b.rows == [] && b.open == map[] && b.unwritten == []
    requires b.platformSetting == Some(1.0) && b.now == 0
    ensures Write(End(b, None, Some(5.0)), 0) == Spend(b, None, Some(5.0))
    ensures var r := Spend(b, None, Some(5.0)).(now := 59_999);
            && r.open == map[] && Begin(r, 0, None).1 == Some(Allowed)
            && FreshVerdict(r, None) == Exceeded(Platform, 5.0, 1.0)
  {
    SpendIsBoth(b, None, Some(5.0));
    var r := Spend(b, None, Some(5.0)).(now := 59_999);
    assert r.rows == [] + [Row(0, None, Some(5.0))];
    SpentAppends([], Row(0, None, Some(5.0)), None, None);
  }

  /**
   A save overtakes a check that has read the settings: the check puts the old ceilings
   back, and almost a minute later a call is let go that the saved ceiling forbids.
   */
  lemma OldCeilingsRun() returns (bs: seq<Books>, acts: seq<Action>)
    ensures IsRun(bs, acts) && |acts| == 8 && bs[7].now == bs[0].now + 59_999
    ensures Overtakes(bs[2], acts[2]) && forall i :: 0 <= i < 8 ==> !acts[i].SpendsElsewhere?
    ensures Move(bs[7], acts[7]).1 == Some(Allowed) && FreshVerdict(bs[7], None) == Exceeded(Platform, 5.0, 1.0)
  {
    bs, acts := ReinstalledRun();
    CallAndWait(bs[4]);
    bs, acts := Appended(bs, acts, Ends(None, Some(5.0)));
    bs, acts := Appended(bs, acts, Writes(0));
    bs, acts := Appended(bs, acts, Waits(59_999));
    bs, acts := Appended(bs, acts, Begins(0, None));
  }

  // ----- A check that outlives the cache it began with -----------------------------------------------------------

  /** A run in which no settings are saved. */
  ghost predicate Ran(bs: seq<Books>, acts: seq<Action>) {
    && IsRun(bs, acts) && PricedNonNegative(acts)
    && forall i :: 0 <= i < |acts| ==> !acts[i].Saves?
  }

  lemma More(bs: seq<Books>, acts: seq<Action>, a: Action) returns (more: seq<Books>, moreActs: seq<Action>)
    requires Ran(bs, acts) && Enabled(bs[|acts|], a) && !a.Saves? && (Costs(a) ==> a.cost.value >= 0.0)
    ensures more == bs + [Move(bs[|acts|], a).0] && moreActs == acts + [a] && Ran(more, moreActs)
  {
    more, moreActs := Appended(bs, acts, a);
  }

  /** No platform ceiling, an instance ceiling of 1, and instance 0 loaded at 0, when nothing was spent yet. */
  function Loaded(): Books {
    Books(Some(Cache(0, 0.0, 1.0, 0.0, 0, 0)), [Table(0, map[0 := 0.0])], map[], [], [], [],
          None, Some(1.0), 0)
  }

  lemma AskedRun() returns (bs: seq<Books>, acts: seq<Action>)
    ensures Ran(bs, acts) && bs[|acts|] == Asked()
  {
    var b := Books(None, [], map[], [], [], [], None, Some(1.0), 0);
    bs, acts := [b], [];
    bs, acts := More(bs, acts, Begins(0, Some(0)));
    bs, acts := More(bs, acts, Answers(0));
    assert bs[|acts|] == b.(open := map[0 := OpenCheck(Some(0), 0, GotSettings(0.0, 1.0))]);
    bs, acts := More(bs, acts, Resumes(0));
    assert bs[|acts|] == Asked();
  }

  /** Instance 0's sum is asked for. */
  function Asked(): Books {
    Books(None, [Table(0, map[])], map[0 := OpenCheck(Some(0), 0, ForInstance(0.0, 1.0, 0.0, 0, 0))], [], [], [],
          None, Some(1.0), 0)
  }

  lemma LoadedRun() returns (bs: seq<Books>, acts: seq<Action>)
    ensures Ran(bs, acts) && bs[|acts|] == Loaded()
  {
    bs, acts := AskedRun();
    var b := bs[|acts|];
    bs, acts := More(bs, acts, Answers(0));
    assert bs[|acts|] == b.(open := map[0 := OpenCheck(Some(0), 0, GotInstance(0.0, 1.0, 0.0, 0, 0, 0.0))]);
    bs, acts := More(bs, acts, Resumes(0));
  }

  /** The check of instance 1, begun on the young cache, with its Map in hand. */
  function Outliving(): OpenCheck {
    OpenCheck(Some(1), 59_999, ForInstance(0.0, 1.0, 0.0, 0, 0))
  }

  /** Instance 0 spends 5 elsewhere at 0; a check for instance 1 begins just before the cache is a minute old. */
  lemma OutlivingRun() returns (bs: seq<Books>, acts: seq<Action>)
    ensures Ran(bs, acts)
    ensures bs[|acts|] == Loaded().(rows := [Row(0, Some(0), Some(5.0))], open := map[1 := Outliving()], now := 60_000)
  {
    bs, acts := LoadedRun();
    bs, acts := More(bs, acts, SpendsElsewhere(Some(0), Some(5.0)));
    bs, acts := More(bs, acts, Waits(59_999));
    bs, acts := More(bs, acts, Begins(1, Some(1)));
    bs, acts := More(bs, acts, Waits(1));
  }

  /** Another check reloads, with a Map of its own. */
  lemma ReloadedRun() returns (bs: seq<Books>, acts: seq<Action>)
    ensures Ran(bs, acts) && bs[|acts|] ==
            Loaded().(rows := [Row(0, Some(0), Some(5.0))], open := map[1 := Outliving()], now := 60_000,
                      tables := [Table(0, map[0 := 0.0]), Table(60_000, map[])],
                      cache := Some(Cache(60_000, 0.0, 1.0, 0.0, 1, 60_000)))
  {
    bs, acts := OutlivingRun();
    var b := bs[|acts|];
    bs, acts := More(bs, acts, Begins(2, None));
    bs, acts := More(bs, acts, Answers(2));
    assert bs[|acts|] == b.(open := map[1 := Outliving(), 2 := OpenCheck(None, 60_000, GotSettings(0.0, 1.0))]);
    bs, acts := More(bs, acts, Resumes(2));
    assert bs[|acts|].open == map[1 := Outliving()];
  }

  /** The overtaken check stores its old figures, and almost another minute goes by. */
  lemma CarriedRun() returns (bs: seq<Books>, acts: seq<Action>)
    ensures Ran(bs, acts) && bs[|acts|].rows == [Row(0, Some(0), Some(5.0))] && bs[|acts|].open == map[]
    ensures bs[|acts|].now == 119_999 && bs[|acts|].instanceSetting == Some(1.0)
    ensures bs[|acts|].cache == Some(Cache(60_000, 0.0, 1.0, 0.0, 0, 0))
    ensures SumsIn(bs[|acts|], 0) == map[0 := 0.0, 1 := 0.0]
  {
    bs, acts := ReloadedRun();
    var b := bs[|acts|];
    SpentAppends([], Row(0, Some(0), Some(5.0)), Some(1), None);
    assert Spent(b.rows, Some(1), None) == 0.0;
    bs, acts := More(bs, acts, Answers(1));
    var carried := OpenCheck(Some(1), 59_999, GotInstance(0.0, 1.0, 0.0, 0, 0, 0.0));
    assert bs[|acts|] == b.(open := map[1 := carried]);
    bs, acts := More(bs, acts, Resumes(1));
    assert bs[|acts|].cache == Some(Cache(60_000, 0.0, 1.0, 0.0, 0, 0));
    assert SumsIn(bs[|acts|], 0) == map[0 := 0.0, 1 := 0.0];
    bs, acts := More(bs, acts, Waits(59_999));
  }

  /**
   A check that began on a young cache stores its figures with the time of a reload that
   overtook it. So the bound of a minute needs a cache that is not backdated: here a call
   of instance 0 is let go although its ceiling was passed 119,999 ms before.
   */
  lemma BackdatedRun() returns (bs: seq<Books>, acts: seq<Action>)
    ensures Ran(bs, acts) && |acts| > 0 && acts[|acts| - 1] == Begins(3, Some(0))
    ensures var b := bs[|acts| - 1];
            && Backdated(b) && b.now == 119_999 && Begin(b, 3, Some(0)).1 == Some(Allowed)
            && Spent(b.rows, Some(0), Some(b.now - 119_998)) == 5.0 && Ceiling(b, Some(0)) == 1.0
  {
    bs, acts := CarriedRun();
    var b := bs[|acts|];
    assert 0 in SumsIn(b, 0) && SumsIn(b, 0)[0] == 0.0;
    SpentAppends([], Row(0, Some(0), Some(5.0)), Some(0), Some(1));
    assert Spent(b.rows, Some(0), Some(1)) == 5.0;
    bs, acts := More(bs, acts, Begins(3, Some(0)));
  }
}
