/**
 What a check says and who hears of it: the platform's ceiling comes before the
 instance's, and every refusal, and nothing else, is alerted.
 */
module BudgetAlerts {
  import opened Options
  import opened Budget
  import opened BudgetRuns
  import opened BudgetBounds

  // ----- Alerts -------------------------------------------------------------------------------------------

  /** The alerts are those of `b` and, if the step refuses a call, that refusal. */
  predicate Told(b: Books, r: (Books, Option<Verdict>)) {
    r.0.audits == if r.1.Some? && r.1.value.Exceeded? then b.audits + [r.1.value] else b.audits
  }

  lemma LoadInstanceTells(b: Books, k: nat, check: OpenCheck, pd: real, id: real, spent: real, table: nat, asOf: int)
    ensures Told(b, LoadInstance(b, k, check, pd, id, spent, table, asOf))
  {
  }

  lemma PickTableTells(b: Books, k: nat, check: OpenCheck, pd: real, id: real, spent: real, asOf: int)
    ensures Told(b, PickTable(b, k, check, pd, id, spent, asOf))
  {
    if Live(b, check.began) {
      var earlier := if b.cache.value.asOf < asOf then b.cache.value.asOf else asOf;
      LoadInstanceTells(b, k, check, pd, id, spent, b.cache.value.table, earlier);
    } else {
      var b' := b.(tables := b.tables + [Table(b.now, map[])]);
      LoadInstanceTells(b', k, check, pd, id, spent, |b.tables|, asOf);
    }
  }

  lemma ResumeTells(b: Books, k: nat)
    requires k in b.open && !Asking(b.open[k].stage)
    ensures Told(b, Resume(b, k))
  {
    var check := b.open[k];
    match check.stage
    case GotSettings(pd, id) =>
      PickTableTells(b, k, check, pd, id, if b.cache.Some? then b.cache.value.platformSpent else 0.0, b.now);
    case GotPlatform(pd, id, sum, asOf) => PickTableTells(b, k, check, pd, id, sum, asOf);
    case GotInstance(pd, id, spent, table, asOf, sum) =>
  }

  lemma BeginTells(b: Books, k: nat, instance: Option<InstanceId>)
    ensures Told(b, Begin(b, k, instance))
  {
    if Live(b, b.now) && !Holds(b, b.cache.value.table, instance) {
      var c := b.cache.value;
      LoadInstanceTells(b, k, OpenCheck(instance, b.now, ForSettings), c.platformDaily, c.instanceDaily,
                        c.platformSpent, c.table, c.asOf);
    }
  }

  lemma MoveTells(b: Books, a: Action)
    requires Enabled(b, a)
    ensures Told(b, Move(b, a))
  {
    match a
    case Begins(k, instance) => BeginTells(b, k, instance);
    case Resumes(k) => ResumeTells(b, k);
    case _ =>
  }

  /** The refusals among the verdicts of the first `n` steps, in order. */
  function Refusals(bs: seq<Books>, acts: seq<Action>, n: nat): seq<Verdict>
    requires n <= |acts| <= |bs| && forall i :: 0 <= i < |acts| ==> Enabled(bs[i], acts[i])
  {
    if n == 0 then []
    else
      var v := Move(bs[n - 1], acts[n - 1]).1;
      Refusals(bs, acts, n - 1) + if v.Some? && v.value.Exceeded? then [v.value] else []
  }

  /** Main result: in every run, the alerts are exactly the refusals given so far, in order. */
  lemma {:induction false} AlertsAreRefusals(bs: seq<Books>, acts: seq<Action>, n: nat)
    requires IsRun(bs, acts) && n <= |acts|
    ensures bs[n].audits == bs[0].audits + Refusals(bs, acts, n)
  {
    if n > 0 {
      AlertsAreRefusals(bs, acts, n - 1);
      MoveTells(bs[n - 1], acts[n - 1]);
    }
  }

  // ----- Verdicts -----------------------------------------------------------------------------------------

  /** The sum a cache knows of an instance; nothing if it knows none. */
  function Known(r: Books, instance: InstanceId): real
    requires r.cache.Some?
  {
    var table := r.cache.value.table;
    if table < |r.tables| && instance in r.tables[table].sums then r.tables[table].sums[instance] else 0.0
  }

  /** The cached platform figure has reached a ceiling that is set. */
  predicate PlatformReached(r: Books)
    requires r.cache.Some?
  {
    r.cache.value.platformDaily > 0.0 && r.cache.value.platformSpent >= r.cache.value.platformDaily
  }

  predicate InstanceReached(r: Books, asker: Option<InstanceId>)
    requires r.cache.Some?
  {
    asker.Some? && r.cache.value.instanceDaily > 0.0 && Known(r, asker.value) >= r.cache.value.instanceDaily
  }

  /**
   Main result: a check that was answered refuses for the platform, with its figures, whenever
   the platform's ceiling is reached, whatever the instance has spent; for the instance if only
   that ceiling is; and otherwise lets the call go. The figures are those of the cache it leaves.
   */
  lemma VerdictMeans(bs: seq<Books>, acts: seq<Action>, i: nat)
    requires IsRun(bs, acts) && PricedNonNegative(acts) && i < |acts|
    requires Move(bs[i], acts[i]).1.Some? && !acts[i].Fails?
    ensures bs[i + 1].cache.Some?
    ensures var (r, c, v) := (bs[i + 1], bs[i + 1].cache.value, Move(bs[i], acts[i]).1.value);
            var asker := Asker(bs[i], acts[i]);
            v == if PlatformReached(r) then Exceeded(Platform, c.platformSpent, c.platformDaily)
                 else if InstanceReached(r, asker) then Exceeded(Instance, Known(r, asker.value), c.instanceDaily)
                 else Allowed
  {
    FiguresAccounted(bs, acts, Some(0), 0, i);
    VerdictGoesBy(bs[i], acts[i], Some(0), bs[0].now, Slipped(bs, acts, Some(0), 0, i));
  }

  /** A check whose query fails lets the call go, and leaves everything but itself as it was. */
  lemma FailureLetsGo(b: Books, k: nat)
    requires Enabled(b, Fails(k))
    ensures Move(b, Fails(k)) == (b.(open := b.open - {k}), Some(Allowed))
  {
  }
}
