/**
 The evaluation harness: groups of cases run one after another, each by k workers
 that share a queue, a results list, the run's spend cap and the group's "model
 unavailable" flag. Workers interleave only where they wait for a model.
 */
module WorkerPool {
  import opened Options
  import opened Exposure

  // ----- The run -----------------------------------------------------------------------------------------

  datatype Case = Case(stage: string, model: string, id: string)

  /** A result row: what summarize and the spend cap read. */
  datatype Row = Row(
    item: Case, pass: bool, error: Option<string>, inputTokens: nat, outputTokens: nat, thinkingTokens: nat,
    cachedTokens: nat, cost: Option<real>, latencyMs: nat)

  datatype Pool = Pool(
    queue: seq<Case>, busy: seq<Option<Case>>, unavailable: bool, results: seq<Row>, maxSpend: real)

  function CostOf(r: Row): real {
    if r.cost.Some? then r.cost.value else 0.0
  }

  /** spentSoFar. */
  function Spent(rows: seq<Row>, n: nat): real
    requires n <= |rows|
  {
    if n == 0 then 0.0 else Spent(rows, n - 1) + CostOf(rows[n - 1])
  }

  function SkippedRow(item: Case): Row {
    Row(item, false, Some("skipped"), 0, 0, 0, 0, None, 0)
  }

  predicate Skips(p: Pool) {
    p.unavailable || Spent(p.results, |p.results|) >= p.maxSpend
  }

  /** A free worker takes the next case: it skips it at once, or calls the model. */
  function Take(p: Pool, w: nat): Pool
    requires w < |p.busy| && p.queue != []
  {
    var item := p.queue[0];
    if Skips(p) then p.(queue := p.queue[1..], results := p.results + [SkippedRow(item)])
    else p.(queue := p.queue[1..], busy := p.busy[w := Some(item)])
  }

  /** The call of worker `w` is over; `gone` = its error says the model does not exist. */
  function Finish(p: Pool, w: nat, row: Row, gone: bool): Pool
    requires w < |p.busy|
  {
    p.(busy := p.busy[w := None], results := p.results + [row], unavailable := p.unavailable || gone)
  }

  function StartGroup(p: Pool, items: seq<Case>): Pool {
    p.(queue := items, unavailable := false)
  }

  // ----- runGroup's workers (evals/run.ts) -----------------------------------------------------------------

  class EvalsRun {
    const maxSpend: real
    var queue: seq<Case>
    var busy: seq<Option<Case>>
    var unavailable: bool
    var results: seq<Row>

    function P(): Pool
      reads this
    {
      Pool(queue, busy, unavailable, results, maxSpend)
    }

    method SpentSoFar() returns (spent: real)
      ensures spent == Spent(results, |results|)
    {
      spent := 0.0;
      for i := 0 to |results|
        invariant spent == Spent(results, i)
      {
        spent := spent + CostOf(results[i]);
      }
    }

    /** A worker's turn, up to its next wait. */
    method TakeNext(w: nat)
      requires w < |busy| && busy[w].None? && queue != []
      modifies this
      ensures P() == Take(old(P()), w)
    {
      var item := queue[0];
      queue := queue[1..];
      if unavailable {
        results := results + [SkippedRow(item)];
        return;
      }
      var spent := SpentSoFar();
      if spent >= maxSpend {
        results := results + [SkippedRow(item)];
      } else {
        busy := busy[w := Some(item)];
      }
    }

    method FinishCase(w: nat, row: Row, gone: bool)
      requires w < |busy| && busy[w] == Some(row.item)
      modifies this
      ensures P() == Finish(old(P()), w, row, gone)
    {
      busy := busy[w := None];
      if gone {
        unavailable := true;
      }
      results := results + [row];
    }
  }

  // ----- Runs ------------------------------------------------------------------------------------------------

  datatype Action = Begin(items: seq<Case>) | Takes(worker: nat) | Finishes(done: nat, row: Row, gone: bool)

  predicate Idle(p: Pool) {
    p.queue == [] && forall w :: 0 <= w < |p.busy| ==> p.busy[w].None?
  }

  predicate Enabled(p: Pool, a: Action) {
    match a
    case Begin(_) => Idle(p)   // groups are awaited one after another
    case Takes(w) => w < |p.busy| && p.busy[w].None? && p.queue != []
    case Finishes(w, row, _) => w < |p.busy| && p.busy[w] == Some(row.item)
  }

  function Step(p: Pool, a: Action): Pool
    requires Enabled(p, a)
  {
    match a
    case Begin(items) => StartGroup(p, items)
    case Takes(w) => Take(p, w)
    case Finishes(w, row, gone) => Finish(p, w, row, gone)
  }

  ghost predicate IsRun(ps: seq<Pool>, acts: seq<Action>) {
    && |ps| == |acts| + 1
    && Idle(ps[0]) && ps[0].results == []
    && forall i :: 0 <= i < |acts| ==> Enabled(ps[i], acts[i]) && ps[i + 1] == Step(ps[i], acts[i])
  }

  /** One case, or (None) any case. */
  predicate Is(item: Case, which: Option<Case>) {
    which.None? || which.value == item
  }

  function One(b: bool): nat {
    if b then 1 else 0
  }

  /** How many of the first `n` workers hold it. */
  function Held(busy: seq<Option<Case>>, n: nat, which: Option<Case>): nat
    requires n <= |busy|
  {
    if n == 0 then 0 else Held(busy, n - 1, which) + One(busy[n - 1].Some? && Is(busy[n - 1].value, which))
  }

  function Calls(p: Pool, which: Option<Case>): nat {
    Held(p.busy, |p.busy|, which)
  }

  function InRows(rows: seq<Row>, n: nat, which: Option<Case>): nat
    requires n <= |rows|
  {
    if n == 0 then 0 else InRows(rows, n - 1, which) + One(Is(rows[n - 1].item, which))
  }

  function InQueue(queue: seq<Case>, which: Option<Case>): nat {
    if queue == [] then 0 else One(Is(queue[0], which)) + InQueue(queue[1..], which)
  }

  /** How often the first `n` steps queued it. */
  function Queued(acts: seq<Action>, n: nat, which: Option<Case>): nat
    requires n <= |acts|
  {
    if n == 0 then 0
    else Queued(acts, n - 1, which) + if acts[n - 1].Begin? then InQueue(acts[n - 1].items, which) else 0
  }

  /** Wherever it is: queued, held by a worker, or in a row. */
  function Everywhere(p: Pool, which: Option<Case>): nat {
    InQueue(p.queue, which) + Calls(p, which) + InRows(p.results, |p.results|, which)
  }

  lemma {:induction false} HeldChanges(busy: seq<Option<Case>>, w: nat, to: Option<Case>, n: nat, which: Option<Case>)
    requires w < |busy| && n <= |busy| && (busy[w].None? || to.None?)
    ensures var was, now := Held(busy, n, which), Held(busy[w := to], n, which);
            if n <= w then now == was
            else was + One(to.Some? && Is(to.value, which)) == now + One(busy[w].Some? && Is(busy[w].value, which))
  {
    if n > 0 {
      HeldChanges(busy, w, to, n - 1, which);
    }
  }

  lemma {:induction false} NoneHeld(busy: seq<Option<Case>>, n: nat, which: Option<Case>)
    requires n <= |busy| && forall w :: 0 <= w < |busy| ==> busy[w].None?
    ensures Held(busy, n, which) == 0
  {
    if n > 0 {
      NoneHeld(busy, n - 1, which);
    }
  }

  lemma {:induction false} HeldAtMost(busy: seq<Option<Case>>, n: nat)
    requires n <= |busy|
    ensures Held(busy, n, None) <= n
  {
    if n > 0 {
      HeldAtMost(busy, n - 1);
    }
  }

  lemma {:induction false} PrefixSums(rows: seq<Row>, more: seq<Row>, n: nat, which: Option<Case>)
    requires n <= |rows| && rows <= more
    ensures InRows(more, n, which) == InRows(rows, n, which) && Spent(more, n) == Spent(rows, n)
  {
    if n > 0 {
      PrefixSums(rows, more, n - 1, which);
    }
  }

  lemma RowAppended(rows: seq<Row>, row: Row, which: Option<Case>)
    ensures InRows(rows + [row], |rows| + 1, which) == InRows(rows, |rows|, which) + One(Is(row.item, which))
    ensures Spent(rows + [row], |rows| + 1) == Spent(rows, |rows|) + CostOf(row)
  {
    PrefixSums(rows, rows + [row], |rows|, which);
  }

  // ----- One row per case ------------------------------------------------------------------------------------

  lemma StepConserves(p: Pool, a: Action, which: Option<Case>)
    requires Enabled(p, a)
    ensures Everywhere(Step(p, a), which) == Everywhere(p, which) + if a.Begin? then InQueue(a.items, which) else 0
  {
    match a
    case Begin(items) =>
    case Takes(w) =>
      if Skips(p) {
        RowAppended(p.results, SkippedRow(p.queue[0]), which);
      } else {
        HeldChanges(p.busy, w, Some(p.queue[0]), |p.busy|, which);
      }
    case Finishes(w, row, gone) =>
      HeldChanges(p.busy, w, None, |p.busy|, which);
      RowAppended(p.results, row, which);
  }

  lemma {:induction false} Conserved(ps: seq<Pool>, acts: seq<Action>, i: nat, which: Option<Case>)
    requires IsRun(ps, acts) && i < |ps|
    ensures Everywhere(ps[i], which) == Queued(acts, i, which)
  {
    if i == 0 {
      NoneHeld(ps[0].busy, |ps[0].busy|, which);
    } else {
      Conserved(ps, acts, i - 1, which);
      StepConserves(ps[i - 1], acts[i - 1], which);
    }
  }

  /**
   Main result: whatever the interleaving, whenever the pool is idle each case has exactly one row
   per time it was queued.
   */
  lemma OneRowPerCase(ps: seq<Pool>, acts: seq<Action>, i: nat, item: Case)
    requires IsRun(ps, acts) && i < |ps| && Idle(ps[i])
    ensures InRows(ps[i].results, |ps[i].results|, Some(item)) == Queued(acts, i, Some(item))
    ensures |ps[i].results| == Queued(acts, i, None)
  {
    Conserved(ps, acts, i, Some(item));
    Conserved(ps, acts, i, None);
    NoneHeld(ps[i].busy, |ps[i].busy|, Some(item));
    NoneHeld(ps[i].busy, |ps[i].busy|, None);
    AllRows(ps[i].results, |ps[i].results|);
  }

  lemma {:induction false} AllRows(rows: seq<Row>, n: nat)
    requires n <= |rows|
    ensures InRows(rows, n, None) == n
  {
    if n > 0 {
      AllRows(rows, n - 1);
    }
  }

  /** A group ends: as long as it is not over some worker can move, and every move leaves less to do. */
  function Remaining(p: Pool): nat {
    2 * |p.queue| + Calls(p, None)
  }

  lemma MovesFinish(p: Pool, a: Action)
    requires Enabled(p, a) && !a.Begin?
    ensures Remaining(Step(p, a)) < Remaining(p)
  {
    match a
    case Takes(w) => HeldChanges(p.busy, w, Some(p.queue[0]), |p.busy|, None);
    case Finishes(w, row, gone) => HeldChanges(p.busy, w, None, |p.busy|, None);
  }

  lemma NeverStuck(p: Pool) returns (a: Action)
    requires |p.busy| >= 1 && !Idle(p)
    ensures Enabled(p, a) && !a.Begin?
  {
    if w: nat :| w < |p.busy| && p.busy[w].Some? {
      a := Finishes(w, SkippedRow(p.busy[w].value), false);
    } else {
      a := Takes(0);
    }
  }

  // ----- What a move does --------------------------------------------------------------------------------------

  /**
   A worker's turn: the first queued case is called only if the model is there and the spend is
   below the cap; otherwise it gets a failed row with an error, no usage and no cost.
   */
  lemma TakeMeans(p: Pool, w: nat)
    requires Enabled(p, Takes(w))
    ensures var p' := Step(p, Takes(w));
            && p'.queue == p.queue[1..] && p'.unavailable == p.unavailable && p'.maxSpend == p.maxSpend
            && if p.unavailable || Spent(p.results, |p.results|) >= p.maxSpend then
                 && p'.busy == p.busy && |p'.results| == |p.results| + 1 && p.results <= p'.results
                 && var row := p'.results[|p.results|];
                    row == Row(p.queue[0], false, row.error, 0, 0, 0, 0, None, 0)
                    && row.error.Some? && row.error.value != ""
               else p'.busy == p.busy[w := Some(p.queue[0])] && p'.results == p.results
  {
  }

  /** The end of a call: its row is kept, the worker is free, and an unknown model is unknown from then on. */
  lemma FinishMeans(p: Pool, w: nat, row: Row, gone: bool)
    requires Enabled(p, Finishes(w, row, gone))
    ensures var p' := Step(p, Finishes(w, row, gone));
            && p'.results == p.results + [row] && p'.busy == p.busy[w := None] && p'.queue == p.queue
            && (p'.unavailable <==> p.unavailable || gone)
  {
  }

  /** In a group that began with step `b`: the model is gone if and only if a call of the group found it so. */
  lemma {:induction false} UnavailableIff(ps: seq<Pool>, acts: seq<Action>, b: nat, i: nat)
    requires IsRun(ps, acts) && b < i < |ps| && acts[b].Begin? && forall k :: b < k < i ==> !acts[k].Begin?
    ensures ps[i].unavailable <==> exists k :: b < k < i && acts[k].Finishes? && acts[k].gone
  {
    if i > b + 1 {
      UnavailableIff(ps, acts, b, i - 1);
      var p, a := ps[i - 1], acts[i - 1];
      if a.Finishes? {
        FinishMeans(p, a.done, a.row, a.gone);
      } else {
        TakeMeans(p, a.worker);
      }
    }
  }

  // ----- The spend cap -----------------------------------------------------------------------------------------

  /** No call costs less than nothing or more than `most`. */
  ghost predicate CostsWithin(a: Action, most: real) {
    a.Finishes? ==> 0.0 <= CostOf(a.row) <= most
  }

  /** What is spent, plus the calls under way at their worst, fits under the cap and one call per worker. */
  ghost predicate Capped(p: Pool, most: real) {
    Spent(p.results, |p.results|) + Worth(Calls(p, None), most) < p.maxSpend + Worth(|p.busy|, most)
  }

  lemma StepCapped(p: Pool, a: Action, most: real)
    requires Enabled(p, a) && Capped(p, most) && most >= 0.0 && CostsWithin(a, most)
    ensures Capped(Step(p, a), most)
  {
    match a
    case Begin(_) =>
    case Takes(w) =>
      if Skips(p) {
        RowAppended(p.results, SkippedRow(p.queue[0]), None);
      } else {
        var p' := Take(p, w);
        HeldAtMost(p'.busy, |p'.busy|);
        WorthMonotone(Calls(p', None), |p'.busy|, most);
      }
    case Finishes(w, row, gone) =>
      HeldChanges(p.busy, w, None, |p.busy|, None);
      RowAppended(p.results, row, None);
  }

  lemma {:induction false} CappedThroughout(ps: seq<Pool>, acts: seq<Action>, most: real, i: nat)
    requires IsRun(ps, acts) && ps[0].maxSpend > 0.0 && most >= 0.0 && i < |ps|
    requires forall j :: 0 <= j < |acts| ==> CostsWithin(acts[j], most)
    ensures Capped(ps[i], most) && ps[i].maxSpend == ps[0].maxSpend && |ps[i].busy| == |ps[0].busy|
  {
    if i == 0 {
      NoneHeld(ps[0].busy, |ps[0].busy|, None);
      WorthMonotone(0, |ps[0].busy|, most);
    } else {
      CappedThroughout(ps, acts, most, i - 1);
      StepCapped(ps[i - 1], acts[i - 1], most);
    }
  }

  /** Main result: over all groups and every interleaving, k workers overshoot the cap by less than k calls. */
  lemma SpendBounded(ps: seq<Pool>, acts: seq<Action>, most: real, i: nat)
    requires IsRun(ps, acts) && ps[0].maxSpend > 0.0 && most >= 0.0 && i < |ps|
    requires forall j :: 0 <= j < |acts| ==> CostsWithin(acts[j], most)
    ensures Spent(ps[i].results, |ps[i].results|) < ps[0].maxSpend + |ps[0].busy| as real * most
  {
    CappedThroughout(ps, acts, most, i);
    WorthMonotone(0, Calls(ps[i], None), most);
    WorthIs(|ps[0].busy|, most);
  }

  // ----- Stopping ------------------------------------------------------------------------------------------------

  lemma StoppedStep(p: Pool, a: Action, which: Option<Case>)
    requires Enabled(p, a) && Skips(p) && (a.Finishes? ==> CostOf(a.row) >= 0.0)
    requires a.Begin? ==> Spent(p.results, |p.results|) >= p.maxSpend
    ensures Skips(Step(p, a)) && Calls(Step(p, a), which) <= Calls(p, which)
    ensures Spent(p.results, |p.results|) <= Spent(Step(p, a).results, |Step(p, a).results|)
  {
    match a
    case Begin(_) =>
    case Takes(w) => RowAppended(p.results, SkippedRow(p.queue[0]), which);
    case Finishes(w, row, gone) =>
      HeldChanges(p.busy, w, None, |p.busy|, which);
      RowAppended(p.results, row, which);
  }

  /**
   Main result: once the model is known not to exist, no further call starts in
   that group; once the cap is reached, none starts in any group.
   */
  lemma {:induction false} StopsForGood(ps: seq<Pool>, acts: seq<Action>, i: nat, j: nat, which: Option<Case>)
    requires IsRun(ps, acts) && i <= j < |ps|
    requires forall k :: 0 <= k < |acts| && acts[k].Finishes? ==> CostOf(acts[k].row) >= 0.0
    requires || Spent(ps[i].results, |ps[i].results|) >= ps[i].maxSpend
             || (ps[i].unavailable && forall k :: i <= k < j ==> !acts[k].Begin?)
    ensures Skips(ps[j]) && Calls(ps[j], which) <= Calls(ps[i], which) && ps[j].maxSpend == ps[i].maxSpend
    ensures Spent(ps[i].results, |ps[i].results|) <= Spent(ps[j].results, |ps[j].results|)
  {
    if i < j {
      StopsForGood(ps, acts, i, j - 1, which);
      StoppedStep(ps[j - 1], acts[j - 1], which);
    }
  }
}
