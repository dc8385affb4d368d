/**
 The deferred re-plan of a client's inbound turn: one job per client that every
 request pushes to the end of the quiet window, a dirty flag for requests that
 find the planner running, and a worker that plans, waits or forces.
 */
module InboundTurn {
  import opened Options

  // ----- The rules (src/orchestration/inboundTurnRules.ts) --------------------------------------------

  const MIN_DELAY_MS := 1_000
  const RECHECK_MS := 2_000

  datatype Limits = Limits(quietMs: nat, maxWaitMs: nat)
  datatype TurnState = TurnState(inflight: nat, lastInboundAt: Option<int>, pendingFiles: nat)
  datatype Decision = Plan | Wait | Force

  predicate IsTurnSettled(state: TurnState, now: int, quietMs: nat) {
    if state.inflight > 0 then false
    else if state.pendingFiles > 0 then false
    else if state.lastInboundAt.Some? && now - state.lastInboundAt.value < quietMs then false
    else true
  }

  function DecideReplan(state: TurnState, turnStartedAt: int, now: int, limits: Limits): Decision {
    if IsTurnSettled(state, now, limits.quietMs) then Plan
    else if now - turnStartedAt >= limits.maxWaitMs then Force
    else Wait
  }

  /** How far a request pushes the run: to the end of the window that the last inbound opened, and never at once. */
  function DelayFor(last: Option<int>, now: int, quietMs: nat): nat {
    if last.None? then quietMs
    else
      var left := last.value + quietMs - now;
      var atLeast := if left > MIN_DELAY_MS then left else MIN_DELAY_MS;
      if atLeast < quietMs then atLeast else quietMs
  }

  // ----- One client's turn ------------------------------------------------------------------------------

  /** Where the running job stands: before its decision, past clearDirty, past the planner's read, past takeDirty. */
  datatype Phase = Deciding | Cleared | HasRead | Ending

  datatype ReplanJob = NoJob | NotStarted(due: int, turnStart: int) | Running(turnStart: int, phase: Phase)

  type Message = nat

  datatype Turn = Turn(
    job: ReplanJob, dirty: bool, last: Option<int>, now: int,
    stored: set<Message>,     // inbound messages in the database
    requested: set<Message>,  // those whose handler asked for a run
    read: set<Message>)       // those some planner run has read

  datatype Action =
    | Arrive(m: Message)                        // stored, and the client's last inbound stamped
    | Request(m: Message)                       // its handler calls requestReplan
    | PickUp
    | Decide(inflight: nat, pendingFiles: nat)  // up to clearDirty, or back to delayed
    | PlannerReads
    | TakeDirty                                 // planned again after the quiet window, or about to end
    | End                                       // the finished job vanishes
    | Tick(ms: nat)

  predicate Enabled(t: Turn, a: Action) {
    match a
    case Request(m) => m in t.stored
    case PickUp => t.job.NotStarted? && t.job.due <= t.now
    case Decide(_, _) => t.job.Running? && t.job.phase == Deciding
    case PlannerReads => t.job.Running? && t.job.phase == Cleared
    case TakeDirty => t.job.Running? && t.job.phase == HasRead
    case End => t.job.Running? && t.job.phase == Ending
    case _ => true
  }

  /** requestReplan: a running job gets the dirty flag, any other is removed and added again with its turn start. */
  function RequestRun(t: Turn, limits: Limits): Turn {
    if t.job.Running? then t.(dirty := true)
    else
      var turnStart := if t.job.NotStarted? then t.job.turnStart else t.now;
      t.(job := NotStarted(t.now + DelayFor(t.last, t.now, limits.quietMs), turnStart))
  }

  /** onReplan up to the point from which a new inbound leaves the dirty flag instead of moving the job. */
  function DecideRun(t: Turn, inflight: nat, pendingFiles: nat, limits: Limits): Turn
    requires t.job.Running?
  {
    match DecideReplan(TurnState(inflight, t.last, pendingFiles), t.job.turnStart, t.now, limits)
    case Wait => t.(job := NotStarted(t.now + RECHECK_MS, t.job.turnStart))
    case _ => t.(dirty := false, job := Running(t.job.turnStart, Cleared))
  }

  function TakeDirtyRun(t: Turn, limits: Limits): Turn
    requires t.job.Running?
  {
    if t.dirty then t.(dirty := false, job := NotStarted(t.now + limits.quietMs, t.now))
    else t.(job := Running(t.job.turnStart, Ending))
  }

  function Step(t: Turn, a: Action, limits: Limits): Turn
    requires Enabled(t, a)
  {
    match a
    case Arrive(m) => t.(stored := t.stored + {m}, last := Some(t.now))
    case Request(m) => RequestRun(t.(requested := t.requested + {m}), limits)
    case PickUp => t.(job := Running(t.job.turnStart, Deciding))
    case Decide(inflight, pendingFiles) => DecideRun(t, inflight, pendingFiles, limits)
    case PlannerReads => t.(read := t.stored, job := Running(t.job.turnStart, HasRead))
    case TakeDirty => TakeDirtyRun(t, limits)
    case End => t.(job := NoJob)
    case Tick(ms) => t.(now := t.now + ms)
  }

  predicate Initial(t: Turn) {
    t.job.NoJob? && !t.dirty && t.stored == {} && t.requested == {} && t.read == {}
  }

  ghost predicate IsRun(ts: seq<Turn>, acts: seq<Action>, limits: Limits) {
    && |ts| == |acts| + 1
    && Initial(ts[0])
    && forall i :: 0 <= i < |acts| ==> Enabled(ts[i], acts[i]) && ts[i + 1] == Step(ts[i], acts[i], limits)
  }

  // ----- The same, as the stores are updated ---------------------------------------------------------------

  class ReplanTurn {
    const limits: Limits
    var job: ReplanJob
    var dirty: bool
    var last: Option<int>
    var now: int
    ghost var stored: set<Message>
    ghost var requested: set<Message>
    ghost var read: set<Message>

    ghost function T(): Turn
      reads this
    {
      Turn(job, dirty, last, now, stored, requested, read)
    }

    method RequestReplan()
      modifies this`job, this`dirty
      ensures T() == RequestRun(old(T()), limits)
    {
      var turnStartedAt := now;
      if !job.NoJob? {
        if job.Running? {
          dirty := true;
          return;
        }
        turnStartedAt := job.turnStart;
        job := NoJob;
      }
      var delay := limits.quietMs;
      if last.Some? {
        var left := last.value + limits.quietMs - now;
        if left < MIN_DELAY_MS {
          left := MIN_DELAY_MS;
        }
        if left < limits.quietMs {
          delay := left;
        }
      }
      job := NotStarted(now + delay, turnStartedAt);
    }

    /** The first half of onReplan; true when the planner is to run now. */
    method OnReplanFires(inflight: nat, pendingFiles: nat) returns (plans: bool)
      requires job.Running?
      modifies this`job, this`dirty
      ensures T() == DecideRun(old(T()), inflight, pendingFiles, limits)
      ensures plans == job.Running?
    {
      var decision := DecideReplan(TurnState(inflight, last, pendingFiles), job.turnStart, now, limits);
      if decision == Wait {
        job := NotStarted(now + RECHECK_MS, job.turnStart);
        return false;
      }
      dirty := false;
      job := Running(job.turnStart, Cleared);
      return true;
    }

    /** The last half: a request that came while the planner ran makes this same job run again. */
    method OnReplanDone()
      requires job.Running?
      modifies this`job, this`dirty
      ensures T() == TakeDirtyRun(old(T()), limits)
    {
      if dirty {
        dirty := false;
        job := NotStarted(now + limits.quietMs, now);
        return;
      }
      job := Running(job.turnStart, Ending);
    }
  }

  // ----- No request is lost, but in one window ---------------------------------------------------------------

  /** Some run that has not read yet is on its way. */
  predicate RunAhead(t: Turn) {
    match t.job
    case NoJob => false
    case NotStarted(_, _) => true
    case Running(_, phase) => phase == Deciding || phase == Cleared || (phase == HasRead && t.dirty)
  }

  /** Every requested message was read by a planner run, or one is on its way. */
  predicate Covered(t: Turn) {
    t.requested <= t.read || RunAhead(t)
  }

  /** A request that finds the job past takeDirty: the flag it leaves is never looked at. */
  predicate LandsLate(t: Turn, a: Action) {
    a.Request? && t.job.Running? && t.job.phase == Ending && a.m !in t.read
  }

  predicate Consistent(t: Turn) {
    t.requested <= t.stored && t.read <= t.stored
  }

  /** The exact step: a step keeps every requested message covered if and only if no request lands late. */
  lemma StepCovers(t: Turn, a: Action, limits: Limits)
    requires Enabled(t, a) && Consistent(t) && Covered(t)
    ensures Consistent(Step(t, a, limits))
    ensures Covered(Step(t, a, limits)) <==> !LandsLate(t, a)
  {
    if LandsLate(t, a) {
      assert a.m in Step(t, a, limits).requested && a.m !in Step(t, a, limits).read;
    }
  }

  lemma {:induction false} ConsistentRun(ts: seq<Turn>, acts: seq<Action>, limits: Limits, i: nat)
    requires IsRun(ts, acts, limits) && i < |ts|
    ensures Consistent(ts[i])
  {
    if i > 0 {
      ConsistentRun(ts, acts, limits, i - 1);
    }
  }

  lemma {:induction false} CoveredUpTo(ts: seq<Turn>, acts: seq<Action>, limits: Limits, i: nat)
    requires IsRun(ts, acts, limits) && i < |ts|
    requires forall j :: 0 <= j < |acts| ==> !LandsLate(ts[j], acts[j])
    ensures Covered(ts[i])
  {
    if i > 0 {
      CoveredUpTo(ts, acts, limits, i - 1);
      ConsistentRun(ts, acts, limits, i - 1);
      StepCovers(ts[i - 1], acts[i - 1], limits);
    }
  }

  /**
   Main result: over every run no requested message is ever left without a run, exactly when no
   request lands late.
   */
  lemma {:induction false} NoLostInboundIff(ts: seq<Turn>, acts: seq<Action>, limits: Limits)
    requires IsRun(ts, acts, limits)
    ensures (forall i :: 0 <= i < |ts| ==> Covered(ts[i])) <==>
            (forall i :: 0 <= i < |acts| ==> !LandsLate(ts[i], acts[i]))
  {
    if forall i :: 0 <= i < |ts| ==> Covered(ts[i]) {
      forall i | 0 <= i < |acts| ensures !LandsLate(ts[i], acts[i]) {
        ConsistentRun(ts, acts, limits, i);
        StepCovers(ts[i], acts[i], limits);
        assert Covered(ts[i]) && Covered(ts[i + 1]);
      }
    }
    if forall i :: 0 <= i < |acts| ==> !LandsLate(ts[i], acts[i]) {
      forall i | 0 <= i < |ts| ensures Covered(ts[i]) {
        CoveredUpTo(ts, acts, limits, i);
      }
    }
  }

  /** When takeDirty and the end of the job are one step, there is no window at all. */
  lemma EndAtOnceCovers(t: Turn, limits: Limits)
    requires Enabled(t, TakeDirty) && Consistent(t) && Covered(t)
    ensures var taken := Step(t, TakeDirty, limits);
            taken.job.NotStarted? || (Enabled(taken, End) && Step(taken, End, limits).requested <= t.read)
  {
  }

  ghost predicate Leads(t: Turn, acts: seq<Action>, limits: Limits, t': Turn)
    decreases |acts|
  {
    if acts == [] then t' == t
    else Enabled(t, acts[0]) && Leads(Step(t, acts[0], limits), acts[1..], limits, t')
  }

  /**
   ... and a covered message does get read: the worker's own steps, with no further inbound, reach a
   run that reads it.
   */
  lemma CoveredIsRead(t: Turn, m: Message, limits: Limits, inflight: nat, pendingFiles: nat)
    returns (acts: seq<Action>, t': Turn)
    requires Consistent(t) && Covered(t) && m in t.requested && m !in t.read
    ensures Leads(t, acts, limits, t') && m in t'.read
    ensures forall i :: 0 <= i < |acts| ==> !acts[i].Request? && !acts[i].Arrive?
    ensures |acts| <= if t.job.NotStarted? then 4 else 5
    decreases if t.job.NotStarted? then 0 else 1
  {
    if t.job.NotStarted? {
      var ms: nat :| t.job.due <= t.now + ms && t.now + ms - t.job.turnStart >= limits.maxWaitMs by {
        var far: nat := (if t.job.due > t.now then t.job.due - t.now else 0)
          + (if t.job.turnStart + limits.maxWaitMs > t.now then t.job.turnStart + limits.maxWaitMs - t.now else 0);
        assert t.job.due <= t.now + far && t.now + far - t.job.turnStart >= limits.maxWaitMs;
      }
      acts, t' := WaitOut(t, m, limits, inflight, pendingFiles, ms);
    } else if t.job.phase == Cleared {
      acts, t' := [PlannerReads], Step(t, PlannerReads, limits);
      assert Leads(t', acts[1..], limits, t');
    } else {
      var a := if t.job.phase == Deciding then Decide(inflight, pendingFiles) else TakeDirty;
      var next := Step(t, a, limits);
      if next.job.NotStarted? {
        var rest;
        rest, t' := CoveredIsRead(next, m, limits, inflight, pendingFiles);
        acts := [a] + rest;
        assert acts[1..] == rest;
      } else {
        acts, t' := [a, PlannerReads], Step(next, PlannerReads, limits);
        assert acts[1..] == [PlannerReads];
        assert Leads(t', acts[1..][1..], limits, t');
      }
    }
  }

  lemma WaitOut(t: Turn, m: Message, limits: Limits, inflight: nat, pendingFiles: nat, ms: nat)
    returns (acts: seq<Action>, t': Turn)
    requires t.job.NotStarted? && Consistent(t) && m in t.requested
    requires t.job.due <= t.now + ms && t.now + ms - t.job.turnStart >= limits.maxWaitMs
    ensures Leads(t, acts, limits, t') && m in t'.read && |acts| == 4
    ensures forall i :: 0 <= i < |acts| ==> !acts[i].Request? && !acts[i].Arrive?
  {
    acts := [Tick(ms), PickUp, Decide(inflight, pendingFiles), PlannerReads];
    var t1 := Step(t, Tick(ms), limits);
    var t2 := Step(t1, PickUp, limits);
    var t3 := Step(t2, Decide(inflight, pendingFiles), limits);
    t' := Step(t3, PlannerReads, limits);
    assert acts[1..] == [PickUp, Decide(inflight, pendingFiles), PlannerReads];
    assert acts[1..][1..] == [Decide(inflight, pendingFiles), PlannerReads];
    assert acts[1..][1..][1..] == [PlannerReads];
    assert Leads(t', acts[1..][1..][1..][1..], limits, t');
    assert Leads(t3, acts[1..][1..][1..], limits, t');
    assert Leads(t2, acts[1..][1..], limits, t');
    assert Leads(t1, acts[1..], limits, t');
  }

  // ----- How long a turn can wait -------------------------------------------------------------------------------

  /**
   'plan' means nothing in flight, no file waiting, and a full quiet window; 'force' means the
   maximum passed without that.
   */
  lemma DecisionMeans(state: TurnState, turnStartedAt: int, now: int, limits: Limits)
    ensures var quiet := state.inflight == 0 && state.pendingFiles == 0
                         && (state.lastInboundAt.Some? ==> state.lastInboundAt.value + limits.quietMs <= now);
            && (DecideReplan(state, turnStartedAt, now, limits) == Plan <==> quiet)
            && (DecideReplan(state, turnStartedAt, now, limits) == Force <==>
                  !quiet && turnStartedAt + limits.maxWaitMs <= now)
  {
  }

  function Later(a: int, b: int): int {
    if a < b then b else a
  }

  /**
   When a request leaves the run due: at the end of the window the last inbound opened, or a second
   from now if that has passed; a full window from now if no inbound is known, or the window is shorter.
   */
  function WindowEnd(t: Turn, quietMs: nat): int {
    if t.last.Some? && t.last.value <= t.now && quietMs >= 1_000 then Later(t.last.value + quietMs, t.now + 1_000)
    else t.now + quietMs
  }

  /** A request keeps the turn's first start and moves the run to the window's end; a running job is only marked. */
  lemma RequestDebounces(t: Turn, limits: Limits)
    ensures var r := RequestRun(t, limits);
            if t.job.Running? then r == t.(dirty := true)
            else
              && r == t.(job := r.job) && r.job.NotStarted?
              && r.job.turnStart == (if t.job.NotStarted? then t.job.turnStart else t.now)
              && r.job.due == WindowEnd(t, limits.quietMs)
  {
  }

  /**
   The window counts from the last inbound: it ends a full window after it at the latest, a request
   with no inbound since the one before does not postpone the run, but for the second it has to be
   ahead, and no request makes it due later than a full window from now.
   */
  lemma RequestAgain(t: Turn, later: Turn, limits: Limits)
    requires !t.job.Running? && t.last.Some? && t.last.value <= t.now <= later.now
    requires later == RequestRun(t, limits).(now := later.now)
    ensures var first, again := RequestRun(t, limits).job, RequestRun(later, limits).job;
            && first.NotStarted? && again.NotStarted? && again.turnStart == first.turnStart
            && first.due <= Later(t.last.value + limits.quietMs, t.now + 1_000) && first.due <= t.now + limits.quietMs
            && again.due <= Later(first.due, later.now + 1_000)
  {
    RequestDebounces(t, limits);
    RequestDebounces(later, limits);
  }

  /** A run that finds the flag set runs again after a full window, as a turn that starts now; a clean one ends. */
  lemma DoneMeans(t: Turn, limits: Limits)
    requires Enabled(t, TakeDirty)
    ensures var t' := Step(t, TakeDirty, limits);
            t' == if t.dirty then t.(dirty := false, job := NotStarted(t.now + limits.quietMs, t.now))
                  else t.(job := Running(t.job.turnStart, Ending))
  {
  }

  /** A stretch of a run in which nothing is requested any more; messages may still arrive. */
  ghost predicate Unrequested(ts: seq<Turn>, acts: seq<Action>, limits: Limits) {
    && |ts| == |acts| + 1
    && forall i :: 0 <= i < |acts| ==>
         !acts[i].Request? && Enabled(ts[i], acts[i]) && ts[i + 1] == Step(ts[i], acts[i], limits)
  }

  /** The worker takes the job within `maxLag` of its due time, and decides on what it sees then. */
  ghost predicate Punctual(ts: seq<Turn>, acts: seq<Action>, maxLag: nat)
    requires |ts| == |acts| + 1
  {
    && (forall i :: 0 <= i < |ts| && ts[i].job.NotStarted? ==> ts[i].now <= ts[i].job.due + maxLag)
    && (forall i :: 0 <= i < |acts| && ts[i].job.Running? && ts[i].job.phase == Deciding ==> !acts[i].Tick?)
  }

  /** The step with which the job stops waiting and lets the planner run. */
  predicate StartsPlanner(t: Turn, a: Action, limits: Limits) {
    && a.Decide? && t.job.Running?
    && DecideReplan(TurnState(a.inflight, t.last, a.pendingFiles), t.job.turnStart, t.now, limits) != Wait
  }

  /** The decisions among the first `n` steps; as long as the planner has not started, each is a 'wait'. */
  function Rechecks(acts: seq<Action>, n: nat): nat
    requires n <= |acts|
  {
    if n == 0 then 0 else Rechecks(acts, n - 1) + if acts[n - 1].Decide? then 1 else 0
  }

  /** The recheck of a 'wait' is a delayed job again, two seconds later and with its turn start. */
  lemma WaitRechecks(t: Turn, inflight: nat, pendingFiles: nat, limits: Limits)
    requires t.job.Running? && t.job.phase == Deciding
    ensures var decision := DecideReplan(TurnState(inflight, t.last, pendingFiles), t.job.turnStart, t.now, limits);
            var t' := Step(t, Decide(inflight, pendingFiles), limits);
            if decision == Wait then
              && t'.job == NotStarted(t.now + 2_000, t.job.turnStart) && t'.dirty == t.dirty && t'.now == t.now
              && t.now < t.job.turnStart + limits.maxWaitMs
            else t'.job == Running(t.job.turnStart, Cleared) && !t'.dirty
  {
  }

  /** The job still waits for its planner: every recheck moved it on by two seconds, none past the limit. */
  predicate StillWaiting(first: ReplanJob, t: Turn, rechecks: nat, limits: Limits, maxLag: nat)
    requires first.NotStarted?
  {
    var limit := Later(first.due, first.turnStart + limits.maxWaitMs + RECHECK_MS);
    && (rechecks > 0 ==> first.due + (rechecks - 1) * RECHECK_MS < first.turnStart + limits.maxWaitMs)
    && match t.job
       case NoJob => false
       case NotStarted(due, turnStart) =>
         turnStart == first.turnStart && first.due + rechecks * RECHECK_MS <= due <= limit
       case Running(turnStart, phase) =>
         && turnStart == first.turnStart && phase == Deciding
         && first.due + rechecks * RECHECK_MS <= t.now <= limit + maxLag
  }

  lemma {:induction false} WaitingUpTo(ts: seq<Turn>, acts: seq<Action>, limits: Limits, maxLag: nat, i: nat)
    requires Unrequested(ts, acts, limits) && Punctual(ts, acts, maxLag) && ts[0].job.NotStarted? && i < |ts|
    requires forall j :: 0 <= j < i ==> !StartsPlanner(ts[j], acts[j], limits)
    ensures StillWaiting(ts[0].job, ts[i], Rechecks(acts, i), limits, maxLag)
  {
    if i > 0 {
      WaitingUpTo(ts, acts, limits, maxLag, i - 1);
      var t, a := ts[i - 1], acts[i - 1];
      assert !StartsPlanner(t, a, limits);
      if a.Decide? {
        WaitRechecks(t, a.inflight, a.pendingFiles, limits);
      }
    }
  }

  /**
   Main result: after the last request of a turn no state in which the planner has not
   started is later than the end of the window that the last inbound opened (or a second
   from the request), or the turn's start plus the maximum wait and one recheck, whichever
   is later, plus the worker's lag, whatever the rechecks see - so the planner's start is
   not either - and the rechecks are bounded in number.
   */
  lemma BoundedWait(t: Turn, ts: seq<Turn>, acts: seq<Action>, limits: Limits, maxLag: nat, i: nat)
    requires !t.job.Running? && Unrequested(ts, acts, limits) && Punctual(ts, acts, maxLag) && i < |ts|
    requires ts[0] == RequestRun(t, limits)
    requires forall j :: 0 <= j < i ==> !StartsPlanner(ts[j], acts[j], limits)
    ensures ts[i].now <=
            Later(WindowEnd(t, limits.quietMs), ts[0].job.turnStart + limits.maxWaitMs + RECHECK_MS) + maxLag
    ensures Rechecks(acts, i) > 0 ==>
              ts[0].job.due + (Rechecks(acts, i) - 1) * RECHECK_MS < ts[0].job.turnStart + limits.maxWaitMs
  {
    RequestDebounces(t, limits);
    WaitingUpTo(ts, acts, limits, maxLag, i);
  }

  // ----- The window exists --------------------------------------------------------------------------------------

  /** One more step on a run. */
  lemma Extended(ts: seq<Turn>, acts: seq<Action>, a: Action, limits: Limits)
    returns (ts': seq<Turn>, acts': seq<Action>)
    requires IsRun(ts, acts, limits) && Enabled(ts[|acts|], a)
    ensures ts' == ts + [Step(ts[|acts|], a, limits)] && acts' == acts + [a] && IsRun(ts', acts', limits)
  {
    ts', acts' := ts + [Step(ts[|acts|], a, limits)], acts + [a];
    forall i | 0 <= i < |acts'| ensures Enabled(ts'[i], acts'[i]) && ts'[i + 1] == Step(ts'[i], acts'[i], limits) {
      if i < |acts| {
        assert ts'[i] == ts[i] && acts'[i] == acts[i] && ts'[i + 1] == ts[i + 1];
      }
    }
  }

  /** There is a run that loses a request: the job has taken the dirty flag and has not ended yet when it comes. */
  lemma LateRequestRun(limits: Limits) returns (ts: seq<Turn>, acts: seq<Action>)
    ensures IsRun(ts, acts, limits) && |acts| == 9
    ensures LandsLate(ts[8], acts[8]) && !Covered(ts[9])
  {
    ts, acts := [Turn(NoJob, false, None, 0, {}, {}, {})], [];
    ts, acts := Extended(ts, acts, Arrive(1), limits);
    ts, acts := Extended(ts, acts, Request(1), limits);
    ts, acts := Extended(ts, acts, Tick(limits.quietMs + MIN_DELAY_MS), limits);
    ts, acts := Extended(ts, acts, PickUp, limits);
    ts, acts := Extended(ts, acts, Decide(0, 0), limits);
    ts, acts := Extended(ts, acts, PlannerReads, limits);
    ts, acts := Extended(ts, acts, TakeDirty, limits);
    ts, acts := Extended(ts, acts, Arrive(2), limits);
    ts, acts := Extended(ts, acts, Request(2), limits);
    assert 2 in ts[9].requested && 2 !in ts[9].read;
  }
}
