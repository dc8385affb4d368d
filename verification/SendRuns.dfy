/**
 Runs of one client's scheduled send: the operations in any order, job pick-up as
 a step of its own before the run under the lock, workers lost and stalled jobs
 recovered, Redis wiped and resynced, flags flipped at any moment.
 */
module SendRuns {
  import opened Options
  import opened JobIds
  import opened Lifecycle

  datatype Action =
    | ReplanNow(plan: Plan)             // removeFutureEmail and setFutureEmail in one lock
    | RemoveNow                         // removeFutureEmail alone: a reply, a delete, a finished goal
    | PlanAlone(plan: Plan)             // setFutureEmail alone: the first draft, the second half of a regenerate
    | PauseNow
    | ResumeNow(plan: Plan)
    | SendNowPressed
    | RetryPressed
    | ApprovePressed(draft: DraftId)
    | Resync
    | Pick(id: JobId)                   // a worker takes the job: it is active, and waits for the lock
    | Run(id: JobId, send: SendOutcome, plan: Plan, finishes: bool)  // ... gets it; `finishes` = BullMQ records the end
    | WorkerLost(id: JobId)             // a worker dies before it got the lock
    | Recover(id: JobId)                // BullMQ puts an active job without a live worker back
    | RedisWipe
    | Tick(ms: nat)
    | Flip(flags: Flags)

  function PlanOf(a: Action): Plan {
    match a
    case ReplanNow(plan) => plan
    case PlanAlone(plan) => plan
    case ResumeNow(plan) => plan
    case Run(_, _, plan, _) => plan
    case _ => NoMessage
  }

  predicate Ready(job: Job, now: int) {
    job.state == Waiting || job.state == Prioritized || (job.state == Delayed && job.due <= now)
  }

  predicate Enabled(w: World, a: Action) {
    && (PlanOf(a).Message? ==> PlanOf(a).draft !in w.drafts)  // a new draft gets a new row id
    && (a.Pick? ==> a.id in w.queue && Ready(w.queue[a.id], w.now))
    && (a.Run? ==> a.id in w.running && a.id.Named?)
    && (a.WorkerLost? ==> a.id in w.running)
    && (a.Recover? ==> a.id in w.queue && w.queue[a.id].state == Active)
  }

  /** The worker no longer holds the job. */
  function Released(w: World, id: JobId): World {
    w.(running := w.running - multiset{id})
  }

  function RunOf(w: World, a: Action): RunResult
    requires a.Run? && a.id.Named?
  {
    RunSend(Released(w, a.id), a.id.draft, a.send, a.plan)
  }

  function Step(w: World, a: Action): World
    requires Enabled(w, a)
  {
    match a
    case ReplanNow(plan) => Replan(w, plan)
    case RemoveNow => RemoveSend(w)
    case PlanAlone(plan) => SetSend(w, plan)
    case PauseNow => PauseSend(w)
    case ResumeNow(plan) => ResumeSend(w, plan)
    case SendNowPressed => SendNow(w).0
    case RetryPressed => RetrySend(w).0
    case ApprovePressed(draft) => Approve(w, draft).0
    case Resync => ResyncRow(w)
    case Pick(id) => SetState(w, id, Active).(running := w.running + multiset{id})
    case Run(id, _, _, finishes) =>
      var r := RunOf(w, a);
      if finishes then Finish(r.world, id, r.threw) else r.world
    case WorkerLost(id) => Released(w, id)
    case Recover(id) => SetState(w, id, Waiting)
    case RedisWipe => w.(queue := map[])
    case Tick(ms) => w.(now := w.now + ms)
    case Flip(flags) => w.(flags := flags)
  }

  predicate Initial(w: World) {
    && w.drafts == map[] && w.row.None? && w.queue == map[] && w.running == multiset{}
    && w.history == History(multiset{}, multiset{}, {}, 0)
  }

  /** `ws` are the states of a run, `acts` the steps between them. */
  ghost predicate IsRun(ws: seq<World>, acts: seq<Action>) {
    && |ws| == |acts| + 1
    && Initial(ws[0])
    && forall i :: 0 <= i < |acts| ==> Enabled(ws[i], acts[i]) && ws[i + 1] == Step(ws[i], acts[i])
  }

  // ----- What every step keeps ------------------------------------------------------------------

  /** The id was written for a stored draft of this client, the approved form only for an approved one. */
  predicate Known(w: World, id: JobId) {
    && id.Named? && id.client == w.client && id.draft in w.drafts
    && (id.kind == SendEmailApproved ==> w.drafts[id.draft].review == Approved)
  }

  predicate WasApproved(w: World, d: DraftId) {
    d in w.drafts && w.drafts[d].review == Approved
  }

  ghost predicate Inv(w: World) {
    && w.history.swallowed == 0
    && (forall id :: id in w.queue ==> Known(w, id) && w.queue[id].data == Target(w.client, id.draft))
    && (forall id :: id in w.running ==> Known(w, id))
    && (w.row.Some? ==> Known(w, w.row.value.id))
    && (forall d :: w.history.approved[d] == if WasApproved(w, d) then 1 else 0)
    && (forall d :: d in w.history.superseded ==> d in w.drafts)
    && (forall d :: d in w.history.delivered ==> d in w.drafts)
  }

  lemma InvSupersede(w: World)
    requires Inv(w)
    ensures Inv(Supersede(w))
  {
    var s := Supersede(w);
    forall d ensures WasApproved(s, d) <==> WasApproved(w, d) {}
    forall id | Known(w, id) ensures Known(s, id) {}
  }

  lemma InvRemove(w: World)
    requires Inv(w)
    ensures Inv(RemoveSend(w)) && RemoveSend(w).drafts == Supersede(w).drafts
    ensures RemoveSend(w).drafts.Keys == w.drafts.Keys
  {
    InvSupersede(w);
    var r := RemoveSend(w);
    forall id ensures Known(r, id) <==> Known(Supersede(w), id) {}
    forall d ensures WasApproved(r, d) <==> WasApproved(Supersede(w), d) {}
  }

  lemma InvSchedule(w: World, draft: DraftId, delay: nat, hold: bool)
    requires Inv(w) && draft !in w.drafts
    ensures Inv(ScheduleDraft(w, draft, delay, hold))
  {
    var s := ScheduleDraft(w, draft, delay, hold);
    assert SendId(w, draft) !in w.queue;
    ScheduleKnown(w, draft, delay, hold);
    assert forall id :: id in s.queue ==> id in w.queue || id == SendId(w, draft);
  }

  lemma ScheduleKnown(w: World, draft: DraftId, delay: nat, hold: bool)
    requires draft !in w.drafts
    ensures var s := ScheduleDraft(w, draft, delay, hold);
            && (forall id :: Known(w, id) ==> Known(s, id)) && Known(s, SendId(w, draft))
            && forall d :: WasApproved(s, d) <==> WasApproved(w, d)
  {
  }

  lemma InvSetSend(w: World, plan: Plan)
    requires Inv(w) && (plan.Message? ==> plan.draft !in w.drafts)
    ensures Inv(SetSend(w, plan))
  {
    if SetSend(w, plan) != w {
      InvSchedule(w, plan.draft, plan.delay, PlanModeOf(w).Hold?);
    }
  }

  lemma InvReplan(w: World, plan: Plan)
    requires Inv(w) && (plan.Message? ==> plan.draft !in w.drafts)
    ensures Inv(Replan(w, plan))
  {
    InvRemove(w);
    InvSetSend(RemoveSend(w), plan);
  }

  /** Only the queue, the row and the flags moved, and every id is still a known one. */
  lemma InvFrame(w: World, w': World)
    requires Inv(w) && w'.client == w.client && w'.drafts == w.drafts && w'.history == w.history
    requires forall id :: id in w'.queue ==> Known(w, id) && w'.queue[id].data == Target(w.client, id.draft)
    requires forall id :: id in w'.running ==> Known(w, id)
    requires w'.row.Some? ==> Known(w, w'.row.value.id)
    ensures Inv(w')
  {
    forall id ensures Known(w', id) <==> Known(w, id) {}
    forall d ensures WasApproved(w', d) <==> WasApproved(w, d) {}
  }

  lemma InvApprove(w: World, draft: DraftId)
    requires Inv(w)
    ensures Inv(Approve(w, draft).0)
  {
    var s := Approve(w, draft).0;
    if Approve(w, draft).1 {
      assert ApprovedId(w, draft) !in w.queue;
      forall id | Known(w, id) ensures Known(s, id) {}
      forall d ensures WasApproved(s, d) <==> WasApproved(w, d) || d == draft {}
    }
  }

  lemma InvRun(w: World, draft: DraftId, send: SendOutcome, plan: Plan)
    requires Inv(w) && (plan.Message? ==> plan.draft !in w.drafts)
    ensures Inv(RunSend(w, draft, send, plan).world)
  {
    var s := RunSend(w, draft, send, plan).world;
    if GatesOpen(w) && draft in w.drafts && w.drafts[draft].status == Drafted {
      if w.flags.reviewMode && w.drafts[draft].review != Approved {
        forall id | Known(w, id) ensures Known(s, id) {}
        forall d ensures WasApproved(s, d) <==> WasApproved(w, d) {}
      } else if send == Delivered {
        var sent := MarkSent(w, draft);
        forall id | Known(w, id) ensures Known(sent, id) {}
        forall d ensures WasApproved(sent, d) <==> WasApproved(w, d) {}
        InvReplan(sent, plan);
      } else if send == NotSent {
        InvReplan(w, plan);
      } else {
        InvFrame(w, s);
      }
    }
  }

  lemma InvResume(w: World, plan: Plan)
    requires Inv(w) && (plan.Message? ==> plan.draft !in w.drafts)
    ensures Inv(ResumeSend(w, plan))
  {
    var state := if w.row.Some? then StateOf(w, w.row.value.id) else None;
    var action := DecideResume(w.row, state, w.row.Some? && DraftHeld(w.drafts, w.row.value.id), w.now);
    if action == Redraft {
      InvReplan(w, plan);
      assert ResumeSend(w, plan) == Replan(w, plan);
    } else if action == SendAtOnce {
      InvEnqueueNow(w, w.row.value.id);
      assert ResumeSend(w, plan) == EnqueueNow(w, w.row.value.id);
    } else if action == Restore {
      InvRestore(w);
      assert ResumeSend(w, plan) == Restored(w);
    } else {
      assert ResumeSend(w, plan) == w;
    }
  }

  /** The preserved job, queued again at the row's own time. */
  function Restored(w: World): World
    requires w.row.Some? && Parse(w.row.value.id).Some?
  {
    Add(w, w.row.value.id, Target(w.client, Parse(w.row.value.id).value.draft), w.row.value.scheduledFor)
  }

  lemma InvRestore(w: World)
    requires Inv(w) && w.row.Some? && StateOf(w, w.row.value.id).None? && Parse(w.row.value.id).Some?
    ensures Inv(Restored(w))
  {
    InvFrame(w, Restored(w));
  }

  lemma InvPause(w: World)
    requires Inv(w)
    ensures Inv(PauseSend(w))
  {
    InvFrame(w, PauseSend(w));
  }

  lemma InvEnqueueNow(w: World, id: JobId)
    requires Inv(w) && w.row.Some? && w.row.value.id == id && StateOf(w, id).None?
    ensures Inv(EnqueueNow(w, id))
  {
    InvFrame(w, EnqueueNow(w, id));
  }

  lemma InvSendNow(w: World)
    requires Inv(w)
    ensures Inv(SendNow(w).0)
  {
    if w.row.Some? && !w.row.value.failed && !AwaitsReview(w.drafts, w.row.value.id) {
      var id := w.row.value.id;
      if StateOf(w, id).None? {
        InvEnqueueNow(w, id);
      } else {
        InvFrame(w, SendNow(w).0);
      }
    }
  }

  lemma InvRetry(w: World)
    requires Inv(w)
    ensures Inv(RetrySend(w).0)
  {
    InvFrame(w, RetrySend(w).0);
  }

  lemma InvResync(w: World)
    requires Inv(w)
    ensures Inv(ResyncRow(w))
  {
    InvFrame(w, ResyncRow(w));
  }

  lemma InvFinish(w: World, id: JobId, threw: bool)
    requires Inv(w)
    ensures Inv(Finish(w, id, threw))
  {
    InvFrame(w, Finish(w, id, threw));
  }

  lemma InvRunOf(w: World, a: Action)
    requires Inv(w) && Enabled(w, a) && a.Run?
    ensures Inv(RunOf(w, a).world)
  {
    var free := Released(w, a.id);
    InvFrame(w, free);
    InvRun(free, a.id.draft, a.send, a.plan);
  }

  lemma InvWorker(w: World, a: Action)
    requires Inv(w) && Enabled(w, a) && a.Run?
    ensures Inv(Step(w, a))
  {
    InvRunOf(w, a);
    InvFinish(RunOf(w, a).world, a.id, RunOf(w, a).threw);
  }

  /** The steps no operation takes: the workers, the clock, Redis and the flags. */
  predicate Quiet(a: Action) {
    a.Pick? || a.WorkerLost? || a.Recover? || a.RedisWipe? || a.Tick? || a.Flip?
  }

  lemma InvPick(w: World, id: JobId)
    requires Inv(w) && Enabled(w, Pick(id))
    ensures Inv(Step(w, Pick(id)))
  {
    InvFrame(w, Step(w, Pick(id)));
  }

  lemma InvRecover(w: World, id: JobId)
    requires Inv(w) && Enabled(w, Recover(id))
    ensures Inv(Step(w, Recover(id)))
  {
    InvFrame(w, Step(w, Recover(id)));
  }

  lemma InvOutside(w: World, w': World)
    requires Inv(w) && w' == w.(queue := w'.queue, running := w'.running, now := w'.now, flags := w'.flags)
    requires (w'.queue == w.queue || w'.queue == map[]) && w'.running <= w.running
    ensures Inv(w')
  {
    InvFrame(w, w');
  }

  lemma InvStep(w: World, a: Action)
    requires Inv(w) && Enabled(w, a)
    ensures Inv(Step(w, a))
  {
    match a
    case ReplanNow(plan) => InvReplan(w, plan);
    case RemoveNow => InvRemove(w);
    case PlanAlone(plan) => InvSetSend(w, plan);
    case ResumeNow(plan) => InvResume(w, plan);
    case ApprovePressed(draft) => InvApprove(w, draft);
    case Run(_, _, _, _) => InvWorker(w, a);
    case PauseNow => InvPause(w);
    case SendNowPressed => InvSendNow(w);
    case RetryPressed => InvRetry(w);
    case Resync => InvResync(w);
    case Pick(id) => InvPick(w, id);
    case Recover(id) => InvRecover(w, id);
    case _ => InvOutside(w, Step(w, a));
  }

  lemma {:induction false} InvReached(ws: seq<World>, acts: seq<Action>, i: nat)
    requires IsRun(ws, acts) && i < |ws|
    ensures Inv(ws[i])
  {
    if i > 0 {
      InvReached(ws, acts, i - 1);
      InvStep(ws[i - 1], acts[i - 1]);
    }
  }

  /**
   Main result: over every run, wipes, resyncs, stale and lost workers
   included, no queue add ever meets a taken id, so BullMQ's silent no-op never
   loses a send; and a draft is approved at most once.
   */
  lemma NoSwallowedAdd(ws: seq<World>, acts: seq<Action>, i: nat)
    requires IsRun(ws, acts) && i < |ws|
    ensures ws[i].history.swallowed == 0
    ensures forall d :: ws[i].history.approved[d] <= 1
  {
    InvReached(ws, acts, i);
  }
}
