/**
 What each operation on a scheduled send does, told by the flags, the stored drafts,
 the row and the jobs themselves: when a plan is stored and queued, when a job is
 removed, when a draft goes out, is parked, or is left alone.
 */
module SendLaws {
  import opened Options
  import opened JobIds
  import opened Lifecycle

  // ----- The switches -------------------------------------------------------------------------------

  /** A live client that is not done, whom neither it, its accountant nor an admin has stopped. */
  predicate MaySend(f: Flags) {
    f.live && !f.complete && !f.paused && !f.blocked && !f.adminPaused
  }

  /** A paused client may only be planned for before it was ever contacted, if its agent starts by hand. */
  predicate MayPlan(w: World) {
    && w.flags.live && !w.flags.complete && !w.flags.adminPaused
    && (w.flags.paused ==>
          && w.flags.manualKickoff && !w.flags.received
          && forall d :: d in w.drafts ==> w.drafts[d].status != Sent)
  }

  /** A plain draft, and under review mode an approved one. */
  predicate MayGoOut(w: World, draft: DraftId) {
    && draft in w.drafts && w.drafts[draft].status == Drafted
    && (w.flags.reviewMode ==> w.drafts[draft].review == Approved)
  }

  /** The id was written for a draft that is parked, or that waits for review. */
  predicate Parked(w: World, id: JobId) {
    id.Named? && id.draft in w.drafts && w.drafts[id.draft].status == Held
  }

  predicate InReview(w: World, id: JobId) {
    id.Named? && id.draft in w.drafts && w.drafts[id.draft].review == Pending
  }

  /** BullMQ lets a job in these states be removed. */
  predicate Removable(w: World, id: JobId) {
    id in w.queue && w.queue[id].state in {Delayed, Waiting, WaitingChildren}
  }

  /** The jobs of `w'` are those of `w`, but for the one under `id`, which is `job`. */
  ghost predicate OnlyJob(w: World, w': World, id: JobId, job: Option<Job>) {
    && (forall other :: other != id ==> (other in w.queue <==> other in w'.queue))
    && (forall other :: other != id && other in w.queue ==> w'.queue[other] == w.queue[other])
    && (if job.None? then id !in w'.queue else id in w'.queue && w'.queue[id] == job.value)
  }

  function JobOf(w: World, id: JobId): Option<Job> {
    if id in w.queue then Some(w.queue[id]) else None
  }

  // ----- The queue -----------------------------------------------------------------------------------

  /** An add under a taken id changes no job, and is counted; any other add is the one job, delayed if it is ahead. */
  lemma AddMeans(w: World, id: JobId, data: Target, due: int)
    ensures var w' := Add(w, id, data, due);
            if id in w.queue then w' == w.(history := w.history.(swallowed := w.history.swallowed + 1))
            else
              && w' == w.(queue := w'.queue)
              && OnlyJob(w, w', id, Some(Job(if due > w.now then Delayed else Waiting, due, data)))
  {
  }

  // ----- Planning ------------------------------------------------------------------------------------

  /**
   A plan is stored if and only if the flags let it be: a plain draft, waiting for review
   under review mode; its row names it at now plus its delay; its job is queued for that
   time unless the client is paused.
   */
  lemma PlanMeans(w: World, plan: Plan)
    requires plan.Message? ==> plan.draft !in w.drafts && Named(SendEmail, w.client, plan.draft) !in w.queue
    ensures var w' := SetSend(w, plan);
            if plan.Message? && MayPlan(w) then
              var id, due := Named(SendEmail, w.client, plan.draft), w.now + plan.delay;
              && w'.drafts == w.drafts[plan.draft := Draft(Drafted, if w.flags.reviewMode then Pending else NoReview)]
              && w'.row == Some(Row(id, due, false)) && w'.history == w.history
              && OnlyJob(w, w', id, if w.flags.paused then None
                                    else Some(Job(if plan.delay > 0 then Delayed else Waiting, due,
                                                  Target(w.client, plan.draft))))
            else w' == w
  {
  }

  /** The planner's error comes out if and only if the planner was asked. */
  lemma PlanThrown(w: World, plan: Plan)
    ensures PlanThrows(w, plan) <==> MayPlan(w) && plan.PlannerThrew?
  {
  }

  /** Removing: pending drafts leave review as superseded plain drafts, the row goes, and its job if it still can. */
  lemma RemoveMeans(w: World)
    ensures var w' := RemoveSend(w);
            && w'.row.None? && w'.drafts.Keys == w.drafts.Keys
            && (forall d :: d in w.drafts ==>
                  w'.drafts[d] == if w.drafts[d].review == Pending then Draft(Drafted, Superseded) else w.drafts[d])
            && (forall d :: d in w'.history.superseded <==>
                  d in w.history.superseded || (d in w.drafts && w.drafts[d].review == Pending))
            && (w.row.None? ==> w'.queue == w.queue)
            && (w.row.Some? ==>
                  var id := w.row.value.id;
                  OnlyJob(w, w', id, if Removable(w, id) then None else JobOf(w, id)))
  {
    assert RemoveSend(w).drafts == Supersede(w).drafts;
  }

  /** Pausing takes the row's job if it still can, and nothing else. */
  lemma PauseMeans(w: World)
    ensures var w' := PauseSend(w);
            && w' == w.(queue := w'.queue)
            && (w.row.None? ==> w' == w)
            && (w.row.Some? ==>
                  var id := w.row.value.id;
                  OnlyJob(w, w', id, if Removable(w, id) then None else JobOf(w, id)))
  {
  }

  // ----- Approving, resyncing -------------------------------------------------------------------------

  /** An approval counts for a draft that waits, of a client nothing has stopped; a parked draft is queued at once. */
  lemma ApproveMeans(w: World, draft: DraftId)
    requires Named(SendEmailApproved, w.client, draft) !in w.queue
    ensures var (w', ok) := Approve(w, draft);
            && (ok <==>
                  && w.flags.live && !w.flags.complete && !w.flags.paused && !w.flags.adminPaused
                  && draft in w.drafts && w.drafts[draft].review == Pending)
            && (!ok ==> w' == w)
            && (ok ==>
                  var id := Named(SendEmailApproved, w.client, draft);
                  && w'.drafts == w.drafts[draft := Draft(Drafted, Approved)]
                  && if w.drafts[draft].status == Held then
                       && w'.row == Some(Row(id, w.now, false))
                       && OnlyJob(w, w', id, Some(Job(Waiting, w.now, Target(w.client, draft))))
                     else w'.row == w.row && w'.queue == w.queue)
  {
  }

  /** The resync adds the row's job, if it is missing, of a live and unpaused client whose send did not fail. */
  lemma ResyncMeans(w: World)
    requires w.row.Some? ==> w.row.value.id.Named?
    ensures var w' := ResyncRow(w);
            if w.row.Some? && w.row.value.id !in w.queue && !w.row.value.failed && w.flags.live && !w.flags.paused then
              var id := w.row.value.id;
              var due := if w.row.value.scheduledFor > w.now then w.row.value.scheduledFor else w.now;
              && w' == w.(queue := w'.queue)
              && OnlyJob(w, w', id, Some(Job(if due > w.now then Delayed else Waiting, due,
                                             Target(id.client, id.draft))))
            else w' == w
  {
  }

  // ----- The worker -------------------------------------------------------------------------------------

  /**
   The run of a picked job. Unless the flags let a send go out and the draft is a plain
   one, nothing happens. Under review mode an unapproved draft is parked, waiting. The rest
   is handed to the provider: it is marked sent if taken, the client is replanned if it was
   taken or not, and an error marks the row.
   */
  lemma RunMeans(w: World, draft: DraftId, send: SendOutcome, plan: Plan)
    ensures var (w', threw) := (RunSend(w, draft, send, plan).world, RunSend(w, draft, send, plan).threw);
            if !MaySend(w.flags) || draft !in w.drafts || w.drafts[draft].status != Drafted then w' == w && !threw
            else if w.flags.reviewMode && w.drafts[draft].review != Approved then
              w' == w.(drafts := w.drafts[draft := Draft(Held, Pending)]) && !threw
            else match send
                 case ProviderThrew =>
                   && threw && w' == w.(row := w'.row) && (w.row.None? ==> w'.row.None?)
                   && (w.row.Some? ==> w'.row == Some(Row(w.row.value.id, w.row.value.scheduledFor, true)))
                 case SkipPlanning => w' == w && !threw
                 case NotSent =>
                   && w' == SetSend(RemoveSend(w), plan)
                   && (threw <==> plan.PlannerThrew? && MayPlan(RemoveSend(w)))
                 case Delivered =>
                   var sent := w.(drafts := w.drafts[draft := Draft(Sent, w.drafts[draft].review)],
                                  history := w.history.(delivered := w.history.delivered + multiset{draft}));
                   && w' == SetSend(RemoveSend(sent), plan)
                   && (threw <==> plan.PlannerThrew? && MayPlan(RemoveSend(sent)))
  {
    PlanThrown(RemoveSend(w), plan);
    if draft in w.drafts {
      PlanThrown(RemoveSend(MarkSent(w, draft)), plan);
    }
  }

  /** The end of the run: an active job is over, failed if the run threw, and no other job moves. */
  lemma FinishMeans(w: World, id: JobId, threw: bool)
    ensures var w' := Finish(w, id, threw);
            && w' == w.(queue := w'.queue)
            && OnlyJob(w, w', id, if id in w.queue && w.queue[id].state == Active
                                  then Some(w.queue[id].(state := if threw then Failed else Completed))
                                  else JobOf(w, id))
  {
  }
}
