/**
 What the operations on a scheduled send mean for the people who press them:
 a plan can be paused, a send-now answer says where the send is, a failed send
 stays put until it is retried, and a parked draft goes out once approved.
 */
module SendOutcomes {
  import opened Options
  import opened JobIds
  import opened Lifecycle
  import opened SendLaws
  import opened SendRuns
  import opened DeliverySafety
  import opened PauseResume

  /** A plan queued in one lock with the removal is a planned send at its own time, under the id of its own draft. */
  lemma ReplanPlans(w: World, draft: DraftId, delay: nat)
    requires Inv(w) && draft !in w.drafts && delay > 0 && MayPlan(w) && !w.flags.paused
    ensures var w' := Replan(w, Message(draft, delay));
            && Planned(w') && w'.row == Some(Row(SendId(w, draft), w.now + delay, false))
            && w'.drafts[draft] == Draft(Drafted, if w.flags.reviewMode then Pending else NoReview)
  {
    InvRemove(w);
    PlanModeKept(w);
    SetSendPlans(RemoveSend(w), draft, delay);
    RemoveFrames(w);
  }

  lemma SetSendPlans(w: World, draft: DraftId, delay: nat)
    requires Inv(w) && draft !in w.drafts && delay > 0 && MayPlan(w) && !w.flags.paused
    ensures var w' := SetSend(w, Message(draft, delay));
            && Planned(w') && w'.row == Some(Row(SendId(w, draft), w.now + delay, false))
            && w'.drafts[draft] == Draft(Drafted, if w.flags.reviewMode then Pending else NoReview)
  {
    assert SendId(w, draft) !in w.queue;
  }

  lemma RemoveFrames(w: World)
    ensures RemoveSend(w).client == w.client && RemoveSend(w).now == w.now && RemoveSend(w).flags == w.flags
  {
  }

  /** Removing a send changes nothing an unpaused plan's guards look at. */
  lemma PlanModeKept(w: World)
    requires !w.flags.paused
    ensures MayPlan(RemoveSend(w)) <==> MayPlan(w)
  {
  }

  predicate JobIs(w: World, id: JobId, state: JobState) {
    StateOf(w, id) == Some(state)
  }

  /** The send neither failed nor waits, its job is over or taken apart, and its draft is not parked. */
  predicate OverAndGone(w: World, id: JobId) {
    && w.row.Some? && !w.row.value.failed && !InReview(w, id) && !Parked(w, id)
    && (JobIs(w, id, Completed) || JobIs(w, id, WaitingChildren))
  }

  /**
   The answer of send-now tells the truth: 'promoted' if and only if the row's
   send was still ahead and is now waiting, stamped to this moment; every other
   answer leaves jobs and drafts alone, and the row too unless the job turns out
   to have failed or to be over.
   */
  lemma SendNowMeans(w: World)
    requires Inv(w)
    ensures var (w', r) := SendNow(w);
            && w'.drafts == w.drafts
            && (r == Promoted <==>
                  && w.row.Some? && !w.row.value.failed && !InReview(w, w.row.value.id)
                  && (StateOf(w, w.row.value.id).None? || JobIs(w, w.row.value.id, Delayed)))
            && (r == Promoted ==>
                  && JobIs(w', w.row.value.id, Waiting) && w'.row == Some(Row(w.row.value.id, w.now, false))
                  && w'.queue[w.row.value.id].data == Target(w.client, w.row.value.id.draft))
            && (r != Promoted ==> w'.queue == w.queue && w'.history == w.history)
            && (r == AlreadySending || r == AwaitingReview ==> w' == w)
            && (r == AwaitingReview <==>
                  w.row.Some? && !w.row.value.failed && InReview(w, w.row.value.id))
            && (r == SendFailed <==> w'.row.Some? && w'.row.value.failed)
            && (r == SendFailed <==>
                  && w.row.Some?
                  && (w.row.value.failed || (!InReview(w, w.row.value.id) && JobIs(w, w.row.value.id, Failed))))
            && (r == NoneScheduled <==> w'.row.None?)
            && (r == NoneScheduled <==> w.row.None? || OverAndGone(w, w.row.value.id))
  {
    if w.row.Some? {
      assert Known(w, w.row.value.id);
    }
  }

  /** A row whose id nobody can read, with its job gone: send-now finds nothing, and only a resume gets further. */
  lemma UnreadableRow(w: World, plan: Plan)
    requires w.row.Some? && Parse(w.row.value.id).None? && w.row.value.id !in w.queue
    ensures SendNow(w) == (w, if w.row.value.failed then SendFailed else NoneScheduled)
    ensures RetrySend(w) == (w, false) && ResyncRow(w) == w && ResumeSend(w, plan) == Replan(w, plan)
  {
  }

  /** The worker's run in which the provider threw, recorded by BullMQ as failed. */
  function FailedRun(w: World, id: JobId): World
    requires id.Named?
  {
    Finish(RunSend(w, id.draft, ProviderThrew, NoMessage).world, id, true)
  }

  /**
   A failed send is stuck until somebody retries it: send-now and the boot resync
   leave it, with or without its job; the retry makes the same job wait again, for
   the same draft, and clears the mark.
   */
  lemma FailedThenRetried(w: World, id: JobId, wiped: bool)
    requires Inv(w) && w.row.Some? && w.row.value.id == id && Hands(w, id.draft, Delivered) && JobIs(w, id, Active)
    ensures var f := FailedRun(w, id);
            var s := if wiped then f.(queue := map[]) else f;
            var (retried, ok) := RetrySend(s);
            && f.drafts == w.drafts && JobIs(f, id, Failed) && f.row == Some(w.row.value.(failed := true))
            && SendNow(s) == (s, SendFailed) && ResyncRow(s) == s
            && ok && JobIs(retried, id, Waiting) && retried.queue[id].data == Target(w.client, id.draft)
            && retried.row == Some(Row(id, w.now, false)) && retried.drafts == w.drafts
            && Hands(retried, id.draft, Delivered)
  {
    assert Known(w, id);
  }

  /**
   A retry succeeds if and only if a failure is recorded and the send can still be
   found, by its job or by its id; then exactly the row's job is queued or already
   moving, never failed, the mark is gone, and nothing else moved.
   */
  lemma RetryMeans(w: World)
    ensures var (w', ok) := RetrySend(w);
            && (ok <==> w.row.Some? && w.row.value.failed
                        && (w.row.value.id in w.queue || Parse(w.row.value.id).Some?))
            && (!ok ==> w' == w)
            && (ok ==>
                  var id := w.row.value.id;
                  && w'.row == Some(Row(id, w.now, false)) && w'.drafts == w.drafts && w'.history == w.history
                  && id in w'.queue && w'.queue[id].state != Failed
                  && (id !in w.queue || JobIs(w, id, Failed) ==> JobIs(w', id, Waiting))
                  && (id !in w.queue ==> Some(w'.queue[id].data) == Parse(id))
                  && w'.queue.Keys == w.queue.Keys + {id}
                  && forall other :: other in w.queue && other != id ==> w'.queue[other] == w.queue[other])
  {
  }

  /**
   A draft whose time comes unapproved is parked with its plan; an approval while
   the gates are open queues it at once under its own id, and that job sends it.
   */
  lemma ParkedThenApproved(w: World, draft: DraftId, send: SendOutcome, plan: Plan)
    requires Inv(w) && MaySend(w.flags) && w.flags.reviewMode
    requires draft in w.drafts && w.drafts[draft].status == Drafted && w.drafts[draft].review == Pending
    ensures var parked := RunSend(w, draft, send, plan).world;
            var (approved, ok) := Approve(parked, draft);
            && parked == w.(drafts := w.drafts[draft := Draft(Held, Pending)])
            && !Hands(parked, draft, Delivered)
            && ok && Hands(approved, draft, Delivered)
            && approved.row == Some(Row(ApprovedId(w, draft), w.now, false))
            && JobIs(approved, ApprovedId(w, draft), Waiting)
            && approved.queue[ApprovedId(w, draft)].data == Target(w.client, draft)
            && approved.history.swallowed == 0
  {
    assert ApprovedId(w, draft) in w.queue ==> Known(w, ApprovedId(w, draft));
  }

  /** An approval before the planned time changes nothing but the review: the planned job stays and will send it. */
  lemma ApprovedInTime(w: World, draft: DraftId)
    requires w.flags.live && !w.flags.complete && !w.flags.paused && !w.flags.adminPaused
    requires draft in w.drafts && w.drafts[draft] == Draft(Drafted, Pending)
    ensures var (w', ok) := Approve(w, draft);
            && ok && w'.drafts == w.drafts[draft := Draft(Drafted, Approved)]
            && w'.queue == w.queue && w'.row == w.row
            && (!w.flags.blocked ==> Hands(w', draft, Delivered))
  {
  }
}
