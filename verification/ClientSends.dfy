/**
 The operations on one client's scheduled send, written the way the source runs
 them: reads, early returns, one store write after another, all under the
 client's lock. Each is proved to do exactly what its function in Lifecycle says.
 */
module ClientSends {
  import opened Options
  import opened JobIds
  import opened Lifecycle

  class ClientSends {
    const client: ClientId
    var flags: Flags
    var drafts: map<DraftId, Draft>
    var row: Option<Row>
    var queue: map<JobId, Job>
    var now: int
    ghost var running: multiset<JobId>
    ghost var history: History

    ghost function W(): World
      reads this
    {
      World(client, flags, drafts, row, queue, running, now, history)
    }

    // ----- Query helpers ----------------------------------------------------------------------

    method SupersedePendingReview()
      modifies this`drafts, this`history
      ensures W() == Supersede(old(W()))
    {
      history := history.(superseded := history.superseded + PendingDrafts(W()));
      drafts := map d | d in drafts :: if drafts[d].review == Pending then Draft(Drafted, Superseded) else drafts[d];
    }

    /** UPDATE ... SET status = 'held', review_status = 'pending' WHERE status = 'draft' */
    method MarkHeld(draft: DraftId) returns (held: bool)
      modifies this`drafts
      ensures held == (draft in old(drafts) && old(drafts)[draft].status == Drafted)
      ensures drafts == if held then old(drafts)[draft := Draft(Held, Pending)] else old(drafts)
    {
      held := draft in drafts && drafts[draft].status == Drafted;
      if held {
        drafts := drafts[draft := Draft(Held, Pending)];
      }
    }

    /** UPDATE ... SET review_status = 'approved', status = 'draft' WHERE review_status = 'pending' */
    method ApprovePending(draft: DraftId) returns (approved: bool)
      modifies this`drafts, this`history
      ensures approved == (draft in old(drafts) && old(drafts)[draft].review == Pending)
      ensures drafts == if approved then old(drafts)[draft := Draft(Drafted, Approved)] else old(drafts)
      ensures history == if approved then old(history).(approved := old(history).approved + multiset{draft})
                         else old(history)
    {
      approved := draft in drafts && drafts[draft].review == Pending;
      if approved {
        drafts := drafts[draft := Draft(Drafted, Approved)];
        history := history.(approved := history.approved + multiset{draft});
      }
    }

    /** UPDATE ... SET review_status = 'pending' WHERE status = 'draft' AND review_status IS NULL */
    method MarkReviewPending(draft: DraftId)
      modifies this`drafts
      ensures drafts == if draft in old(drafts) && old(drafts)[draft] == Draft(Drafted, NoReview)
                        then old(drafts)[draft := Draft(Drafted, Pending)] else old(drafts)
    {
      if draft in drafts && drafts[draft] == Draft(Drafted, NoReview) {
        drafts := drafts[draft := Draft(Drafted, Pending)];
      }
    }

    /** Any fresh scheduling clears a recorded send failure. */
    method UpsertRow(id: JobId, scheduledFor: int)
      modifies this`row
      ensures row == Some(Row(id, scheduledFor, false))
    {
      row := Some(Row(id, scheduledFor, false));
    }

    /** UPDATE ... SET send_failed_at = now() WHERE client_id = ..., whichever job the row names */
    method MarkSendFailed()
      modifies this`row
      ensures row == if old(row).None? then None else Some(old(row).value.(failed := true))
    {
      if row.Some? {
        row := Some(row.value.(failed := true));
      }
    }

    // ----- Queue calls ------------------------------------------------------------------------

    method QueueAdd(id: JobId, data: Target, delay: nat)
      modifies this`queue, this`history
      ensures W() == Add(old(W()), id, data, now + delay)
    {
      if id in queue {
        history := history.(swallowed := history.swallowed + 1);
        return;
      }
      queue := queue[id := Job(if delay > 0 then Delayed else Waiting, now + delay, data)];
    }

    method GetState(id: JobId) returns (state: Option<JobState>)
      ensures state == StateOf(W(), id)
    {
      state := if id in queue then Some(queue[id].state) else None;
    }

    method MoveTo(id: JobId, state: JobState)
      requires id in queue
      modifies this`queue
      ensures W() == SetState(old(W()), id, state)
    {
      queue := queue[id := queue[id].(state := state)];
    }

    // ----- src/orchestration ------------------------------------------------------------------

    method RemoveFutureEmail()
      modifies this`drafts, this`row, this`queue, this`history
      ensures W() == RemoveSend(old(W()))
    {
      SupersedePendingReview();
      if row.None? {
        return;
      }
      var state := GetState(row.value.id);
      if state.Some? && Cancelable(state.value) {
        queue := queue - {row.value.id};
      }
      row := None;
    }

    method PauseFutureEmail()
      modifies this`queue
      ensures W() == PauseSend(old(W()))
    {
      if row.None? {
        return;
      }
      var state := GetState(row.value.id);
      if state.Some? && Cancelable(state.value) {
        queue := queue - {row.value.id};
      }
    }

    method ScheduleDraftMessage(draft: DraftId, delay: nat, hold: bool)
      requires draft !in drafts
      modifies this`drafts, this`row, this`queue, this`history
      ensures W() == ScheduleDraft(old(W()), draft, delay, hold)
    {
      drafts := drafts[draft := Draft(Drafted, NoReview)];
      var scheduledFor := now + delay;
      if flags.live && flags.reviewMode {
        MarkReviewPending(draft);
      }
      assert drafts == ScheduleDraft(old(W()), draft, delay, true).drafts;
      var id := Named(SendEmail, client, draft);
      if hold {
        UpsertRow(id, scheduledFor);
        return;
      }
      QueueAdd(id, Target(client, draft), delay);
      UpsertRow(id, scheduledFor);
    }

    /** `plan` is the answer the planner would give; it is not asked when a guard returns early. */
    method SetFutureEmail(plan: Plan) returns (threw: bool)
      requires plan.Message? ==> plan.draft !in drafts
      modifies this`drafts, this`row, this`queue, this`history
      ensures W() == SetSend(old(W()), plan)
      ensures threw == PlanThrows(old(W()), plan)
    {
      if !flags.live || flags.complete {
        return false;
      }
      var hold := false;
      if flags.paused {
        if flags.manualKickoff && !Contacted(flags, drafts) {
          hold := true;
        } else {
          return false;
        }
      }
      if flags.adminPaused {
        return false;
      }
      match plan {
        case NoMessage => threw := false;
        case PlannerThrew => threw := true;
        case Message(draft, delay) =>
          ScheduleDraftMessage(draft, delay, hold);
          threw := false;
      }
    }

    method EnqueuePreservedSendNow(id: JobId) returns (queued: bool)
      modifies this`row, this`queue, this`history
      ensures W() == EnqueueNow(old(W()), id) && queued == Parse(id).Some?
    {
      var target := Parse(id);
      if target.None? {
        return false;
      }
      QueueAdd(id, target.value, 0);
      UpsertRow(id, now);
      return true;
    }

    method ResumeFutureEmail(plan: Plan)
      requires plan.Message? ==> plan.draft !in drafts
      modifies this`drafts, this`row, this`queue, this`history
      ensures W() == ResumeSend(old(W()), plan)
    {
      var state: Option<JobState> := None;
      var draftHeld := false;
      if row.Some? {
        state := GetState(row.value.id);
        draftHeld := DraftHeld(drafts, row.value.id);
      }
      var action := DecideResume(row, state, draftHeld, now);
      if row.Some? && (action == AlreadyQueued || action == Keep) {
        return;
      }
      if row.Some? && action == Restore {
        QueueAdd(row.value.id, Target(client, Parse(row.value.id).value.draft), row.value.scheduledFor - now);
        return;
      }
      if row.Some? && action == SendAtOnce {
        var _ := EnqueuePreservedSendNow(row.value.id);
        return;
      }
      RemoveFutureEmail();
      var _ := SetFutureEmail(plan);
    }

    method SendFutureEmailNow() returns (result: SendNowResult)
      modifies this`row, this`queue, this`history
      ensures (W(), result) == SendNow(old(W()))
    {
      if row.None? {
        return NoneScheduled;
      }
      var id := row.value.id;
      if row.value.failed {
        return SendFailed;
      }
      if AwaitsReview(drafts, id) {
        return AwaitingReview;
      }
      var state := GetState(id);
      if state.None? {
        var queued := EnqueuePreservedSendNow(id);
        return if queued then Promoted else NoneScheduled;
      }
      if state.value == Waiting || state.value == Active || state.value == Prioritized {
        return AlreadySending;
      }
      if state.value == Failed {
        MarkSendFailed();
        return SendFailed;
      }
      if state.value != Delayed {
        if DraftHeld(drafts, id) {
          return AlreadySending;
        }
        row := None;
        return NoneScheduled;
      }
      MoveTo(id, Waiting);
      UpsertRow(id, now);
      return Promoted;
    }

    method RetryFailedSend() returns (retried: bool)
      modifies this`row, this`queue, this`history
      ensures (W(), retried) == RetrySend(old(W()))
    {
      if row.None? || !row.value.failed {
        return false;
      }
      var id := row.value.id;
      var state := GetState(id);
      if state.Some? {
        if state.value == Failed {
          MoveTo(id, Waiting);
        }
      } else {
        var target := Parse(id);
        if target.None? {
          return false;
        }
        QueueAdd(id, target.value, 0);
      }
      UpsertRow(id, now);
      return true;
    }

    // ----- src/api/reviewAdmin.ts -------------------------------------------------------------

    method AdminApproveReviewMessage(draft: DraftId) returns (ok: bool)
      modifies this`drafts, this`row, this`queue, this`history
      ensures (W(), ok) == Approve(old(W()), draft)
    {
      if !flags.live || flags.complete || flags.paused || flags.adminPaused {
        return false;
      }
      var wasHeld := draft in drafts && drafts[draft].status == Held;
      ok := ApprovePending(draft);
      if !ok {
        return;
      }
      if wasHeld {
        var id := Named(SendEmailApproved, client, draft);
        QueueAdd(id, Target(client, draft), 0);
        UpsertRow(id, now);
      }
    }

    // ----- src/queue ----------------------------------------------------------------------------

    /** The body of resyncScheduledJobs' loop, once `expected` was listed; true when it re-queued the send. */
    method ResyncScheduledJob(expected: JobId) returns (restored: bool)
      modifies this`queue, this`history
      ensures row.Some? && row.value.id == expected ==> W() == ResyncRow(old(W()))
      ensures !(row.Some? && row.value.id == expected) ==> W() == old(W())
      ensures restored == (queue != old(queue))
    {
      if row.None? || row.value.id != expected {
        return false;
      }
      if !flags.live {
        return false;
      }
      if flags.paused {
        return false;
      }
      if row.value.failed {
        return false;
      }
      var state := GetState(expected);
      if state.Some? {
        return false;
      }
      var target := Parse(expected);
      if target.None? {
        return false;
      }
      QueueAdd(expected, target.value, if row.value.scheduledFor > now then row.value.scheduledFor - now else 0);
      assert expected in queue && expected !in old(queue);
      return true;
    }

    method OnScheduledSend(draft: DraftId, send: SendOutcome, plan: Plan) returns (threw: bool)
      requires plan.Message? ==> plan.draft !in drafts
      modifies this`drafts, this`row, this`queue, this`history
      ensures RunResult(W(), threw) == RunSend(old(W()), draft, send, plan)
    {
      if !flags.live {
        return false;
      }
      if flags.complete {
        return false;
      }
      if flags.paused {
        return false;
      }
      if flags.blocked {
        return false;
      }
      if flags.adminPaused {
        return false;
      }
      if draft !in drafts || drafts[draft].status != Drafted {
        return false;
      }
      if flags.reviewMode && drafts[draft].review != Approved {
        var _ := MarkHeld(draft);
        return false;
      }
      match send {
        case ProviderThrew =>
          MarkSendFailed();
          return true;
        case SkipPlanning =>
          return false;
        case Delivered =>
          SetSent(draft);
        case NotSent =>
      }
      threw := ReplanAfterSend(plan);
    }

    /** UPDATE ... SET status = 'sent' WHERE id = ..., by the adapter that handed the draft to the provider */
    method SetSent(draft: DraftId)
      requires draft in drafts
      modifies this`drafts, this`history
      ensures W() == MarkSent(old(W()), draft)
    {
      drafts := drafts[draft := drafts[draft].(status := Sent)];
      history := history.(delivered := history.delivered + multiset{draft});
    }

    method ReplanAfterSend(plan: Plan) returns (threw: bool)
      requires plan.Message? ==> plan.draft !in drafts
      modifies this`drafts, this`row, this`queue, this`history
      ensures W() == Replan(old(W()), plan)
      ensures threw == PlanThrows(RemoveSend(old(W())), plan)
    {
      RemoveFutureEmail();
      threw := SetFutureEmail(plan);
    }
  }
}
