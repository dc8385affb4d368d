/**
 At most one send of a client is delayed or waiting, and it is the one the mirror
 row names. The lock and remove-then-plan give this for every step but three, and
 for those exactly when the row's job was not pending (or, for a recovered job,
 when the row names it).
 */
module SinglePending {
  import opened Options
  import opened JobIds
  import opened Lifecycle
  import opened SendLaws
  import opened SendRuns

  predicate PendingJob(w: World, id: JobId) {
    id in w.queue && (w.queue[id].state == Delayed || w.queue[id].state == Waiting)
  }

  predicate RowNames(w: World, id: JobId) {
    w.row.Some? && w.row.value.id == id
  }

  predicate RowPending(w: World) {
    w.row.Some? && PendingJob(w, w.row.value.id)
  }

  ghost predicate OnePending(w: World) {
    forall id :: PendingJob(w, id) ==> RowNames(w, id)
  }

  /**
   The steps that leave a pending send behind: planning without removing first,
   or approving a parked draft, while the row's job is pending; and bringing back
   a crashed job the row no longer names.
   */
  predicate Orphans(w: World, a: Action) {
    match a
    case PlanAlone(plan) => plan.Message? && MayPlan(w) && RowPending(w)
    case ApprovePressed(draft) => Approve(w, draft).1 && w.drafts[draft].status == Held && RowPending(w)
    case Recover(id) => !RowNames(w, id)
    case _ => false
  }

  lemma RemoveClears(w: World)
    requires OnePending(w)
    ensures forall id :: !PendingJob(RemoveSend(w), id)
    ensures RemoveSend(w).row.None?
  {
    forall id ensures !PendingJob(RemoveSend(w), id) {
      assert PendingJob(w, id) ==> RowNames(w, id);
    }
  }

  lemma SetSendPends(w: World, plan: Plan)
    requires Inv(w) && (plan.Message? ==> plan.draft !in w.drafts)
    requires OnePending(w)
    ensures OnePending(SetSend(w, plan)) <==> !Orphans(w, PlanAlone(plan))
  {
    var s := SetSend(w, plan);
    if s != w {
      var id := SendId(w, plan.draft);
      assert id !in w.queue && RowNames(s, id);
      forall other | other != id ensures PendingJob(s, other) <==> PendingJob(w, other) {}
      if RowPending(w) {
        assert PendingJob(s, w.row.value.id) && !RowNames(s, w.row.value.id);
      } else {
        forall other | PendingJob(s, other) ensures RowNames(s, other) {
          assert PendingJob(w, other) ==> RowNames(w, other);
        }
      }
    }
  }

  lemma ReplanPends(w: World, plan: Plan)
    requires Inv(w) && (plan.Message? ==> plan.draft !in w.drafts)
    requires OnePending(w)
    ensures OnePending(Replan(w, plan))
  {
    RemoveClears(w);
    InvRemove(w);
    SetSendPends(RemoveSend(w), plan);
  }

  lemma ApprovePends(w: World, draft: DraftId)
    requires Inv(w) && OnePending(w)
    ensures OnePending(Approve(w, draft).0) <==> !Orphans(w, ApprovePressed(draft))
  {
    var s := Approve(w, draft).0;
    if Approve(w, draft).1 && w.drafts[draft].status == Held {
      var id := ApprovedId(w, draft);
      assert id !in w.queue && RowNames(s, id);
      if RowPending(w) {
        assert PendingJob(s, w.row.value.id) && !RowNames(s, w.row.value.id);
      } else {
        forall other | PendingJob(s, other) ensures RowNames(s, other) {
          assert PendingJob(w, other) ==> RowNames(w, other);
        }
      }
    } else {
      forall other ensures PendingJob(s, other) <==> PendingJob(w, other) {}
    }
  }

  /** The row keeps naming its job, and nothing else became pending. */
  lemma KeptPends(w: World, w': World)
    requires OnePending(w)
    requires forall id :: PendingJob(w', id) ==> PendingJob(w, id) || RowNames(w, id)
    requires w'.row.Some? && w.row.Some? ==> w'.row.value.id == w.row.value.id
    requires w.row.Some? && w'.row.None? ==> !PendingJob(w', w.row.value.id)
    ensures OnePending(w')
  {
    forall id | PendingJob(w', id) ensures RowNames(w', id) {
      assert PendingJob(w, id) ==> RowNames(w, id);
    }
  }

  lemma ResumePends(w: World, plan: Plan)
    requires Inv(w) && (plan.Message? ==> plan.draft !in w.drafts)
    requires OnePending(w)
    ensures OnePending(ResumeSend(w, plan))
  {
    var state := if w.row.Some? then StateOf(w, w.row.value.id) else None;
    if DecideResume(w.row, state, w.row.Some? && DraftHeld(w.drafts, w.row.value.id), w.now) == Redraft {
      ReplanPends(w, plan);
    } else {
      KeptPends(w, ResumeSend(w, plan));
    }
  }

  lemma SendNowPends(w: World)
    requires OnePending(w)
    ensures OnePending(SendNow(w).0)
  {
    KeptPends(w, SendNow(w).0);
  }

  lemma RetryPends(w: World)
    requires OnePending(w)
    ensures OnePending(RetrySend(w).0)
  {
    KeptPends(w, RetrySend(w).0);
  }

  lemma RunPends(w: World, draft: DraftId, send: SendOutcome, plan: Plan)
    requires Inv(w) && (plan.Message? ==> plan.draft !in w.drafts)
    requires OnePending(w)
    ensures OnePending(RunSend(w, draft, send, plan).world)
  {
    var s := RunSend(w, draft, send, plan).world;
    if GatesOpen(w) && draft in w.drafts && w.drafts[draft].status == Drafted
       && !(w.flags.reviewMode && w.drafts[draft].review != Approved) && (send == Delivered || send == NotSent)
    {
      if send == Delivered {
        var sent := MarkSent(w, draft);
        forall id ensures PendingJob(sent, id) <==> PendingJob(w, id) {}
        MarkSentInv(w, draft);
        KeptPends(w, sent);
        ReplanPends(sent, plan);
      } else {
        ReplanPends(w, plan);
      }
    } else {
      KeptPends(w, s);
    }
  }

  lemma MarkSentInv(w: World, draft: DraftId)
    requires Inv(w) && draft in w.drafts
    ensures Inv(MarkSent(w, draft))
  {
    var sent := MarkSent(w, draft);
    forall id | Known(w, id) ensures Known(sent, id) {}
    forall d ensures WasApproved(sent, d) <==> WasApproved(w, d) {}
  }

  lemma WorkerPends(w: World, a: Action)
    requires Inv(w) && Enabled(w, a) && OnePending(w) && a.Run?
    ensures OnePending(Step(w, a))
  {
    RunOfPends(w, a);
    KeptPends(RunOf(w, a).world, Step(w, a));
  }

  lemma RunOfPends(w: World, a: Action)
    requires Inv(w) && Enabled(w, a) && OnePending(w) && a.Run?
    ensures OnePending(RunOf(w, a).world)
  {
    var free := Released(w, a.id);
    InvFrame(w, free);
    KeptPends(w, free);
    RunPends(free, a.id.draft, a.send, a.plan);
  }

  lemma RecoverPends(w: World, id: JobId)
    requires OnePending(w) && Enabled(w, Recover(id))
    ensures OnePending(Step(w, Recover(id))) <==> RowNames(w, id)
  {
    var s := Step(w, Recover(id));
    assert PendingJob(s, id);
    if RowNames(w, id) {
      KeptPends(w, s);
    }
  }

  /** The exact step: from a state with one pending send, a step keeps it one if and only if it orphans nothing. */
  lemma StepPends(w: World, a: Action)
    requires Inv(w) && Enabled(w, a) && OnePending(w)
    ensures OnePending(Step(w, a)) <==> !Orphans(w, a)
  {
    match a
    case ReplanNow(plan) => ReplanPends(w, plan);
    case RemoveNow => RemoveClears(w);
    case PlanAlone(plan) => SetSendPends(w, plan);
    case ResumeNow(plan) => ResumePends(w, plan);
    case ApprovePressed(draft) => ApprovePends(w, draft);
    case SendNowPressed => SendNowPends(w);
    case RetryPressed => RetryPends(w);
    case Run(_, _, _, _) => WorkerPends(w, a);
    case Recover(id) => RecoverPends(w, id);
    case PauseNow => KeptPends(w, Step(w, a));
    case Resync => KeptPends(w, Step(w, a));
    case Pick(id) => KeptPends(w, Step(w, a));
    case WorkerLost(id) => KeptPends(w, Step(w, a));
    case RedisWipe => KeptPends(w, Step(w, a));
    case Tick(ms) => KeptPends(w, Step(w, a));
    case Flip(flags) => KeptPends(w, Step(w, a));
  }

  /**
   Main result: over every run, at most one send is ever pending and the row
   names it, exactly when no step of the run orphans one.
   */
  lemma {:induction false} OnePendingIff(ws: seq<World>, acts: seq<Action>)
    requires IsRun(ws, acts)
    ensures (forall i :: 0 <= i < |ws| ==> OnePending(ws[i])) <==>
            (forall i :: 0 <= i < |acts| ==> !Orphans(ws[i], acts[i]))
  {
    if forall i :: 0 <= i < |ws| ==> OnePending(ws[i]) {
      forall i | 0 <= i < |acts| ensures !Orphans(ws[i], acts[i]) {
        InvReached(ws, acts, i);
        StepPends(ws[i], acts[i]);
        assert OnePending(ws[i]) && OnePending(ws[i + 1]);
      }
    }
    if forall i :: 0 <= i < |acts| ==> !Orphans(ws[i], acts[i]) {
      forall i | 0 <= i < |ws| ensures OnePending(ws[i]) {
        PendsUpTo(ws, acts, i);
      }
    }
  }

  lemma {:induction false} PendsUpTo(ws: seq<World>, acts: seq<Action>, i: nat)
    requires IsRun(ws, acts) && i < |ws|
    requires forall j :: 0 <= j < |acts| ==> !Orphans(ws[j], acts[j])
    ensures OnePending(ws[i])
  {
    if i > 0 {
      PendsUpTo(ws, acts, i - 1);
      InvReached(ws, acts, i - 1);
      StepPends(ws[i - 1], acts[i - 1]);
    }
  }
}
