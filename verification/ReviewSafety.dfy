/**
 Admin review: what is delivered was approved, what waits for review is the draft
 the mirror row names, and a superseded draft is out of the game - the last two
 exactly as long as no stale job parks a draft it no longer stands for.
 */
module ReviewSafety {
  import opened Options
  import opened JobIds
  import opened Lifecycle
  import opened SendLaws
  import opened SendRuns
  import opened DeliverySafety

  // ----- Approved before delivered ---------------------------------------------------------------

  /** With review mode on, every draft entered review and every delivered one was approved. */
  ghost predicate Reviewed(w: World) {
    && (forall d :: d in w.drafts ==> w.drafts[d].review != NoReview)
    && (forall d :: d in w.history.delivered ==> WasApproved(w, d))
  }

  /** No draft skips review, approved drafts stay approved, nothing is delivered. */
  ghost predicate ReviewKept(w: World, w': World) {
    && w'.history.delivered == w.history.delivered
    && (forall d :: WasApproved(w, d) ==> WasApproved(w', d))
    && ((forall d :: d in w.drafts ==> w.drafts[d].review != NoReview) ==>
          forall d :: d in w'.drafts ==> w'.drafts[d].review != NoReview)
  }

  lemma RemoveReviewed(w: World)
    ensures ReviewKept(w, RemoveSend(w))
  {
    assert RemoveSend(w).drafts == Supersede(w).drafts;
  }

  lemma SetSendReviewed(w: World, plan: Plan)
    requires w.flags.reviewMode && (plan.Message? ==> plan.draft !in w.drafts)
    ensures ReviewKept(w, SetSend(w, plan))
  {
  }

  lemma ReplanReviewed(w: World, plan: Plan)
    requires w.flags.reviewMode && (plan.Message? ==> plan.draft !in w.drafts)
    ensures ReviewKept(w, Replan(w, plan))
  {
    RemoveReviewed(w);
    RemoveDrafts(w);
    RemoveFlags(w);
    SetSendReviewed(RemoveSend(w), plan);
  }

  lemma RemoveFlags(w: World)
    ensures RemoveSend(w).flags == w.flags
  {
  }

  lemma ResumeReviewed(w: World, plan: Plan)
    requires w.flags.reviewMode && (plan.Message? ==> plan.draft !in w.drafts)
    ensures ReviewKept(w, ResumeSend(w, plan))
  {
    var state := if w.row.Some? then StateOf(w, w.row.value.id) else None;
    if DecideResume(w.row, state, w.row.Some? && DraftHeld(w.drafts, w.row.value.id), w.now) == Redraft {
      ReplanReviewed(w, plan);
    } else {
      SameDraftsReviewed(w, ResumeSend(w, plan));
    }
  }

  lemma SameDraftsReviewed(w: World, w': World)
    requires w'.drafts == w.drafts && w'.history.delivered == w.history.delivered
    ensures ReviewKept(w, w')
  {
    forall d ensures WasApproved(w, d) <==> WasApproved(w', d) {}
  }

  lemma RunReviewed(w: World, draft: DraftId, send: SendOutcome, plan: Plan)
    requires w.flags.reviewMode && (plan.Message? ==> plan.draft !in w.drafts)
    requires Reviewed(w)
    ensures Reviewed(RunSend(w, draft, send, plan).world)
  {
    if Hands(w, draft, send) {
      HandedReviewed(w, draft, send, plan);
    } else {
      ReplanReviewed(w, plan);
    }
  }

  lemma HandedReviewed(w: World, draft: DraftId, send: SendOutcome, plan: Plan)
    requires w.flags.reviewMode && (plan.Message? ==> plan.draft !in w.drafts)
    requires Reviewed(w) && Hands(w, draft, send)
    ensures Reviewed(RunSend(w, draft, send, plan).world)
  {
    HandedRun(w, draft, send, plan);
    ReplanReviewed(MarkSent(w, draft), plan);
  }

  lemma SendNowReviewed(w: World)
    requires Reviewed(w)
    ensures Reviewed(SendNow(w).0)
  {
  }

  lemma RetryReviewed(w: World)
    requires Reviewed(w)
    ensures Reviewed(RetrySend(w).0)
  {
  }

  lemma ApproveReviewed(w: World, draft: DraftId)
    requires Reviewed(w)
    ensures Reviewed(Approve(w, draft).0)
  {
  }

  /** The queue, the workers, the clock and the flags leave every draft alone. */
  lemma QuietReviewed(w: World, a: Action)
    requires Enabled(w, a) && Reviewed(w) && (Quiet(a) || a.PauseNow? || a.Resync?)
    ensures Reviewed(Step(w, a))
  {
  }

  lemma StepReviewed(w: World, a: Action)
    requires Enabled(w, a) && w.flags.reviewMode && Reviewed(w)
    ensures Reviewed(Step(w, a))
  {
    match a
    case Run(id, send, plan, _) => RunReviewed(Released(w, id), id.draft, send, plan);
    case ReplanNow(plan) => ReplanReviewed(w, plan);
    case RemoveNow => RemoveReviewed(w);
    case PlanAlone(plan) => SetSendReviewed(w, plan);
    case ResumeNow(plan) => ResumeReviewed(w, plan);
    case SendNowPressed => SendNowReviewed(w);
    case RetryPressed => RetryReviewed(w);
    case ApprovePressed(draft) => ApproveReviewed(w, draft);
    case _ => QuietReviewed(w, a);
  }

  ghost predicate ReviewOn(ws: seq<World>) {
    forall i :: 0 <= i < |ws| ==> ws[i].flags.reviewMode
  }

  lemma {:induction false} ReviewedReached(ws: seq<World>, acts: seq<Action>, i: nat)
    requires IsRun(ws, acts) && ReviewOn(ws) && i < |ws|
    ensures Reviewed(ws[i])
  {
    if i > 0 {
      ReviewedReached(ws, acts, i - 1);
      StepReviewed(ws[i - 1], acts[i - 1]);
    }
  }

  /**
   Main result: with review mode on throughout, every delivered draft was approved, exactly once, and
   was delivered once.
   */
  lemma DeliveredApproved(ws: seq<World>, acts: seq<Action>, i: nat)
    requires IsRun(ws, acts) && ReviewOn(ws) && i < |ws|
    ensures Reviewed(ws[i])
    ensures forall d :: d in ws[i].history.delivered ==>
              ws[i].history.approved[d] == 1 && ws[i].history.delivered[d] == 1
  {
    InvReached(ws, acts, i);
    ReviewedReached(ws, acts, i);
    forall d | d in ws[i].history.delivered
      ensures ws[i].history.approved[d] == 1 && ws[i].history.delivered[d] == 1
    {
      OncePerDraft(ws, acts, d, i);
    }
  }

  // ----- The draft that waits is the row's ---------------------------------------------------------

  predicate Waits(w: World, d: DraftId) {
    d in w.drafts && w.drafts[d].review == Pending
  }

  predicate RowFor(w: World, d: DraftId) {
    w.row.Some? && w.row.value.id.Named? && w.row.value.id.draft == d
  }

  ghost predicate WaiterHasRow(w: World) {
    forall d :: Waits(w, d) ==> RowFor(w, d)
  }

  /** The review gate parks the draft instead of sending it. */
  predicate Parks(w: World, draft: DraftId) {
    && MaySend(w.flags) && w.flags.reviewMode
    && draft in w.drafts && w.drafts[draft].status == Drafted && w.drafts[draft].review != Approved
  }

  /**
   A plan made without removing first while a draft waits, or a stale job that parks a draft the row
   no longer names.
   */
  predicate Strays(w: World, a: Action) {
    match a
    case PlanAlone(plan) => plan.Message? && MayPlan(w) && PendingDrafts(w) != {}
    case Run(id, _, _, _) => id.Named? && Parks(w, id.draft) && !RowFor(w, id.draft)
    case _ => false
  }

  lemma RemoveSettles(w: World)
    ensures forall d :: !Waits(RemoveSend(w), d)
  {
    assert RemoveSend(w).drafts == Supersede(w).drafts;
  }

  lemma SetSendWaits(w: World, plan: Plan)
    requires WaiterHasRow(w) && (plan.Message? ==> plan.draft !in w.drafts)
    ensures WaiterHasRow(SetSend(w, plan)) <==> !Strays(w, PlanAlone(plan))
  {
    var s := SetSend(w, plan);
    if s != w {
      assert RowFor(s, plan.draft);
      if PendingDrafts(w) != {} {
        var d :| d in PendingDrafts(w);
        assert Waits(s, d) && !RowFor(s, d);
      } else {
        forall d | Waits(s, d) ensures d == plan.draft {
          assert d !in PendingDrafts(w);
        }
      }
    }
  }

  lemma ReplanWaits(w: World, plan: Plan)
    requires plan.Message? ==> plan.draft !in w.drafts
    ensures WaiterHasRow(Replan(w, plan))
  {
    RemoveSettles(w);
    RemoveDrafts(w);
    SetSendWaits(RemoveSend(w), plan);
    forall d ensures d !in PendingDrafts(RemoveSend(w)) {
      assert !Waits(RemoveSend(w), d);
    }
  }

  lemma ApproveWaits(w: World, draft: DraftId)
    requires Inv(w) && WaiterHasRow(w)
    ensures WaiterHasRow(Approve(w, draft).0)
  {
    var s := Approve(w, draft).0;
    if Approve(w, draft).1 {
      assert Waits(w, draft) && RowFor(w, draft);
      forall d ensures Waits(w, d) ==> d == draft {
        assert Waits(w, d) ==> RowFor(w, d);
      }
      forall d ensures !Waits(s, d) {
        assert !Waits(s, draft) && (Waits(s, d) ==> Waits(w, d) || d == draft);
      }
    }
  }

  /** No draft joins the queue of the waiting, and the row moves only off a draft that does not wait. */
  lemma KeptWaits(w: World, w': World)
    requires WaiterHasRow(w)
    requires forall d :: Waits(w', d) ==> Waits(w, d)
    requires forall d :: Waits(w', d) && RowFor(w, d) ==> RowFor(w', d)
    ensures WaiterHasRow(w')
  {
    forall d | Waits(w', d) ensures RowFor(w', d) {
      assert Waits(w, d);
    }
  }

  lemma ResumeWaits(w: World, plan: Plan)
    requires WaiterHasRow(w) && (plan.Message? ==> plan.draft !in w.drafts)
    ensures WaiterHasRow(ResumeSend(w, plan))
  {
    var state := if w.row.Some? then StateOf(w, w.row.value.id) else None;
    if DecideResume(w.row, state, w.row.Some? && DraftHeld(w.drafts, w.row.value.id), w.now) == Redraft {
      ReplanWaits(w, plan);
    } else {
      KeptWaits(w, ResumeSend(w, plan));
    }
  }

  lemma SendNowWaits(w: World)
    requires WaiterHasRow(w)
    ensures WaiterHasRow(SendNow(w).0)
  {
    KeptWaits(w, SendNow(w).0);
  }

  lemma RunWaits(w: World, draft: DraftId, send: SendOutcome, plan: Plan)
    requires WaiterHasRow(w) && (plan.Message? ==> plan.draft !in w.drafts)
    ensures WaiterHasRow(RunSend(w, draft, send, plan).world) <==> !(Parks(w, draft) && !RowFor(w, draft))
  {
    var s := RunSend(w, draft, send, plan).world;
    if Parks(w, draft) {
      assert s == w.(drafts := w.drafts[draft := Draft(Held, Pending)]);
      assert Waits(s, draft) && (RowFor(s, draft) <==> RowFor(w, draft));
      forall d | d != draft ensures (Waits(s, d) <==> Waits(w, d)) && (RowFor(s, d) <==> RowFor(w, d)) {}
    } else if Hands(w, draft, send) {
      HandedRun(w, draft, send, plan);
      ReplanWaits(MarkSent(w, draft), plan);
    } else {
      ReplanWaits(w, plan);
      if s != Replan(w, plan) {
        KeptWaits(w, s);
      }
    }
  }

  lemma WorkerWaits(w: World, a: Action)
    requires Enabled(w, a) && WaiterHasRow(w) && a.Run?
    ensures WaiterHasRow(Step(w, a)) <==> !Strays(w, a)
  {
    var free := Released(w, a.id);
    KeptWaits(w, free);
    RunWaits(free, a.id.draft, a.send, a.plan);
    assert Parks(free, a.id.draft) <==> Parks(w, a.id.draft);
    var r := RunOf(w, a).world;
    forall d ensures (Waits(Step(w, a), d) <==> Waits(r, d)) && (RowFor(Step(w, a), d) <==> RowFor(r, d)) {}
  }

  /** The exact step: the one draft that waits stays the row's if and only if the step does not stray. */
  lemma StepWaits(w: World, a: Action)
    requires Inv(w) && Enabled(w, a) && WaiterHasRow(w)
    ensures WaiterHasRow(Step(w, a)) <==> !Strays(w, a)
  {
    match a
    case Run(_, _, _, _) => WorkerWaits(w, a);
    case ReplanNow(plan) => ReplanWaits(w, plan);
    case RemoveNow => RemoveSettles(w);
    case PlanAlone(plan) => SetSendWaits(w, plan);
    case ResumeNow(plan) => ResumeWaits(w, plan);
    case ApprovePressed(draft) => ApproveWaits(w, draft);
    case SendNowPressed => SendNowWaits(w);
    case _ => KeptWaits(w, Step(w, a));
  }

  /**
   Main result: over every run, at most one draft waits for review and the row names it, exactly when
   no step strays.
   */
  lemma {:induction false} WaiterHasRowIff(ws: seq<World>, acts: seq<Action>)
    requires IsRun(ws, acts)
    ensures (forall i :: 0 <= i < |ws| ==> WaiterHasRow(ws[i])) <==>
            (forall i :: 0 <= i < |acts| ==> !Strays(ws[i], acts[i]))
  {
    if forall i :: 0 <= i < |ws| ==> WaiterHasRow(ws[i]) {
      forall i | 0 <= i < |acts| ensures !Strays(ws[i], acts[i]) {
        InvReached(ws, acts, i);
        StepWaits(ws[i], acts[i]);
        assert WaiterHasRow(ws[i]) && WaiterHasRow(ws[i + 1]);
      }
    }
    if forall i :: 0 <= i < |acts| ==> !Strays(ws[i], acts[i]) {
      forall i | 0 <= i < |ws| ensures WaiterHasRow(ws[i]) {
        WaitsUpTo(ws, acts, i);
      }
    }
  }

  lemma {:induction false} WaitsUpTo(ws: seq<World>, acts: seq<Action>, i: nat)
    requires IsRun(ws, acts) && i < |ws|
    requires forall j :: 0 <= j < |acts| ==> !Strays(ws[j], acts[j])
    ensures WaiterHasRow(ws[i])
  {
    if i > 0 {
      WaitsUpTo(ws, acts, i - 1);
      InvReached(ws, acts, i - 1);
      StepWaits(ws[i - 1], acts[i - 1]);
    }
  }

  // ----- A superseded draft stays superseded ---------------------------------------------------------

  ghost predicate SupersededStays(w: World) {
    forall d :: d in w.history.superseded ==> d in w.drafts && w.drafts[d].review == Superseded
  }

  /** A stale job parks a draft that was superseded: it is back in the admin's queue. */
  predicate Revives(w: World, a: Action) {
    a.Run? && a.id.Named? && Parks(w, a.id.draft) && a.id.draft in w.history.superseded
  }

  lemma RemoveStays(w: World)
    requires SupersededStays(w)
    ensures SupersededStays(RemoveSend(w))
  {
    assert RemoveSend(w).drafts == Supersede(w).drafts;
    assert RemoveSend(w).history == Supersede(w).history;
  }

  lemma SetSendStays(w: World, plan: Plan)
    requires SupersededStays(w) && (plan.Message? ==> plan.draft !in w.drafts)
    ensures SupersededStays(SetSend(w, plan))
  {
  }

  lemma ReplanStays(w: World, plan: Plan)
    requires SupersededStays(w) && (plan.Message? ==> plan.draft !in w.drafts)
    ensures SupersededStays(Replan(w, plan))
  {
    RemoveStays(w);
    RemoveDrafts(w);
    SetSendStays(RemoveSend(w), plan);
  }

  lemma ResumeStays(w: World, plan: Plan)
    requires SupersededStays(w) && (plan.Message? ==> plan.draft !in w.drafts)
    ensures SupersededStays(ResumeSend(w, plan))
  {
    ReplanStays(w, plan);
  }

  lemma RunStays(w: World, draft: DraftId, send: SendOutcome, plan: Plan)
    requires SupersededStays(w) && (plan.Message? ==> plan.draft !in w.drafts)
    ensures SupersededStays(RunSend(w, draft, send, plan).world) <==>
            !(Parks(w, draft) && draft in w.history.superseded)
  {
    var s := RunSend(w, draft, send, plan).world;
    if Parks(w, draft) {
      assert s == w.(drafts := w.drafts[draft := Draft(Held, Pending)]);
    } else if Hands(w, draft, send) {
      HandedRun(w, draft, send, plan);
      assert SupersededStays(MarkSent(w, draft));
      ReplanStays(MarkSent(w, draft), plan);
    } else {
      ReplanStays(w, plan);
    }
  }

  /** The exact step: superseded drafts stay out of review if and only if no stale job parks one. */
  lemma StepStays(w: World, a: Action)
    requires Enabled(w, a) && SupersededStays(w)
    ensures SupersededStays(Step(w, a)) <==> !Revives(w, a)
  {
    match a
    case Run(_, _, _, _) => WorkerStays(w, a);
    case ReplanNow(plan) => ReplanStays(w, plan);
    case RemoveNow => RemoveStays(w);
    case PlanAlone(plan) => SetSendStays(w, plan);
    case ResumeNow(plan) => ResumeStays(w, plan);
    case _ =>
  }

  lemma WorkerStays(w: World, a: Action)
    requires Enabled(w, a) && a.Run? && SupersededStays(w)
    ensures SupersededStays(Step(w, a)) <==> !Revives(w, a)
  {
    RunStays(Released(w, a.id), a.id.draft, a.send, a.plan);
    assert Parks(Released(w, a.id), a.id.draft) <==> Parks(w, a.id.draft);
  }

  lemma {:induction false} SupersededStaysIff(ws: seq<World>, acts: seq<Action>)
    requires IsRun(ws, acts)
    ensures (forall i :: 0 <= i < |ws| ==> SupersededStays(ws[i])) <==>
            (forall i :: 0 <= i < |acts| ==> !Revives(ws[i], acts[i]))
  {
    if forall i :: 0 <= i < |ws| ==> SupersededStays(ws[i]) {
      forall i | 0 <= i < |acts| ensures !Revives(ws[i], acts[i]) {
        StepStays(ws[i], acts[i]);
        assert SupersededStays(ws[i]) && SupersededStays(ws[i + 1]);
      }
    }
    if forall i :: 0 <= i < |acts| ==> !Revives(ws[i], acts[i]) {
      forall i | 0 <= i < |ws| ensures SupersededStays(ws[i]) {
        StaysUpTo(ws, acts, i);
      }
    }
  }

  lemma {:induction false} StaysUpTo(ws: seq<World>, acts: seq<Action>, i: nat)
    requires IsRun(ws, acts) && i < |ws|
    requires forall j :: 0 <= j < |acts| ==> !Revives(ws[j], acts[j])
    ensures SupersededStays(ws[i])
  {
    if i > 0 {
      StaysUpTo(ws, acts, i - 1);
      StepStays(ws[i - 1], acts[i - 1]);
    }
  }

  /** Main result: with review mode on throughout and no revival, no delivered draft was ever superseded. */
  lemma NeverSuperseded(ws: seq<World>, acts: seq<Action>, i: nat)
    requires IsRun(ws, acts) && ReviewOn(ws) && i < |ws|
    requires forall j :: 0 <= j < |acts| ==> !Revives(ws[j], acts[j])
    ensures forall d :: d in ws[i].history.delivered ==> d !in ws[i].history.superseded
  {
    DeliveredApproved(ws, acts, i);
    StaysUpTo(ws, acts, i);
  }
}
