/**
 Delivery: a draft goes out only through open gates, and at most once as long as
 it is not delivered while it waits for review. Delivering one (review mode was
 switched off while it waited) makes the cleanup that follows set its stored
 status from sent back to draft, so a job that runs again sends it again.
 */
module DeliverySafety {
  import opened Options
  import opened JobIds
  import opened Lifecycle
  import opened SendLaws
  import opened SendRuns

  /** With these stores the worker hands the draft to the provider, and the provider takes it. */
  predicate Hands(w: World, draft: DraftId, send: SendOutcome) {
    send == Delivered && MaySend(w.flags) && MayGoOut(w, draft)
  }

  predicate Delivers(w: World, a: Action) {
    a.Run? && a.id.Named? && Hands(w, a.id.draft, a.send)
  }

  lemma RemoveHistory(w: World)
    ensures RemoveSend(w).history.delivered == w.history.delivered
  {
  }

  lemma SetSendHistory(w: World, plan: Plan)
    ensures SetSend(w, plan).history.delivered == w.history.delivered
  {
  }

  lemma ReplanHistory(w: World, plan: Plan)
    ensures Replan(w, plan).history.delivered == w.history.delivered
  {
    RemoveHistory(w);
    SetSendHistory(RemoveSend(w), plan);
  }

  lemma RunHistory(w: World, draft: DraftId, send: SendOutcome, plan: Plan)
    ensures RunSend(w, draft, send, plan).world.history.delivered ==
            if Hands(w, draft, send) then w.history.delivered + multiset{draft} else w.history.delivered
  {
    ReplanHistory(w, plan);
    if Hands(w, draft, send) {
      ReplanHistory(MarkSent(w, draft), plan);
    }
  }

  lemma ResumeHistory(w: World, plan: Plan)
    ensures ResumeSend(w, plan).history.delivered == w.history.delivered
  {
    ReplanHistory(w, plan);
  }

  lemma WorkerHistory(w: World, a: Action)
    requires Enabled(w, a) && a.Run?
    ensures Step(w, a).history.delivered ==
            if Delivers(w, a) then w.history.delivered + multiset{a.id.draft} else w.history.delivered
  {
    RunHistory(Released(w, a.id), a.id.draft, a.send, a.plan);
  }

  /** Gated delivery: the record of deliveries changes by exactly the draft of a run through open gates. */
  lemma DeliveryGated(w: World, a: Action)
    requires Enabled(w, a)
    ensures Step(w, a).history.delivered ==
            if Delivers(w, a) then w.history.delivered + multiset{a.id.draft} else w.history.delivered
  {
    match a
    case Run(id, _, _, _) => WorkerHistory(w, a);
    case ReplanNow(plan) => ReplanHistory(w, plan);
    case ResumeNow(plan) => ResumeHistory(w, plan);
    case RemoveNow => RemoveHistory(w);
    case PlanAlone(plan) => SetSendHistory(w, plan);
    case _ =>
  }

  /**
   Main result: over every run, a step delivers a draft if and only if it is the run of that
   draft's job with a provider that takes it, the client is live, not done, not paused, not
   blocked and not stopped by an admin, and the draft is stored as a plain draft, approved
   under review mode; and then it is delivered once more.
   */
  lemma DeliversIff(ws: seq<World>, acts: seq<Action>, i: nat, d: DraftId)
    requires IsRun(ws, acts) && i < |acts|
    ensures var (w, w', f) := (ws[i], ws[i + 1], ws[i].flags);
            && (w'.history.delivered[d] != w.history.delivered[d] <==>
                  && acts[i].Run? && acts[i].id.Named? && acts[i].id.draft == d && acts[i].send == Delivered
                  && f.live && !f.complete && !f.paused && !f.blocked && !f.adminPaused
                  && d in w.drafts && w.drafts[d].status == Drafted
                  && (f.reviewMode ==> w.drafts[d].review == Approved))
            && w.history.delivered[d] <= w'.history.delivered[d] <= w.history.delivered[d] + 1
  {
    DeliveryGated(ws[i], acts[i]);
  }

  /** The step delivers `d`, which still waits for review. */
  predicate DeliversPending(w: World, a: Action, d: DraftId) {
    Delivers(w, a) && a.id.draft == d && w.drafts[d].review == Pending
  }

  /** Once delivered, the draft is stored as sent. */
  predicate SentStands(w: World, d: DraftId) {
    d in w.history.delivered ==> d in w.drafts && w.drafts[d].status == Sent
  }

  /** Its partner: stored as sent only if delivered and not waiting for review, and delivered at most once. */
  predicate SentOnce(w: World, d: DraftId) {
    && (d in w.drafts && w.drafts[d].status == Sent ==> d in w.history.delivered && w.drafts[d].review != Pending)
    && w.history.delivered[d] <= 1
  }

  /** If it was sent, it stays as it is; and it does not become sent. */
  predicate SentKept(w: World, w': World, d: DraftId) {
    && w'.history.delivered[d] == w.history.delivered[d]
    && (d in w.drafts && w.drafts[d].status == Sent ==> d in w'.drafts && w'.drafts[d] == w.drafts[d])
    && (d in w'.drafts && w'.drafts[d].status == Sent ==> d in w.drafts && w.drafts[d].status == Sent)
  }

  lemma KeptSafe(w: World, w': World, d: DraftId)
    requires SentStands(w, d) && SentOnce(w, d) && SentKept(w, w', d)
    ensures SentStands(w', d) && SentOnce(w', d)
  {
  }

  lemma RemoveKeeps(w: World, d: DraftId)
    requires SentOnce(w, d)
    ensures SentKept(w, RemoveSend(w), d)
  {
    assert RemoveSend(w).drafts == Supersede(w).drafts;
  }

  lemma SetSendKeeps(w: World, plan: Plan, d: DraftId)
    requires plan.Message? ==> plan.draft !in w.drafts
    ensures SentKept(w, SetSend(w, plan), d)
  {
  }

  lemma ReplanKeeps(w: World, plan: Plan, d: DraftId)
    requires SentOnce(w, d) && (plan.Message? ==> plan.draft !in w.drafts)
    ensures SentKept(w, Replan(w, plan), d)
  {
    RemoveKeeps(w, d);
    RemoveDrafts(w);
    SetSendKeeps(RemoveSend(w), plan, d);
  }

  lemma RemoveDrafts(w: World)
    ensures RemoveSend(w).drafts.Keys == w.drafts.Keys
    ensures forall d :: d in w.drafts && w.drafts[d].review == Pending ==>
              RemoveSend(w).drafts[d] == Draft(Drafted, Superseded)
  {
    assert RemoveSend(w).drafts == Supersede(w).drafts;
  }

  lemma ApproveKeeps(w: World, draft: DraftId, d: DraftId)
    requires SentOnce(w, d)
    ensures SentKept(w, Approve(w, draft).0, d)
  {
  }

  lemma SendNowKeeps(w: World, d: DraftId)
    ensures SentKept(w, SendNow(w).0, d)
  {
  }

  lemma RetryKeeps(w: World, d: DraftId)
    ensures SentKept(w, RetrySend(w).0, d)
  {
  }

  lemma ResumeKeeps(w: World, plan: Plan, d: DraftId)
    requires SentOnce(w, d) && (plan.Message? ==> plan.draft !in w.drafts)
    ensures SentKept(w, ResumeSend(w, plan), d)
  {
    var state := if w.row.Some? then StateOf(w, w.row.value.id) else None;
    if DecideResume(w.row, state, w.row.Some? && DraftHeld(w.drafts, w.row.value.id), w.now) == Redraft {
      ReplanKeeps(w, plan, d);
    } else {
      var w' := ResumeSend(w, plan);
      assert w'.drafts == w.drafts && w'.history.delivered == w.history.delivered;
    }
  }

  lemma RunKeeps(w: World, draft: DraftId, send: SendOutcome, plan: Plan, d: DraftId)
    requires SentOnce(w, d) && !Hands(w, draft, send) && (plan.Message? ==> plan.draft !in w.drafts)
    ensures SentKept(w, RunSend(w, draft, send, plan).world, d)
  {
    ReplanKeeps(w, plan, d);
  }

  /** Delivering a reviewed (or never reviewed) draft, or another one: what is sent is stored so, once. */
  lemma HandedStands(w: World, draft: DraftId, plan: Plan, d: DraftId)
    requires SentStands(w, d) && SentOnce(w, d) && Hands(w, draft, Delivered)
    requires d == draft ==> w.drafts[d].review != Pending
    requires plan.Message? ==> plan.draft !in w.drafts
    ensures SentStands(Replan(MarkSent(w, draft), plan), d) && SentOnce(Replan(MarkSent(w, draft), plan), d)
  {
    var sent := MarkSent(w, draft);
    assert d == draft ==> d !in w.history.delivered;
    assert SentStands(sent, d) && SentOnce(sent, d);
    ReplanKeeps(sent, plan, d);
    KeptSafe(sent, Replan(sent, plan), d);
  }

  /** Delivering a pending one: superseding the pending drafts right after takes its 'sent' away. */
  lemma HandedReverts(w: World, draft: DraftId, plan: Plan)
    requires Hands(w, draft, Delivered) && w.drafts[draft].review == Pending
    requires plan.Message? ==> plan.draft !in w.drafts
    ensures draft in Replan(MarkSent(w, draft), plan).drafts
    ensures Replan(MarkSent(w, draft), plan).drafts[draft] == Draft(Drafted, Superseded)
  {
    var sent := MarkSent(w, draft);
    RemoveDrafts(sent);
    SetSendDrafts(RemoveSend(sent), plan);
  }

  lemma SetSendDrafts(w: World, plan: Plan)
    requires plan.Message? ==> plan.draft !in w.drafts
    ensures forall d :: d in w.drafts ==> d in SetSend(w, plan).drafts && SetSend(w, plan).drafts[d] == w.drafts[d]
  {
  }

  lemma HandedRun(w: World, draft: DraftId, send: SendOutcome, plan: Plan)
    requires Hands(w, draft, send)
    ensures RunSend(w, draft, send, plan).world == Replan(MarkSent(w, draft), plan)
  {
  }

  lemma DeliverPendingReverts(w: World, a: Action, d: DraftId)
    requires Enabled(w, a) && DeliversPending(w, a, d)
    ensures d in Step(w, a).history.delivered
    ensures d in Step(w, a).drafts && Step(w, a).drafts[d] == Draft(Drafted, Superseded)
  {
    var free := Released(w, a.id);
    HandedRun(free, d, a.send, a.plan);
    HandedReverts(free, d, a.plan);
    RunHistory(free, d, a.send, a.plan);
  }

  /**
   The exact step, draft by draft: a delivered draft stays recorded as sent if and only if the step
   does not deliver it while it waits for review.
   */
  lemma StepDelivers(w: World, a: Action, d: DraftId)
    requires Enabled(w, a) && SentStands(w, d) && SentOnce(w, d)
    ensures SentStands(Step(w, a), d) <==> !DeliversPending(w, a, d)
    ensures !DeliversPending(w, a, d) ==> SentOnce(Step(w, a), d)
  {
    if a.Run? {
      WorkerDelivers(w, a, d);
    } else {
      StoreStepKeeps(w, a, d);
      KeptSafe(w, Step(w, a), d);
    }
  }

  lemma StoreStepKeeps(w: World, a: Action, d: DraftId)
    requires Enabled(w, a) && SentOnce(w, d) && !a.Run?
    ensures SentKept(w, Step(w, a), d)
  {
    match a
    case ReplanNow(plan) => ReplanKeeps(w, plan, d);
    case RemoveNow => RemoveKeeps(w, d);
    case PlanAlone(plan) => SetSendKeeps(w, plan, d);
    case ResumeNow(plan) => ResumeKeeps(w, plan, d);
    case ApprovePressed(draft) => ApproveKeeps(w, draft, d);
    case SendNowPressed => SendNowKeeps(w, d);
    case RetryPressed => RetryKeeps(w, d);
    case _ =>
  }

  lemma WorkerDelivers(w: World, a: Action, d: DraftId)
    requires Enabled(w, a) && SentStands(w, d) && SentOnce(w, d) && a.Run?
    ensures SentStands(Step(w, a), d) <==> !DeliversPending(w, a, d)
    ensures !DeliversPending(w, a, d) ==> SentOnce(Step(w, a), d)
  {
    var free := Released(w, a.id);
    if DeliversPending(w, a, d) {
      DeliverPendingReverts(w, a, d);
    } else if Delivers(w, a) {
      HandedRun(free, a.id.draft, a.send, a.plan);
      HandedStands(free, a.id.draft, a.plan, d);
    } else {
      RunKeeps(free, a.id.draft, a.send, a.plan, d);
      KeptSafe(free, RunOf(w, a).world, d);
    }
  }

  /**
   Main result: over every run, wipes, lost workers and stale jobs included, a draft
   that was delivered stays stored as sent exactly when no step of the run delivers
   it while it waits for review, whatever happens to other drafts.
   */
  lemma {:induction false} SentStandsIff(ws: seq<World>, acts: seq<Action>, d: DraftId)
    requires IsRun(ws, acts)
    ensures (forall i :: 0 <= i < |ws| ==> SentStands(ws[i], d)) <==>
            (forall i :: 0 <= i < |acts| ==> !DeliversPending(ws[i], acts[i], d))
  {
    if forall i :: 0 <= i < |ws| ==> SentStands(ws[i], d) {
      forall i | 0 <= i < |acts| ensures !DeliversPending(ws[i], acts[i], d) {
        assert SentStands(ws[i], d) && SentStands(ws[i + 1], d);
        if DeliversPending(ws[i], acts[i], d) {
          DeliverPendingReverts(ws[i], acts[i], d);
        }
      }
    }
    if forall i :: 0 <= i < |acts| ==> !DeliversPending(ws[i], acts[i], d) {
      forall i | 0 <= i < |ws| ensures SentStands(ws[i], d) {
        OncePerDraft(ws, acts, d, i);
      }
    }
  }

  /** Main result: such a run delivers the draft at most once. */
  lemma {:induction false} OncePerDraft(ws: seq<World>, acts: seq<Action>, d: DraftId, i: nat)
    requires IsRun(ws, acts) && i < |ws|
    requires forall j :: 0 <= j < i ==> !DeliversPending(ws[j], acts[j], d)
    ensures ws[i].history.delivered[d] <= 1
    ensures SentStands(ws[i], d) && SentOnce(ws[i], d)
  {
    if i > 0 {
      OncePerDraft(ws, acts, d, i - 1);
      StepDelivers(ws[i - 1], acts[i - 1], d);
    }
  }

  /** A run that is not recorded as finished leaves its own job active and the flags alone. */
  lemma ActiveKept(w: World, draft: DraftId, plan: Plan, id: JobId)
    requires draft in w.drafts && HoldsActive(w, id)
    ensures HoldsActive(Replan(MarkSent(w, draft), plan), id)
    ensures Replan(MarkSent(w, draft), plan).flags == w.flags
  {
    RemoveKeepsActive(MarkSent(w, draft), id);
    SetSendKeepsActive(RemoveSend(MarkSent(w, draft)), plan, id);
  }

  predicate HoldsActive(w: World, id: JobId) {
    id in w.queue && w.queue[id].state == Active
  }

  lemma RemoveKeepsActive(w: World, id: JobId)
    requires HoldsActive(w, id)
    ensures HoldsActive(RemoveSend(w), id) && RemoveSend(w).flags == w.flags
  {
  }

  lemma SetSendKeepsActive(w: World, plan: Plan, id: JobId)
    requires HoldsActive(w, id)
    ensures HoldsActive(SetSend(w, plan), id) && SetSend(w, plan).flags == w.flags
  {
  }

  /** The three steps that follow a crash: the stalled job comes back, is picked, and runs. */
  lemma RunsAgain(w: World, id: JobId)
    requires id.Named? && id in w.queue && w.queue[id].state == Active && Hands(w, id.draft, Delivered)
    ensures Enabled(w, Recover(id))
    ensures var w2 := Step(w, Recover(id));
            Enabled(w2, Pick(id)) &&
            var w3 := Step(w2, Pick(id));
            Enabled(w3, Run(id, Delivered, NoMessage, true)) &&
            Step(w3, Run(id, Delivered, NoMessage, true)).history.delivered == w.history.delivered + multiset{id.draft}
  {
    var w2 := Step(w, Recover(id));
    var w3 := Step(w2, Pick(id));
    DeliveryGated(w3, Run(id, Delivered, NoMessage, true));
  }

  /**
   ... and the condition cannot be dropped: wherever a step delivers a draft that
   waits for review and the worker crashes before the job is recorded as finished,
   the recovered job can send the same draft a second time.
   */
  lemma DeliveredAgain(w: World, a: Action)
    requires Enabled(w, a) && a.Run? && a.id.Named? && DeliversPending(w, a, a.id.draft) && !a.finishes
    requires a.id in w.queue && w.queue[a.id].state == Active
    ensures var w1 := Step(w, a);
            Enabled(w1, Recover(a.id)) &&
            var w2 := Step(w1, Recover(a.id));
            Enabled(w2, Pick(a.id)) &&
            var w3 := Step(w2, Pick(a.id));
            Enabled(w3, Run(a.id, Delivered, NoMessage, true)) &&
            Step(w3, Run(a.id, Delivered, NoMessage, true)).history.delivered[a.id.draft]
              == w.history.delivered[a.id.draft] + 2
  {
    var free := Released(w, a.id);
    DeliverPendingReverts(w, a, a.id.draft);
    DeliveryGated(w, a);
    HandedRun(free, a.id.draft, a.send, a.plan);
    ActiveKept(free, a.id.draft, a.plan, a.id);
    RunsAgain(Step(w, a), a.id);
  }
}
