/**
 The runs that break the review and single-send properties exist. One stale job,
 waiting for the lock while a replan supersedes its draft, parks that draft again;
 the admin may then approve it beside the new one. And a draft delivered while it
 waits for review (review mode off by then), then a crash, is delivered twice.
 */
module StaleJob {
  import opened Options
  import opened JobIds
  import opened Lifecycle
  import opened SendLaws
  import opened SendRuns
  import opened SinglePending
  import opened DeliverySafety
  import opened ReviewSafety

  const OPEN: Flags := Flags(true, false, false, false, false, true, false, true)

  const START: World := World("client", OPEN, map[], None, map[], multiset{}, 0, History(multiset{}, multiset{}, {}, 0))

  const JOB: JobId := Named(SendEmail, "client", "old")
  const NEXT: JobId := Named(SendEmail, "client", "new")
  const AGAIN: JobId := Named(SendEmailApproved, "client", "old")

  /** The old draft is planned and due, and a worker has picked its job. */
  const HELD_BY_WORKER: World :=
    START.(drafts := map["old" := Draft(Drafted, Pending)], row := Some(Row(JOB, 0, false)),
           queue := map[JOB := Job(Active, 0, Target("client", "old"))], running := multiset{JOB})

  /** A replan superseded the draft and took the row away; the worker still waits for the lock. */
  const REPLACED: World :=
    HELD_BY_WORKER.(
      drafts := map["old" := Draft(Drafted, Superseded), "new" := Draft(Drafted, Pending)],
      row := Some(Row(NEXT, 1000, false)),
      queue := HELD_BY_WORKER.queue[NEXT := Job(Delayed, 1000, Target("client", "new"))],
      history := START.history.(superseded := {"old"}))

  lemma PickedUp(w1: World)
    requires w1 == Step(START, ReplanNow(Message("old", 0)))
    ensures Enabled(w1, Pick(JOB)) && Step(w1, Pick(JOB)) == HELD_BY_WORKER
    ensures w1.flags == OPEN
  {
    assert RemoveSend(START) == START;
    assert w1 == START.(drafts := map["old" := Draft(Drafted, Pending)], row := Some(Row(JOB, 0, false)),
                        queue := map[JOB := Job(Waiting, 0, Target("client", "old"))]);
  }

  lemma Replaced()
    ensures Enabled(HELD_BY_WORKER, ReplanNow(Message("new", 1000)))
    ensures Step(HELD_BY_WORKER, ReplanNow(Message("new", 1000))) == REPLACED
  {
    var w := HELD_BY_WORKER;
    assert PendingDrafts(w) == {"old"};
    assert RemoveSend(w) == w.(drafts := map["old" := Draft(Drafted, Superseded)], row := None,
                               history := w.history.(superseded := {"old"}));
    assert Replan(w, Message("new", 1000)).queue == REPLACED.queue;
  }

  const STALE: Action := Run(JOB, NotSent, NoMessage, true)

  /** ... and when it gets it, it parks the superseded draft. */
  lemma ParkedAgain()
    ensures Enabled(REPLACED, STALE) && Step(REPLACED, STALE) == PARKED
    ensures Strays(REPLACED, STALE) && Revives(REPLACED, STALE)
  {
    assert Released(REPLACED, JOB).running == multiset{};
    assert REPLACED.drafts["old"] == Draft(Drafted, Superseded);
    assert Parks(Released(REPLACED, JOB), "old");
  }

  /** The state after the stale job parked its draft. */
  const PARKED: World :=
    START.(drafts := map["old" := Draft(Held, Pending), "new" := Draft(Drafted, Pending)],
           row := Some(Row(NEXT, 1000, false)),
           queue := map[JOB := Job(Completed, 0, Target("client", "old")),
                        NEXT := Job(Delayed, 1000, Target("client", "new"))],
           history := START.history.(superseded := {"old"}))

  /** ... and after the admin approved it: two jobs are pending. */
  const BOTH: World :=
    PARKED.(drafts := map["old" := Draft(Drafted, Approved), "new" := Draft(Drafted, Pending)],
            row := Some(Row(AGAIN, 0, false)),
            queue := PARKED.queue[AGAIN := Job(Waiting, 0, Target("client", "old"))],
            history := PARKED.history.(approved := multiset{"old"}))

  const PICKED: World := BOTH.(queue := BOTH.queue[AGAIN := Job(Active, 0, Target("client", "old"))],
      running := multiset{AGAIN})

  const RESEND: Action := Run(AGAIN, Delivered, NoMessage, true)

  /** Approving the parked draft queues it beside the new one. */
  lemma BothPending()
    ensures Orphans(PARKED, ApprovePressed("old")) && Step(PARKED, ApprovePressed("old")) == BOTH
  {
    assert AGAIN != NEXT && AGAIN != JOB;
  }

  lemma ApprovedPicked()
    ensures PendingJob(BOTH, AGAIN) && PendingJob(BOTH, NEXT) && !OnePending(BOTH)
    ensures Enabled(BOTH, Pick(AGAIN)) && Step(BOTH, Pick(AGAIN)) == PICKED
  {
    assert AGAIN != NEXT && AGAIN != JOB;
    assert PendingJob(BOTH, NEXT) && !RowNames(BOTH, NEXT);
  }

  /** ... and it goes out although it was superseded. */
  lemma SupersededSent()
    ensures Enabled(PICKED, RESEND) && Step(PICKED, RESEND).flags == OPEN
    ensures "old" in Step(PICKED, RESEND).history.delivered && "old" in Step(PICKED, RESEND).history.superseded
  {
    assert PICKED.drafts["old"] == Draft(Drafted, Approved);
    assert Delivers(PICKED, RESEND);
    DeliveryGated(PICKED, RESEND);
    SupersededGrows(PICKED, AGAIN);
  }

  lemma SupersededGrows(w: World, id: JobId)
    requires Enabled(w, Run(id, Delivered, NoMessage, true))
    ensures w.history.superseded <= Step(w, Run(id, Delivered, NoMessage, true)).history.superseded
    ensures Step(w, Run(id, Delivered, NoMessage, true)).flags == w.flags
  {
    RunGrows(Released(w, id), id.draft);
  }

  lemma RunGrows(w: World, draft: DraftId)
    ensures var w' := RunSend(w, draft, Delivered, NoMessage).world;
            w.history.superseded <= w'.history.superseded && w'.flags == w.flags
  {
    RunMeans(w, draft, Delivered, NoMessage);
    if draft in w.drafts {
      RemoveGrows(MarkSent(w, draft));
    }
  }

  lemma RemoveGrows(w: World)
    ensures w.history.superseded <= RemoveSend(w).history.superseded && RemoveSend(w).flags == w.flags
  {
  }

  /** One more step on a run. */
  lemma Extended(ws: seq<World>, acts: seq<Action>, a: Action, w: World) returns (ws': seq<World>, acts': seq<Action>)
    requires IsRun(ws, acts) && Enabled(ws[|acts|], a) && w == Step(ws[|acts|], a)
    ensures ws' == ws + [w] && acts' == acts + [a] && IsRun(ws', acts')
    ensures ReviewOn(ws) && w.flags.reviewMode ==> ReviewOn(ws')
  {
    ws', acts' := ws + [w], acts + [a];
    forall i | 0 <= i < |acts'| ensures Enabled(ws'[i], acts'[i]) && ws'[i + 1] == Step(ws'[i], acts'[i]) {
      if i < |acts| {
        assert ws'[i] == ws[i] && acts'[i] == acts[i] && ws'[i + 1] == ws[i + 1];
      }
    }
  }

  lemma PickedUpRun() returns (ws: seq<World>, acts: seq<Action>)
    ensures IsRun(ws, acts) && ReviewOn(ws) && |acts| == 2 && ws[2] == HELD_BY_WORKER
  {
    var w1 := Step(START, ReplanNow(Message("old", 0)));
    PickedUp(w1);
    ws, acts := [START], [];
    assert IsRun(ws, acts);
    ws, acts := Extended(ws, acts, ReplanNow(Message("old", 0)), w1);
    ws, acts := Extended(ws, acts, Pick(JOB), HELD_BY_WORKER);
  }

  lemma ReplacedRun() returns (ws: seq<World>, acts: seq<Action>)
    ensures IsRun(ws, acts) && ReviewOn(ws) && |acts| == 3 && ws[3] == REPLACED
  {
    Replaced();
    ws, acts := PickedUpRun();
    ws, acts := Extended(ws, acts, ReplanNow(Message("new", 1000)), REPLACED);
  }

  lemma ParkedRun() returns (ws: seq<World>, acts: seq<Action>)
    ensures IsRun(ws, acts) && ReviewOn(ws) && |acts| == 4 && ws[4] == PARKED
    ensures !WaiterHasRow(ws[4])
  {
    ParkedAgain();
    ws, acts := ReplacedRun();
    ws, acts := Extended(ws, acts, STALE, PARKED);
    StrayWaits();
  }

  lemma BothRun() returns (ws: seq<World>, acts: seq<Action>)
    ensures IsRun(ws, acts) && ReviewOn(ws) && |acts| == 5 && ws[5] == BOTH
    ensures !WaiterHasRow(ws[4])
  {
    BothPending();
    ws, acts := ParkedRun();
    ws, acts := Extended(ws, acts, ApprovePressed("old"), BOTH);
  }

  lemma StrayWaits()
    ensures !WaiterHasRow(PARKED)
  {
    assert Waits(PARKED, "old") && !RowFor(PARKED, "old");
  }

  /**
   There is a run with review mode on throughout, no crash, no wipe and every
   replan in one lock, in which two drafts wait for review, two sends are pending,
   and a superseded draft is delivered.
   */
  lemma StaleJobRun() returns (ws: seq<World>, acts: seq<Action>)
    ensures IsRun(ws, acts) && ReviewOn(ws) && |acts| == 7
    ensures !WaiterHasRow(ws[4]) && !OnePending(ws[5])
    ensures "old" in ws[7].history.delivered && "old" in ws[7].history.superseded
  {
    ApprovedPicked();
    SupersededSent();
    ws, acts := BothRun();
    ws, acts := Extended(ws, acts, Pick(AGAIN), PICKED);
    ws, acts := Extended(ws, acts, RESEND, Step(PICKED, RESEND));
  }

  /**
   There is a run that delivers one draft twice: planned for review, review mode off, sent, crash,
   recovered, sent.
   */
  lemma SentTwiceRun() returns (ws: seq<World>, acts: seq<Action>)
    ensures IsRun(ws, acts) && |acts| == 7
    ensures ws[7].history.delivered["old"] == 2
  {
    ws, acts := PickedUpRun();
    var off := OPEN.(reviewMode := false);
    var w3 := HELD_BY_WORKER.(flags := off);
    ws, acts := Extended(ws, acts, Flip(off), w3);
    var crash := Run(JOB, Delivered, NoMessage, false);
    var rerun := Run(JOB, Delivered, NoMessage, true);
    assert DeliversPending(w3, crash, crash.id.draft);
    DeliveredAgain(w3, crash);
    ws, acts := Extended(ws, acts, crash, Step(w3, crash));
    ws, acts := Extended(ws, acts, Recover(JOB), Step(ws[4], Recover(JOB)));
    ws, acts := Extended(ws, acts, Pick(JOB), Step(ws[5], Pick(JOB)));
    ws, acts := Extended(ws, acts, rerun, Step(ws[6], rerun));
  }

  lemma Sends(w: World, draft: DraftId, delay: nat)
    requires draft !in w.drafts && SendId(w, draft) !in w.queue && MayPlan(w) && !w.flags.paused
    ensures Enabled(w, PlanAlone(Message(draft, delay)))
    ensures var w' := Step(w, PlanAlone(Message(draft, delay)));
            && PendingJob(w', SendId(w, draft)) && RowNames(w', SendId(w, draft)) && w'.flags == w.flags
            && w'.client == w.client && w'.now == w.now && w'.drafts.Keys == w.drafts.Keys + {draft}
            && w'.queue.Keys == w.queue.Keys + {SendId(w, draft)}
            && forall id :: id in w.queue ==> w'.queue[id] == w.queue[id]
  {
  }

  /** There is a run that plans twice without removing in between and leaves two sends pending. */
  lemma PlannedTwiceRun() returns (ws: seq<World>, acts: seq<Action>)
    ensures IsRun(ws, acts) && |acts| == 2 && (forall i :: 0 <= i < |acts| ==> acts[i].PlanAlone?)
    ensures !OnePending(ws[2])
  {
    var w1 := Step(START, PlanAlone(Message("old", 1000)));
    Sends(START, "old", 1000);
    Sends(w1, "new", 1000);
    var w2 := Step(w1, PlanAlone(Message("new", 1000)));
    ws, acts := [START], [];
    ws, acts := Extended(ws, acts, PlanAlone(Message("old", 1000)), w1);
    ws, acts := Extended(ws, acts, PlanAlone(Message("new", 1000)), w2);
    assert JOB != NEXT && PendingJob(w2, JOB) && !RowNames(w2, JOB);
  }

  /** The worker died waiting for the lock ... */
  const LOST: World := REPLACED.(running := multiset{})

  /** ... and BullMQ put its job back. */
  const BACK: World := LOST.(queue := LOST.queue[JOB := Job(Waiting, 0, Target("client", "old"))])

  lemma Lost()
    ensures Enabled(REPLACED, WorkerLost(JOB)) && Step(REPLACED, WorkerLost(JOB)) == LOST
  {
    assert Released(REPLACED, JOB).running == multiset{};
  }

  lemma Back()
    ensures Enabled(LOST, Recover(JOB)) && Step(LOST, Recover(JOB)) == BACK
    ensures Orphans(LOST, Recover(JOB)) && !OnePending(BACK)
  {
    assert JOB != NEXT && PendingJob(BACK, JOB) && !RowNames(BACK, JOB);
  }

  /** There is a run in which a crashed worker's job comes back beside the send that replaced it. */
  lemma RecoveredRun() returns (ws: seq<World>, acts: seq<Action>)
    ensures IsRun(ws, acts) && |acts| == 5 && acts[4] == Recover(JOB)
    ensures Orphans(ws[4], acts[4]) && !OnePending(ws[5])
  {
    Lost();
    Back();
    ws, acts := ReplacedRun();
    ws, acts := Extended(ws, acts, WorkerLost(JOB), LOST);
    ws, acts := Extended(ws, acts, Recover(JOB), BACK);
  }
}
