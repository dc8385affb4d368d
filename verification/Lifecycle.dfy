/**
 One client's scheduled send, as three stores see it: the drafts (Postgres), the
 mirror row of the pending send (Postgres) and the job queue (BullMQ over Redis).
 Each function is what one operation does to the three while it holds the
 client's lock; the SQL guards are those of the query helpers.
 */
module Lifecycle {
  import opened Options
  import opened JobIds

  // ----- The stores ---------------------------------------------------------------------------

  datatype Status = Drafted | Held | Sent
  datatype Review = NoReview | Pending | Approved | Superseded
  datatype Draft = Draft(status: Status, review: Review)

  datatype Row = Row(id: JobId, scheduledFor: int, failed: bool)

  datatype JobState = Delayed | Waiting | WaitingChildren | Prioritized | Active | Completed | Failed
  datatype Job = Job(state: JobState, due: int, data: Target)

  /**
   What the client, its agent instance and the switches say; `reviewMode` and `adminPaused` hold for
   supervised instances only.
   */
  datatype Flags = Flags(
    live: bool, complete: bool, paused: bool, blocked: bool, adminPaused: bool,
    reviewMode: bool, manualKickoff: bool, received: bool)

  /** What happened so far: provider sends, approvals, superseded drafts, and adds the queue ignored. */
  datatype History = History(
    delivered: multiset<DraftId>, approved: multiset<DraftId>, superseded: set<DraftId>, swallowed: nat)

  datatype World = World(
    client: ClientId,
    flags: Flags,
    drafts: map<DraftId, Draft>,
    row: Option<Row>,
    queue: map<JobId, Job>,
    running: multiset<JobId>,  // jobs a worker process holds: picked, not yet run under the lock
    now: int,
    history: History)

  function SendId(w: World, draft: DraftId): JobId {
    Named(SendEmail, w.client, draft)
  }

  function ApprovedId(w: World, draft: DraftId): JobId {
    Named(SendEmailApproved, w.client, draft)
  }

  predicate Cancelable(state: JobState) {
    state == Delayed || state == Waiting || state == WaitingChildren
  }

  // ----- The queue ----------------------------------------------------------------------------

  /** Adding under a taken id is a silent no-op; finished jobs keep their id. */
  function Add(w: World, id: JobId, data: Target, due: int): World {
    if id in w.queue then w.(history := w.history.(swallowed := w.history.swallowed + 1))
    else w.(queue := w.queue[id := Job(if due > w.now then Delayed else Waiting, due, data)])
  }

  function StateOf(w: World, id: JobId): Option<JobState> {
    if id in w.queue then Some(w.queue[id].state) else None
  }

  function SetState(w: World, id: JobId, state: JobState): World
    requires id in w.queue
  {
    w.(queue := w.queue[id := w.queue[id].(state := state)])
  }

  function Cancel(w: World, id: JobId): World {
    if id in w.queue && Cancelable(w.queue[id].state) then w.(queue := w.queue - {id}) else w
  }

  // ----- removeFutureEmail, pauseFutureEmail ----------------------------------------------------

  function PendingDrafts(w: World): set<DraftId> {
    set d | d in w.drafts && w.drafts[d].review == Pending
  }

  /** supersedePendingReview: every pending row, whatever its status, goes back to 'draft'. */
  function Supersede(w: World): World {
    w.(drafts := map d | d in w.drafts ::
                   if w.drafts[d].review == Pending then Draft(Drafted, Superseded) else w.drafts[d],
       history := w.history.(superseded := w.history.superseded + PendingDrafts(w)))
  }

  function RemoveSend(w: World): World {
    var s := Supersede(w);
    if s.row.None? then s else Cancel(s, s.row.value.id).(row := None)
  }

  function PauseSend(w: World): World {
    if w.row.None? then w else Cancel(w, w.row.value.id)
  }

  // ----- setFutureEmail, scheduleDraftMessage ---------------------------------------------------

  /** What one planning step of the agent came up with. */
  datatype Plan = NoMessage | PlannerThrew | Message(draft: DraftId, delay: nat)

  datatype PlanMode = Skip | Queue | Hold

  /** A sent or received message; drafts do not count. */
  predicate Contacted(flags: Flags, drafts: map<DraftId, Draft>) {
    flags.received || exists d :: d in drafts && drafts[d].status == Sent
  }

  function PlanModeOf(w: World): PlanMode {
    if !w.flags.live || w.flags.complete then Skip
    else if w.flags.paused && !(w.flags.manualKickoff && !Contacted(w.flags, w.drafts)) then Skip
    else if w.flags.adminPaused then Skip
    else if w.flags.paused then Hold
    else Queue
  }

  function ScheduleDraft(w: World, draft: DraftId, delay: nat, hold: bool): World {
    var review := if w.flags.live && w.flags.reviewMode then Pending else NoReview;
    var stored := w.(drafts := w.drafts[draft := Draft(Drafted, review)]);
    var id := SendId(w, draft);
    var queued := if hold then stored else Add(stored, id, Target(w.client, draft), w.now + delay);
    queued.(row := Some(Row(id, w.now + delay, false)))
  }

  function SetSend(w: World, plan: Plan): World {
    if PlanModeOf(w).Skip? || !plan.Message? then w
    else ScheduleDraft(w, plan.draft, plan.delay, PlanModeOf(w).Hold?)
  }

  function Replan(w: World, plan: Plan): World {
    SetSend(RemoveSend(w), plan)
  }

  // ----- resumeFutureEmail ------------------------------------------------------------------------

  datatype ResumeAction = Restore | SendAtOnce | AlreadyQueued | Keep | Redraft

  predicate Queued(state: JobState) {
    state == Delayed || state == Waiting || state == WaitingChildren || state == Active || state == Prioritized
  }

  function DecideResume(row: Option<Row>, state: Option<JobState>, draftHeld: bool, now: int): ResumeAction {
    if row.None? then Redraft
    else if draftHeld then Keep
    else if state.Some? && Queued(state.value) then AlreadyQueued
    else if Parse(row.value.id).None? || state.Some? then Redraft
    else if row.value.scheduledFor > now then Restore
    else SendAtOnce
  }

  predicate DraftHeld(drafts: map<DraftId, Draft>, id: JobId) {
    Parse(id).Some? && Parse(id).value.draft in drafts && drafts[Parse(id).value.draft].status == Held
  }

  /** enqueuePreservedSendNow: the same id, no delay, the row's time stamped to now. */
  function EnqueueNow(w: World, id: JobId): World {
    if Parse(id).None? then w
    else Add(w, id, Parse(id).value, w.now).(row := Some(Row(id, w.now, false)))
  }

  function ResumeSend(w: World, plan: Plan): World {
    var state := if w.row.Some? then StateOf(w, w.row.value.id) else None;
    match DecideResume(w.row, state, w.row.Some? && DraftHeld(w.drafts, w.row.value.id), w.now)
    case AlreadyQueued => w
    case Keep => w
    case Restore =>
      Add(w, w.row.value.id, Target(w.client, Parse(w.row.value.id).value.draft), w.row.value.scheduledFor)
    case SendAtOnce => EnqueueNow(w, w.row.value.id)
    case Redraft => Replan(w, plan)
  }

  // ----- sendFutureEmailNow, retryFailedSend ------------------------------------------------------

  predicate AwaitsReview(drafts: map<DraftId, Draft>, id: JobId) {
    Parse(id).Some? && Parse(id).value.draft in drafts && drafts[Parse(id).value.draft].review == Pending
  }

  datatype SendNowResult = Promoted | AlreadySending | NoneScheduled | SendFailed | AwaitingReview

  function SendNow(w: World): (World, SendNowResult) {
    if w.row.None? then (w, NoneScheduled)
    else
      var row := w.row.value;
      if row.failed then (w, SendFailed)
      else if AwaitsReview(w.drafts, row.id) then (w, AwaitingReview)
      else match StateOf(w, row.id)
           case None => if Parse(row.id).None? then (w, NoneScheduled) else (EnqueueNow(w, row.id), Promoted)
           case Some(state) =>
             if state == Waiting || state == Active || state == Prioritized then (w, AlreadySending)
             else if state == Failed then (w.(row := Some(row.(failed := true))), SendFailed)
             else if state == Delayed then
               (SetState(w, row.id, Waiting).(row := Some(Row(row.id, w.now, false))), Promoted)
             else if DraftHeld(w.drafts, row.id) then (w, AlreadySending)
             else (w.(row := None), NoneScheduled)
  }

  function RetrySend(w: World): (World, bool) {
    if w.row.None? || !w.row.value.failed then (w, false)
    else
      var id := w.row.value.id;
      if StateOf(w, id).None? && Parse(id).None? then (w, false)
      else
        var fired := if StateOf(w, id) == Some(Failed) then SetState(w, id, Waiting)
                     else if StateOf(w, id).None? then Add(w, id, Parse(id).value, w.now)
                     else w;
        (fired.(row := Some(Row(id, w.now, false))), true)
  }

  // ----- Admin review -----------------------------------------------------------------------------

  predicate CommsOpen(w: World) {
    w.flags.live && !w.flags.complete && !w.flags.paused && !w.flags.adminPaused
  }

  /** Approve a pending draft; one the worker had parked is queued at once under the approved id. */
  function Approve(w: World, draft: DraftId): (World, bool) {
    if !CommsOpen(w) || draft !in w.drafts || w.drafts[draft].review != Pending then (w, false)
    else
      var approved := w.(drafts := w.drafts[draft := Draft(Drafted, Approved)],
                         history := w.history.(approved := w.history.approved + multiset{draft}));
      if w.drafts[draft].status != Held then (approved, true)
      else
        var id := ApprovedId(w, draft);
        (Add(approved, id, Target(w.client, draft), w.now).(row := Some(Row(id, w.now, false))), true)
  }

  // ----- resyncScheduledJobs, the body for one row --------------------------------------------------

  function ResyncRow(w: World): World {
    if w.row.None? || !w.flags.live || w.flags.paused || w.row.value.failed then w
    else
      var row := w.row.value;
      if row.id in w.queue || Parse(row.id).None? then w
      else Add(w, row.id, Parse(row.id).value, if row.scheduledFor > w.now then row.scheduledFor else w.now)
  }

  // ----- The worker -----------------------------------------------------------------------------------

  /** What the provider adapter did with the draft. */
  datatype SendOutcome = Delivered | NotSent | SkipPlanning | ProviderThrew

  datatype RunResult = RunResult(world: World, threw: bool)

  predicate GatesOpen(w: World) {
    CommsOpen(w) && !w.flags.blocked
  }

  /** onScheduledSend: the job's draft, once the worker has the lock. */
  function RunSend(w: World, draft: DraftId, send: SendOutcome, plan: Plan): RunResult {
    if !GatesOpen(w) then RunResult(w, false)
    else if draft !in w.drafts || w.drafts[draft].status != Drafted then RunResult(w, false)
    else if w.flags.reviewMode && w.drafts[draft].review != Approved then
      RunResult(w.(drafts := w.drafts[draft := Draft(Held, Pending)]), false)  // markHeld
    else match send
         case ProviderThrew =>
           RunResult(if w.row.None? then w else w.(row := Some(w.row.value.(failed := true))), true)
         case SkipPlanning => RunResult(w, false)
         case NotSent => RunResult(Replan(w, plan), PlanThrows(RemoveSend(w), plan))
         case Delivered =>
           var sent := MarkSent(w, draft);
           RunResult(Replan(sent, plan), PlanThrows(RemoveSend(sent), plan))
  }

  function MarkSent(w: World, draft: DraftId): World
    requires draft in w.drafts
  {
    w.(drafts := w.drafts[draft := w.drafts[draft].(status := Sent)],
       history := w.history.(delivered := w.history.delivered + multiset{draft}))
  }

  predicate PlanThrows(w: World, plan: Plan) {
    !PlanModeOf(w).Skip? && plan.PlannerThrew?
  }

  /** BullMQ's bookkeeping when the processor returns or throws. */
  function Finish(w: World, id: JobId, threw: bool): World {
    if id in w.queue && w.queue[id].state == Active then SetState(w, id, if threw then Failed else Completed) else w
  }
}
