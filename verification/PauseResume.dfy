/**
 Pausing a client and resuming it later gives back the very same send, whatever
 Redis lost and the boot resync found in between.
 */
module PauseResume {
  import opened Options
  import opened JobIds
  import opened Lifecycle
  import opened SendLaws
  import opened SendRuns

  /** A planned send: the row names the delayed job of a stored draft that is not parked, at the row's time. */
  predicate Planned(w: World) {
    && w.row.Some? && w.row.value.id.Named?
    && w.row.value.id.client == w.client
    && w.row.value.id.draft in w.drafts && w.drafts[w.row.value.id.draft].status != Held
    && w.row.value.id in w.queue
    && w.queue[w.row.value.id] == Job(Delayed, w.row.value.scheduledFor, Target(w.client, w.row.value.id.draft))
  }

  /** Steps that may happen while the client is paused, short of a replan, a send-now or a retry. */
  predicate Idle(a: Action) {
    match a
    case RedisWipe => true
    case Resync => true
    case Tick(_) => true
    case Pick(_) => true
    case WorkerLost(_) => true
    case Recover(_) => true
    case Run(_, _, _, _) => true
    case PauseNow => true
    case ApprovePressed(_) => true
    case Flip(flags) => flags.paused
    case _ => false
  }

  ghost predicate IdleSegment(ws: seq<World>, acts: seq<Action>) {
    && |ws| == |acts| + 1
    && forall i :: 0 <= i < |acts| ==> Idle(acts[i]) && Enabled(ws[i], acts[i]) && ws[i + 1] == Step(ws[i], acts[i])
  }

  /** What the pause leaves behind: the row and the draft, and no job under the row's id. */
  predicate Preserved(w0: World, w: World) {
    && w.flags.paused && w.client == w0.client && w.row == w0.row && w.drafts == w0.drafts && w.history == w0.history
    && w0.row.Some? && w0.row.value.id !in w.queue
  }

  lemma IdleKeeps(w0: World, w: World, a: Action)
    requires Preserved(w0, w) && Idle(a) && Enabled(w, a)
    ensures Preserved(w0, Step(w, a))
  {
  }

  lemma {:induction false} SegmentKeeps(w0: World, ws: seq<World>, acts: seq<Action>, i: nat)
    requires IdleSegment(ws, acts) && Preserved(w0, ws[0]) && i < |ws|
    ensures Preserved(w0, ws[i])
  {
    if i > 0 {
      SegmentKeeps(w0, ws, acts, i - 1);
      IdleKeeps(w0, ws[i - 1], acts[i - 1]);
    }
  }

  /**
   Main result: pause a planned send, let any idle steps pass, and resume. Before
   the planned time the same job is back - id, draft, due time - and the row is as
   it was; at or after it the same draft is queued at once. Nothing is redrafted,
   and the planner's answer plays no part.
   */
  lemma PauseThenResume(w0: World, ws: seq<World>, acts: seq<Action>, resumed: Flags, plan: Plan)
    requires Planned(w0) && IdleSegment(ws, acts) && !resumed.paused
    requires ws[0] == PauseSend(w0.(flags := w0.flags.(paused := true)))
    ensures var last := ws[|acts|];
            var w := ResumeSend(last.(flags := resumed), plan);
            var row := w0.row.value;
            && w.drafts == w0.drafts && w.history == w0.history
            && row.id in w.queue
            && (row.scheduledFor > last.now ==> w.queue[row.id] == w0.queue[row.id] && w.row == w0.row)
            && (row.scheduledFor <= last.now ==>
                  && w.queue[row.id] == Job(Waiting, last.now, w0.queue[row.id].data)
                  && w.row == Some(Row(row.id, last.now, false)))
            && (forall id :: id != row.id ==> ((id in w.queue) <==> (id in last.queue)))
            && (forall id :: id != row.id && id in last.queue ==> w.queue[id] == last.queue[id])
  {
    assert Preserved(w0, ws[0]);
    SegmentKeeps(w0, ws, acts, |acts|);
    var last := ws[|acts|].(flags := resumed);
    assert StateOf(last, w0.row.value.id) == None;
    assert !DraftHeld(last.drafts, w0.row.value.id);
  }

  /** The row's send is kept by a resume: parked, or not yet over. */
  predicate Resumable(w: World) {
    && w.row.Some?
    && (Parked(w, w.row.value.id)
        || (StateOf(w, w.row.value.id) != Some(Completed) && StateOf(w, w.row.value.id) != Some(Failed)))
  }

  /** Draft, review and id are as they were, no other job moved, and unless parked the send is in the queue. */
  ghost predicate KeptSend(w: World, w': World)
    requires w.row.Some?
  {
    var id := w.row.value.id;
    && w'.drafts == w.drafts && w'.history == w.history && w'.row.Some? && w'.row.value.id == id
    && (forall other :: other in w.queue ==> other in w'.queue && w'.queue[other] == w.queue[other])
    && (forall other :: other in w'.queue && other != id ==> other in w.queue)
    && (!Parked(w, id) ==> id in w'.queue && w'.queue[id].state != Completed && w'.queue[id].state != Failed)
  }

  /** A lost job is back for its draft, at its planned time or at once, and the row says when. */
  ghost predicate JobBack(w: World, w': World)
    requires w.row.Some?
  {
    var id, due := w.row.value.id, if w.row.value.scheduledFor > w.now then w.row.value.scheduledFor else w.now;
    && id.Named? && id in w'.queue
    && w'.queue[id] == Job(if due > w.now then Delayed else Waiting, due, Target(w.client, id.draft))
    && w'.row.Some? && w'.row.value.id == id && w'.row.value.scheduledFor == due
  }

  lemma LostJobBack(w: World, plan: Plan)
    requires Inv(w) && Resumable(w) && !Parked(w, w.row.value.id) && w.row.value.id !in w.queue
    ensures JobBack(w, ResumeSend(w, plan))
  {
    assert Known(w, w.row.value.id);
  }

  lemma ResumeKeepsSend(w: World, plan: Plan)
    requires Inv(w) && Resumable(w)
    ensures KeptSend(w, ResumeSend(w, plan))
  {
    assert Known(w, w.row.value.id);
  }

  /**
   What a resume gives the accountant, from any state: a send that is parked or
   not over is kept, its lost job back at the time its row promised; only a send
   that is over, or none, is planned afresh.
   */
  lemma ResumeMeans(w: World, plan: Plan)
    requires Inv(w)
    ensures var w' := ResumeSend(w, plan);
            && (!Resumable(w) ==> w' == Replan(w, plan))
            && (Resumable(w) ==> KeptSend(w, w'))
            && (Resumable(w) && !Parked(w, w.row.value.id) && w.row.value.id !in w.queue ==> JobBack(w, w'))
  {
    if Resumable(w) {
      ResumeKeepsSend(w, plan);
      if !Parked(w, w.row.value.id) && w.row.value.id !in w.queue {
        LostJobBack(w, plan);
      }
    }
  }
}
