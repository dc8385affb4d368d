/**
 The boot resync over all clients: Redis is disposable, the scheduled_jobs table
 is the durable mirror, and every mirrored send that should be queued and is not
 is queued again under its own id.
 */
module BootResync {
  import opened Options
  import opened JobIds
  import opened Lifecycle

  datatype ClientState = ClientState(live: bool, paused: bool)

  /** The tables, as the loop re-reads them under each client's lock. */
  datatype Tables = Tables(rows: map<ClientId, Row>, clients: map<ClientId, ClientState>)

  datatype Listed = Listed(client: ClientId, id: JobId)

  /** The row is live, unpaused, not failed, still the one that was listed, and its id can be parsed. */
  predicate Wanted(t: Tables, l: Listed) {
    && l.client in t.rows && t.rows[l.client].id == l.id
    && l.client in t.clients && t.clients[l.client].live && !t.clients[l.client].paused
    && !t.rows[l.client].failed
    && Parse(l.id).Some?
  }

  function JobFor(t: Tables, l: Listed, now: int): Job
    requires Wanted(t, l)
  {
    var scheduledFor := t.rows[l.client].scheduledFor;
    if scheduledFor > now then Job(Delayed, scheduledFor, Parse(l.id).value) else Job(Waiting, now, Parse(l.id).value)
  }

  function AfterRow(t: Tables, queue: map<JobId, Job>, l: Listed, now: int): map<JobId, Job> {
    if Wanted(t, l) && l.id !in queue then queue[l.id := JobFor(t, l, now)] else queue
  }

  /** The queue after the first `n` listed rows; `clock[i]` is the time read for row i. */
  function AfterRows(t: Tables, queue: map<JobId, Job>, listed: seq<Listed>, clock: seq<int>, n: nat): map<JobId, Job>
    requires n <= |listed| <= |clock|
  {
    if n == 0 then queue
    else AfterRow(t, AfterRows(t, queue, listed, clock, n - 1), listed[n - 1], clock[n - 1])
  }

  class Resync {
    const tables: Tables
    var queue: map<JobId, Job>

    /** Restores the missing jobs and counts them. */
    method ResyncScheduledJobs(listed: seq<Listed>, clock: seq<int>) returns (restored: nat)
      requires |listed| <= |clock|
      modifies this
      ensures queue == AfterRows(tables, old(queue), listed, clock, |listed|)
      ensures restored == |queue| - |old(queue)|
    {
      restored := 0;
      for i := 0 to |listed|
        invariant queue == AfterRows(tables, old(queue), listed, clock, i)
        invariant restored == |queue| - |old(queue)|
      {
        var l := listed[i];
        if l.client !in tables.rows || tables.rows[l.client].id != l.id {
          continue;
        }
        var current := tables.rows[l.client];
        if l.client !in tables.clients || !tables.clients[l.client].live {
          continue;
        }
        if tables.clients[l.client].paused {
          continue;
        }
        if current.failed {
          continue;
        }
        if current.id in queue {
          continue;
        }
        var target := Parse(current.id);
        if target.None? {
          continue;
        }
        var delay := if current.scheduledFor > clock[i] then current.scheduledFor - clock[i] else 0;
        queue := queue[current.id := Job(if delay > 0 then Delayed else Waiting, clock[i] + delay, target.value)];
        restored := restored + 1;
      }
    }
  }

  /** A listed row is queued again if and only if it still stands, unfailed, for a live and unpaused client. */
  lemma RowResynced(t: Tables, queue: map<JobId, Job>, l: Listed, now: int)
    requires l.id.Named? && l.id !in queue
    ensures l.id in AfterRow(t, queue, l, now) <==>
            && l.client in t.rows && t.rows[l.client].id == l.id && !t.rows[l.client].failed
            && l.client in t.clients && t.clients[l.client].live && !t.clients[l.client].paused
    ensures l.id in AfterRow(t, queue, l, now) ==>
              AfterRow(t, queue, l, now)[l.id].data == Target(l.id.client, l.id.draft)
  {
  }

  // ----- What the loop amounts to --------------------------------------------------------------------

  /** Row i is the first listed row of a wanted send that the surviving queue lacks. */
  predicate Restores(t: Tables, queue: map<JobId, Job>, listed: seq<Listed>, i: nat)
    requires i < |listed|
  {
    && Wanted(t, listed[i]) && listed[i].id !in queue
    && forall j :: 0 <= j < i && Wanted(t, listed[j]) ==> listed[j].id != listed[i].id
  }

  /**
   Main result: for any tables, any listing and any surviving queue, the loop ends
   with the old queue untouched plus exactly one job per missing wanted send, for
   the draft its id names, due at the later of its planned time and now.
   */
  lemma {:induction false} ResyncRefines(
    t: Tables, queue: map<JobId, Job>, listed: seq<Listed>, clock: seq<int>, n: nat)
    requires n <= |listed| <= |clock|
    ensures var after := AfterRows(t, queue, listed, clock, n);
            && (forall id :: id in queue ==> id in after && after[id] == queue[id])
            && (forall id :: id in after && id !in queue ==>
                  exists i :: 0 <= i < n && listed[i].id == id && Wanted(t, listed[i]))
            && (forall i :: 0 <= i < n && Wanted(t, listed[i]) ==> listed[i].id in after)
            && (forall i :: 0 <= i < n && Restores(t, queue, listed, i) ==>
                  after[listed[i].id] == JobFor(t, listed[i], clock[i]))
  {
    ResyncKeys(t, queue, listed, clock, n);
    forall i | 0 <= i < n && Restores(t, queue, listed, i)
      ensures AfterRows(t, queue, listed, clock, n)[listed[i].id] == JobFor(t, listed[i], clock[i])
    {
      ResyncJob(t, queue, listed, clock, n, i);
    }
  }

  /** The keys: what survived, what is wanted, nothing else. */
  lemma {:induction false} ResyncKeys(t: Tables, queue: map<JobId, Job>, listed: seq<Listed>, clock: seq<int>, n: nat)
    requires n <= |listed| <= |clock|
    ensures var after := AfterRows(t, queue, listed, clock, n);
            && (forall id :: id in queue ==> id in after && after[id] == queue[id])
            && (forall id :: id in after && id !in queue ==>
                  exists i :: 0 <= i < n && listed[i].id == id && Wanted(t, listed[i]))
            && (forall i :: 0 <= i < n && Wanted(t, listed[i]) ==> listed[i].id in after)
  {
    if n > 0 {
      ResyncKeys(t, queue, listed, clock, n - 1);
    }
  }

  /** Once there, a job stays as it was added. */
  lemma {:induction false} ResyncJob(
    t: Tables, queue: map<JobId, Job>, listed: seq<Listed>, clock: seq<int>, n: nat, i: nat)
    requires n <= |listed| <= |clock| && i < n && Restores(t, queue, listed, i)
    ensures var after := AfterRows(t, queue, listed, clock, n);
            listed[i].id in after && after[listed[i].id] == JobFor(t, listed[i], clock[i])
  {
    if i < n - 1 {
      ResyncJob(t, queue, listed, clock, n - 1, i);
    } else {
      ResyncKeys(t, queue, listed, clock, i);
    }
  }

  /** A restored job is due at max(now, scheduled time), and delayed only when that is still ahead. */
  lemma RestoredDue(t: Tables, l: Listed, now: int)
    requires Wanted(t, l)
    ensures var job := JobFor(t, l, now);
            var planned := t.rows[l.client].scheduledFor;
            && job.due >= now && job.due >= planned && (job.due == now || job.due == planned)
            && (job.state == Delayed <==> planned > now) && (job.state == Waiting <==> planned <= now)
            && Some(job.data) == Parse(t.rows[l.client].id)
  {
  }

  /** A second resync, at any later times, adds nothing. */
  lemma {:induction false} ResyncAgain(
    t: Tables, queue: map<JobId, Job>, listed: seq<Listed>, clock: seq<int>, later: seq<int>, n: nat)
    requires |listed| <= |clock| && n <= |listed| <= |later|
    ensures var after := AfterRows(t, queue, listed, clock, |listed|);
            AfterRows(t, after, listed, later, n) == after
  {
    ResyncRefines(t, queue, listed, clock, |listed|);
    if n > 0 {
      ResyncAgain(t, queue, listed, clock, later, n - 1);
    }
  }

  /** The loop's body is the resync step of one client's run: same gate, same job. */
  lemma BodyIsStep(t: Tables, w: World)
    requires w.row.Some? ==> w.client in t.rows && t.rows[w.client] == w.row.value
    requires w.client in t.clients && t.clients[w.client] == ClientState(w.flags.live, w.flags.paused)
    ensures w.row.Some? ==> ResyncRow(w).queue == AfterRow(t, w.queue, Listed(w.client, w.row.value.id), w.now)
  {
  }
}
