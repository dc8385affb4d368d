/**
 The count of a client's inbound handlers in Redis: a key that is incremented,
 decremented, deleted at zero, and may expire at any moment. Decrement and delete
 are two commands, so other handlers may run between them.
 */
module InFlight {
  import opened Options

  // ----- The store (src/orchestration/inboundTurnCore.ts) --------------------------------------------

  /** What the planner's worker reads. */
  function ReadCount(key: Option<int>): nat {
    if key.Some? && key.value > 0 then key.value else 0
  }

  class TurnStore {
    var inflight: Option<int>
    var last: Option<int>
    var dirty: bool

    method MarkInboundStarted(now: int)
      modifies this`inflight, this`last
      ensures inflight == Incr(old(inflight)) && last == Some(now)
    {
      inflight := Some((if inflight.Some? then inflight.value else 0) + 1);
      last := Some(now);
    }

    /** An expiry can take the key away between a start and its finish, so the decrement may start from nothing. */
    method MarkInboundFinished()
      modifies this`inflight
      ensures ReadCount(inflight) == ReadCount(Decr(old(inflight)))
      ensures inflight.Some? ==> inflight.value > 0
    {
      inflight := Some((if inflight.Some? then inflight.value else 0) - 1);
      if inflight.value <= 0 {
        inflight := None;
      }
    }

    method Read() returns (count: nat, lastInboundAt: Option<int>)
      ensures count == ReadCount(inflight) && lastInboundAt == last
    {
      count := if inflight.Some? && inflight.value > 0 then inflight.value else 0;
      lastInboundAt := last;
    }

    method TakeDirty() returns (was: bool)
      modifies this`dirty
      ensures was == old(dirty) && !dirty
    {
      was := dirty;
      if was {
        dirty := false;
      }
    }
  }

  function Incr(key: Option<int>): Option<int> {
    Some((if key.Some? then key.value else 0) + 1)
  }

  function Decr(key: Option<int>): Option<int> {
    Some((if key.Some? then key.value else 0) - 1)
  }

  // ----- Interleaved handlers ----------------------------------------------------------------------------

  /** `handlers` have incremented and not yet decremented; `cleaning` saw zero or less and will delete the key. */
  datatype Counter = Counter(key: Option<int>, handlers: nat, cleaning: nat)

  datatype Action = Start | Finish | Delete | Expire

  predicate Enabled(c: Counter, a: Action) {
    (a.Finish? ==> c.handlers > 0) && (a.Delete? ==> c.cleaning > 0)
  }

  function Step(c: Counter, a: Action): Counter
    requires Enabled(c, a)
  {
    match a
    case Start => c.(key := Incr(c.key), handlers := c.handlers + 1)
    case Finish =>
      var key := Decr(c.key);
      Counter(key, c.handlers - 1, c.cleaning + if key.value <= 0 then 1 else 0)
    case Delete => c.(key := None, cleaning := c.cleaning - 1)
    case Expire => c.(key := None)
  }

  ghost predicate IsRun(cs: seq<Counter>, acts: seq<Action>) {
    && |cs| == |acts| + 1
    && cs[0] == Counter(None, 0, 0)
    && forall i :: 0 <= i < |acts| ==> Enabled(cs[i], acts[i]) && cs[i + 1] == Step(cs[i], acts[i])
  }

  /** The starts less the finishes from step `m` up to step `n`. */
  function Net(acts: seq<Action>, m: nat, n: nat): int
    requires n <= |acts|
  {
    if n <= m then 0
    else Net(acts, m, n - 1) + if acts[n - 1].Start? then 1 else if acts[n - 1].Finish? then -1 else 0
  }

  /** The key counts the starts less the finishes since it last went away, below zero too. */
  lemma {:induction false} KeyCounts(cs: seq<Counter>, acts: seq<Action>, m: nat, n: nat)
    requires IsRun(cs, acts) && m <= n < |cs| && cs[m].key.None?
    requires forall j :: m <= j < n ==> acts[j].Start? || acts[j].Finish?
    ensures if m == n then cs[n].key.None? else cs[n].key == Some(Net(acts, m, n))
    ensures ReadCount(cs[n].key) == if m < n && Net(acts, m, n) > 0 then Net(acts, m, n) else 0
  {
    if m < n {
      KeyCounts(cs, acts, m, n - 1);
      assert cs[n] == Step(cs[n - 1], acts[n - 1]);
    }
  }

  predicate Exact(c: Counter) {
    ReadCount(c.key) == c.handlers
  }

  /** A key that goes away while a handler runs forgets that handler. */
  predicate Forgets(c: Counter, a: Action) {
    (a.Delete? || a.Expire?) && c.handlers > 0
  }

  /**
   Main result: the count read is never more than the handlers really running, whenever the key
   expires or is deleted.
   */
  lemma {:induction false} NeverOverCounts(cs: seq<Counter>, acts: seq<Action>, i: nat)
    requires IsRun(cs, acts) && i < |cs|
    ensures ReadCount(cs[i].key) <= cs[i].handlers
  {
    if i > 0 {
      NeverOverCounts(cs, acts, i - 1);
    }
  }

  lemma StepExact(c: Counter, a: Action)
    requires Enabled(c, a) && Exact(c) && (c.key.Some? ==> c.key.value >= 0)
    ensures Exact(Step(c, a)) <==> !Forgets(c, a)
    ensures !Forgets(c, a) && Step(c, a).key.Some? ==> Step(c, a).key.value >= 0
  {
  }

  lemma {:induction false} ExactUpTo(cs: seq<Counter>, acts: seq<Action>, i: nat)
    requires IsRun(cs, acts) && i < |cs|
    requires forall j :: 0 <= j < i ==> !Forgets(cs[j], acts[j])
    ensures Exact(cs[i]) && (cs[i].key.Some? ==> cs[i].key.value >= 0)
  {
    if i > 0 {
      ExactUpTo(cs, acts, i - 1);
      StepExact(cs[i - 1], acts[i - 1]);
    }
  }

  /** Main result: it is exact throughout a run exactly when no delete and no expiry lands while a handler runs. */
  lemma {:induction false} ExactIff(cs: seq<Counter>, acts: seq<Action>)
    requires IsRun(cs, acts)
    ensures (forall i :: 0 <= i < |cs| ==> Exact(cs[i])) <==>
            (forall i :: 0 <= i < |acts| ==> !Forgets(cs[i], acts[i]))
  {
    if forall i :: 0 <= i < |acts| ==> !Forgets(cs[i], acts[i]) {
      forall i | 0 <= i < |cs| ensures Exact(cs[i]) {
        ExactUpTo(cs, acts, i);
      }
    } else {
      var k: nat :| k < |acts| && Forgets(cs[k], acts[k]);
      var first := FirstForgotten(cs, acts, k);
      ExactUpTo(cs, acts, first);
      StepExact(cs[first], acts[first]);
      assert !Exact(cs[first + 1]);
    }
  }

  lemma {:induction false} FirstForgotten(cs: seq<Counter>, acts: seq<Action>, k: nat) returns (first: nat)
    requires IsRun(cs, acts) && k < |acts| && Forgets(cs[k], acts[k])
    ensures first < |acts| && Forgets(cs[first], acts[first])
    ensures forall j :: 0 <= j < first ==> !Forgets(cs[j], acts[j])
  {
    first := k;
    if j :| 0 <= j < k && Forgets(cs[j], acts[j]) {
      first := FirstForgotten(cs, acts, j);
    }
  }

  /**
   When a decrement to zero or below is followed by its delete at once, and nothing expires, the
   count is always exact.
   */
  lemma {:induction false} ExactWhenAtomic(cs: seq<Counter>, acts: seq<Action>, i: nat)
    requires IsRun(cs, acts) && i < |cs|
    requires forall j :: 0 <= j < |acts| ==> !acts[j].Expire? && (cs[j].cleaning > 0 ==> acts[j].Delete?)
    ensures Exact(cs[i]) && (cs[i].key.Some? ==> cs[i].key.value >= 0) && (cs[i].cleaning > 0 ==> cs[i].handlers == 0)
    ensures cs[i].cleaning <= 1
  {
    if i > 0 {
      ExactWhenAtomic(cs, acts, i - 1);
      assert cs[i] == Step(cs[i - 1], acts[i - 1]);
    }
  }

  /** There is a run without any expiry that forgets a handler: it starts between another's decrement and delete. */
  lemma DeletedUnderHandler() returns (cs: seq<Counter>, acts: seq<Action>)
    ensures IsRun(cs, acts) && |acts| == 4 && (forall i :: 0 <= i < |acts| ==> !acts[i].Expire?)
    ensures Forgets(cs[3], acts[3]) && !Exact(cs[4])
  {
    acts := [Start, Finish, Start, Delete];
    cs := [Counter(None, 0, 0), Counter(Some(1), 1, 0), Counter(Some(0), 0, 1), Counter(Some(1), 1, 1),
        Counter(None, 1, 0)];
  }
}
