/**
 One model call: up to `maxAttempts` round trips with backoff between them, and
 the backup model that takes over when the primary's provider failed. The
 providers, the random numbers and the budget check are injected.
 */
module Retry {
  import opened Options

  // ----- Failures ---------------------------------------------------------------------------------------

  /** What a provider's client throws; an Anthropic API error may come without a status. */
  datatype LlmError =
    | GeminiError(status: int)
    | OpenAiError(status: int)
    | AnthropicError(reported: Option<int>)
    | AnthropicConnectionError
    | FetchFailed
    | TimeoutAbort
    | OtherError

  datatype Thrown = BudgetExceeded | CallFailed(error: LlmError)

  datatype FailureKind = Status(code: int) | Timeout | Network | Error

  const RETRYABLE_STATUSES: set<int> := {429, 499, 500, 503, 504}
  const MAX_ATTEMPTS := 5
  const PRIMARY_ATTEMPTS_WITH_BACKUP := 2
  const BASE_DELAY_MS := 2000

  function StatusOf(e: LlmError): Option<int> {
    match e
    case GeminiError(status) => Some(status)
    case OpenAiError(status) => Some(status)
    case AnthropicError(reported) => reported
    case _ => None
  }

  predicate Retryable(e: LlmError) {
    || (StatusOf(e).Some? && StatusOf(e).value in RETRYABLE_STATUSES)
    || e.FetchFailed? || e.TimeoutAbort? || e.AnthropicConnectionError?
  }

  /** The provider did not serve the call; false for the budget stop. */
  predicate IsProviderFailure(t: Thrown) {
    && t.CallFailed?
    && (|| t.error.GeminiError? || t.error.OpenAiError? || t.error.AnthropicError?
        || t.error.AnthropicConnectionError? || t.error.FetchFailed? || t.error.TimeoutAbort?)
  }

  function FailureReasonOf(t: Thrown): FailureKind {
    if t.BudgetExceeded? then Error
    else if StatusOf(t.error).Some? then Status(StatusOf(t.error).value)
    else if t.error.TimeoutAbort? then Timeout
    else if t.error.FetchFailed? || t.error.AnthropicConnectionError? then Network
    else Error
  }

  // ----- The world around a call ---------------------------------------------------------------------------

  datatype Reply = Answer(text: string) | Failure(error: LlmError)

  /** Round trip `i` to a model, the random number drawn after it, and the budget check number `i`. */
  datatype Provider = Provider(ask: (nat, string) -> Reply, random: nat -> real, withinBudget: nat -> bool)

  datatype Sink = Db | File
  datatype LogContext = LogContext(sink: Sink, clientId: Option<string>)

  datatype Row = Row(model: string, ok: bool, attempts: nat)
  datatype Switch = Switch(from: string, reason: FailureKind, to: string)

  /** Everything the calls have done so far: a model name per round trip, the log rows, the time slept. */
  datatype Tally = Tally(sent: seq<string>, rows: seq<Row>, slept: int, checks: nat, switches: seq<Switch>)

  datatype Outcome = Answered(text: string, attempts: nat, model: string) | Threw(thrown: Thrown)

  /** Only a call whose row goes to the database is checked; one without a log, or with a file for it, is not. */
  predicate Guarded(log: Option<LogContext>) {
    log.Some? && log.value.sink.Db?
  }

  predicate TraceSteps(log: Option<LogContext>) {
    Guarded(log) && log.value.clientId.Some? && log.value.clientId.value != ""
  }

  // ----- The retry loop as a function -------------------------------------------------------------------------

  function Pow2(n: nat): nat {
    if n == 0 then 1 else 2 * Pow2(n - 1)
  }

  /** The jittered base delay, doubled once per attempt made before. */
  function Backoff(random: real, k: nat): real {
    if k == 0 then BASE_DELAY_MS as real * (0.5 + random * 0.5) else 2.0 * Backoff(random, k - 1)
  }

  /** The pause after failed attempt `k`, in whole milliseconds. */
  function Delay(random: real, k: nat): int {
    (Backoff(random, k) + 0.5).Floor
  }

  /** Attempt `k` of a call whose first round trip is number `from` failed in a way worth trying again. */
  predicate FailsRetryably(x: Provider, from: nat, model: string, k: nat) {
    x.ask(from + k, model).Failure? && Retryable(x.ask(from + k, model).error)
  }

  /** The attempts made, when attempt `k` is made. */
  function AttemptsFrom(x: Provider, from: nat, model: string, maxAttempts: int, k: nat): (n: nat)
    ensures n > k
    decreases maxAttempts - k
  {
    if FailsRetryably(x, from, model, k) && k < maxAttempts - 1
    then AttemptsFrom(x, from, model, maxAttempts, k + 1)
    else k + 1
  }

  function Attempts(x: Provider, from: nat, model: string, maxAttempts: int): (n: nat)
    ensures n > 0
  {
    AttemptsFrom(x, from, model, maxAttempts, 0)
  }

  /** The first `n` pauses of the call. */
  function Pauses(x: Provider, from: nat, n: nat): int {
    if n == 0 then 0 else Pauses(x, from, n - 1) + Delay(x.random(from + n - 1), n - 1)
  }

  function Times(model: string, n: nat): (r: seq<string>)
    ensures |r| == n && forall i :: 0 <= i < n ==> r[i] == model
  {
    if n == 0 then [] else Times(model, n - 1) + [model]
  }

  predicate RandomInUnit(x: Provider, i: nat) {
    0.0 <= x.random(i) < 1.0
  }

  ghost predicate Uniform(x: Provider) {
    forall i: nat :: RandomInUnit(x, i)
  }

  /** generateWithRetryDetailed. */
  function Generate(x: Provider, t: Tally, model: string, log: Option<LogContext>, maxAttempts: int): (Tally, Outcome) {
    var t' := if Guarded(log) then t.(checks := t.checks + 1) else t;
    if Guarded(log) && !x.withinBudget(t.checks) then (t', Threw(BudgetExceeded))
    else AfterAttempts(x, t', model, log, Attempts(x, |t.sent|, model, maxAttempts))
  }

  /** What `n` round trips leave behind, the last of them deciding. */
  function AfterAttempts(x: Provider, t: Tally, model: string, log: Option<LogContext>, n: nat): (Tally, Outcome)
    requires n > 0
  {
    var last := x.ask(|t.sent| + n - 1, model);
    (t.(sent := t.sent + Times(model, n),
        rows := if log.Some? then t.rows + [Row(model, last.Answer?, n)] else t.rows,
        slept := t.slept + Pauses(x, |t.sent|, n - 1)),
     Ending(last, model, n))
  }

  function Ending(last: Reply, model: string, n: nat): Outcome {
    if last.Answer? then Answered(last.text, n, model) else Threw(CallFailed(last.error))
  }

  lemma TripAdds(sent: seq<string>, model: string, n: nat)
    ensures (sent + Times(model, n)) + [model] == sent + Times(model, n + 1)
  {
  }

  predicate NoBackup(backup: Option<string>) {
    backup.None? || backup.value == ""
  }

  /** The switch is a step of the client's trace. */
  function Handover(t: Tally, model: string, backup: string, thrown: Thrown, log: Option<LogContext>): Tally {
    if TraceSteps(log) then t.(switches := t.switches + [Switch(model, FailureReasonOf(thrown), backup)]) else t
  }

  /** runWithBackup. */
  function Run(x: Provider, t: Tally, model: string, backup: Option<string>, log: Option<LogContext>)
    : (Tally, Outcome)
  {
    if NoBackup(backup) then Generate(x, t, model, log, MAX_ATTEMPTS)
    else
      var (t1, first) := Generate(x, t, model, log, PRIMARY_ATTEMPTS_WITH_BACKUP);
      if first.Answered? || !IsProviderFailure(first.thrown) then (t1, first)
      else
        Generate(x, Handover(t1, model, backup.value, first.thrown, log), backup.value, log, MAX_ATTEMPTS)
  }

  // ----- The loop itself (src/gemini/generate.ts, src/gemini/llmCall.ts) -------------------------------------

  class LlmEngine {
    const provider: Provider
    var sent: seq<string>
    var rows: seq<Row>
    var slept: int
    var checks: nat
    var switches: seq<Switch>

    constructor (provider: Provider)
      ensures this.provider == provider && T() == Tally([], [], 0, 0, [])
    {
      this.provider := provider;
      sent, rows, slept, checks, switches := [], [], 0, 0, [];
    }

    function T(): Tally
      reads this
    {
      Tally(sent, rows, slept, checks, switches)
    }

    method AssertWithinBudget() returns (ok: bool)
      modifies this`checks
      ensures ok == provider.withinBudget(old(checks)) && checks == old(checks) + 1
    {
      ok := provider.withinBudget(checks);
      checks := checks + 1;
    }

    method RecordCall(log: Option<LogContext>, row: Row)
      modifies this`rows
      ensures rows == if log.Some? then old(rows) + [row] else old(rows)
    {
      if log.Some? {
        rows := rows + [row];
      }
    }

    method Sleep(ms: int)
      modifies this`slept
      ensures slept == old(slept) + ms
    {
      slept := slept + ms;
    }

    method GenerateWithRetryDetailed(model: string, log: Option<LogContext>, maxAttempts: int) returns (r: Outcome)
      modifies this
      ensures T() == Generate(provider, old(T()), model, log, maxAttempts).0
      ensures r == Generate(provider, old(T()), model, log, maxAttempts).1
    {
      if Guarded(log) {
        var ok := AssertWithinBudget();
        if !ok {
          return Threw(BudgetExceeded);
        }
      }
      r := SendWithRetries(model, log, maxAttempts);
    }

    method SendWithRetries(model: string, log: Option<LogContext>, maxAttempts: int) returns (r: Outcome)
      modifies this
      ensures var n := Attempts(provider, |old(sent)|, model, maxAttempts);
              && sent == old(sent) + Times(model, n) && slept == old(slept) + Pauses(provider, |old(sent)|, n - 1)
              && rows == (if log.Some? then old(rows) + [Row(model, r.Answered?, n)] else old(rows))
              && checks == old(checks) && switches == old(switches)
              && r == Ending(provider.ask(|old(sent)| + n - 1, model), model, n)
    {
      ghost var from := |sent|;
      var attempt := 0;
      while true
        invariant sent == old(sent) + Times(model, attempt) && slept == old(slept) + Pauses(provider, from, attempt)
        invariant rows == old(rows) && checks == old(checks) && switches == old(switches)
        invariant Attempts(provider, from, model, maxAttempts) ==
                  AttemptsFrom(provider, from, model, maxAttempts, attempt)
        decreases maxAttempts - attempt
      {
        var reply := provider.ask(|sent|, model);
        sent := sent + [model];
        TripAdds(old(sent), model, attempt);
        if reply.Answer? {
          RecordCall(log, Row(model, true, attempt + 1));
          return Answered(reply.text, attempt + 1, model);
        }
        if !Retryable(reply.error) || attempt >= maxAttempts - 1 {
          RecordCall(log, Row(model, false, attempt + 1));
          return Threw(CallFailed(reply.error));
        }
        Sleep(Delay(provider.random(|sent| - 1), attempt));
        attempt := attempt + 1;
      }
    }

    method RunWithBackup(model: string, backup: Option<string>, log: Option<LogContext>) returns (r: Outcome)
      modifies this
      ensures T() == Run(provider, old(T()), model, backup, log).0
      ensures r == Run(provider, old(T()), model, backup, log).1
    {
      if NoBackup(backup) {
        r := GenerateWithRetryDetailed(model, log, MAX_ATTEMPTS);
        return;
      }
      r := GenerateWithRetryDetailed(model, log, PRIMARY_ATTEMPTS_WITH_BACKUP);
      if r.Answered? || !IsProviderFailure(r.thrown) {
        return;
      }
      if TraceSteps(log) {
        switches := switches + [Switch(model, FailureReasonOf(r.thrown), backup.value)];
      }
      r := GenerateWithRetryDetailed(backup.value, log, MAX_ATTEMPTS);
    }
  }

  // ----- One call ----------------------------------------------------------------------------------------------

  /** The failures worth another try: five statuses, and a provider that could not be reached or took too long. */
  predicate Transient(e: LlmError) {
    match e
    case GeminiError(status) => status in {429, 499, 500, 503, 504}
    case OpenAiError(status) => status in {429, 499, 500, 503, 504}
    case AnthropicError(reported) => reported.Some? && reported.value in {429, 499, 500, 503, 504}
    case AnthropicConnectionError => true
    case FetchFailed => true
    case TimeoutAbort => true
    case OtherError => false
  }

  /** Attempt `k` of a call whose first round trip is number `from` failed so. */
  predicate FailsTransiently(x: Provider, from: nat, model: string, k: nat) {
    x.ask(from + k, model).Failure? && Transient(x.ask(from + k, model).error)
  }

  /** Calls whose row goes to the database. */
  predicate Logged(log: Option<LogContext>) {
    log.Some? && log.value.sink == Db
  }

  function Limit(maxAttempts: int): nat {
    if maxAttempts > 1 then maxAttempts else 1
  }

  /** The loop ends at the first attempt not worth repeating, or at the limit. */
  ghost predicate EndsAfter(x: Provider, from: nat, model: string, maxAttempts: int, n: nat) {
    && 1 <= n <= Limit(maxAttempts)
    && (n < Limit(maxAttempts) ==> !FailsTransiently(x, from, model, n - 1))
    && forall k: nat :: k < n - 1 ==> FailsTransiently(x, from, model, k)
  }

  lemma {:induction false} AttemptsFirst(x: Provider, from: nat, model: string, maxAttempts: int, k: nat)
    requires k < Limit(maxAttempts)
    requires forall i: nat :: i < k ==> FailsTransiently(x, from, model, i)
    ensures EndsAfter(x, from, model, maxAttempts, AttemptsFrom(x, from, model, maxAttempts, k))
    decreases maxAttempts - k
  {
    if FailsTransiently(x, from, model, k) && k < maxAttempts - 1 {
      AttemptsFirst(x, from, model, maxAttempts, k + 1);
    }
  }

  /** Main result: the number of round trips is the one and only place where the loop may end. */
  lemma AttemptsIff(x: Provider, from: nat, model: string, maxAttempts: int, n: nat)
    ensures n == Attempts(x, from, model, maxAttempts) <==> EndsAfter(x, from, model, maxAttempts, n)
  {
    AttemptsFirst(x, from, model, maxAttempts, 0);
    var m := Attempts(x, from, model, maxAttempts);
    if EndsAfter(x, from, model, maxAttempts, n) {
      var nLast: nat, mLast: nat := n - 1, m - 1;
      assert nLast < mLast ==> FailsTransiently(x, from, model, nLast);
      assert mLast < nLast ==> FailsTransiently(x, from, model, mLast);
    }
  }

  lemma {:induction false} DelayBounded(random: real, k: nat)
    requires 0.0 <= random < 1.0
    ensures (1000 * Pow2(k)) as real <= Backoff(random, k) <= (2000 * Pow2(k)) as real
    ensures 1000 * Pow2(k) <= Delay(random, k) <= 2000 * Pow2(k)
  {
    if k > 0 {
      DelayBounded(random, k - 1);
    }
  }

  /** The pause after attempt `k` is one or two seconds, or between, as the random number says, doubled `k` times. */
  lemma {:induction false} BackoffMeans(random: real, k: nat)
    ensures Backoff(random, k) == Pow2(k) as real * (1000.0 + 1000.0 * random)
    ensures Delay(random, k) as real - 0.5 <= Backoff(random, k) < Delay(random, k) as real + 0.5
  {
    if k > 0 {
      BackoffMeans(random, k - 1);
      var base, half := 1000.0 + 1000.0 * random, Pow2(k - 1);
      assert (2 * half) as real == 2.0 * half as real;
      assert (2.0 * half as real) * base == 2.0 * (half as real * base);
    }
  }

  lemma {:induction false} PausesBounded(x: Provider, from: nat, n: nat)
    requires Uniform(x)
    ensures 1000 * (Pow2(n) - 1) <= Pauses(x, from, n) <= 2000 * (Pow2(n) - 1)
  {
    if n > 0 {
      PausesBounded(x, from, n - 1);
      assert RandomInUnit(x, from + n - 1);
      DelayBounded(x.random(from + n - 1), n - 1);
    }
  }

  lemma {:induction false} Pow2Monotone(m: nat, n: nat)
    requires m <= n
    ensures Pow2(m) <= Pow2(n)
  {
    if m < n {
      Pow2Monotone(m, n - 1);
    }
  }

  /**
   Main result: a refused call sends, logs and sleeps nothing. Any other makes
   between one and `maxAttempts` round trips, all to its model, writes exactly one
   row (none without a log context), and sleeps between 1000 and 2000 * (2^(n-1) - 1) ms
   for its n round trips.
   */
  lemma CallBounds(x: Provider, t: Tally, model: string, log: Option<LogContext>, maxAttempts: int)
    requires Uniform(x)
    ensures var (t', r) := Generate(x, t, model, log, maxAttempts);
            var n := |t'.sent| - |t.sent|;
            && t.sent <= t'.sent && t.rows <= t'.rows && t'.switches == t.switches
            && t'.checks == t.checks + (if Logged(log) then 1 else 0)
            && (r == Threw(BudgetExceeded) <==> Logged(log) && !x.withinBudget(t.checks))
            && (r == Threw(BudgetExceeded) ==> n == 0 && t'.rows == t.rows && t'.slept == t.slept)
            && (r != Threw(BudgetExceeded) ==>
                  && EndsAfter(x, |t.sent|, model, maxAttempts, n)
                  && (forall i :: |t.sent| <= i < |t'.sent| ==> t'.sent[i] == model)
                  && |t'.rows| == |t.rows| + (if log.Some? then 1 else 0)
                  && (log.Some? ==> t'.rows[|t.rows|] == Row(model, r.Answered?, n))
                  && 1000 * (Pow2(n - 1) - 1) <= t'.slept - t.slept <= 2000 * (Pow2(n - 1) - 1)
                  && t'.slept - t.slept <= 2000 * (Pow2(Limit(maxAttempts) - 1) - 1))
            && (r.Answered? ==> r.attempts == n && r.model == model && x.ask(|t'.sent| - 1, model) == Answer(r.text))
            && (r.Threw? && r.thrown.CallFailed? ==> x.ask(|t'.sent| - 1, model) == Failure(r.thrown.error))
  {
    if !(Logged(log) && !x.withinBudget(t.checks)) {
      SleepsBetween(x, |t.sent|, model, maxAttempts);
    }
  }

  /** The pauses between the round trips. */
  lemma SleepsBetween(x: Provider, from: nat, model: string, maxAttempts: int)
    requires Uniform(x)
    ensures var n := Attempts(x, from, model, maxAttempts);
            && EndsAfter(x, from, model, maxAttempts, n)
            && 1000 * (Pow2(n - 1) - 1) <= Pauses(x, from, n - 1) <= 2000 * (Pow2(n - 1) - 1)
            && Pow2(n - 1) <= Pow2(Limit(maxAttempts) - 1)
  {
    var n := Attempts(x, from, model, maxAttempts);
    AttemptsFirst(x, from, model, maxAttempts, 0);
    PausesBounded(x, from, n - 1);
    Pow2Monotone(n - 1, Limit(maxAttempts) - 1);
  }

  // ----- The backup ----------------------------------------------------------------------------------------------

  /** The primary ran out of its attempts, or failed for good, because its provider did not serve the call. */
  predicate PrimaryDown(x: Provider, t: Tally, model: string, log: Option<LogContext>) {
    var r := Generate(x, t, model, log, 2).1;
    r.Threw? && r.thrown.CallFailed? && !r.thrown.error.OtherError?
  }

  /** What the trace calls a failure: its status if it has one, a timeout, the network, or nothing more specific. */
  function Reason(e: LlmError): FailureKind {
    match e
    case GeminiError(status) => Status(status)
    case OpenAiError(status) => Status(status)
    case AnthropicError(Some(status)) => Status(status)
    case AnthropicError(None) => Error
    case AnthropicConnectionError => Network
    case FetchFailed => Network
    case TimeoutAbort => Timeout
    case OtherError => Error
  }

  /** The traced reason is that, and a failure worth another try has a telling one. */
  lemma ReasonOfFailure(e: LlmError)
    ensures FailureReasonOf(CallFailed(e)) == Reason(e)
    ensures Transient(e) <==> Reason(e) == Timeout || Reason(e) == Network
                              || (Reason(e).Status? && Reason(e).code in {429, 499, 500, 503, 504})
  {
  }

  /** Whatever ends the retries by exhaustion hands over to the backup. */
  lemma ExhaustedIsDown(x: Provider, t: Tally, model: string, log: Option<LogContext>)
    requires Uniform(x)
    requires !(Logged(log) && !x.withinBudget(t.checks))
    requires FailsTransiently(x, |t.sent|, model, 0) && FailsTransiently(x, |t.sent|, model, 1)
    ensures PrimaryDown(x, t, model, log)
    ensures |Generate(x, t, model, log, 2).0.sent| == |t.sent| + 2
  {
    assert EndsAfter(x, |t.sent|, model, 2, 2);
    AttemptsIff(x, |t.sent|, model, 2, 2);
  }

  /**
   Main result: with a backup there are at most 2 + 5 round trips, first the
   primary's, then the backup's; the backup is asked exactly when the primary's
   provider failed and the budget still allows it.
   */
  lemma BackupBounds(x: Provider, t: Tally, model: string, backup: Option<string>, log: Option<LogContext>)
    requires Uniform(x) && backup.Some? && backup.value != ""
    ensures var t1 := Generate(x, t, model, log, 2).0;
            var t' := Run(x, t, model, backup, log).0;
            && t.sent <= t1.sent <= t'.sent
            && |t1.sent| - |t.sent| <= 2 && |t'.sent| - |t1.sent| <= 5
            && (forall i :: |t.sent| <= i < |t1.sent| ==> t'.sent[i] == model)
            && (forall i :: |t1.sent| <= i < |t'.sent| ==> t'.sent[i] == backup.value)
            && (|t'.sent| > |t1.sent| <==>
                  PrimaryDown(x, t, model, log) && (Logged(log) ==> x.withinBudget(t1.checks)))
            && t'.slept - t.slept <= 32000
  {
    CallBounds(x, t, model, log, 2);
    var (t1, first) := Generate(x, t, model, log, 2);
    if PrimaryDown(x, t, model, log) {
      CallBounds(x, Handover(t1, model, backup.value, first.thrown, log), backup.value, log, 5);
      SleepsInAll();
    }
  }

  /** The backup's round trips, if any, end at a stopping place of its own, among five. */
  lemma BackupTrips(x: Provider, t: Tally, model: string, backup: Option<string>, log: Option<LogContext>)
    requires Uniform(x) && backup.Some? && backup.value != ""
    ensures var t1 := Generate(x, t, model, log, 2).0;
            var t' := Run(x, t, model, backup, log).0;
            |t'.sent| > |t1.sent| ==> EndsAfter(x, |t1.sent|, backup.value, 5, |t'.sent| - |t1.sent|)
  {
    var (t1, first) := Generate(x, t, model, log, 2);
    if PrimaryDown(x, t, model, log) {
      CallBounds(x, Handover(t1, model, backup.value, first.thrown, log), backup.value, log, 5);
    }
  }

  lemma SleepsInAll()
    ensures 2000 * (Pow2(Limit(2) - 1) - 1) == 2000 && 2000 * (Pow2(Limit(5) - 1) - 1) == 30000
  {
    assert Pow2(1) == 2 && Pow2(4) == 16;
  }

  /** Without a backup there is the one call, of up to five attempts, with its own outcome. */
  lemma NoBackupRun(x: Provider, t: Tally, model: string, log: Option<LogContext>, n: nat)
    requires Uniform(x) && (Logged(log) ==> x.withinBudget(t.checks)) && EndsAfter(x, |t.sent|, model, 5, n)
    ensures Run(x, t, model, None, log) == Run(x, t, model, Some(""), log) == Generate(x, t, model, log, 5)
    ensures |Run(x, t, model, None, log).0.sent| == |t.sent| + n
  {
    AttemptsIff(x, |t.sent|, model, 5, n);
  }

  /** The last round trip made gave the answer, and its model is the one named. */
  ghost predicate NamesAnswerer(x: Provider, t: Tally, t': Tally, r: Outcome) {
    r.Answered? ==>
      && |t'.sent| > |t.sent| && t'.sent[|t'.sent| - 1] == r.model
      && x.ask(|t'.sent| - 1, r.model) == Answer(r.text)
  }

  lemma CallNamesAnswerer(x: Provider, t: Tally, model: string, log: Option<LogContext>, maxAttempts: int)
    requires Uniform(x)
    ensures var (t', r) := Generate(x, t, model, log, maxAttempts);
            && NamesAnswerer(x, t, t', r) && |t'.sent| >= |t.sent| && (r.Answered? ==> r.model == model)
  {
    CallBounds(x, t, model, log, maxAttempts);
  }

  /** Main result: the model named in the answer is the one that gave it, on the last round trip made. */
  lemma AnswererNamed(x: Provider, t: Tally, model: string, backup: Option<string>, log: Option<LogContext>)
    requires Uniform(x)
    ensures var (t', r) := Run(x, t, model, backup, log);
            NamesAnswerer(x, t, t', r) && (r.Answered? ==> r.model == model || Some(r.model) == backup)
  {
    if NoBackup(backup) {
      CallNamesAnswerer(x, t, model, log, 5);
    } else {
      CallNamesAnswerer(x, t, model, log, 2);
      var (t1, first) := Generate(x, t, model, log, 2);
      if PrimaryDown(x, t, model, log) {
        CallNamesAnswerer(x, Handover(t1, model, backup.value, first.thrown, log), backup.value, log, 5);
      }
    }
  }

  /**
   Main result: the budget stop and any error that is not the provider's come out
   as they are, with the backup never asked; a provider failure is traced once per
   client, and both calls keep their own row.
   */
  lemma HandoverIff(x: Provider, t: Tally, model: string, backup: Option<string>, log: Option<LogContext>)
    requires Uniform(x) && backup.Some? && backup.value != ""
    ensures var (t1, first) := Generate(x, t, model, log, 2);
            var (t', r) := Run(x, t, model, backup, log);
            && (!PrimaryDown(x, t, model, log) ==> (t', r) == (t1, first))
            && (PrimaryDown(x, t, model, log) ==>
                  && t1.rows == t.rows + (if log.Some? then [Row(model, false, |t1.sent| - |t.sent|)] else [])
                  && t1.rows <= t'.rows
                  && (|t'.rows| > |t1.rows| <==> log.Some? && |t'.sent| > |t1.sent|)
                  && t'.switches == t.switches +
                       (if Logged(log) && log.value.clientId.Some? && log.value.clientId.value != ""
                        then [Switch(model, Reason(first.thrown.error), backup.value)] else []))
  {
    CallBounds(x, t, model, log, 2);
    var (t1, first) := Generate(x, t, model, log, 2);
    if PrimaryDown(x, t, model, log) {
      CallBounds(x, Handover(t1, model, backup.value, first.thrown, log), backup.value, log, 5);
    }
  }

  /**
   The reported attempts leave out the primary's round trips: they are all of them exactly when the
   primary was not down.
   */
  lemma AttemptsReportedIff(x: Provider, t: Tally, model: string, backup: Option<string>, log: Option<LogContext>)
    requires Uniform(x) && backup.Some? && backup.value != ""
    requires Run(x, t, model, backup, log).1.Answered?
    ensures var (t', r) := Run(x, t, model, backup, log);
            r.attempts == |t'.sent| - |t.sent| <==> !PrimaryDown(x, t, model, log)
  {
    CallBounds(x, t, model, log, 2);
    var (t1, first) := Generate(x, t, model, log, 2);
    if PrimaryDown(x, t, model, log) {
      CallBounds(x, Handover(t1, model, backup.value, first.thrown, log), backup.value, log, 5);
    }
  }

  /** Such a call: two lost connections to the primary, an answer of the backup, and one attempt reported for three. */
  lemma AttemptsUnderReported() returns (x: Provider, t: Tally)
    ensures var (t', r) := Run(x, t, "primary", Some("backup"), None);
            r == Answered("ok", 1, "backup") && t'.sent == ["primary", "primary", "backup"] && t.sent == []
  {
    x := Provider((i: nat, model: string) => if model == "backup" then Answer("ok") else Failure(FetchFailed),
                  (i: nat) => 0.0, (i: nat) => true);
    t := Tally([], [], 0, 0, []);
    assert EndsAfter(x, 0, "primary", 2, 2);
    AttemptsIff(x, 0, "primary", 2, 2);
    assert EndsAfter(x, 2, "backup", 5, 1);
    AttemptsIff(x, 2, "backup", 5, 1);
    TwoThenOne();
  }

  lemma TwoThenOne()
    ensures Times("primary", 2) == ["primary", "primary"] && Times("backup", 1) == ["backup"]
  {
    assert Times("primary", 1) == Times("primary", 0) + ["primary"];
    assert Times("primary", 2) == Times("primary", 1) + ["primary"];
  }
}
