/**
 The harness's summary: result rows folded into one bucket per stage and model.
 */
module Summaries {
  import opened Options
  import opened WorkerPool

  datatype Key = Key(stage: string, model: string)

  /** A bucket: the counters and sums of its rows, and the number and summed latency of those without an error. */
  datatype Bucket = Bucket(
    total: nat, passed: nat, errors: nat, inputTokens: nat, outputTokens: nat, thinkingTokens: nat, cachedTokens: nat,
    unpriced: nat, cost: real, timed: nat, latencySum: nat)

  const EMPTY: Bucket := Bucket(0, 0, 0, 0, 0, 0, 0, 0, 0.0, 0, 0)

  function KeyOf(r: Row): Key {
    Key(r.item.stage, r.item.model)
  }

  /** An empty error text does not count as an error. */
  predicate Errored(r: Row) {
    r.error.Some? && r.error.value != ""
  }

  function Plus(a: Bucket, b: Bucket): Bucket {
    Bucket(a.total + b.total, a.passed + b.passed, a.errors + b.errors, a.inputTokens + b.inputTokens,
           a.outputTokens + b.outputTokens, a.thinkingTokens + b.thinkingTokens, a.cachedTokens + b.cachedTokens,
           a.unpriced + b.unpriced, a.cost + b.cost, a.timed + b.timed, a.latencySum + b.latencySum)
  }

  function Single(r: Row): Bucket {
    Bucket(1, One(r.pass), One(Errored(r)), r.inputTokens, r.outputTokens, r.thinkingTokens, r.cachedTokens,
           One(r.cost.None?), CostOf(r), One(!Errored(r)), if Errored(r) then 0 else r.latencyMs)
  }

  /** The first `n` rows of one bucket, or (None) of all. */
  function Rows(rows: seq<Row>, n: nat, key: Option<Key>): Bucket
    requires n <= |rows|
  {
    if n == 0 then EMPTY
    else if key.None? || key.value == KeyOf(rows[n - 1]) then Plus(Rows(rows, n - 1, key), Single(rows[n - 1]))
    else Rows(rows, n - 1, key)
  }

  predicate HasRow(rows: seq<Row>, n: nat, key: Key)
    requires n <= |rows|
  {
    exists i :: 0 <= i < n && KeyOf(rows[i]) == key
  }

  ghost predicate Distinct(keys: seq<Key>) {
    forall i, j :: 0 <= i < j < |keys| ==> keys[i] != keys[j]
  }

  /** One row into its bucket, field by field. */
  method AddRow(bucket: Bucket, r: Row) returns (b: Bucket)
    ensures b == Plus(bucket, Single(r))
  {
    b := bucket.(total := bucket.total + 1);
    if r.pass {
      b := b.(passed := b.passed + 1);
    }
    if Errored(r) {
      b := b.(errors := b.errors + 1);
    }
    b := b.(inputTokens := b.inputTokens + r.inputTokens, outputTokens := b.outputTokens + r.outputTokens,
            thinkingTokens := b.thinkingTokens + r.thinkingTokens, cachedTokens := b.cachedTokens + r.cachedTokens);
    if r.cost.None? {
      b := b.(unpriced := b.unpriced + 1);
    } else {
      b := b.(cost := b.cost + r.cost.value);
    }
    if !Errored(r) {
      b := b.(timed := b.timed + 1, latencySum := b.latencySum + r.latencyMs);
    }
  }

  /** The first pass of summarize; `keys` are the buckets in the order they were opened. */
  method Accumulate(rows: seq<Row>) returns (keys: seq<Key>, acc: map<Key, Bucket>)
    ensures Distinct(keys) && (forall k :: k in keys <==> k in acc)
    ensures forall k :: k in acc <==> HasRow(rows, |rows|, k)
    ensures forall k :: k in acc ==> acc[k] == Rows(rows, |rows|, Some(k))
  {
    keys, acc := [], map[];
    for n := 0 to |rows|
      invariant Distinct(keys) && (forall k :: k in keys <==> k in acc)
      invariant forall k :: k in acc <==> HasRow(rows, n, k)
      invariant forall k :: k in acc ==> acc[k] == Rows(rows, n, Some(k))
    {
      var r := rows[n];
      var key := KeyOf(r);
      if key !in acc {
        NoRows(rows, n, key);
        keys := keys + [key];
        acc := acc[key := EMPTY];
      }
      var b := AddRow(acc[key], r);
      acc := acc[key := b];
    }
  }

  lemma {:induction false} NoRows(rows: seq<Row>, n: nat, key: Key)
    requires n <= |rows| && !HasRow(rows, n, key)
    ensures Rows(rows, n, Some(key)) == EMPTY
  {
    if n > 0 {
      NoRows(rows, n - 1, key);
    }
  }

  // ----- What a bucket holds -----------------------------------------------------------------------------------

  /** The row is of this stage and model, or of any. */
  predicate Belongs(r: Row, key: Option<Key>) {
    key.None? || (r.item.stage == key.value.stage && r.item.model == key.value.model)
  }

  ghost function Count(rows: seq<Row>, n: nat, key: Option<Key>, which: Row -> bool): nat
    requires n <= |rows|
  {
    if n == 0 then 0
    else Count(rows, n - 1, key, which) + if Belongs(rows[n - 1], key) && which(rows[n - 1]) then 1 else 0
  }

  ghost function Total(rows: seq<Row>, n: nat, key: Option<Key>, amount: Row -> nat): nat
    requires n <= |rows|
  {
    if n == 0 then 0
    else Total(rows, n - 1, key, amount) + if Belongs(rows[n - 1], key) then amount(rows[n - 1]) else 0
  }

  ghost function Paid(rows: seq<Row>, n: nat, key: Option<Key>): real
    requires n <= |rows|
  {
    if n == 0 then 0.0
    else Paid(rows, n - 1, key)
         + if Belongs(rows[n - 1], key) && rows[n - 1].cost.Some? then rows[n - 1].cost.value else 0.0
  }

  /** An error text that says something. */
  predicate Fails(r: Row) {
    r.error.Some? && r.error.value != ""
  }

  /** Main result: every figure of a bucket is the count or the sum, over its rows, of what it is named after. */
  lemma {:induction false} BucketMeans(rows: seq<Row>, n: nat, key: Option<Key>)
    requires n <= |rows|
    ensures var b := Rows(rows, n, key);
            && b.total == Count(rows, n, key, (r: Row) => true) && b.passed == Count(rows, n, key, (r: Row) => r.pass)
            && b.errors == Count(rows, n, key, (r: Row) => Fails(r))
            && b.inputTokens == Total(rows, n, key, (r: Row) => r.inputTokens)
            && b.outputTokens == Total(rows, n, key, (r: Row) => r.outputTokens)
            && b.thinkingTokens == Total(rows, n, key, (r: Row) => r.thinkingTokens)
            && b.cachedTokens == Total(rows, n, key, (r: Row) => r.cachedTokens)
            && b.unpriced == Count(rows, n, key, (r: Row) => r.cost.None?) && b.cost == Paid(rows, n, key)
            && b.timed == Count(rows, n, key, (r: Row) => !Fails(r))
            && b.latencySum == Total(rows, n, key, (r: Row) => if Fails(r) then 0 else r.latencyMs)
  {
    if n > 0 {
      BucketMeans(rows, n - 1, key);
    }
  }

  // ----- The buckets add up ---------------------------------------------------------------------------------

  /** The first `m` buckets taken together. */
  function Together(keys: seq<Key>, m: nat, rows: seq<Row>, n: nat): Bucket
    requires m <= |keys| && n <= |rows|
  {
    if m == 0 then EMPTY else Plus(Together(keys, m - 1, rows, n), Rows(rows, n, Some(keys[m - 1])))
  }

  predicate Among(keys: seq<Key>, m: nat, key: Key)
    requires m <= |keys|
  {
    m > 0 && (keys[m - 1] == key || Among(keys, m - 1, key))
  }

  lemma {:induction false} AmongIff(keys: seq<Key>, m: nat, key: Key)
    requires m <= |keys|
    ensures Among(keys, m, key) <==> exists i :: 0 <= i < m && keys[i] == key
  {
    if m > 0 {
      AmongIff(keys, m - 1, key);
    }
  }

  /** One more row reaches the one bucket that has its key, if it is among them. */
  lemma {:induction false} OneBucketGrows(keys: seq<Key>, m: nat, rows: seq<Row>, n: nat)
    requires m <= |keys| && n < |rows| && Distinct(keys)
    ensures Together(keys, m, rows, n + 1) ==
            if Among(keys, m, KeyOf(rows[n])) then Plus(Together(keys, m, rows, n), Single(rows[n]))
            else Together(keys, m, rows, n)
  {
    if m > 0 {
      OneBucketGrows(keys, m - 1, rows, n);
      PlusRegroups(Together(keys, m - 1, rows, n), Rows(rows, n, Some(keys[m - 1])), Single(rows[n]));
      AmongIff(keys, m - 1, KeyOf(rows[n]));
    }
  }

  lemma PlusRegroups(a: Bucket, b: Bucket, c: Bucket)
    ensures Plus(a, Plus(b, c)) == Plus(Plus(a, b), c) == Plus(Plus(a, c), b)
  {
  }

  lemma {:induction false} NothingTogether(keys: seq<Key>, m: nat, rows: seq<Row>)
    requires m <= |keys|
    ensures Together(keys, m, rows, 0) == EMPTY
  {
    if m > 0 {
      NothingTogether(keys, m - 1, rows);
    }
  }

  /**
   Main result: the buckets partition the rows. Taken together they are the
   summary of all rows: counts, tokens, cost and latency.
   */
  lemma {:induction false} BucketsAddUp(keys: seq<Key>, rows: seq<Row>, n: nat)
    requires n <= |rows| && Distinct(keys) && forall i :: 0 <= i < |rows| ==> KeyOf(rows[i]) in keys
    ensures Together(keys, |keys|, rows, n) == Rows(rows, n, None)
  {
    if n == 0 {
      NothingTogether(keys, |keys|, rows);
    } else {
      BucketsAddUp(keys, rows, n - 1);
      OneBucketGrows(keys, |keys|, rows, n - 1);
      AmongIff(keys, |keys|, KeyOf(rows[n - 1]));
    }
  }

  /** The summary of all rows counts each once, and costs what the spend cap was checked against. */
  lemma {:induction false} AllRowsCounted(rows: seq<Row>, n: nat)
    requires n <= |rows|
    ensures Rows(rows, n, None).total == n && Rows(rows, n, None).cost == Spent(rows, n)
  {
    if n > 0 {
      AllRowsCounted(rows, n - 1);
    }
  }

  /** Every count of a bucket is one of its rows, and a latency is summed for exactly those without an error. */
  lemma {:induction false} BucketConsistent(rows: seq<Row>, n: nat, key: Option<Key>)
    requires n <= |rows|
    ensures var b := Rows(rows, n, key);
            b.passed <= b.total && b.unpriced <= b.total && b.timed + b.errors == b.total
  {
    if n > 0 {
      BucketConsistent(rows, n - 1, key);
    }
  }

  /** What the summary shows as cost: nothing when no row of the bucket was priced. */
  function CostShown(b: Bucket): Option<real> {
    if b.unpriced == b.total then None else Some(b.cost)
  }

  /** A bucket shows a cost exactly when one of its rows has one. */
  lemma {:induction false} CostShownIff(rows: seq<Row>, n: nat, key: Option<Key>)
    requires n <= |rows|
    ensures CostShown(Rows(rows, n, key)).Some? <==>
            exists i :: 0 <= i < n && (key.None? || key.value == KeyOf(rows[i])) && rows[i].cost.Some?
  {
    if n > 0 {
      CostShownIff(rows, n - 1, key);
      BucketConsistent(rows, n - 1, key);
    }
  }

  /** Main result: the totals of the buckets add up to the number of rows, their costs to the run's spend. */
  lemma TotalsAddUp(keys: seq<Key>, rows: seq<Row>)
    requires Distinct(keys) && forall i :: 0 <= i < |rows| ==> KeyOf(rows[i]) in keys
    ensures Together(keys, |keys|, rows, |rows|).total == |rows|
    ensures Together(keys, |keys|, rows, |rows|).cost == Spent(rows, |rows|)
  {
    BucketsAddUp(keys, rows, |rows|);
    AllRowsCounted(rows, |rows|);
  }
}
