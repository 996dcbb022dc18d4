/** How the log sender's worker batches records, and how many requests a drain can take. */
module LogBatches {
  import opened Text
  import opened Documents

  /** One encoded log record, byte by byte. */
  type Record = string

  type Error = string

  /** The outcome of the n-th request the worker makes: None when it succeeds. */
  type Network = nat -> Option<Error>

  datatype Config = Config(batchSize: nat, queueSize: nat, maxBatchBytes: int, maxQueueBytes: int)

  predicate ValidConfig(cfg: Config) {
    cfg.batchSize > 0 && cfg.queueSize > 0 && cfg.maxBatchBytes > 0 && cfg.maxQueueBytes > 0
  }

  const DEFAULT_BATCH_SIZE: nat := 100
  const DEFAULT_QUEUE_SIZE: nat := 1024
  const DEFAULT_MAX_BATCH_BYTES: int := 4 * 1024 * 1024
  const DEFAULT_MAX_QUEUE_BYTES: int := 8 * 1024 * 1024

  const DEFAULT_CONFIG := Config(DEFAULT_BATCH_SIZE, DEFAULT_QUEUE_SIZE, DEFAULT_MAX_BATCH_BYTES,
                                 DEFAULT_MAX_QUEUE_BYTES)

  /** A setting that is not positive takes its default. */
  function WithDefaults(batchSize: int, queueSize: int, maxBatchBytes: int, maxQueueBytes: int): (cfg: Config)
    ensures ValidConfig(cfg)
    ensures cfg.batchSize == batchSize || (batchSize <= 0 && cfg.batchSize == 100)
    ensures cfg.queueSize == queueSize || (queueSize <= 0 && cfg.queueSize == 1024)
    ensures cfg.maxBatchBytes == maxBatchBytes || (maxBatchBytes <= 0 && cfg.maxBatchBytes == 4_194_304)
    ensures cfg.maxQueueBytes == maxQueueBytes || (maxQueueBytes <= 0 && cfg.maxQueueBytes == 8_388_608)
  {
    Config(
      if batchSize <= 0 then DEFAULT_BATCH_SIZE else batchSize,
      if queueSize <= 0 then DEFAULT_QUEUE_SIZE else queueSize,
      if maxBatchBytes <= 0 then DEFAULT_MAX_BATCH_BYTES else maxBatchBytes,
      if maxQueueBytes <= 0 then DEFAULT_MAX_QUEUE_BYTES else maxQueueBytes)
  }

  // ---------------------------------------------------------------------------------------
  // The worker
  // ---------------------------------------------------------------------------------------

  /** Why a batch was sent: the next record would not fit, it was full, or a tick, flush or close asked. */
  datatype Why = ByBytes | ByCount | Asked

  datatype Attempt = Attempt(records: seq<Record>, error: Option<Error>, why: Why)

  /** The worker's batch, its running byte counter, the last failure, and every request made so far. */
  datatype Worker = Worker(batch: seq<Record>, batchBytes: int, lastErr: Option<Error>, attempts: seq<Attempt>)

  const IDLE_WORKER := Worker([], 2, None, [])

  /** Sends the batch, if there is one. */
  function Flushed(net: Network, w: Worker, why: Why): Worker {
    if w.batch == [] then w
    else
      var error := net(|w.attempts|);
      Worker([], 2, if error.Some? then error else w.lastErr, w.attempts + [Attempt(w.batch, error, why)])
  }

  /** Makes room for a record of the given size. */
  function MadeRoom(cfg: Config, net: Network, w: Worker, r: Record): Worker {
    if w.batch != [] && w.batchBytes + |r| + 1 > cfg.maxBatchBytes then Flushed(net, w, ByBytes) else w
  }

  function Appended(cfg: Config, net: Network, w: Worker, r: Record): Worker {
    var w1 := MadeRoom(cfg, net, w, r);
    var w2 := w1.(batch := w1.batch + [r], batchBytes := w1.batchBytes + |r| + 1);
    if |w2.batch| >= cfg.batchSize then Flushed(net, w2, ByCount) else w2
  }

  function Drained(cfg: Config, net: Network, w: Worker, queue: seq<Record>): Worker
    decreases |queue|
  {
    if queue == [] then w else Drained(cfg, net, Appended(cfg, net, w, queue[0]), queue[1..])
  }

  /** All that the worker does on a close request, with the queue as it is then. */
  function Closed(cfg: Config, net: Network, w: Worker, queue: seq<Record>): Worker {
    Flushed(net, Drained(cfg, net, w, queue), Asked)
  }

  // ---------------------------------------------------------------------------------------
  // Sizes
  // ---------------------------------------------------------------------------------------

  /** Bytes of the records themselves. */
  function Bytes(records: seq<Record>): nat {
    if records == [] then 0 else Bytes(records[..|records| - 1]) + |records[|records| - 1]|
  }

  /** Bytes of the records with one comma each. */
  function Weight(records: seq<Record>): nat {
    Bytes(records) + |records|
  }

  lemma {:induction false} BytesOfBoth(a: seq<Record>, b: seq<Record>)
    ensures Bytes(a + b) == Bytes(a) + Bytes(b)
    decreases |b|
  {
    if b == [] {
      assert a + b == a;
    } else {
      assert (a + b)[..|a + b| - 1] == a + b[..|b| - 1];
      BytesOfBoth(a, b[..|b| - 1]);
    }
  }

  lemma BytesOfOne(r: Record)
    ensures Bytes([r]) == |r|
  {
    assert [r][..0] == [];
  }

  /** Taking the first record out of a queue takes its bytes out. */
  lemma BytesOfRest(queue: seq<Record>)
    requires queue != []
    ensures Bytes(queue) == |queue[0]| + Bytes(queue[1..])
  {
    assert queue == [queue[0]] + queue[1..];
    BytesOfBoth([queue[0]], queue[1..]);
    BytesOfOne(queue[0]);
  }

  /** The request body: a JSON array of the records. */
  function Body(records: seq<Record>): string {
    "[" + Join(records, ',') + "]"
  }

  lemma {:induction false} JoinLength(records: seq<Record>)
    ensures records != [] ==> |Join(records, ',')| == Bytes(records) + |records| - 1
  {
    if |records| == 1 {
      assert records == [records[0]];
      BytesOfOne(records[0]);
    } else if |records| > 1 {
      JoinLength(records[1..]);
      BytesOfRest(records);
    }
  }

  /** The body of a batch is one byte shorter than the counter: the counter charges a comma for the first
      record too. */
  lemma BodyLength(records: seq<Record>)
    requires records != []
    ensures |Body(records)| == 2 + Weight(records) - 1
  {
    JoinLength(records);
  }

  /** A body is the records between brackets with commas between them. */
  lemma BodyMeans(records: seq<Record>, r: Record)
    ensures Body([]) == "[]"
    ensures Body([r]) == "[" + r + "]"
    ensures records != [] ==> Body(records + [r]) == Body(records)[..|Body(records)| - 1] + "," + r + "]"
  {
    if records != [] {
      JoinOneMore(records, r, ',');
      assert Body(records)[..|Body(records)| - 1] == "[" + Join(records, ',');
    }
  }

  /** Writes the request body into a buffer, record by record. */
  method AssembleBody(records: seq<Record>) returns (body: string)
    ensures body == Body(records)
  {
    body := "[";
    for i := 0 to |records|
      invariant body == "[" + Join(records[..i], ',')
    {
      if i > 0 {
        JoinOneMore(records[..i], records[i], ',');
        body := body + ",";
      }
      body := body + records[i];
      assert records[..i + 1] == records[..i] + [records[i]];
    }
    assert records[..|records|] == records;
    body := body + "]";
  }

  // ---------------------------------------------------------------------------------------
  // Every batch fits
  // ---------------------------------------------------------------------------------------

  /** A record the sender admits. */
  predicate Fits(cfg: Config, r: Record) {
    |r| + 2 <= cfg.maxBatchBytes
  }

  predicate AllFit(cfg: Config, records: seq<Record>) {
    forall r :: r in records ==> Fits(cfg, r)
  }

  /** A request body the sender may send. */
  predicate GoodBatch(cfg: Config, records: seq<Record>) {
    1 <= |records| <= cfg.batchSize && |Body(records)| <= cfg.maxBatchBytes
  }

  /** The error of the last request that failed. */
  function LastFailure(attempts: seq<Attempt>): Option<Error> {
    if attempts == [] then None
    else if attempts[|attempts| - 1].error.Some? then attempts[|attempts| - 1].error
    else LastFailure(attempts[..|attempts| - 1])
  }

  ghost predicate WorkerOk(cfg: Config, w: Worker) {
    && w.batchBytes == 2 + Weight(w.batch)
    && |w.batch| < cfg.batchSize
    && (w.batch != [] ==> |Body(w.batch)| <= cfg.maxBatchBytes)
    && (forall a :: a in w.attempts ==> GoodBatch(cfg, a.records))
    && w.lastErr == LastFailure(w.attempts)
  }

  /** The last failure is None exactly when every request succeeded. */
  lemma {:induction false} NoFailureMeansAllSucceeded(attempts: seq<Attempt>)
    ensures LastFailure(attempts).None? <==> forall a :: a in attempts ==> a.error.None?
  {
    if attempts != [] {
      var n := |attempts| - 1;
      NoFailureMeansAllSucceeded(attempts[..n]);
      assert attempts == attempts[..n] + [attempts[n]];
    }
  }

  lemma {:induction false} LastFailureIsLast(attempts: seq<Attempt>)
    ensures LastFailure(attempts).Some? ==>
              exists j :: 0 <= j < |attempts| && attempts[j].error == LastFailure(attempts)
                && forall k :: j < k < |attempts| ==> attempts[k].error.None?
  {
    if attempts != [] && attempts[|attempts| - 1].error.None? {
      LastFailureIsLast(attempts[..|attempts| - 1]);
    }
  }

  lemma FlushKeeps(cfg: Config, net: Network, w: Worker, why: Why)
    requires w.batchBytes == 2 + Weight(w.batch) && w.lastErr == LastFailure(w.attempts)
    requires cfg.batchSize > 0 && (w.batch != [] ==> GoodBatch(cfg, w.batch))
    requires forall a :: a in w.attempts ==> GoodBatch(cfg, a.records)
    ensures WorkerOk(cfg, Flushed(net, w, why)) && Flushed(net, w, why).batch == []
  {
    if w.batch != [] {
      var w' := Flushed(net, w, why);
      assert w'.attempts[..|w.attempts|] == w.attempts;
    }
  }

  /** Appending an admitted record keeps every batch within both limits, although the running counter may
      pass the byte limit by one. */
  lemma AppendKeeps(cfg: Config, net: Network, w: Worker, r: Record)
    requires WorkerOk(cfg, w) && Fits(cfg, r) && cfg.batchSize > 0
    ensures WorkerOk(cfg, Appended(cfg, net, w, r))
    ensures Appended(cfg, net, w, r).batchBytes <= cfg.maxBatchBytes + 1
  {
    FlushKeeps(cfg, net, w, ByBytes);
    var w1 := MadeRoom(cfg, net, w, r);
    var w2 := w1.(batch := w1.batch + [r], batchBytes := w1.batchBytes + |r| + 1);
    BytesOfBoth(w1.batch, [r]);
    BytesOfOne(r);
    BodyLength(w2.batch);
    FlushKeeps(cfg, net, w2, ByCount);
    assert Weight(w2.batch) == Weight(w1.batch) + |r| + 1;
  }

  // ---------------------------------------------------------------------------------------
  // Nothing is lost, repeated or reordered
  // ---------------------------------------------------------------------------------------

  /** The records of all requests, in order. */
  function Attempted(attempts: seq<Attempt>): seq<Record> {
    if attempts == [] then [] else Attempted(attempts[..|attempts| - 1]) + attempts[|attempts| - 1].records
  }

  /** What the worker has taken over, in order. */
  function Taken(w: Worker): seq<Record> {
    Attempted(w.attempts) + w.batch
  }

  lemma FlushTakesNothing(net: Network, w: Worker, why: Why)
    ensures Taken(Flushed(net, w, why)) == Taken(w)
    ensures w.attempts <= Flushed(net, w, why).attempts
  {
    if w.batch != [] {
      assert Flushed(net, w, why).attempts[..|w.attempts|] == w.attempts;
    }
  }

  lemma AppendTakesOne(cfg: Config, net: Network, w: Worker, r: Record)
    ensures Taken(Appended(cfg, net, w, r)) == Taken(w) + [r]
    ensures w.attempts <= Appended(cfg, net, w, r).attempts
  {
    FlushTakesNothing(net, w, ByBytes);
    var w1 := MadeRoom(cfg, net, w, r);
    var w2 := w1.(batch := w1.batch + [r], batchBytes := w1.batchBytes + |r| + 1);
    assert Taken(w2) == Taken(w1) + [r];
    FlushTakesNothing(net, w2, ByCount);
  }

  // ---------------------------------------------------------------------------------------
  // The drain bound
  // ---------------------------------------------------------------------------------------

  function Count(attempts: seq<Attempt>, why: Why): nat {
    if attempts == [] then 0
    else Count(attempts[..|attempts| - 1], why) + if attempts[|attempts| - 1].why == why then 1 else 0
  }

  /** Requests of each kind made from one state of the worker to another. */
  function Closures(w: Worker, w': Worker, why: Why): int {
    Count(w'.attempts, why) - Count(w.attempts, why)
  }

  lemma CountOneMore(attempts: seq<Attempt>, a: Attempt, why: Why)
    ensures Count(attempts + [a], why) == Count(attempts, why) + if a.why == why then 1 else 0
  {
    assert (attempts + [a])[..|attempts|] == attempts;
  }

  lemma FlushCounts(net: Network, w: Worker, why: Why, kind: Why)
    ensures Closures(w, Flushed(net, w, why), kind) == if w.batch != [] && kind == why then 1 else 0
    ensures |Flushed(net, w, why).attempts| == |w.attempts| + if w.batch != [] then 1 else 0
  {
    if w.batch != [] {
      CountOneMore(w.attempts, Attempt(w.batch, net(|w.attempts|), why), kind);
    }
  }

  /** From w to w' the worker took in so many records of such a weight: what it closed by count is covered
      by the records, what it closed by bytes by twice their weight. */
  ghost predicate Costs(cfg: Config, w: Worker, w': Worker, records: nat, weight: nat) {
    var bytes, count := Closures(w, w', ByBytes), Closures(w, w', ByCount);
    && bytes >= 0 && count >= 0
    && |w'.attempts| == |w.attempts| + bytes + count
    && count * cfg.batchSize + |w'.batch| <= |w.batch| + records
    && bytes * (cfg.maxBatchBytes - 1) + Weight(w'.batch) <= Weight(w.batch) + 2 * weight
  }

  lemma OneOrNone(n: int, size: int)
    requires n == 0 || n == 1
    ensures n * size == if n == 1 then size else 0
  {
  }

  lemma RoomCounts(cfg: Config, net: Network, w: Worker, r: Record)
    requires WorkerOk(cfg, w)
    ensures var w1 := MadeRoom(cfg, net, w, r);
            var bytes := Closures(w, w1, ByBytes);
            && 0 <= bytes <= 1 && Closures(w, w1, ByCount) == 0
            && |w1.attempts| == |w.attempts| + bytes
            && |w1.batch| <= |w.batch|
            && bytes * (cfg.maxBatchBytes - 1) + Weight(w1.batch) <= Weight(w.batch) + if bytes == 1 then |r| + 1 else 0
  {
    FlushCounts(net, w, ByBytes, ByBytes);
    FlushCounts(net, w, ByBytes, ByCount);
  }

  /** One append: a batch closed by bytes weighs, with the record that did not fit, at least the byte limit
      less one; a batch closed by count holds a full count. */
  lemma AppendCounts(cfg: Config, net: Network, w: Worker, r: Record)
    requires WorkerOk(cfg, w) && cfg.batchSize > 0
    ensures Costs(cfg, w, Appended(cfg, net, w, r), 1, |r| + 1)
  {
    RoomCounts(cfg, net, w, r);
    var w1 := MadeRoom(cfg, net, w, r);
    var w2 := w1.(batch := w1.batch + [r], batchBytes := w1.batchBytes + |r| + 1);
    FlushCounts(net, w2, ByCount, ByBytes);
    FlushCounts(net, w2, ByCount, ByCount);
    BytesOfBoth(w1.batch, [r]);
    BytesOfOne(r);
    var w' := Appended(cfg, net, w, r);
    OneOrNone(Closures(w, w', ByCount), cfg.batchSize);
    OneOrNone(Closures(w, w', ByBytes), cfg.maxBatchBytes - 1);
    OneOrNone(Closures(w, w1, ByBytes), cfg.maxBatchBytes - 1);
  }

  lemma CostsAddUp(cfg: Config, w: Worker, w1: Worker, w': Worker, n: nat, weight: nat, n': nat, weight': nat)
    requires Costs(cfg, w, w1, n, weight) && Costs(cfg, w1, w', n', weight')
    ensures Costs(cfg, w, w', n + n', weight + weight')
  {
    AddUp(Closures(w, w1, ByCount), Closures(w1, w', ByCount), cfg.batchSize, |w.batch|, n, |w1.batch|, n', |w'.batch|);
    AddUp(Closures(w, w1, ByBytes), Closures(w1, w', ByBytes), cfg.maxBatchBytes - 1,
          Weight(w.batch), 2 * weight, Weight(w1.batch), 2 * weight', Weight(w'.batch));
  }

  /** A whole drain: each record counts once in its batch, and at most once more as the one that did not
      fit. */
  lemma {:induction false} DrainCounts(cfg: Config, net: Network, w: Worker, queue: seq<Record>)
    requires WorkerOk(cfg, w) && AllFit(cfg, queue) && cfg.batchSize > 0
    ensures WorkerOk(cfg, Drained(cfg, net, w, queue))
    ensures Costs(cfg, w, Drained(cfg, net, w, queue), |queue|, Weight(queue))
    decreases |queue|
  {
    if queue != [] {
      var w1 := Appended(cfg, net, w, queue[0]);
      AppendKeeps(cfg, net, w, queue[0]);
      AppendCounts(cfg, net, w, queue[0]);
      DrainCounts(cfg, net, w1, queue[1..]);
      BytesOfRest(queue);
      CostsAddUp(cfg, w, w1, Drained(cfg, net, w, queue), 1, |queue[0]| + 1, |queue[1..]|, Weight(queue[1..]));
    }
  }

  lemma Distribute(a: int, b: int, c: int)
    ensures (a + b) * c == a * c + b * c
  {
  }

  /** Two steps that each cost `size` out of a budget cost together what both budgets allow. */
  lemma AddUp(a: int, b: int, size: int, x: int, p: int, y: int, q: int, z: int)
    requires a * size + y <= x + p && b * size + z <= y + q
    ensures (a + b) * size + z <= x + p + q
  {
    Distribute(a, b, size);
  }

  /** From the close branch on the worker makes at most (pending records / batch size) + N + 1 requests,
      where N * (maxBatchBytes - 1) is at most twice the pending bytes with one comma per record. */
  lemma DrainBound(cfg: Config, net: Network, w: Worker, queue: seq<Record>) returns (n: nat)
    requires ValidConfig(cfg) && WorkerOk(cfg, w) && AllFit(cfg, queue)
    ensures n * (cfg.maxBatchBytes - 1) <= 2 * (Weight(w.batch) + Weight(queue))
    ensures |Closed(cfg, net, w, queue).attempts| - |w.attempts| <= (|w.batch| + |queue|) / cfg.batchSize + n + 1
  {
    DrainCounts(cfg, net, w, queue);
    var w' := Drained(cfg, net, w, queue);
    n := Closures(w, w', ByBytes);
    var count := Closures(w, w', ByCount);
    FlushCounts(net, w', Asked, Asked);
    QuotientAtLeast(count, |w.batch| + |queue|, cfg.batchSize);
  }

  lemma ProductsGrow(a: nat, b: nat, c: nat)
    requires a <= b
    ensures a * c <= b * c
  {
    Distribute(a, b - a, c);
  }

  lemma QuotientAtLeast(count: nat, total: nat, size: nat)
    requires size > 0 && count * size <= total
    ensures count <= total / size
  {
    var quotient := total / size;
    Distribute(quotient, 1, size);
    if quotient + 1 <= count {
      ProductsGrow(quotient + 1, count, size);
    }
  }

  // ---------------------------------------------------------------------------------------
  // The default shutdown timeout
  // ---------------------------------------------------------------------------------------

  const DEFAULT_REQUEST_TIMEOUT_SECONDS: nat := 5
  const DEFAULT_MAX_PENDING_RECORDS: nat := DEFAULT_BATCH_SIZE - 1 + DEFAULT_QUEUE_SIZE
  const DEFAULT_MAX_PENDING_BYTES: nat :=
    DEFAULT_MAX_BATCH_BYTES + DEFAULT_MAX_QUEUE_BYTES + DEFAULT_MAX_PENDING_RECORDS
  const DEFAULT_MAX_COUNT_CLOSURES: nat := DEFAULT_MAX_PENDING_RECORDS / DEFAULT_BATCH_SIZE
  const DEFAULT_MAX_BYTE_CLOSURES: nat :=
    (2 * DEFAULT_MAX_PENDING_BYTES + DEFAULT_MAX_BATCH_BYTES - 1) / DEFAULT_MAX_BATCH_BYTES
  const DEFAULT_MAX_DRAIN_REQUESTS: nat := 1 + DEFAULT_MAX_COUNT_CLOSURES + DEFAULT_MAX_BYTE_CLOSURES + 1
  const DEFAULT_SHUTDOWN_TIMEOUT_SECONDS: nat := (DEFAULT_MAX_DRAIN_REQUESTS + 1) * DEFAULT_REQUEST_TIMEOUT_SECONDS

  lemma DefaultFigures()
    ensures DEFAULT_MAX_DRAIN_REQUESTS == 20 && DEFAULT_SHUTDOWN_TIMEOUT_SECONDS == 105
  {
    assert DEFAULT_MAX_COUNT_CLOSURES == 11 && DEFAULT_MAX_BYTE_CLOSURES == 7;
  }

  /** With the default limits, one request in flight before the close branch and all the requests after it
      together stay within the number the shutdown timeout is made for, with a request to spare. */
  lemma DefaultsCoverTheDrain(net: Network, w: Worker, queue: seq<Record>)
    requires WorkerOk(DEFAULT_CONFIG, w) && AllFit(DEFAULT_CONFIG, queue)
    requires |queue| <= DEFAULT_QUEUE_SIZE && Bytes(queue) <= DEFAULT_MAX_QUEUE_BYTES
    ensures 1 + |Closed(DEFAULT_CONFIG, net, w, queue).attempts| - |w.attempts| < 20 == DEFAULT_MAX_DRAIN_REQUESTS
    ensures (1 + |Closed(DEFAULT_CONFIG, net, w, queue).attempts| - |w.attempts|) * 5
            < 105 == DEFAULT_SHUTDOWN_TIMEOUT_SECONDS
  {
    var n := DrainBound(DEFAULT_CONFIG, net, w, queue);
    if w.batch != [] {
      BodyLength(w.batch);
    }
    assert Weight(w.batch) + Weight(queue) <= 12_583_935;
    assert n <= 6;
    DefaultFigures();
  }
}
