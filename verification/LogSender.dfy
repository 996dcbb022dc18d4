/** The bounded log sender as a machine: any number of producers, flush and close callers, a ticker, and
    the one worker that delivers. */
module LogSender {
  import opened Documents
  import opened LogBatches

  /** The record the worker has taken from the queue: not yet taken off the byte count, or taken off and
      not yet in the batch. */
  datatype Hand = Empty | Received(record: Record) | Marked(record: Record)

  datatype Mode = Selecting | Flushing | Closing | Done

  /** `accepted` is history: every record ever admitted, in order. */
  datatype Sender = Sender(
    queue: seq<Record>,
    hand: Hand,
    pending: int,
    closed: bool,
    closeAsked: bool,
    mode: Mode,
    worker: Worker,
    closeErr: Option<Error>,
    accepted: seq<Record>)

  const NEW_SENDER := Sender([], Empty, 0, false, false, Selecting, IDLE_WORKER, None, [])

  // ---------------------------------------------------------------------------------------
  // Actions
  // ---------------------------------------------------------------------------------------

  datatype Refusal = SenderClosed | RecordTooLarge | QueueBytesExceeded | QueueFull

  function Refused(cfg: Config, s: Sender, r: Record): Option<Refusal> {
    if s.closed then Some(SenderClosed)
    else if |r| + 2 > cfg.maxBatchBytes then Some(RecordTooLarge)
    else if s.pending + |r| > cfg.maxQueueBytes then Some(QueueBytesExceeded)
    else if |s.queue| >= cfg.queueSize then Some(QueueFull)
    else None
  }

  function Offered(cfg: Config, s: Sender, r: Record): Sender {
    if Refused(cfg, s, r).Some? then s
    else s.(queue := s.queue + [r], pending := s.pending + |r|, accepted := s.accepted + [r])
  }

  /** The worker takes the head of the queue, in its main loop or while draining. */
  predicate CanReceive(s: Sender) {
    s.mode != Done && s.hand.Empty? && s.queue != []
  }

  function Receive(s: Sender): Sender
    requires CanReceive(s)
  {
    s.(queue := s.queue[1..], hand := Received(s.queue[0]))
  }

  function MarkDequeued(s: Sender): Sender
    requires s.hand.Received?
  {
    s.(pending := s.pending - |s.hand.record|, hand := Marked(s.hand.record))
  }

  function Append(cfg: Config, net: Network, s: Sender): Sender
    requires s.hand.Marked?
  {
    s.(worker := Appended(cfg, net, s.worker, s.hand.record), hand := Empty)
  }

  /** The worker is at its select. */
  predicate AtSelect(s: Sender) {
    s.mode.Selecting? && s.hand.Empty?
  }

  /** The worker is draining and finds the queue empty. */
  predicate DrainOver(s: Sender) {
    (s.mode.Flushing? || s.mode.Closing?) && s.hand.Empty? && s.queue == []
  }

  function Tick(net: Network, s: Sender): Sender {
    s.(worker := Flushed(net, s.worker, Asked))
  }

  function FinishFlush(net: Network, s: Sender): Sender {
    s.(worker := Flushed(net, s.worker, Asked), mode := Selecting)
  }

  /** What the flush caller is told: the error of this last delivery, or else of any earlier one. */
  function FlushReply(net: Network, s: Sender): Option<Error> {
    var error := if s.worker.batch == [] then None else net(|s.worker.attempts|);
    if error.Some? then error else Flushed(net, s.worker, Asked).lastErr
  }

  function FinishClose(net: Network, s: Sender): Sender {
    var w := Flushed(net, s.worker, Asked);
    s.(worker := w, mode := Done, closeErr := w.lastErr)
  }

  /** A close call: only the first has an effect. */
  function AskClose(s: Sender): Sender {
    if s.closed then s else s.(closed := true, closeAsked := true)
  }

  /** A step of the worker once it has begun to drain. */
  ghost predicate WorkStep(cfg: Config, net: Network, s: Sender, s': Sender) {
    || (CanReceive(s) && s' == Receive(s))
    || (s.hand.Received? && s' == MarkDequeued(s))
    || (s.hand.Marked? && s' == Append(cfg, net, s))
    || (DrainOver(s) && s.mode.Flushing? && s' == FinishFlush(net, s))
    || (DrainOver(s) && s.mode.Closing? && s' == FinishClose(net, s))
  }

  /** A case of the worker's select other than a record. */
  ghost predicate SelectStep(net: Network, s: Sender, s': Sender) {
    && AtSelect(s)
    && (|| s' == Tick(net, s)
        || s' == s.(mode := Flushing)
        || (s.closeAsked && s' == s.(mode := Closing, closeAsked := false)))
  }

  ghost predicate Step(cfg: Config, net: Network, s: Sender, s': Sender) {
    || (exists r :: s' == Offered(cfg, s, r))
    || s' == AskClose(s)
    || WorkStep(cfg, net, s, s')
    || SelectStep(net, s, s')
  }

  ghost predicate StepsAt(cfg: Config, net: Network, run: seq<Sender>, n: nat)
    requires n + 1 < |run|
  {
    Step(cfg, net, run[n], run[n + 1])
  }

  ghost predicate Run(cfg: Config, net: Network, run: seq<Sender>) {
    && ValidConfig(cfg)
    && run != []
    && run[0] == NEW_SENDER
    && forall n: nat :: n + 1 < |run| ==> StepsAt(cfg, net, run, n)
  }

  // ---------------------------------------------------------------------------------------
  // The invariant
  // ---------------------------------------------------------------------------------------

  function InHand(s: Sender): seq<Record> {
    if s.hand.Empty? then [] else [s.hand.record]
  }

  ghost predicate SenderOk(cfg: Config, s: Sender) {
    && WorkerOk(cfg, s.worker)
    && AllFit(cfg, s.accepted)
    && s.accepted == Taken(s.worker) + InHand(s) + s.queue
    && s.pending == Bytes(s.queue) + (if s.hand.Received? then |s.hand.record| else 0)
    && s.pending <= cfg.maxQueueBytes
    && |s.queue| <= cfg.queueSize
    && (s.closeAsked ==> s.closed && s.mode != Closing && s.mode != Done)
    && (s.closed && !s.closeAsked ==> s.mode.Closing? || s.mode.Done?)
    && (s.mode.Closing? || s.mode.Done? ==> s.closed)
    && (s.mode.Done? ==> s.queue == [] && s.hand.Empty? && s.worker.batch == [] && s.closeErr == s.worker.lastErr)
  }

  lemma OfferKeeps(cfg: Config, s: Sender, r: Record)
    requires SenderOk(cfg, s)
    ensures SenderOk(cfg, Offered(cfg, s, r))
  {
    BytesOfBoth(s.queue, [r]);
    BytesOfOne(r);
    assert Taken(s.worker) + InHand(s) + s.queue + [r] == Taken(s.worker) + InHand(s) + (s.queue + [r]);
  }

  lemma ReceiveKeeps(cfg: Config, s: Sender)
    requires SenderOk(cfg, s) && CanReceive(s)
    ensures SenderOk(cfg, Receive(s))
  {
    BytesOfRest(s.queue);
    assert s.queue == [s.queue[0]] + s.queue[1..];
    assert Taken(s.worker) + [] + s.queue == Taken(s.worker) + [s.queue[0]] + s.queue[1..];
  }

  lemma AppendHandKeeps(cfg: Config, net: Network, s: Sender)
    requires ValidConfig(cfg) && SenderOk(cfg, s) && s.hand.Marked?
    ensures SenderOk(cfg, Append(cfg, net, s))
  {
    assert (Taken(s.worker) + InHand(s) + s.queue)[|Taken(s.worker)|] == s.hand.record;
    assert Fits(cfg, s.hand.record);
    AppendKeeps(cfg, net, s.worker, s.hand.record);
    AppendTakesOne(cfg, net, s.worker, s.hand.record);
    assert Taken(s.worker) + [s.hand.record] + s.queue == Taken(s.worker) + [s.hand.record] + [] + s.queue;
  }

  lemma FlushWorkerKeeps(cfg: Config, net: Network, w: Worker)
    requires ValidConfig(cfg) && WorkerOk(cfg, w)
    ensures WorkerOk(cfg, Flushed(net, w, Asked)) && Flushed(net, w, Asked).batch == []
    ensures Taken(Flushed(net, w, Asked)) == Taken(w) == Attempted(Flushed(net, w, Asked).attempts)
  {
    FlushKeeps(cfg, net, w, Asked);
    FlushTakesNothing(net, w, Asked);
    var w' := Flushed(net, w, Asked);
    assert Attempted(w'.attempts) + [] == Attempted(w'.attempts);
  }

  lemma WorkKeeps(cfg: Config, net: Network, s: Sender, s': Sender)
    requires ValidConfig(cfg) && SenderOk(cfg, s) && WorkStep(cfg, net, s, s')
    ensures SenderOk(cfg, s')
  {
    if CanReceive(s) && s' == Receive(s) {
      ReceiveKeeps(cfg, s);
    } else if s.hand.Received? {
    } else if s.hand.Marked? {
      AppendHandKeeps(cfg, net, s);
    } else {
      FlushWorkerKeeps(cfg, net, s.worker);
    }
  }

  lemma SelectKeeps(cfg: Config, net: Network, s: Sender, s': Sender)
    requires ValidConfig(cfg) && SenderOk(cfg, s) && SelectStep(net, s, s')
    ensures SenderOk(cfg, s')
  {
    FlushWorkerKeeps(cfg, net, s.worker);
  }

  lemma StepKeeps(cfg: Config, net: Network, s: Sender, s': Sender)
    requires ValidConfig(cfg) && SenderOk(cfg, s) && Step(cfg, net, s, s')
    ensures SenderOk(cfg, s')
  {
    if r :| s' == Offered(cfg, s, r) {
      OfferKeeps(cfg, s, r);
    } else if WorkStep(cfg, net, s, s') {
      WorkKeeps(cfg, net, s, s');
    } else if SelectStep(net, s, s') {
      SelectKeeps(cfg, net, s, s');
    }
  }

  lemma {:induction false} RunOk(cfg: Config, net: Network, run: seq<Sender>, n: nat)
    requires Run(cfg, net, run) && n < |run|
    ensures SenderOk(cfg, run[n])
  {
    if n > 0 {
      RunOk(cfg, net, run, n - 1);
      assert StepsAt(cfg, net, run, n - 1);
      StepKeeps(cfg, net, run[n - 1], run[n]);
    }
  }

  // ---------------------------------------------------------------------------------------
  // Conservation and bounds
  // ---------------------------------------------------------------------------------------

  /** In every reachable state the accepted records are the attempted ones followed by the batch, the
      record in hand and the queue, in order: none is lost, repeated or reordered. */
  lemma NothingLost(cfg: Config, net: Network, run: seq<Sender>, n: nat)
    requires Run(cfg, net, run) && n < |run|
    ensures run[n].accepted == Attempted(run[n].worker.attempts) + run[n].worker.batch + InHand(run[n]) + run[n].queue
    ensures run[n].mode.Done? ==> run[n].accepted == Attempted(run[n].worker.attempts)
  {
    RunOk(cfg, net, run, n);
    var s := run[n];
    if s.mode.Done? {
      assert Attempted(s.worker.attempts) + [] + [] + [] == Attempted(s.worker.attempts);
    }
  }

  /** Whoever offers a record while the sender is open, the record fits into a body, and the queue has room
      for it, in bytes and in number, has it accepted, at the end of the queue; otherwise nothing changes. */
  lemma OfferMeans(cfg: Config, net: Network, run: seq<Sender>, n: nat, r: Record)
    requires Run(cfg, net, run) && n + 1 < |run| && run[n + 1] == Offered(cfg, run[n], r)
    ensures var s, s' := run[n], run[n + 1];
            var waiting := Bytes(s.queue) + if s.hand.Received? then |s.hand.record| else 0;
            if !s.closed && |r| + 2 <= cfg.maxBatchBytes && waiting + |r| <= cfg.maxQueueBytes
               && |s.queue| < cfg.queueSize
            then s'.accepted == s.accepted + [r] && s'.queue == s.queue + [r]
            else s' == s
  {
    PendingBytesExact(cfg, net, run, n);
  }

  /** The byte count is exactly the bytes queued or received and not yet marked, and never leaves its
      bounds; the queue never exceeds its size. */
  lemma PendingBytesExact(cfg: Config, net: Network, run: seq<Sender>, n: nat)
    requires Run(cfg, net, run) && n < |run|
    ensures run[n].pending == Bytes(run[n].queue) + if run[n].hand.Received? then |run[n].hand.record| else 0
    ensures 0 <= run[n].pending <= cfg.maxQueueBytes && |run[n].queue| <= cfg.queueSize
  {
    RunOk(cfg, net, run, n);
  }

  /** Every request holds between one record and a full batch, and its body is within the byte limit. */
  lemma EveryBodyFits(cfg: Config, net: Network, run: seq<Sender>, n: nat, a: Attempt)
    requires Run(cfg, net, run) && n < |run| && a in run[n].worker.attempts
    ensures 1 <= |a.records| <= cfg.batchSize && |Body(a.records)| <= cfg.maxBatchBytes
  {
    RunOk(cfg, net, run, n);
  }

  // ---------------------------------------------------------------------------------------
  // Flush and close
  // ---------------------------------------------------------------------------------------

  lemma {:induction false} AcceptedGrows(cfg: Config, net: Network, run: seq<Sender>, m: nat, n: nat)
    requires Run(cfg, net, run) && m <= n < |run|
    ensures run[m].accepted <= run[n].accepted
    decreases n
  {
    if m < n {
      AcceptedGrows(cfg, net, run, m, n - 1);
      assert StepsAt(cfg, net, run, n - 1);
    }
  }

  /** When a flush is answered, everything accepted at any time up to then has been attempted, and the
      answer is nil exactly when every request so far succeeded, and the last failure otherwise. */
  lemma FlushCoversEverything(cfg: Config, net: Network, run: seq<Sender>, m: nat, n: nat)
    requires Run(cfg, net, run) && m <= n && n < |run| && DrainOver(run[n]) && run[n].mode.Flushing?
    ensures var s' := FinishFlush(net, run[n]);
            && run[m].accepted <= Attempted(s'.worker.attempts)
            && (FlushReply(net, run[n]).None? <==> forall a :: a in s'.worker.attempts ==> a.error.None?)
            && (FlushReply(net, run[n]).Some? ==>
                  exists j :: 0 <= j < |s'.worker.attempts| && s'.worker.attempts[j].error == FlushReply(net, run[n])
                    && forall k :: j < k < |s'.worker.attempts| ==> s'.worker.attempts[k].error.None?)
  {
    var s := run[n];
    RunOk(cfg, net, run, n);
    AcceptedGrows(cfg, net, run, m, n);
    FlushWorkerKeeps(cfg, net, s.worker);
    assert s.accepted == Taken(s.worker) + [] + [];
    NoFailureMeansAllSucceeded(Flushed(net, s.worker, Asked).attempts);
    LastFailureIsLast(Flushed(net, s.worker, Asked).attempts);
  }

  /** Whenever the worker has nothing in hand and a record waits, it can take the first that waits, until it
      is done. */
  lemma RecordIsTaken(cfg: Config, net: Network, s: Sender)
    requires s.queue != [] && s.hand.Empty? && !s.mode.Done?
    ensures exists s' :: Step(cfg, net, s, s') && s'.hand == Received(s.queue[0]) && s'.queue == s.queue[1..]
  {
    assert WorkStep(cfg, net, s, Receive(s));
  }

  /** Once done, close callers get nil exactly when every request ever made succeeded. */
  lemma CloseTellsAll(cfg: Config, net: Network, run: seq<Sender>, n: nat)
    requires Run(cfg, net, run) && n < |run| && run[n].mode.Done?
    ensures run[n].closeErr.None? <==> forall a :: a in run[n].worker.attempts ==> a.error.None?
    ensures run[n].closeErr.Some? ==>
              exists j :: 0 <= j < |run[n].worker.attempts| && run[n].worker.attempts[j].error == run[n].closeErr
                && forall k :: j < k < |run[n].worker.attempts| ==> run[n].worker.attempts[k].error.None?
  {
    RunOk(cfg, net, run, n);
    NoFailureMeansAllSucceeded(run[n].worker.attempts);
    LastFailureIsLast(run[n].worker.attempts);
  }

  /** What the worker will have done when the drain it is in for a close is over. */
  function Outlook(cfg: Config, net: Network, s: Sender): Worker {
    if s.mode.Done? then s.worker else Closed(cfg, net, s.worker, InHand(s) + s.queue)
  }

  lemma ClosingStepKeepsOutlook(cfg: Config, net: Network, s: Sender, s': Sender)
    requires SenderOk(cfg, s) && Step(cfg, net, s, s') && (s.mode.Closing? || s.mode.Done?)
    ensures s'.mode.Closing? || s'.mode.Done?
    ensures Outlook(cfg, net, s') == Outlook(cfg, net, s)
  {
    if WorkStep(cfg, net, s, s') {
      ClosingWorkKeepsOutlook(cfg, net, s, s');
    }
  }

  lemma ClosingWorkKeepsOutlook(cfg: Config, net: Network, s: Sender, s': Sender)
    requires SenderOk(cfg, s) && WorkStep(cfg, net, s, s') && (s.mode.Closing? || s.mode.Done?)
    ensures s'.mode.Closing? || s'.mode.Done?
    ensures Outlook(cfg, net, s') == Outlook(cfg, net, s)
  {
    if s.hand.Marked? {
      assert InHand(s) + s.queue == [s.hand.record] + s.queue;
      assert ([s.hand.record] + s.queue)[1..] == s.queue == InHand(s') + s'.queue;
    } else if CanReceive(s) && s' == Receive(s) {
      assert InHand(s') + s'.queue == s.queue == InHand(s) + s.queue;
    }
  }

  /** From the moment the worker takes the close request, whatever producers and callers do, it ends with
      exactly the requests of the close branch over the queue as it was then. */
  lemma {:induction false} CloseIsDeterministic(cfg: Config, net: Network, run: seq<Sender>, m: nat, n: nat)
    requires Run(cfg, net, run) && m <= n < |run| && run[m].mode.Closing? && run[m].hand.Empty?
    ensures run[n].mode.Closing? || run[n].mode.Done?
    ensures Outlook(cfg, net, run[n]) == Closed(cfg, net, run[m].worker, run[m].queue)
    decreases n
  {
    if m == n {
      assert InHand(run[m]) + run[m].queue == run[m].queue;
    } else {
      CloseIsDeterministic(cfg, net, run, m, n - 1);
      RunOk(cfg, net, run, n - 1);
      assert StepsAt(cfg, net, run, n - 1);
      ClosingStepKeepsOutlook(cfg, net, run[n - 1], run[n]);
    }
  }

  /** Draining on close makes at most (pending records / batch size) + N + 1 requests, where
      N * (maxBatchBytes - 1) is at most twice the pending bytes with one comma per record. */
  lemma CloseDrainBound(cfg: Config, net: Network, run: seq<Sender>, m: nat, n: nat) returns (byBytes: nat)
    requires Run(cfg, net, run) && m <= n < |run| && run[m].mode.Closing? && run[m].hand.Empty? && run[n].mode.Done?
    ensures byBytes * (cfg.maxBatchBytes - 1) <= 2 * (Weight(run[m].worker.batch) + Weight(run[m].queue))
    ensures |run[n].worker.attempts| - |run[m].worker.attempts|
            <= (|run[m].worker.batch| + |run[m].queue|) / cfg.batchSize + byBytes + 1
  {
    RunOk(cfg, net, run, m);
    CloseIsDeterministic(cfg, net, run, m, n);
    QueueFits(cfg, run[m]);
    byBytes := DrainBound(cfg, net, run[m].worker, run[m].queue);
  }

  lemma QueueFits(cfg: Config, s: Sender)
    requires SenderOk(cfg, s)
    ensures AllFit(cfg, s.queue)
  {
    forall r | r in s.queue
      ensures r in s.accepted
    {
      var i :| 0 <= i < |s.queue| && s.queue[i] == r;
      assert s.accepted[|Taken(s.worker) + InHand(s)| + i] == r;
    }
  }

  /** With the default limits the drain, with the request in flight before it, stays within the number of
      requests the default shutdown timeout allows for. */
  lemma DefaultShutdownSuffices(net: Network, run: seq<Sender>, m: nat, n: nat)
    requires Run(DEFAULT_CONFIG, net, run) && m <= n < |run|
    requires run[m].mode.Closing? && run[m].hand.Empty? && run[n].mode.Done?
    ensures 1 + |run[n].worker.attempts| - |run[m].worker.attempts| < 20 == DEFAULT_MAX_DRAIN_REQUESTS
  {
    RunOk(DEFAULT_CONFIG, net, run, m);
    CloseIsDeterministic(DEFAULT_CONFIG, net, run, m, n);
    QueueFits(DEFAULT_CONFIG, run[m]);
    DefaultsCoverTheDrain(net, run[m].worker, run[m].queue);
  }

  // ---------------------------------------------------------------------------------------
  // Draining ends
  // ---------------------------------------------------------------------------------------

  /** Steps the worker still has to take before it is done. */
  function StepsLeft(s: Sender): nat {
    3 * |s.queue| + (if s.hand.Received? then 2 else if s.hand.Marked? then 1 else 0) + if s.mode.Done? then 0 else 1
  }

  /** While it drains for a close the worker can always go on, each of its steps brings it nearer the end,
      and nothing anybody else does holds it up. */
  lemma CloseDrainEnds(cfg: Config, net: Network, s: Sender, s': Sender)
    requires SenderOk(cfg, s) && s.mode.Closing?
    ensures exists next :: WorkStep(cfg, net, s, next)
    ensures WorkStep(cfg, net, s, s') ==> StepsLeft(s') < StepsLeft(s)
    ensures Step(cfg, net, s, s') && !WorkStep(cfg, net, s, s') ==> s' == s
  {
    if s.hand.Received? {
      assert WorkStep(cfg, net, s, MarkDequeued(s));
    } else if s.hand.Marked? {
      assert WorkStep(cfg, net, s, Append(cfg, net, s));
    } else if s.queue != [] {
      assert WorkStep(cfg, net, s, Receive(s));
    } else {
      assert WorkStep(cfg, net, s, FinishClose(net, s));
    }
  }
}
