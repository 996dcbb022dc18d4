/** The log sender itself: its fields, and its methods proved against the actions of LogSender. */
module StreamSenders {
  import opened Documents
  import opened LogBatches
  import opened LogSender

  /** The last delivery of a drain leaves nothing unattempted, and its error is the last there was. */
  lemma AllAttempted(cfg: Config, net: Network, s: Sender)
    requires ValidConfig(cfg) && SenderOk(cfg, s) && DrainOver(s)
    ensures var w := Flushed(net, s.worker, Asked);
            && Attempted(w.attempts) == s.accepted
            && (w.lastErr.None? <==> forall a :: a in w.attempts ==> a.error.None?)
  {
    FlushWorkerKeeps(cfg, net, s.worker);
    assert s.accepted == Taken(s.worker) + [] + [];
    NoFailureMeansAllSucceeded(Flushed(net, s.worker, Asked).attempts);
  }

  class StreamSender {
    const cfg: Config
    const net: Network

    // Shared between producers, callers and the worker.
    var queue: seq<Record>
    var closed: bool
    var closeAsked: bool
    var pendingBytes: int
    var closeErr: Option<Error>
    var droppedRecords: nat

    // The worker's own.
    var batch: seq<Record>
    var batchBytes: int
    var lastErr: Option<Error>
    var requests: nat

    ghost var hand: Hand
    ghost var mode: Mode
    ghost var attempts: seq<Attempt>
    ghost var accepted: seq<Record>

    ghost function Work(): Worker
      reads `batch, `batchBytes, `lastErr, `attempts
    {
      Worker(batch, batchBytes, lastErr, attempts)
    }

    /** The sender as the machine sees it. */
    ghost function State(): Sender
      reads this
    {
      Sender(queue, hand, pendingBytes, closed, closeAsked, mode, Work(), closeErr, accepted)
    }

    ghost predicate Valid()
      reads this
    {
      ValidConfig(cfg) && SenderOk(cfg, State()) && requests == |attempts|
    }

    /** Settings that are not positive take their defaults. */
    constructor (batchSize: int, queueSize: int, maxBatchBytes: int, maxQueueBytes: int, network: Network)
      ensures Valid() && State() == NEW_SENDER && droppedRecords == 0
      ensures cfg == WithDefaults(batchSize, queueSize, maxBatchBytes, maxQueueBytes) && net == network
    {
      cfg := WithDefaults(batchSize, queueSize, maxBatchBytes, maxQueueBytes);
      net := network;
      queue, closed, closeAsked, pendingBytes, closeErr, droppedRecords := [], false, false, 0, None, 0;
      batch, batchBytes, lastErr, requests := [], 2, None, 0;
      hand, mode, attempts, accepted := Empty, Selecting, [], [];
    }

    method Admit(record: Record)
      requires Valid() && Refused(cfg, State(), record).None?
      modifies this`queue, this`pendingBytes, this`accepted
      ensures Valid() && State() == Offered(cfg, old(State()), record)
    {
      OfferKeeps(cfg, State(), record);
      queue := queue + [record];
      pendingBytes := pendingBytes + |record|;
      accepted := accepted + [record];
    }

    /** Admits a record or says why not; never waits. */
    method Enqueue(record: Record) returns (refusal: Option<Refusal>)
      requires Valid()
      modifies this
      ensures Valid() && State() == Offered(cfg, old(State()), record)
      ensures refusal == Refused(cfg, old(State()), record)
      ensures droppedRecords == old(droppedRecords)
      ensures refusal.None? <==>
                && !old(closed) && |record| + 2 <= cfg.maxBatchBytes
                && old(pendingBytes) + |record| <= cfg.maxQueueBytes && |old(queue)| < cfg.queueSize
      ensures refusal == Some(SenderClosed) <==> old(closed)
      ensures refusal == Some(RecordTooLarge) <==> !old(closed) && |record| + 2 > cfg.maxBatchBytes
      ensures refusal == Some(QueueBytesExceeded) <==>
                && !old(closed) && |record| + 2 <= cfg.maxBatchBytes
                && old(pendingBytes) + |record| > cfg.maxQueueBytes
      ensures refusal == Some(QueueFull) <==>
                && !old(closed) && |record| + 2 <= cfg.maxBatchBytes
                && old(pendingBytes) + |record| <= cfg.maxQueueBytes && |old(queue)| >= cfg.queueSize
      ensures refusal.None? ==>
                && queue == old(queue) + [record] && accepted == old(accepted) + [record]
                && pendingBytes == old(pendingBytes) + |record|
      ensures refusal.Some? ==>
                queue == old(queue) && accepted == old(accepted) && pendingBytes == old(pendingBytes)
    {
      if closed {
        return Some(SenderClosed);
      }
      if |record| + 2 > cfg.maxBatchBytes {
        return Some(RecordTooLarge);
      }
      if pendingBytes + |record| > cfg.maxQueueBytes {
        return Some(QueueBytesExceeded);
      }
      if |queue| >= cfg.queueSize {
        return Some(QueueFull);
      }
      Admit(record);
      return None;
    }

    /** Writes a record to the log path: a refused record is counted and dropped, and no error reaches the
        caller. */
    method Write(record: Record)
      requires Valid()
      modifies this
      ensures Valid() && State() == Offered(cfg, old(State()), record)
      ensures if !old(closed) && |record| + 2 <= cfg.maxBatchBytes
                 && old(pendingBytes) + |record| <= cfg.maxQueueBytes && |old(queue)| < cfg.queueSize
              then droppedRecords == old(droppedRecords) && accepted == old(accepted) + [record]
              else droppedRecords == old(droppedRecords) + 1 && accepted == old(accepted)
    {
      var refusal := Enqueue(record);
      if refusal.Some? {
        droppedRecords := droppedRecords + 1;
      }
    }

    method TakeRecord() returns (record: Record)
      requires Valid() && CanReceive(State())
      modifies this
      ensures Valid() && State() == Receive(old(State()))
      ensures hand == Received(record) && droppedRecords == old(droppedRecords)
    {
      ReceiveKeeps(cfg, State());
      record := queue[0];
      queue := queue[1..];
      hand := Received(record);
    }

    method MarkDequeued(record: Record)
      requires Valid() && hand == Received(record)
      modifies this
      ensures Valid() && State() == LogSender.MarkDequeued(old(State()))
      ensures pendingBytes == old(pendingBytes) - |record| && queue == old(queue) && accepted == old(accepted)
      ensures droppedRecords == old(droppedRecords)
    {
      pendingBytes := pendingBytes - |record|;
      hand := Marked(record);
    }

    /** Sends the batch, if there is one, and empties it whatever the outcome. */
    method Flush(ghost why: Why) returns (error: Option<Error>)
      requires requests == |attempts|
      modifies this`batch, this`batchBytes, this`lastErr, this`requests, this`attempts
      ensures requests == |attempts|
      ensures Work() == Flushed(net, old(Work()), why)
      ensures error == if old(batch) == [] then None else net(|old(attempts)|)
      ensures batch == [] && (old(batchBytes) == 2 || old(batch) != [] ==> batchBytes == 2)
      ensures attempts == old(attempts) + if old(batch) == [] then [] else [Attempt(old(batch), error, why)]
      ensures lastErr == if error.Some? then error else old(lastErr)
    {
      if batch == [] {
        return None;
      }
      error := Deliver(batch);
      attempts := attempts + [Attempt(batch, error, why)];
      requests := requests + 1;
      batch := [];
      batchBytes := 2;
      if error.Some? {
        lastErr := error;
      }
    }

    /** Makes one request. */
    method Deliver(records: seq<Record>) returns (error: Option<Error>)
      ensures error == net(requests)
    {
      var body := AssembleBody(records);
      error := Post(body);
    }

    /** The HTTP request, whose outcome is the network's. */
    method Post(body: string) returns (error: Option<Error>)
      ensures error == net(requests)
    {
      error := net(requests);
    }

    /** Adds a record to the batch, sending the batch first if the record would not fit and after if it is
        full. */
    method AppendRecord(record: Record)
      requires requests == |attempts|
      modifies this`batch, this`batchBytes, this`lastErr, this`requests, this`attempts
      ensures requests == |attempts|
      ensures Work() == Appended(cfg, net, old(Work()), record)
      ensures var sent := old(batch) != [] && old(batchBytes) + |record| + 1 > cfg.maxBatchBytes;
              var next := (if sent then [] else old(batch)) + [record];
              && batch == (if |next| >= cfg.batchSize then [] else next)
              && |attempts| == |old(attempts)| + (if sent then 1 else 0) + (if |next| >= cfg.batchSize then 1 else 0)
              && old(attempts) <= attempts
              && (sent ==> attempts[|old(attempts)|].records == old(batch))
              && (|next| >= cfg.batchSize ==> attempts[|attempts| - 1].records == next)
    {
      var recordBytes := |record| + 1;
      if |batch| > 0 && batchBytes + recordBytes > cfg.maxBatchBytes {
        var _ := Flush(ByBytes);
      }
      assert Work() == MadeRoom(cfg, net, old(Work()), record);
      batch := batch + [record];
      batchBytes := batchBytes + recordBytes;
      if |batch| >= cfg.batchSize {
        var _ := Flush(ByCount);
      }
    }

    method PutInBatch(record: Record)
      requires requests == |attempts| && hand == Marked(record)
      modifies this`batch, this`batchBytes, this`lastErr, this`requests, this`attempts, this`hand
      ensures requests == |attempts| && State() == Append(cfg, net, old(State()))
    {
      AppendRecord(record);
      hand := Empty;
    }

    /** Puts the record in hand into the batch. */
    method AppendHand(record: Record)
      requires Valid() && hand == Marked(record)
      modifies this
      ensures Valid() && State() == Append(cfg, net, old(State()))
      ensures droppedRecords == old(droppedRecords)
    {
      AppendHandKeeps(cfg, net, State());
      PutInBatch(record);
    }

    /** Moves one record from the queue to the batch. */
    method HandleRecord()
      requires Valid() && CanReceive(State())
      modifies this
      ensures Valid() && State() == Append(cfg, net, LogSender.MarkDequeued(Receive(old(State()))))
      ensures droppedRecords == old(droppedRecords)
    {
      var record := TakeRecord();
      MarkDequeued(record);
      AppendHand(record);
    }

    /** Takes everything off the queue. Alone, as it is once the sender is closed, it ends with the queue
        empty. */
    method DrainRecords()
      requires Valid() && hand.Empty? && mode != Done
      modifies this
      ensures Valid() && hand.Empty? && queue == [] && mode == old(mode) && closed == old(closed)
      ensures closeAsked == old(closeAsked) && accepted == old(accepted) && closeErr == old(closeErr)
      ensures Work() == Drained(cfg, net, old(Work()), old(queue))
      ensures droppedRecords == old(droppedRecords)
    {
      while queue != []
        invariant Valid() && hand.Empty? && mode == old(mode) && closed == old(closed)
        invariant closeAsked == old(closeAsked) && accepted == old(accepted) && closeErr == old(closeErr)
        invariant Drained(cfg, net, Work(), queue) == Drained(cfg, net, old(Work()), old(queue))
        invariant droppedRecords == old(droppedRecords)
        decreases |queue|
      {
        HandleRecord();
      }
    }

    /** A case of the worker's select: a record arrived. */
    method OnRecord()
      requires Valid() && AtSelect(State()) && queue != []
      modifies this
      ensures Valid() && State() == Append(cfg, net, LogSender.MarkDequeued(Receive(old(State()))))
      ensures queue == old(queue)[1..] && pendingBytes == old(pendingBytes) - |old(queue)[0]|
      ensures accepted == old(accepted) && hand == Empty
    {
      HandleRecord();
    }

    /** A case of the worker's select: the ticker fired. */
    method OnTick()
      requires Valid() && AtSelect(State())
      modifies this
      ensures Valid() && State() == Tick(net, old(State()))
      ensures batch == [] && queue == old(queue) && accepted == old(accepted)
    {
      SelectKeeps(cfg, net, State(), Tick(net, State()));
      var _ := Flush(Asked);
    }

    /** The end of a flush request, once its drain is over. */
    method EndFlush() returns (flushErr: Option<Error>)
      requires Valid() && DrainOver(State()) && mode.Flushing?
      modifies this
      ensures Valid() && State() == FinishFlush(net, old(State()))
      ensures flushErr == FlushReply(net, old(State()))
    {
      WorkKeeps(cfg, net, State(), FinishFlush(net, State()));
      flushErr := Flush(Asked);
      if flushErr.None? {
        flushErr := lastErr;
      }
      mode := Selecting;
    }

    /** A case of the worker's select: a flush request, with no producer interfering. Everything accepted
        has been attempted when it is answered. */
    method OnFlush() returns (flushErr: Option<Error>)
      requires Valid() && AtSelect(State())
      modifies this
      ensures Valid() && AtSelect(State()) && queue == [] && accepted == old(accepted)
      ensures Work() == Closed(cfg, net, old(Work()), old(queue))
      ensures Attempted(attempts) == accepted
      ensures flushErr.None? <==> forall a :: a in attempts ==> a.error.None?
    {
      mode := Flushing;
      DrainRecords();
      AllAttempted(cfg, net, State());
      flushErr := EndFlush();
    }

    /** A close call stops admission; only the first asks the worker to finish. */
    method AskClose()
      requires Valid()
      modifies this
      ensures Valid() && State() == LogSender.AskClose(old(State()))
      ensures closed && closeAsked == (old(closeAsked) || !old(closed))
      ensures queue == old(queue) && Work() == old(Work()) && mode == old(mode)
    {
      if !closed {
        closed := true;
        closeAsked := true;
      }
    }

    /** The end of the close request, once its drain is over. */
    method EndClose()
      requires Valid() && DrainOver(State()) && mode.Closing?
      modifies this
      ensures Valid() && State() == FinishClose(net, old(State()))
    {
      WorkKeeps(cfg, net, State(), FinishClose(net, State()));
      var _ := Flush(Asked);
      closeErr := lastErr;
      mode := Done;
    }

    /** A case of the worker's select: the close request. The worker drains, delivers what is left and ends;
        the close callers then learn of any failure ever. */
    method OnClose()
      requires Valid() && AtSelect(State()) && closeAsked
      modifies this
      ensures Valid() && mode == Done && accepted == old(accepted)
      ensures Work() == Closed(cfg, net, old(Work()), old(queue))
      ensures Attempted(attempts) == accepted
      ensures closeErr.None? <==> forall a :: a in attempts ==> a.error.None?
    {
      mode := Closing;
      closeAsked := false;
      DrainRecords();
      AllAttempted(cfg, net, State());
      EndClose();
    }
  }
}
