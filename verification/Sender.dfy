/** The agent's sender (pkg/agent/runner.go sendBatches): it numbers the wire
    frames of whatever batches the producers queued, in queue order, and the hub
    that receives them finds them in sequence. */
module Sender {
  import opened Records
  import opened IngestProtocol

  /** A wire frame message in the agent's memory; the sender writes its number. */
  class FrameMessage {
    const body: WireFrame
    var sequence: nat

    constructor (body: WireFrame)
      ensures this.body == body && sequence == 0
    {
      this.body := body;
      sequence := 0;
    }
  }

  datatype QueuedRecord = QueuedWire(frame: FrameMessage) | QueuedTls(event: TlsPlaintext)

  datatype QueuedBatch = QueuedBatch(
    session: string,
    node: Node,
    stream: string,
    records: seq<QueuedRecord>,
    dropped: nat)

  ghost function Frames(rs: seq<QueuedRecord>): set<FrameMessage> {
    set r | r in rs && r.QueuedWire? :: r.frame
  }

  ghost function AllFrames(bs: seq<QueuedBatch>): set<FrameMessage> {
    set b, f | b in bs && f in Frames(b.records) :: f
  }

  /** No frame message occurs twice in a batch: each comes from its own ReadFrame. */
  ghost predicate DistinctFrames(rs: seq<QueuedRecord>) {
    forall i, j | 0 <= i < j < |rs| && rs[i].QueuedWire? && rs[j].QueuedWire? :: rs[i].frame != rs[j].frame
  }

  /** A record as it was read, and as the wire would carry it now. */
  function RecordBody(r: QueuedRecord): CaptureRecord {
    match r
    case QueuedWire(f) => Wire(f.body)
    case QueuedTls(e) => Tls(e)
  }

  function RecordNow(r: QueuedRecord): CaptureRecord
    reads if r.QueuedWire? then {r.frame} else {}
  {
    match r
    case QueuedWire(f) => Wire(f.body.(sequence := f.sequence))
    case QueuedTls(e) => Tls(e)
  }

  function Bodies(rs: seq<QueuedRecord>): (out: seq<CaptureRecord>)
    ensures |out| == |rs|
    ensures forall i | 0 <= i < |rs| :: out[i] == RecordBody(rs[i])
  {
    seq(|rs|, i requires 0 <= i < |rs| => RecordBody(rs[i]))
  }

  function BatchBody(b: QueuedBatch): CaptureBatch {
    CaptureBatch(b.session, b.node, b.stream, Bodies(b.records), b.dropped)
  }

  function BatchBodies(bs: seq<QueuedBatch>): (out: seq<CaptureBatch>)
    ensures |out| == |bs|
    ensures forall k | 0 <= k < |bs| :: out[k] == BatchBody(bs[k])
  {
    seq(|bs|, k requires 0 <= k < |bs| => BatchBody(bs[k]))
  }

  // ---- Numbering, as a function on values ----

  function NumberRecords(rs: seq<CaptureRecord>, start: nat): (out: seq<CaptureRecord>)
    ensures |out| == |rs|
  {
    if rs == [] then []
    else
      var last := rs[|rs| - 1];
      NumberRecords(rs[..|rs| - 1], start) +
      [if last.Wire? then Wire(last.frame.(sequence := start + WireCount(rs[..|rs| - 1]) + 1)) else last]
  }

  function NumberBatches(bs: seq<CaptureBatch>): (out: seq<CaptureBatch>)
    ensures |out| == |bs|
  {
    if bs == [] then []
    else
      var last := bs[|bs| - 1];
      NumberBatches(bs[..|bs| - 1]) + [last.(records := NumberRecords(last.records, WireTotal(bs[..|bs| - 1])))]
  }

  /** Numbering touches nothing but the sequence numbers ... */
  predicate SameButSequence(r: CaptureRecord, r': CaptureRecord) {
    if r.Wire? then r'.Wire? && r'.frame == r.frame.(sequence := r'.frame.sequence) else r' == r
  }

  lemma {:induction false} NumberRecordsAt(rs: seq<CaptureRecord>, start: nat, i: nat)
    requires i < |rs|
    ensures SameButSequence(rs[i], NumberRecords(rs, start)[i])
    ensures rs[i].Wire? ==> NumberRecords(rs, start)[i].frame.sequence == start + WireCount(rs[..i]) + 1
    ensures NumberRecords(rs, start)[..i] == NumberRecords(rs[..i], start)
    decreases |rs|
  {
    var n := |rs| - 1;
    if i < n {
      NumberRecordsAt(rs[..n], start, i);
      assert rs[..n][..i] == rs[..i];
      assert NumberRecords(rs, start)[..i] == NumberRecords(rs[..n], start)[..i];
    } else {
      assert NumberRecords(rs, start)[..n] == NumberRecords(rs[..n], start);
    }
  }

  lemma {:induction false} NumberingKeepsCount(rs: seq<CaptureRecord>, start: nat)
    ensures WireCount(NumberRecords(rs, start)) == WireCount(rs)
  {
    if rs != [] {
      var n := |rs| - 1;
      NumberingKeepsCount(rs[..n], start);
      assert NumberRecords(rs, start)[..n] == NumberRecords(rs[..n], start);
    }
  }

  /** ... and gives the wire frames the next numbers, without gaps. */
  lemma NumberingIsConsecutive(rs: seq<CaptureRecord>, start: nat)
    ensures Consecutive(NumberRecords(rs, start), start)
  {
    forall i | 0 <= i < |rs| && NumberRecords(rs, start)[i].Wire?
      ensures NumberRecords(rs, start)[i].frame.sequence == start + WireCount(NumberRecords(rs, start)[..i]) + 1
    {
      NumberRecordsAt(rs, start, i);
      NumberingKeepsCount(rs[..i], start);
    }
  }

  lemma {:induction false} NumberBatchesAt(bs: seq<CaptureBatch>, k: nat)
    requires k < |bs|
    ensures NumberBatches(bs)[k] == bs[k].(records := NumberRecords(bs[k].records, WireTotal(bs[..k])))
    decreases |bs|
  {
    var n := |bs| - 1;
    if k < n {
      NumberBatchesAt(bs[..n], k);
      assert bs[..n][..k] == bs[..k];
    }
  }

  lemma {:induction false} NumberBatchesPrefix(bs: seq<CaptureBatch>, k: nat)
    requires k <= |bs|
    ensures NumberBatches(bs)[..k] == NumberBatches(bs[..k])
    decreases |bs|
  {
    if k == |bs| {
      assert bs[..k] == bs;
    } else {
      var n := |bs| - 1;
      NumberBatchesPrefix(bs[..n], k);
      assert bs[..n][..k] == bs[..k];
      assert NumberBatches(bs)[..k] == NumberBatches(bs[..n])[..k];
    }
  }

  lemma {:induction false} NumberingKeepsTotal(bs: seq<CaptureBatch>)
    ensures WireTotal(NumberBatches(bs)) == WireTotal(bs)
  {
    if bs != [] {
      var n := |bs| - 1;
      NumberingKeepsTotal(bs[..n]);
      NumberBatchesAt(bs, n);
      NumberingKeepsCount(bs[n].records, WireTotal(bs[..n]));
    }
  }

  // ---- The loop ----

  /** Numbers the frames of one batch in place, after `start`. */
  method NumberBatch(batch: QueuedBatch, start: nat) returns (sequence: nat)
    requires DistinctFrames(batch.records)
    modifies Frames(batch.records)
    ensures forall i | 0 <= i < |batch.records| ::
      RecordNow(batch.records[i]) == NumberRecords(Bodies(batch.records), start)[i]
    ensures sequence == start + WireCount(Bodies(batch.records))
  {
    ghost var bodies := Bodies(batch.records);
    sequence := start;
    for i := 0 to |batch.records|
      invariant sequence == start + WireCount(bodies[..i])
      invariant forall k | 0 <= k < i :: RecordNow(batch.records[k]) == NumberRecords(bodies, start)[k]
    {
      WireCountSnoc(bodies, i);
      NumberRecordsAt(bodies, start, i);
      match batch.records[i]
      case QueuedWire(frame) =>
        assert frame in Frames(batch.records);
        sequence := sequence + 1;
        frame.sequence := sequence;
      case QueuedTls(_) =>
    }
    assert bodies[..|bodies|] == bodies;
  }

  /** hubclient.SendBatch marshals the batch as it is now. */
  method Marshal(batch: QueuedBatch) returns (wire: CaptureBatch)
    ensures wire == CaptureBatch(batch.session, batch.node, batch.stream, wire.records, batch.dropped)
    ensures |wire.records| == |batch.records|
    ensures forall i | 0 <= i < |batch.records| :: wire.records[i] == RecordNow(batch.records[i])
  {
    var records := [];
    for i := 0 to |batch.records|
      invariant |records| == i
      invariant forall k | 0 <= k < i :: records[k] == RecordNow(batch.records[k])
    {
      records := records + [RecordNow(batch.records[i])];
    }
    wire := CaptureBatch(batch.session, batch.node, batch.stream, records, batch.dropped);
  }

  /** The loop body of sendBatches up to the send. */
  method PrepareBatch(batch: QueuedBatch, start: nat) returns (wire: CaptureBatch, sequence: nat)
    requires DistinctFrames(batch.records)
    modifies Frames(batch.records)
    ensures wire == BatchBody(batch).(records := NumberRecords(BatchBody(batch).records, start))
    ensures sequence == start + WireCount(BatchBody(batch).records)
  {
    sequence := NumberBatch(batch, start);
    wire := Marshal(batch);
    assert wire.records == NumberRecords(Bodies(batch.records), start);
  }

  lemma TotalAt(bs: seq<CaptureBatch>, k: nat)
    requires k < |bs|
    ensures WireTotal(bs[..k + 1]) == WireTotal(bs[..k]) + WireCount(bs[k].records)
  {
    var before := bs[..k];
    assert bs[..k + 1] == before + [bs[k]];
    WireTotalSnoc(before, bs[k]);
  }

  lemma FramesOfBatch(bs: seq<QueuedBatch>, k: nat)
    requires k < |bs|
    ensures Frames(bs[k].records) <= AllFrames(bs)
  {}

  /** What the loop must know about the numbered queue. */
  ghost predicate IsNumbering(bodies: seq<CaptureBatch>, totals: seq<nat>, numbered: seq<CaptureBatch>) {
    && |numbered| == |bodies| && |totals| == |bodies| + 1 && totals[0] == 0
    && forall k | 0 <= k < |bodies| ::
         && numbered[k] == bodies[k].(records := NumberRecords(bodies[k].records, totals[k]))
         && totals[k + 1] == totals[k] + WireCount(bodies[k].records)
  }

  lemma Numbering(bodies: seq<CaptureBatch>) returns (totals: seq<nat>)
    ensures IsNumbering(bodies, totals, NumberBatches(bodies))
  {
    totals := seq(|bodies| + 1, k requires 0 <= k <= |bodies| => WireTotal(bodies[..k]));
    forall k | 0 <= k < |bodies|
      ensures NumberBatches(bodies)[k] == bodies[k].(records := NumberRecords(bodies[k].records, totals[k]))
      ensures totals[k + 1] == totals[k] + WireCount(bodies[k].records)
    {
      NumberBatchesAt(bodies, k);
      TotalAt(bodies, k);
    }
  }

  /** The state of the loop after `k` batches. */
  ghost predicate SentSoFar(numbered: seq<CaptureBatch>, totals: seq<nat>, accepts: nat -> bool,
                            k: nat, sent: seq<CaptureBatch>, failed: bool, sequence: nat)
  {
    && |sent| <= |numbered|
    && (if failed then |sent| < k && !accepts(|sent|) else |sent| == k < |totals| && sequence == totals[k])
    && forall j | 0 <= j < |sent| :: sent[j] == numbered[j] && accepts(j)
  }

  lemma SendOne(bodies: seq<CaptureBatch>, numbered: seq<CaptureBatch>, totals: seq<nat>, accepts: nat -> bool,
                k: nat, sent: seq<CaptureBatch>, wire: CaptureBatch)
    requires IsNumbering(bodies, totals, numbered) && k < |bodies|
    requires SentSoFar(numbered, totals, accepts, k, sent, false, totals[k])
    requires wire == bodies[k].(records := NumberRecords(bodies[k].records, totals[k]))
    ensures accepts(k) ==> SentSoFar(numbered, totals, accepts, k + 1, sent + [wire], false, totals[k + 1])
    ensures !accepts(k) ==> SentSoFar(numbered, totals, accepts, k + 1, sent, true, totals[k + 1])
  {}

  /** sendBatches: drains the whole queue, but stops numbering and sending at the
      first send error, which it reports once. `accepts(k)` tells whether the
      stream takes the queue's batch `k`. */
  method SendBatches(batches: seq<QueuedBatch>, accepts: nat -> bool)
    returns (sent: seq<CaptureBatch>, failed: bool, cancels: nat)
    requires forall b <- batches :: DistinctFrames(b.records)
    modifies AllFrames(batches)
    ensures |sent| <= |batches|
    ensures forall k | 0 <= k < |sent| :: sent[k] == NumberBatches(BatchBodies(batches))[k] && accepts(k)
    ensures failed <==> |sent| < |batches|
    ensures failed ==> !accepts(|sent|)
    ensures cancels == if failed then 1 else 0
  {
    sent, failed, cancels := [], false, 0;
    ghost var bodies := BatchBodies(batches);
    ghost var numbered := NumberBatches(bodies);
    ghost var totals := Numbering(bodies);
    var sequence := 0;
    for k := 0 to |batches|
      invariant SentSoFar(numbered, totals, accepts, k, sent, failed, sequence)
      invariant cancels == if failed then 1 else 0
    {
      if !failed {
        FramesOfBatch(batches, k);
        var wire, next := PrepareBatch(batches[k], sequence);
        SendOne(bodies, numbered, totals, accepts, k, sent, wire);
        sequence := next;
        if accepts(k) {
          sent := sent + [wire];
        } else {
          failed, cancels := true, cancels + 1;
        }
      }
    }
  }

  /** What a record of the queue is on the wire: a TLS event as it is, a wire frame
      with the next number, one more than there are wire frames before it. */
  lemma {:induction false} SentRecords(batches: seq<QueuedBatch>, k: nat, i: nat)
    requires k < |batches| && i < |batches[k].records|
    ensures var sent, batch := NumberBatches(BatchBodies(batches))[k], batches[k];
      && sent.session == batch.session && sent.node == batch.node && sent.stream == batch.stream
      && sent.dropped == batch.dropped && |sent.records| == |batch.records|
      && match batch.records[i]
         case QueuedTls(e) => sent.records[i] == Tls(e)
         case QueuedWire(frame) =>
           var before := WireTotal(BatchBodies(batches)[..k]) + WireCount(BatchBodies(batches)[k].records[..i]);
           sent.records[i] == Wire(frame.body.(sequence := before + 1))
  {
    NumberBatchesAt(BatchBodies(batches), k);
    NumberRecordsAt(BatchBodies(batches)[k].records, WireTotal(BatchBodies(batches)[..k]), i);
  }

  // ---- End to end ----

  /** Whatever the producers queued and in whatever order, while the hub's first
      handler of the stream, that has held its incarnation alone since its claim,
      validates the next batch of that queue it finds the wire frames in sequence:
      the incarnation never rejects them on sequence. */
  lemma {:induction false} EndToEndInSequence(run: seq<State>, i: nat, j: nat, h: nat, node: Node,
                                              queue: seq<CaptureBatch>, k: nat)
    requires IsRun(run) && HoldsSince(run, i, j, h, node) && run[j].handlers[h].first
    requires k < |queue| && run[j].handlers[h].received == NumberBatches(queue)[..k]
    requires run[j].handlers[h].pc == Validating(NumberBatches(queue)[k])
    ensures Consecutive(NumberBatches(queue)[k].records, run[j].sess.maps.agents[node].lastSequence)
  {
    SequenceExpected(run, i, j, h, node);
    NumberBatchesAt(queue, k);
    NumberBatchesPrefix(queue, k);
    NumberingKeepsTotal(queue[..k]);
    NumberingIsConsecutive(queue[k].records, WireTotal(queue[..k]));
  }

  /** ... and between batches its last number is the count of wire frames sent. */
  lemma {:induction false} EndToEndCount(run: seq<State>, i: nat, j: nat, h: nat, node: Node,
                                         queue: seq<CaptureBatch>, k: nat)
    requires IsRun(run) && HoldsSince(run, i, j, h, node) && run[j].handlers[h].first
    requires k <= |queue| && run[j].handlers[h].received == NumberBatches(queue)[..k]
    requires run[j].handlers[h].pc.Receiving?
    ensures run[j].sess.maps.agents[node].lastSequence == WireTotal(queue[..k])
  {
    SequenceExpected(run, i, j, h, node);
    NumberBatchesPrefix(queue, k);
    NumberingKeepsTotal(queue[..k]);
  }
}
