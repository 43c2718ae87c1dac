/** The batching loop of captureTarget (pkg/agent/runner.go): frames collect in
    a slice that is truncated and reused, and leave in batches copied by
    cloneBatch. */
module Batching {

  /** A Go slice that only this loop appends to: a backing array and a length. */
  class Slice<T(0)> {
    var store: array<T>
    var len: nat

    ghost predicate Valid()
      reads this
    {
      len <= store.Length
    }

    ghost function Contents(): seq<T>
      requires Valid()
      reads this, store
    {
      store[..len]
    }

    constructor ()
      ensures Valid() && fresh(store) && Contents() == []
    {
      store := new T[0];
      len := 0;
    }

    /** append: in place while there is capacity, else into a larger array. */
    method Append(x: T)
      requires Valid()
      modifies this, store
      ensures Valid() && Contents() == old(Contents()) + [x]
      ensures store == old(store) || fresh(store)
    {
      if len == store.Length {
        var larger := new T[2 * len + 1];
        forall i | 0 <= i < len {
          larger[i] := store[i];
        }
        store := larger;
      }
      store[len] := x;
      len := len + 1;
    }

    /** s[:0]: the array stays and will be overwritten. */
    method Truncate()
      requires Valid()
      modifies this`len
      ensures Valid() && Contents() == []
    {
      len := 0;
    }

    /** The copy in cloneBatch. */
    method Clone() returns (copy: array<T>)
      requires Valid()
      ensures fresh(copy) && copy[..] == Contents()
    {
      copy := new T[len];
      forall i | 0 <= i < len {
        copy[i] := store[i];
      }
    }
  }

  /** The records of the queued batches, as they are now. */
  ghost function Queued<T>(queue: seq<array<T>>): seq<T>
    reads queue
  {
    if queue == [] then [] else Queued(queue[..|queue| - 1]) + queue[|queue| - 1][..]
  }

  lemma QueuedSnoc<T>(queue: seq<array<T>>, a: array<T>)
    ensures Queued(queue + [a]) == Queued(queue) + a[..]
  {
    assert (queue + [a])[..|queue|] == queue;
  }

  /** How reading ends: end of stream, a read error after cancellation, another read error. */
  datatype ReadEnd = Eof | ReadCancelled | ReadError

  datatype LoopResult = Finished | ContextError | CaptureFailure | SendError

  /** The frames in `q` batches of `n`, and what is left over after full batches. */
  function Full(q: nat, n: nat): nat {
    if q == 0 then 0 else n + Full(q - 1, n)
  }

  function LeftOver(total: nat, n: nat): (rest: nat)
    requires n > 0
    ensures rest < n && rest <= total
  {
    if total < n then total else LeftOver(total - n, n)
  }

  lemma {:induction false} FullBatches(q: nat, n: nat, rest: nat)
    requires rest < n
    ensures LeftOver(Full(q, n) + rest, n) == rest
  {
    if q > 0 {
      FullBatches(q - 1, n, rest);
    }
  }

  /** How many of `total` frames are queued when the loop ends, with batch size
      `n` and `sent` batches queued: all of them when it flushes, else those in
      full batches. */
  function Delivered(total: nat, n: nat, sent: nat, r: LoopResult): nat
    requires n > 0
  {
    match r
    case Finished => total
    case ContextError => total
    case CaptureFailure => total - LeftOver(total, n)
    case SendError => Full(sent, n)
  }

  /** The loop's state after `i` frames: full batches are queued, the rest waits. */
  ghost predicate Batched<T(0)>(frames: seq<T>, i: nat, n: nat, queue: seq<array<T>>, waiting: seq<T>)
    requires i <= |frames|
    reads queue
  {
    && Queued(queue) + waiting == frames[..i]
    && |waiting| < n && i == Full(|queue|, n) + |waiting|
    && (forall k | 0 <= k < |queue| :: queue[k].Length == n)
  }

  ghost predicate LoopOk<T(0)>(frames: seq<T>, i: nat, n: nat, queue: seq<array<T>>, batch: Slice<T>)
    requires i <= |frames|
    reads batch, batch.store, queue
  {
    && batch.Valid()
    && Batched(frames, i, n, queue, batch.Contents())
    && (forall k | 0 <= k < |queue| :: queue[k] != batch.store)
  }

  /** The sending of cloneBatch(batch), and the truncation that follows: what
      waited is queued, in an array of its own. */
  method Send<T(0)>(queue: seq<array<T>>, batch: Slice<T>) returns (queue': seq<array<T>>)
    requires batch.Valid() && forall k | 0 <= k < |queue| :: queue[k] != batch.store
    modifies batch`len
    ensures batch.Valid() && batch.store == old(batch.store) && batch.Contents() == []
    ensures |queue'| == |queue| + 1 && queue'[..|queue|] == queue
    ensures fresh(queue'[|queue|]) && queue'[|queue|].Length == old(batch.len)
    ensures Queued(queue') == old(Queued(queue) + batch.Contents())
  {
    var copy := batch.Clone();
    queue' := queue + [copy];
    batch.Truncate();
    QueuedSnoc(queue, copy);
  }

  /** A full batch is sent, and collecting starts again. */
  method SendFull<T(0)>(queue: seq<array<T>>, batch: Slice<T>, n: nat, ghost frames: seq<T>, ghost i: nat)
    returns (queue': seq<array<T>>)
    requires n >= 1 && i <= |frames| && Collected(frames, i, n, queue, batch) && batch.len == n
    modifies batch`len
    ensures |queue'| == |queue| + 1 && LoopOk(frames, i, n, queue', batch)
    ensures batch.store == old(batch.store)
  {
    queue' := Send(queue, batch);
    assert forall k | 0 <= k < |queue| :: queue'[k] == queue'[..|queue|][k];
    assert Queued(queue') + [] == Queued(queue');
  }

  lemma {:induction false} QueuedLength<T(0)>(queue: seq<array<T>>, n: nat)
    requires forall k | 0 <= k < |queue| :: queue[k].Length == n
    ensures |Queued(queue)| == Full(|queue|, n)
  {
    if queue != [] {
      QueuedLength(queue[..|queue| - 1], n);
    }
  }

  /** The queue holds full batches only, of the frames from the first on. */
  ghost predicate CutAt<T(0)>(frames: seq<T>, n: nat, queue: seq<array<T>>)
    reads queue
  {
    && Full(|queue|, n) <= |frames| && Queued(queue) == frames[..Full(|queue|, n)]
    && forall k | 0 <= k < |queue| :: queue[k].Length == n
  }

  lemma LoopPrefix<T(0)>(frames: seq<T>, i: nat, n: nat, queue: seq<array<T>>, batch: Slice<T>)
    requires i <= |frames| && LoopOk(frames, i, n, queue, batch)
    ensures CutAt(frames, n, queue)
  {
    QueuedLength(queue, n);
    assert Queued(queue) == (Queued(queue) + batch.Contents())[..Full(|queue|, n)];
  }

  lemma LoopStart<T(0)>(frames: seq<T>, n: nat, batch: Slice<T>)
    requires n >= 1 && batch.Valid() && batch.Contents() == []
    ensures LoopOk(frames, 0, n, [], batch)
  {
    assert Queued<T>([]) + batch.Contents() == frames[..0];
  }

  /** The first `sent` batches were accepted. */
  predicate AllAccepted(accepts: nat -> bool, sent: nat) {
    forall k | 0 <= k < sent :: accepts(k)
  }

  /** A frame more waits, and the batch may be full. */
  ghost predicate Collected<T(0)>(frames: seq<T>, i: nat, n: nat, queue: seq<array<T>>, batch: Slice<T>)
    requires i <= |frames|
    reads batch, batch.store, queue
  {
    && batch.Valid() && batch.len <= n
    && Queued(queue) + batch.Contents() == frames[..i] && i == Full(|queue|, n) + batch.len
    && CutAt(frames, n, queue)
    && (forall k | 0 <= k < |queue| :: queue[k] != batch.store)
  }

  method Collect<T(0)>(frame: T, n: nat, queue: seq<array<T>>, batch: Slice<T>, ghost frames: seq<T>, ghost i: nat)
    requires i < |frames| && frame == frames[i] && LoopOk(frames, i, n, queue, batch)
    modifies batch, batch.store
    ensures batch.store == old(batch.store) || fresh(batch.store)
    ensures Collected(frames, i + 1, n, queue, batch)
  {
    LoopPrefix(frames, i, n, queue, batch);
    batch.Append(frame);
    assert frames[..i + 1] == frames[..i] + [frames[i]];
  }

  /** The loop body. `accepts(k)` tells whether the k-th batch is sent. */
  method ReadFrame<T(0)>(frame: T, n: nat, queue: seq<array<T>>, batch: Slice<T>, accepts: nat -> bool,
      ghost frames: seq<T>, ghost i: nat)
    returns (queue': seq<array<T>>, ok: bool)
    requires n >= 1 && i < |frames| && frame == frames[i] && LoopOk(frames, i, n, queue, batch)
    requires AllAccepted(accepts, |queue|)
    modifies batch, batch.store
    ensures batch.store == old(batch.store) || fresh(batch.store)
    ensures ok ==> LoopOk(frames, i + 1, n, queue', batch)
    ensures AllAccepted(accepts, |queue'|)
    ensures !ok ==> !accepts(|queue'|) && CutAt(frames, n, queue')
  {
    Collect(frame, n, queue, batch, frames, i);
    queue', ok := queue, true;
    if batch.len >= n {
      if !accepts(|queue|) {
        return queue, false;
      }
      queue' := SendFull(queue, batch, n, frames, i + 1);
    }
  }

  /** The read loop, up to the end of the frames or the first failed send. */
  method ReadAll<T(0)>(frames: seq<T>, n: nat, accepts: nat -> bool)
    returns (queue: seq<array<T>>, batch: Slice<T>, ok: bool)
    requires n >= 1
    ensures AllAccepted(accepts, |queue|)
    ensures ok ==> LoopOk(frames, |frames|, n, queue, batch)
    ensures fresh(batch) && fresh(batch.store)
    ensures !ok ==> !accepts(|queue|) && CutAt(frames, n, queue)
  {
    batch := new Slice<T>();
    queue, ok := [], true;
    LoopStart(frames, n, batch);
    for i := 0 to |frames|
      invariant fresh(batch) && fresh(batch.store)
      invariant AllAccepted(accepts, |queue|)
      invariant LoopOk(frames, i, n, queue, batch)
    {
      queue, ok := ReadFrame(frames[i], n, queue, batch, accepts, frames, i);
      if !ok {
        return queue, batch, false;
      }
    }
  }

  /** flush: sends what waits, if anything. */
  method Flush<T(0)>(queue: seq<array<T>>, batch: Slice<T>, n: nat, accepts: nat -> bool, ghost frames: seq<T>)
    returns (queue': seq<array<T>>, ok: bool)
    requires LoopOk(frames, |frames|, n, queue, batch) && AllAccepted(accepts, |queue|)
    modifies batch`len
    ensures AllAccepted(accepts, |queue'|)
    ensures ok ==> Queued(queue') == frames
    ensures ok ==> forall k | 0 <= k < |queue'| :: 1 <= queue'[k].Length <= n
    ensures ok ==> forall k | 0 <= k < |queue'| - 1 :: queue'[k].Length == n
    ensures !ok ==> queue' == queue && !accepts(|queue|)
  {
    assert frames[..|frames|] == frames;
    if batch.len == 0 {
      return queue, true;
    }
    if !accepts(|queue|) {
      return queue, false;
    }
    queue' := Send(queue, batch);
    ok := true;
    assert forall k | 0 <= k < |queue| :: queue'[k] == queue'[..|queue|][k];
  }

  /** The read loop and its final flush. `accepts(k)` tells whether the sending
      of the k-th batch succeeds rather than finding its context done.

      If all sends succeed and reading ends by end of stream or cancellation, the
      queued batches hold exactly the frames read, in order; a read error loses
      the partial batch, a failed send everything after the batches queued.
      Every batch has 1 to n records, and later use of the slice leaves the
      queued batches alone. */
  method CaptureLoop<T(0)>(frames: seq<T>, n: nat, end: ReadEnd, accepts: nat -> bool)
    returns (queue: seq<array<T>>, result: LoopResult)
    requires n >= 1
    ensures result.Finished? ==> end.Eof?
    ensures result.ContextError? ==> end.ReadCancelled?
    ensures result.CaptureFailure? ==> end.ReadError?
    ensures result.SendError? ==> !accepts(|queue|)
    ensures forall k | 0 <= k < |queue| :: accepts(k)
    ensures Delivered(|frames|, n, |queue|, result) <= |frames|
    ensures Queued(queue) == frames[..Delivered(|frames|, n, |queue|, result)]
    ensures forall k | 0 <= k < |queue| :: 1 <= queue[k].Length <= n
    ensures forall k | 0 <= k < |queue| - 1 :: queue[k].Length == n
  {
    var full, batch, ok := ReadAll(frames, n, accepts);
    if !ok {
      return full, SendError;
    }
    LoopPrefix(frames, |frames|, n, full, batch);
    if end.ReadError? {
      FullBatches(|full|, n, batch.len);
      return full, CaptureFailure;
    }
    queue, ok := Flush(full, batch, n, accepts, frames);
    if !ok {
      return queue, SendError;
    }
    return queue, if end.Eof? then Finished else ContextError;
  }
}
