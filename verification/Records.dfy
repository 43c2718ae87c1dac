/** Messages of the capture API, as far as the hub and the agent look at them.

    A protobuf getter on a missing message returns zero values, so a message
    that is only read through getters is modelled by its zero value when
    missing; where the code tests for nil, the model has an Option. */
module Records {
  datatype Option<+T> = None | Some(value: T)

  datatype Result<+T, +E> = Ok(value: T) | Err(error: E)

  type Node = string
  type byte = b: int | 0 <= b < 0x100

  datatype PodRef = PodRef(namespace: string, name: string, uid: string, node: Node)

  datatype TlsMode = TlsUnspecified | TlsOff | TlsEbpf | TlsKeylog | TlsAuto

  datatype Target = Target(pod: PodRef, bpfFilter: string, tlsMode: TlsMode, snaplen: nat)

  datatype Assignment = Assignment(session: string, node: Node, stream: string, targets: seq<Target>)

  function UidsOf(targets: seq<Target>): set<string> {
    set t | t in targets :: t.pod.uid
  }

  datatype PacketSource = SourceUnspecified | SourceWire | SourceTls

  datatype Timestamp = NoTimestamp | InvalidTimestamp | ValidTimestamp

  /** originalLength is a uint32; the sequence, a uint64, is taken as unbounded. */
  datatype WireFrame = WireFrame(
    pod: Option<PodRef>,
    source: PacketSource,
    timestamp: Timestamp,
    originalLength: nat,
    payload: seq<byte>,
    sequence: nat)

  datatype TlsPlaintext = TlsPlaintext(pod: Option<PodRef>, payload: seq<byte>)

  datatype CaptureRecord = NilRecord | EmptyRecord | Wire(frame: WireFrame) | Tls(event: TlsPlaintext)

  datatype CaptureBatch = CaptureBatch(
    session: string,
    node: Node,
    stream: string,
    records: seq<CaptureRecord>,
    dropped: nat)

  datatype SessionPhase = PENDING | STARTING | RUNNING | STOPPING | STOPPED | FAILED

  predicate IsTerminalState(s: SessionPhase) {
    s == STOPPED || s == FAILED
  }

  predicate SessionScheduling(s: SessionPhase) {
    s == STARTING || s == RUNNING
  }

  function CaptureRecordPod(r: CaptureRecord): Option<PodRef> {
    match r
    case Wire(f) => f.pod
    case Tls(e) => e.pod
    case _ => None
  }

  /** `t` is the first of `targets` whose pod is `pod`. */
  ghost predicate IsFirstTarget(targets: seq<Target>, pod: PodRef, t: Target) {
    exists i :: 0 <= i < |targets| && targets[i] == t && t.pod == pod && forall k | 0 <= k < i :: targets[k].pod != pod
  }

  function AssignedTarget(a: Option<Assignment>, pod: Option<PodRef>): (t: Option<Target>)
    ensures t.Some? ==> a.Some? && pod.Some? && IsFirstTarget(a.value.targets, pod.value, t.value)
    ensures t.None? && a.Some? && pod.Some? ==> forall u <- a.value.targets :: u.pod != pod.value
  {
    if a.None? || pod.None? then None else FirstTarget(a.value.targets, pod.value)
  }

  function FirstTarget(targets: seq<Target>, pod: PodRef): (t: Option<Target>)
    ensures t.Some? ==> IsFirstTarget(targets, pod, t.value)
    ensures t.None? ==> forall u <- targets :: u.pod != pod
  {
    if targets == [] then None
    else if targets[0].pod == pod then Some(targets[0])
    else
      var rest := FirstTarget(targets[1..], pod);
      assert rest.Some? ==> IsFirstTarget(targets, pod, rest.value) by {
        if rest.Some? {
          var i :| 0 <= i < |targets[1..]| && targets[1..][i] == rest.value && rest.value.pod == pod
            && forall k | 0 <= k < i :: targets[1..][k].pod != pod;
          assert targets[i + 1] == rest.value;
          assert forall k | 0 < k < i + 1 :: targets[k] == targets[1..][k - 1];
        }
      }
      rest
  }

  // ---- Wire frames in a batch, and in a sequence of batches ----

  function WireCount(rs: seq<CaptureRecord>): nat {
    if rs == [] then 0 else WireCount(rs[..|rs| - 1]) + if rs[|rs| - 1].Wire? then 1 else 0
  }

  function WireTotal(bs: seq<CaptureBatch>): nat {
    if bs == [] then 0 else WireTotal(bs[..|bs| - 1]) + WireCount(bs[|bs| - 1].records)
  }

  lemma WireCountSnoc(rs: seq<CaptureRecord>, i: nat)
    requires i < |rs|
    ensures WireCount(rs[..i + 1]) == WireCount(rs[..i]) + if rs[i].Wire? then 1 else 0
  {
    assert rs[..i + 1][..i] == rs[..i];
  }

  lemma WireTotalSnoc(bs: seq<CaptureBatch>, b: CaptureBatch)
    ensures WireTotal(bs + [b]) == WireTotal(bs) + WireCount(b.records)
  {
    assert (bs + [b])[..|bs|] == bs;
  }

  /** The wire frames are numbered last+1, last+2, ... without gaps. */
  ghost predicate Consecutive(rs: seq<CaptureRecord>, last: nat) {
    forall i | 0 <= i < |rs| && rs[i].Wire? :: rs[i].frame.sequence == last + WireCount(rs[..i]) + 1
  }

  function PayloadLength(r: CaptureRecord): nat {
    match r
    case Wire(f) => |f.payload|
    case Tls(e) => |e.payload|
    case _ => 0
  }

  function PayloadBytes(rs: seq<CaptureRecord>): nat {
    if rs == [] then 0 else PayloadBytes(rs[..|rs| - 1]) + PayloadLength(rs[|rs| - 1])
  }

  lemma PayloadBytesSnoc(rs: seq<CaptureRecord>, i: nat)
    requires i < |rs|
    ensures PayloadBytes(rs[..i + 1]) == PayloadBytes(rs[..i]) + PayloadLength(rs[i])
  {
    assert rs[..i + 1][..i] == rs[..i];
  }

  lemma {:induction false} PayloadBytesGrow(rs: seq<CaptureRecord>, i: nat)
    requires i <= |rs|
    ensures PayloadBytes(rs[..i]) <= PayloadBytes(rs)
    decreases |rs| - i
  {
    if i == |rs| {
      assert rs[..i] == rs;
    } else {
      PayloadBytesSnoc(rs, i);
      PayloadBytesGrow(rs, i + 1);
    }
  }
}
