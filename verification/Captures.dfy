/** The agent's running captures (pkg/agent/runner.go: validateAssignment and the
    startTarget, stopTarget and apply closures of Run). */
module Captures {
  import opened Records
  import opened Discovery
  import opened Assignments

  datatype Config = Config(session: string, node: Node, stream: string)

  datatype AssignmentError =
    | Required
    | WrongSession
    | WrongNode
    | WrongStream
    | NoTargets
    | IncompletePod(i: nat)
    | PodOnOtherNode(i: nat)

  predicate TargetOk(cfg: Config, t: Target) {
    t.pod.namespace != "" && t.pod.name != "" && t.pod.uid != "" && t.pod.node == cfg.node
  }

  /** The assignment is for this incarnation and names complete pods on its node. */
  predicate Acceptable(cfg: Config, a: Option<Assignment>) {
    && a.Some?
    && a.value.session == cfg.session && a.value.node == cfg.node
    && a.value.stream != "" && a.value.stream == cfg.stream
    && a.value.targets != []
    && forall t <- a.value.targets :: TargetOk(cfg, t)
  }

  method ValidateAssignment(cfg: Config, a: Option<Assignment>) returns (error: Option<AssignmentError>)
    ensures error.None? <==> Acceptable(cfg, a)
    ensures error == Some(Required) <==> a.None?
    ensures error == Some(WrongSession) ==> a.value.session != cfg.session
    ensures error == Some(WrongNode) ==> a.value.node != cfg.node
    ensures error == Some(WrongStream) ==> a.value.stream == "" || a.value.stream != cfg.stream
    ensures error == Some(NoTargets) ==> a.value.targets == []
    ensures error.None? ==>
      && a.value.session == cfg.session && a.value.node == cfg.node
      && a.value.stream == cfg.stream != "" && a.value.targets != []
      && forall t <- a.value.targets ::
           t.pod.namespace != "" && t.pod.name != "" && t.pod.uid != "" && t.pod.node == cfg.node
    ensures error.Some? && (error.value.IncompletePod? || error.value.PodOnOtherNode?) ==>
              a.Some? && error.value.i < |a.value.targets| && !TargetOk(cfg, a.value.targets[error.value.i])
              && forall k | 0 <= k < error.value.i :: TargetOk(cfg, a.value.targets[k])
  {
    if a.None? {
      return Some(Required);
    }
    var asg := a.value;
    if asg.session != cfg.session {
      return Some(WrongSession);
    }
    if asg.node != cfg.node {
      return Some(WrongNode);
    }
    if asg.stream == "" || asg.stream != cfg.stream {
      return Some(WrongStream);
    }
    if asg.targets == [] {
      return Some(NoTargets);
    }
    for i := 0 to |asg.targets|
      invariant forall k | 0 <= k < i :: TargetOk(cfg, asg.targets[k])
    {
      var pod := asg.targets[i].pod;
      assert asg.targets[i] in a.value.targets;
      if pod.namespace == "" || pod.name == "" || pod.uid == "" {
        return Some(IncompletePod(i));
      }
      if pod.node != cfg.node {
        return Some(PodOnOtherNode(i));
      }
    }
    return None;
  }

  /** What the hub builds for this incarnation from complete pods, the agent accepts. */
  lemma BuiltIsAcceptable(cfg: Config, spec: Spec, group: NodeGroup)
    requires cfg == Config(spec.session, group.node, cfg.stream) && cfg.stream != ""
    requires group.targets != [] && GroupOk(group)
    requires forall p <- group.targets :: p.namespace != "" && p.name != "" && p.uid != ""
    ensures Acceptable(cfg, Some(AssignmentOf(spec, group, cfg.stream)))
    ensures UidsOf(AssignmentOf(spec, group, cfg.stream).targets) == Uids(group.targets)
  {
    var a := AssignmentOf(spec, group, cfg.stream);
    forall t | t in a.targets
      ensures TargetOk(cfg, t)
    {
      var i :| 0 <= i < |a.targets| && a.targets[i] == t;
      assert group.targets[i] in group.targets;
    }
    BuiltIsEqual(spec, group, cfg.stream);
  }

  /** The map apply builds from the targets: the last target of a UID wins. */
  function Desired(targets: seq<Target>): (m: map<string, Target>)
    ensures m.Keys == UidsOf(targets)
    ensures forall uid <- m :: m[uid] in targets && m[uid].pod.uid == uid
  {
    if targets == [] then map[]
    else
      var last := targets[|targets| - 1];
      Desired(targets[..|targets| - 1])[last.pod.uid := last]
  }

  /** ... so a capture that is started is for that one. */
  lemma {:induction false} LastTargetWins(targets: seq<Target>, uid: string) returns (i: nat)
    requires uid in Desired(targets)
    ensures i < |targets| && targets[i] == Desired(targets)[uid] && targets[i].pod.uid == uid
    ensures forall k | i < k < |targets| :: targets[k].pod.uid != uid
  {
    hide UidsOf;
    var n := |targets| - 1;
    assert targets != [];
    if targets[n].pod.uid == uid {
      i := n;
    } else {
      i := LastTargetWins(targets[..n], uid);
      assert forall k | i < k < n :: targets[..n][k] == targets[k];
    }
  }

  /** One capture goroutine: its context's cancel and its done channel. */
  class RunningCapture {
    const target: Target
    var cancelled: bool
    var done: bool

    constructor (target: Target)
      ensures this.target == target && !cancelled && !done
    {
      this.target := target;
      cancelled, done := false, false;
    }

    method Cancel()
      modifies this`cancelled
      ensures cancelled
    {
      cancelled := true;
    }

    /** Receiving from done: the goroutine, once cancelled, ends and closes it. */
    method AwaitDone()
      requires cancelled
      modifies this`done
      ensures done
    {
      done := true;
    }
  }

  class CaptureSet {
    const cfg: Config
    var captures: map<string, RunningCapture>
    /** Every capture ever started. */
    ghost var started: set<RunningCapture>

    ghost predicate Runs(rt: RunningCapture)
      reads this
    {
      rt.target.pod.uid in captures && captures[rt.target.pod.uid] == rt
    }

    /** Running captures are not cancelled and keyed by their target's UID; all
        others ever started have been cancelled and have ended. */
    ghost predicate Valid()
      reads this, started
    {
      && (forall u <- captures :: captures[u] in started && !captures[u].cancelled && captures[u].target.pod.uid == u)
      && (forall rt <- started :: Runs(rt) || (rt.cancelled && rt.done))
    }

    constructor (cfg: Config)
      ensures Valid() && captures == map[] && started == {} && this.cfg == cfg
    {
      this.cfg := cfg;
      captures := map[];
      started := {};
    }

    method StartTarget(target: Target)
      requires Valid()
      modifies this
      ensures Valid() && old(started) <= started && fresh(started - old(started))
      ensures var uid := target.pod.uid;
        if uid in old(captures) then captures == old(captures)
        else uid in captures && fresh(captures[uid]) && captures == old(captures)[uid := captures[uid]]
             && captures[uid].target == target
    {
      var uid := target.pod.uid;
      if uid in captures {
        return;
      }
      var rt := new RunningCapture(target);
      captures := captures[uid := rt];
      started := started + {rt};
    }

    method StopTarget(uid: string)
      requires Valid()
      modifies this`captures, if uid in captures then {captures[uid]} else {}
      ensures Valid()
      ensures captures == old(captures) - {uid}
    {
      if uid !in captures {
        return;
      }
      var rt := captures[uid];
      captures := captures - {uid};
      rt.Cancel();
      rt.AwaitDone();
    }

    /** The uids of captures that `desired` lacks, as apply collects them. */
    method Removed(desired: map<string, Target>) returns (removed: seq<string>)
      ensures forall uid :: uid in removed <==> uid in captures && uid !in desired
    {
      removed := [];
      var rest := captures.Keys;
      while rest != {}
        invariant rest <= captures.Keys
        invariant forall uid :: uid in removed <==> uid in captures.Keys - rest && uid !in desired
        decreases rest
      {
        var uid :| uid in rest;
        rest := rest - {uid};
        if uid !in desired {
          removed := removed + [uid];
        }
      }
    }

    method StopAll(removed: seq<string>)
      requires Valid()
      modifies this`captures, set uid | uid in removed && uid in captures :: captures[uid]
      ensures Valid()
      ensures captures == old(captures) - set uid | uid in removed
    {
      for i := 0 to |removed|
        invariant Valid() && captures == old(captures) - set uid | uid in removed[..i]
      {
        StopTarget(removed[i]);
      }
      assert removed[..|removed|] == removed;
    }

    method StartAll(desired: map<string, Target>)
      requires Valid() && forall uid <- desired :: desired[uid].pod.uid == uid
      modifies this
      ensures Valid() && old(started) <= started && fresh(started - old(started))
      ensures captures.Keys == old(captures.Keys) + desired.Keys
      ensures forall uid <- captures ::
        if uid in old(captures) then captures[uid] == old(captures)[uid]
        else fresh(captures[uid]) && captures[uid].target == desired[uid]
    {
      var rest := desired.Keys;
      while rest != {}
        invariant rest <= desired.Keys
        invariant Valid() && old(started) <= started && fresh(started - old(started))
        invariant captures.Keys == old(captures.Keys) + (desired.Keys - rest)
        invariant forall uid <- captures ::
          if uid in old(captures) then captures[uid] == old(captures)[uid]
          else fresh(captures[uid]) && captures[uid].target == desired[uid]
        decreases rest
      {
        var uid :| uid in rest;
        rest := rest - {uid};
        StartTarget(desired[uid]);
      }
    }

    /** The captures this assignment ends. */
    ghost function Ended(targets: seq<Target>): set<RunningCapture>
      reads this
    {
      set uid | uid in captures && uid !in UidsOf(targets) :: captures[uid]
    }

    /** apply: afterwards exactly the assignment's UIDs are captured; a UID that
        was captured before keeps its capture, untouched; the others were
        cancelled and have ended. An invalid assignment changes nothing. */
    method Apply(asg: Option<Assignment>)
      requires Valid()
      modifies this, if Acceptable(cfg, asg) then Ended(asg.value.targets) else {}
      ensures Valid() && old(started) <= started && fresh(started - old(started))
      ensures !Acceptable(cfg, asg) ==> captures == old(captures) && started == old(started)
      ensures Acceptable(cfg, asg) ==>
        && captures.Keys == UidsOf(asg.value.targets)
        && (forall uid | uid in captures && uid in old(captures) :: captures[uid] == old(captures)[uid])
        && (forall uid | uid in captures && uid !in old(captures) ::
              fresh(captures[uid]) && captures[uid].target == Desired(asg.value.targets)[uid])
        && (forall uid | uid in old(captures) && uid !in captures ::
              old(captures)[uid].cancelled && old(captures)[uid].done)
    {
      var error := ValidateAssignment(cfg, asg);
      if error.None? {
        Replace(asg.value.targets);
      }
    }

    /** The part of apply that follows the validation. */
    method Replace(targets: seq<Target>)
      requires Valid()
      modifies this, Ended(targets)
      ensures Valid() && old(started) <= started && fresh(started - old(started))
      ensures captures.Keys == UidsOf(targets)
      ensures forall uid | uid in captures && uid in old(captures) :: captures[uid] == old(captures)[uid]
      ensures forall uid | uid in captures && uid !in old(captures) ::
        fresh(captures[uid]) && captures[uid].target == Desired(targets)[uid]
      ensures forall uid | uid in old(captures) && uid !in captures ::
        old(captures)[uid].cancelled && old(captures)[uid].done
    {
      var desired := Desired(targets);
      var removed := Removed(desired);
      StopAll(removed);
      assert forall uid | uid in old(captures) && uid !in captures ::
        old(captures)[uid] in started && !Runs(old(captures)[uid]);
      StartAll(desired);
    }
  }

  // ---- Every sequence of assignments ----

  /** The UIDs captured after a sequence of assignments: those of the last valid one. */
  function WantedUids(cfg: Config, asgs: seq<Option<Assignment>>): set<string> {
    if asgs == [] then {}
    else if Acceptable(cfg, asgs[|asgs| - 1]) then UidsOf(asgs[|asgs| - 1].value.targets)
    else WantedUids(cfg, asgs[..|asgs| - 1])
  }

  /** What Run captures after these assignments: it returns without a capture
      unless there is a first one and that is valid. */
  function CapturedUids(cfg: Config, asgs: seq<Option<Assignment>>): set<string> {
    if asgs == [] || !Acceptable(cfg, asgs[0]) then {} else WantedUids(cfg, asgs)
  }

  /** Run's check of the first assignment, its first apply and its watch loop. */
  method FollowAssignments(cfg: Config, asgs: seq<Option<Assignment>>) returns (set': CaptureSet, ok: bool)
    ensures fresh(set') && set'.cfg == cfg && set'.Valid()
    ensures ok <==> asgs != [] && Acceptable(cfg, asgs[0])
    ensures !ok ==> set'.started == {}
    ensures set'.captures.Keys == CapturedUids(cfg, asgs)
  {
    set' := new CaptureSet(cfg);
    if asgs == [] {
      return set', false;
    }
    var error := ValidateAssignment(cfg, asgs[0]);
    ok := error.None?;
    if !ok {
      return;
    }
    for i := 0 to |asgs|
      invariant fresh(set') && fresh(set'.started) && set'.cfg == cfg && set'.Valid()
      invariant set'.captures.Keys == WantedUids(cfg, asgs[..i])
    {
      assert asgs[..i + 1][..i] == asgs[..i];
      set'.Apply(asgs[i]);
    }
    assert asgs[..|asgs|] == asgs;
  }

  /** Invalid assignments change nothing, however many follow a valid one. */
  lemma {:induction false} WantedAfterValid(cfg: Config, asgs: seq<Option<Assignment>>,
                                            invalid: seq<Option<Assignment>>, a: Option<Assignment>)
    requires Acceptable(cfg, a) && forall x <- invalid :: !Acceptable(cfg, x)
    ensures WantedUids(cfg, asgs + [a] + invalid) == UidsOf(a.value.targets)
    decreases |invalid|
  {
    if invalid == [] {
      assert asgs + [a] + invalid == asgs + [a];
    } else {
      var n := |invalid| - 1;
      assert (asgs + [a] + invalid)[..|asgs| + 1 + n] == asgs + [a] + invalid[..n];
      WantedAfterValid(cfg, asgs, invalid[..n], a);
    }
  }
}
