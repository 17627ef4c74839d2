/** The Pod status maclet reports, and how it survives update conflicts. */
module PodStatuses {
  import opened Text
  import opened AddressPlan

  /** The four condition types every kubelet reports, and any other. */
  datatype Kind = PodScheduled | Initialized | Ready | ContainersReady | Other(name: string)

  datatype Condition = Condition(kind: Kind, status: bool, transition: int, reason: string, message: string)

  datatype Terminated = Terminated(reason: string, message: string, exitCode: int, startedAt: int, finishedAt: int)
  datatype Waiting = Waiting(reason: string, message: string)

  /** The three pointers of a container state, at most one of which should be set. */
  datatype ContainerState =
    ContainerState(running: Option<int>, terminated: Option<Terminated>, waiting: Option<Waiting>)

  datatype ContainerStatus =
    ContainerStatus(name: string, image: string, ready: bool, restartCount: Int32, state: ContainerState)

  /** The Maclet... reasons a status is computed with; a computed status never carries one. */
  datatype Cause =
    | UnsupportedPod | NetworkSetupFailed | AddressAllocationFailed | InvalidPodIP
    | MackerUnavailable | MackerLaunchFailed | OwnershipPersistFailed
    | WorkloadRunning | WorkloadCompleted | WorkloadExited | WorkloadFailed | WorkloadDeleted
    | NoCause

  /** A Pod's phase: the four maclet reports, or any other text. */
  datatype Phase = Pending | Running | Succeeded | Failed | Unknown(text: string)

  datatype PodStatus = PodStatus(phase: Phase, podIP: IPText, podIPs: seq<IPText>, hostIP: IPText, reason: string,
                                 message: string, conditions: seq<Condition>, containers: seq<ContainerStatus>)

  datatype ContainerSpec = ContainerSpec(name: string, image: string)

  datatype Pod = Pod(namespace: string, name: string, uid: string, resourceVersion: string,
                     containers: seq<ContainerSpec>, status: PodStatus)

  datatype Inspection = Inspection(exitCode: Option<int>, startedAt: Option<int>, finishedAt: Option<int>,
                                   terminationReason: string, terminationSignal: string)

  // ---- Conditions --------------------------------------------------------------------------

  ghost function OfKind(conditions: seq<Condition>, kind: Kind, wanted: bool): seq<Condition> {
    if conditions == [] then []
    else
      OfKind(conditions[..|conditions| - 1], kind, wanted) +
      if (conditions[|conditions| - 1].kind == kind) == wanted then [conditions[|conditions| - 1]] else []
  }

  lemma OfKindSnoc(conditions: seq<Condition>, c: Condition, kind: Kind, wanted: bool)
    ensures OfKind(conditions + [c], kind, wanted) ==
              OfKind(conditions, kind, wanted) + if (c.kind == kind) == wanted then [c] else []
  {
    assert (conditions + [c])[..|conditions|] == conditions;
  }

  lemma NoneOfKind(kind: Kind)
    ensures forall wanted :: OfKind([], kind, wanted) == []
  {
  }

  /** Seen from any other kind, a list keeps exactly the members of that kind. */
  lemma {:induction false} OfOtherKind(conditions: seq<Condition>, kind: Kind, other: Kind)
    requires kind != other
    ensures OfKind(OfKind(conditions, kind, false), other, true) == OfKind(conditions, other, true)
  {
    if conditions != [] {
      var c, rest := conditions[|conditions| - 1], conditions[..|conditions| - 1];
      OfOtherKind(rest, kind, other);
      if c.kind == kind {
        assert OfKind(conditions, kind, false) == OfKind(rest, kind, false);
        assert OfKind(conditions, other, true) == OfKind(rest, other, true);
      } else {
        OfKindSnoc(OfKind(rest, kind, false), c, other, true);
      }
    }
  }

  /** setPodCondition: the first of its kind is replaced where it stands, later ones go, a missing one is added. */
  method SetPodCondition(conditions: seq<Condition>, condition: Condition)
    returns (updated: seq<Condition>, ghost first: nat)
    ensures OfKind(updated, condition.kind, true) == [condition]
    ensures OfKind(updated, condition.kind, false) == OfKind(conditions, condition.kind, false)
    ensures first <= |conditions| && forall j :: 0 <= j < first ==> conditions[j].kind != condition.kind
    ensures first < |conditions| ==> conditions[first].kind == condition.kind
    ensures first < |updated| && updated[first] == condition && updated[..first] == conditions[..first]
  {
    hide OfKind;
    var kind := condition.kind;
    updated := [];
    first := 0;
    var found := false;
    NoneOfKind(kind);
    for i := 0 to |conditions|
      invariant OfKind(updated, kind, true) == if found then [condition] else []
      invariant OfKind(updated, kind, false) == OfKind(conditions[..i], kind, false)
      invariant first <= i && forall j :: 0 <= j < first ==> conditions[j].kind != kind
      invariant if !found then first == i && updated == conditions[..i]
                else first < i && conditions[first].kind == kind
                     && first < |updated| && updated[first] == condition && updated[..first] == conditions[..first]
    {
      var existing := conditions[i];
      assert conditions[..i + 1] == conditions[..i] + [existing];
      OfKindSnoc(conditions[..i], existing, kind, false);
      if existing.kind == kind {
        if !found {
          OfKindSnoc(updated, condition, kind, true);
          OfKindSnoc(updated, condition, kind, false);
          updated := updated + [condition];
          found := true;
        }
        continue;
      }
      OfKindSnoc(updated, existing, kind, true);
      OfKindSnoc(updated, existing, kind, false);
      updated := updated + [existing];
      first := if found then first else i + 1;
    }
    assert conditions[..|conditions|] == conditions;
    if !found {
      OfKindSnoc(updated, condition, kind, true);
      OfKindSnoc(updated, condition, kind, false);
      updated := updated + [condition];
    }
  }

  // ---- The status --------------------------------------------------------------------------

  function Reason(kind: Kind, ready: bool): string {
    match kind
    case PodScheduled => "PodScheduled"
    case Initialized => "PodInitialized"
    case _ => if ready then "ContainersReady" else "ContainersNotReady"
  }

  function Message(kind: Kind, ready: bool): string {
    match kind
    case PodScheduled => "Pod was successfully assigned to this node"
    case Initialized => "Pod initialization completed"
    case _ => if ready then "containers are ready" else "containers are not ready"
  }

  /** The standard condition of a kind: scheduling and initialization are done, readiness is as given. */
  ghost predicate StandardCondition(c: Condition, kind: Kind, ready: bool, stamp: int) {
    && c.kind == kind && c.transition == stamp
    && c.status == (kind == PodScheduled || kind == Initialized || ready)
    && (kind == PodScheduled ==>
          c.reason == "PodScheduled" && c.message == "Pod was successfully assigned to this node")
    && (kind == Initialized ==> c.reason == "PodInitialized" && c.message == "Pod initialization completed")
    && (kind == Ready || kind == ContainersReady ==>
          if ready then c.reason == "ContainersReady" && c.message == "containers are ready"
          else c.reason == "ContainersNotReady" && c.message == "containers are not ready")
  }

  ghost predicate EachKindOnce(conditions: seq<Condition>, ready: bool, stamp: int) {
    forall k: Kind :: !k.Other? ==>
      |OfKind(conditions, k, true)| == 1 && StandardCondition(OfKind(conditions, k, true)[0], k, ready, stamp)
  }

  ghost predicate OneState(state: ContainerState) {
    || (state.running.Some? && state.terminated.None? && state.waiting.None?)
    || (state.running.None? && state.terminated.Some? && state.waiting.None?)
    || (state.running.None? && state.terminated.None? && state.waiting.Some?)
  }

  predicate Terminal(phase: Phase) {
    phase == Succeeded || phase == Failed
  }

  /** What a reported status says, whatever Pod object it is computed on. */
  ghost predicate Reports(s: PodStatus, hostIP: IPText, phase: Phase, podIP: IPText, message: string,
                          running: bool, restartCount: Int32, stamp: int) {
    var ready := running && phase == Running;
    && s.phase == phase && s.podIP == podIP && s.hostIP == hostIP && s.message == message && s.reason == ""
    && s.podIPs == (if podIP == Unset then [] else [podIP])
    && EachKindOnce(s.conditions, ready, stamp)
    && |s.containers| == 1
    && s.containers[0].ready == ready && s.containers[0].restartCount == restartCount
    && OneState(s.containers[0].state)
    && (s.containers[0].state.running.Some? <==> running)
    && (s.containers[0].state.terminated.Some? <==> !running && Terminal(phase))
  }

  /** The part of the four updates that one more update of another kind keeps. */
  lemma OtherKindKept(before: seq<Condition>, after: seq<Condition>, c: Condition, kind: Kind)
    requires OfKind(after, c.kind, false) == OfKind(before, c.kind, false) && kind != c.kind
    ensures OfKind(after, kind, true) == OfKind(before, kind, true)
  {
    OfOtherKind(before, c.kind, kind);
    OfOtherKind(after, c.kind, kind);
  }

  /** One update leaves the list of every other kind as it was. */
  method Update(conditions: seq<Condition>, condition: Condition) returns (updated: seq<Condition>)
    ensures OfKind(updated, condition.kind, true) == [condition]
    ensures forall kind :: kind != condition.kind ==> OfKind(updated, kind, true) == OfKind(conditions, kind, true)
  {
    hide OfKind;
    ghost var first;
    updated, first := SetPodCondition(conditions, condition);
    forall kind | kind != condition.kind
      ensures OfKind(updated, kind, true) == OfKind(conditions, kind, true)
    {
      OtherKindKept(conditions, updated, condition, kind);
    }
  }

  method StandardConditions(conditions: seq<Condition>, ready: bool, stamp: int) returns (r: seq<Condition>)
    ensures EachKindOnce(r, ready, stamp)
    ensures forall kind: Kind :: kind.Other? ==> OfKind(r, kind, true) == OfKind(conditions, kind, true)
  {
    hide OfKind;
    r := Update(conditions,
                Condition(PodScheduled, true, stamp, Reason(PodScheduled, ready), Message(PodScheduled, ready)));
    r := Update(r, Condition(Initialized, true, stamp, Reason(Initialized, ready), Message(Initialized, ready)));
    r := Update(r, Condition(Ready, ready, stamp, Reason(Ready, ready), Message(Ready, ready)));
    r := Update(r, Condition(ContainersReady, ready, stamp,
                             Reason(ContainersReady, ready), Message(ContainersReady, ready)));
  }

  function TerminationNote(inspection: Inspection): string {
    if inspection.terminationReason == "" && inspection.terminationSignal == "" then ""
    else
      "; Macker termination: " +
      if inspection.terminationSignal == "" then inspection.terminationReason
      else (if inspection.terminationReason == "" then "" else inspection.terminationReason + "; ")
           + "signal=" + inspection.terminationSignal
  }

  function WaitingReason(reason: Cause): string {
    if reason == UnsupportedPod then "CreateContainerConfigError"
    else if reason == MackerLaunchFailed then "RunContainerError"
    else "ContainerCreating"
  }

  function TerminatedReason(phase: Phase): string {
    if phase == Succeeded then "Completed" else "Error"
  }

  /** A terminated state: completed or not, and what Macker's inspection knows of it, as far as it knows anything. */
  ghost predicate TerminatedFor(t: Terminated, phase: Phase, message: string, inspection: Option<Inspection>,
                                stamp: int) {
    var exitCode := if inspection.Some? then inspection.value.exitCode else None;
    var startedAt := if inspection.Some? then inspection.value.startedAt else None;
    var finishedAt := if inspection.Some? then inspection.value.finishedAt else None;
    var why := if inspection.Some? then inspection.value.terminationReason else "";
    var signal := if inspection.Some? then inspection.value.terminationSignal else "";
    && (phase == Succeeded ==> t.reason == "Completed") && (phase == Failed ==> t.reason == "Error")
    && t.exitCode == (if exitCode.Some? then exitCode.value else 0)
    && t.startedAt == (if startedAt.Some? then startedAt.value else 0)
    && t.finishedAt == (if finishedAt.Some? then finishedAt.value else stamp)
    && MessageFor(t.message, message, why, signal)
  }

  /** A waiting state: the two causes a user can do something about are named, all others are one. */
  ghost predicate WaitingFor(w: Waiting, reason: Cause, message: string) {
    && w.message == message
    && (reason == UnsupportedPod ==> w.reason == "CreateContainerConfigError")
    && (reason == MackerLaunchFailed ==> w.reason == "RunContainerError")
    && (reason != UnsupportedPod && reason != MackerLaunchFailed ==> w.reason == "ContainerCreating")
  }

  /** The message of a terminated state, and why and by which signal Macker says it ended, if it says so. */
  ghost predicate MessageFor(told: string, message: string, why: string, signal: string) {
    && (why == "" && signal == "" ==> told == message)
    && (why != "" && signal == "" ==> told == message + ("; Macker termination: " + why))
    && (why == "" && signal != "" ==> told == message + ("; Macker termination: " + ("signal=" + signal)))
    && (why != "" && signal != "" ==>
          told == message + ("; Macker termination: " + (why + "; " + ("signal=" + signal))))
  }

  lemma NoNote(message: string)
    ensures MessageFor(message, message, "", "")
  {
  }

  lemma NoteTold(i: Inspection, message: string)
    ensures MessageFor(message + TerminationNote(i), message, i.terminationReason, i.terminationSignal)
  {
    NoteIs(i);
    hide TerminationNote;
    assert message + "" == message;
  }

  lemma NoteIs(i: Inspection)
    ensures var why, signal, note := i.terminationReason, i.terminationSignal, TerminationNote(i);
            && (why == "" && signal == "" ==> note == "")
            && (why != "" && signal == "" ==> note == "; Macker termination: " + why)
            && (why == "" && signal != "" ==> note == "; Macker termination: " + ("signal=" + signal))
            && (why != "" && signal != "" ==> note == "; Macker termination: " + (why + "; " + ("signal=" + signal)))
  {
    assert "" + ("signal=" + i.terminationSignal) == "signal=" + i.terminationSignal;
  }

  /** Other controllers' conditions, and the Pod's own container, are those of the Pod it was computed on. */
  ghost predicate KeepsOthers(status: PodStatus, pod: Pod) {
    && (forall kind: Kind :: kind.Other? ==>
          OfKind(status.conditions, kind, true) == OfKind(pod.status.conditions, kind, true))
    && |status.containers| == 1
    && (|pod.containers| > 0 ==>
          status.containers[0].name == pod.containers[0].name && status.containers[0].image == pod.containers[0].image)
    && (pod.containers == [] ==> status.containers[0].name == "" && status.containers[0].image == "")
  }

  /** The one state the container is put in. */
  ghost predicate StateFor(state: ContainerState, phase: Phase, reason: Cause, message: string, running: bool,
                           inspection: Option<Inspection>, stamp: int) {
    && OneState(state)
    && (state.running.Some? <==> running)
    && (state.terminated.Some? <==> !running && Terminal(phase))
    && (running ==> state.running == Some(stamp))
    && (state.terminated.Some? ==> TerminatedFor(state.terminated.value, phase, message, inspection, stamp))
    && (state.waiting.Some? ==> WaitingFor(state.waiting.value, reason, message))
  }

  method MakeState(phase: Phase, reason: Cause, message: string, running: bool, inspection: Option<Inspection>,
                   stamp: int) returns (state: ContainerState)
    ensures StateFor(state, phase, reason, message, running, inspection, stamp)
  {
    hide MessageFor, TerminationNote;
    NoNote(message);
    if inspection.Some? { NoteTold(inspection.value, message); }
    if running {
      state := ContainerState(Some(stamp), None, None);
    } else if phase == Succeeded || phase == Failed {
      var terminated := Terminated(TerminatedReason(phase), message, 0, 0, stamp);
      if inspection.Some? {
        var i := inspection.value;
        if i.exitCode.Some? { terminated := terminated.(exitCode := i.exitCode.value); }
        if i.startedAt.Some? { terminated := terminated.(startedAt := i.startedAt.value); }
        if i.finishedAt.Some? { terminated := terminated.(finishedAt := i.finishedAt.value); }
        terminated := terminated.(message := terminated.message + TerminationNote(i));
      }
      state := ContainerState(None, Some(terminated), None);
    } else {
      state := ContainerState(None, None, Some(Waiting(WaitingReason(reason), message)));
    }
  }

  /** desiredPodStatus */
  method DesiredPodStatus(pod: Pod, nodeIP: IPText, phase: Phase, ip: IPText, reason: Cause, message: string,
                          running: bool, restartCount: Int32, inspection: Option<Inspection>, stamp: int)
    returns (status: PodStatus)
    ensures Reports(status, nodeIP, phase, ip, message, running, restartCount, stamp)
    ensures KeepsOthers(status, pod)
    ensures StateFor(status.containers[0].state, phase, reason, message, running, inspection, stamp)
  {
    hide OfKind, EachKindOnce, TerminatedFor, WaitingFor;
    var ready := running && phase == Running;
    var conditions := StandardConditions(pod.status.conditions, ready, stamp);
    var container := ContainerStatus("", "", ready, restartCount, ContainerState(None, None, None));
    if |pod.containers| > 0 {
      container := container.(name := pod.containers[0].name, image := pod.containers[0].image);
    }
    var state := MakeState(phase, reason, message, running, inspection, stamp);
    container := container.(state := state);
    status := pod.status.(phase := phase, podIP := ip, podIPs := if ip == Unset then [] else [ip], hostIP := nodeIP,
                          reason := "", message := message, conditions := conditions, containers := [container]);
  }

  function FirstContainerRestartCount(status: PodStatus): Int32 {
    if |status.containers| == 0 then 0 else status.containers[0].restartCount
  }

  lemma ReportedFields(s: PodStatus, hostIP: IPText, phase: Phase, podIP: IPText, message: string,
                       running: bool, restartCount: Int32, stamp: int)
    requires Reports(s, hostIP, phase, podIP, message, running, restartCount, stamp)
    ensures s.phase == phase && s.podIP == podIP && s.hostIP == hostIP && s.message == message && s.reason == ""
    ensures |s.containers| == 1 && FirstContainerRestartCount(s) == restartCount
  {
  }

  // ---- The update loop ---------------------------------------------------------------------

  datatype PutResult = Stored(pod: Pod) | Conflict | OtherError

  predicate SameName(a: Pod, b: Pod) {
    a.namespace == b.namespace && a.name == b.name
  }

  /** The status subresource: PUTs and refreshed Pods are logged; a refreshed Pod may be any of that name. */
  class StatusServer {
    ghost var puts: seq<(Pod, PodStatus)>
    ghost var answers: seq<PutResult>
    ghost var refreshes: seq<Pod>
    /** GETs that failed. */
    ghost var lost: nat

    constructor ()
      ensures Fresh()
    {
      puts, answers, refreshes, lost := [], [], [], 0;
    }

    ghost predicate Fresh()
      reads this
    {
      puts == [] && answers == [] && refreshes == [] && lost == 0
    }

    method Put(current: Pod, status: PodStatus) returns (r: PutResult)
      modifies this
      ensures puts == old(puts) + [(current, status)] && answers == old(answers) + [r]
      ensures refreshes == old(refreshes) && lost == old(lost)
    {
      r := *;
      puts, answers := puts + [(current, status)], answers + [r];
    }

    method Get(current: Pod) returns (r: Option<Pod>)
      modifies this
      ensures puts == old(puts) && answers == old(answers)
      ensures lost == if r.Some? then old(lost) else old(lost) + 1
      ensures refreshes == if r.Some? then old(refreshes) + [r.value] else old(refreshes)
      ensures r.Some? ==> SameName(r.value, current)
    {
      r := *;
      if r.Some? {
        r := Some(r.value.(namespace := current.namespace, name := current.name));
        refreshes := refreshes + [r.value];
      } else {
        lost := lost + 1;
      }
    }
  }

  /** What one update sent: at most five PUTs, each retry saying the same on the Pod just refreshed. */
  ghost predicate SameReports(puts: seq<(Pod, PodStatus)>, refreshes: seq<Pod>, pod: Pod, desired: PodStatus,
                              hostIP: IPText, phase: Phase, podIP: IPText, message: string, restartCount: Int32,
                              stamp: int) {
    && |puts| <= 5 && |puts| - 1 <= |refreshes|
    && (|puts| > 0 ==> puts[0] == (pod, desired))
    && (forall p :: p in refreshes ==> SameName(p, pod))
    && forall i :: 0 < i < |puts| ==>
         && puts[i].0 == refreshes[i - 1] && KeepsOthers(puts[i].1, puts[i].0)
         && Reports(puts[i].1, hostIP, phase, podIP, message, phase == Running, restartCount, stamp)
         && StateFor(puts[i].1.containers[0].state, phase, NoCause, message, phase == Running, None, stamp)
  }

  /** Only a conflict is retried, and given up after the fifth; what counts is the answer to the last PUT. */
  ghost predicate Retried(answers: seq<PutResult>, lost: nat, stored: bool) {
    && 0 < |answers| <= 5 && (forall i :: 0 <= i < |answers| - 1 ==> answers[i].Conflict?)
    && (stored <==> answers[|answers| - 1].Stored?)
    && (answers[|answers| - 1].Conflict? ==> |answers| == 5 || lost > 0)
  }

  /** updatePodStatus: up to four conflicts, each retried on the refreshed Pod. */
  method UpdatePodStatus(server: StatusServer, pod: Pod, desired: PodStatus, stamp: int,
                         ghost hostIP: IPText, ghost podIP: IPText, ghost message: string,
                         ghost running: bool, ghost restartCount: Int32) returns (r: Option<Pod>)
    requires Reports(desired, hostIP, desired.phase, podIP, message, running, restartCount, stamp)
    requires server.Fresh()
    modifies server
    ensures |server.puts| == |server.answers| > 0 && Retried(server.answers, server.lost, r.Some?)
    ensures r.Some? ==> server.answers[|server.answers| - 1] == Stored(r.value)
    ensures SameReports(server.puts, server.refreshes, pod, desired, hostIP, desired.phase, podIP, message,
                        restartCount, stamp)
  {
    hide Reports, KeepsOthers, StateFor;
    ghost var phase := desired.phase;
    ReportedFields(desired, hostIP, phase, podIP, message, running, restartCount, stamp);
    var current, wanted := pod, desired;
    var attempt := 0;
    while attempt < 5
      invariant 0 <= attempt < 5 && |server.puts| == |server.refreshes| == attempt
      invariant |server.answers| == attempt && forall i :: 0 <= i < attempt ==> server.answers[i].Conflict?
      invariant SameReports(server.puts, server.refreshes, pod, desired, hostIP, phase, podIP, message, restartCount,
                            stamp)
      invariant if attempt == 0 then current == pod && wanted == desired
                else && current == server.refreshes[attempt - 1] && KeepsOthers(wanted, current)
                     && Reports(wanted, hostIP, phase, podIP, message, phase == Running, restartCount, stamp)
                     && |wanted.containers| == 1
                     && StateFor(wanted.containers[0].state, phase, NoCause, message, phase == Running, None, stamp)
      invariant wanted.phase == phase && wanted.podIP == podIP && wanted.hostIP == hostIP && wanted.message == message
      invariant wanted.reason == ""
      invariant FirstContainerRestartCount(wanted) == restartCount && SameName(current, pod)
    {
      var result := server.Put(current, wanted);
      if result.Stored? { return Some(result.pod); }
      if !result.Conflict? || attempt == 4 { return None; }
      var refreshed := server.Get(current);
      if refreshed.None? { return None; }
      current := refreshed.value;
      // The reason of a computed status is always empty.
      wanted := DesiredPodStatus(current, wanted.hostIP, wanted.phase, wanted.podIP, NoCause, wanted.message,
                                 wanted.phase == Running, FirstContainerRestartCount(wanted), None, stamp);
      ReportedFields(wanted, hostIP, phase, podIP, message, phase == Running, restartCount, stamp);
      attempt := attempt + 1;
    }
    return None;
  }

  /** What every PUT of one update says, all on Pods of one name, when running goes with the phase Running alone. */
  ghost predicate AllSay(puts: seq<(Pod, PodStatus)>, hostIP: IPText, phase: Phase, podIP: IPText, reason: Cause,
                         message: string, restartCount: Int32, inspection: Option<Inspection>, stamp: int) {
    && 0 < |puts| <= 5
    && forall i :: 0 <= i < |puts| ==>
         && SameName(puts[i].0, puts[0].0) && KeepsOthers(puts[i].1, puts[i].0)
         && Reports(puts[i].1, hostIP, phase, podIP, message, phase == Running, restartCount, stamp)
         && StateFor(puts[i].1.containers[0].state, phase, if i == 0 then reason else NoCause, message,
                     phase == Running, if i == 0 then inspection else None, stamp)
  }

  /** updateStatus, as maclet calls it: running exactly with the phase Running. */
  method UpdateStatus(server: StatusServer, pod: Pod, nodeIP: IPText, phase: Phase, ip: IPText, reason: Cause,
                      message: string, running: bool, restartCount: Int32, inspection: Option<Inspection>, stamp: int)
    returns (updated: Option<Pod>)
    requires running == (phase == Running) && server.Fresh()
    modifies server
    ensures AllSay(server.puts, nodeIP, phase, ip, reason, message, restartCount, inspection, stamp)
    ensures server.puts[0].0 == pod && |server.answers| == |server.puts|
    ensures Retried(server.answers, server.lost, updated.Some?)
  {
    hide Reports, KeepsOthers, StateFor, OfKind;
    var desired := DesiredPodStatus(pod, nodeIP, phase, ip, reason, message, running, restartCount, inspection, stamp);
    ReportedFields(desired, nodeIP, phase, ip, message, running, restartCount, stamp);
    updated := UpdatePodStatus(server, pod, desired, stamp, nodeIP, ip, message, running, restartCount);
  }

  /**
   * What a conflict changes: readiness survives unless a Running phase was reported as not running, and the kind of
   * container state survives exactly when running was reported with the phase Running and only then.
   */
  lemma RetryKeeps(first: PodStatus, again: PodStatus, hostIP: IPText, phase: Phase, podIP: IPText, message: string,
                   running: bool, restartCount: Int32, stamp: int, later: int)
    requires Reports(first, hostIP, phase, podIP, message, running, restartCount, stamp)
    requires Reports(again, hostIP, phase, podIP, message, phase == Running, restartCount, later)
    ensures (again.containers[0].ready == first.containers[0].ready) <==> (phase == Running ==> running)
    ensures StateKind(again.containers[0].state) == StateKind(first.containers[0].state) <==>
            running == (phase == Running)
  {
  }

  function StateKind(state: ContainerState): (bool, bool, bool) {
    (state.running.Some?, state.terminated.Some?, state.waiting.Some?)
  }
}
