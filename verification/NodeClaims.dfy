/** Several maclet instances and outside writers racing for one Node name. */
module NodeClaims {
  import opened Text
  import opened NodeOwnership

  /** One call's arguments that matter for ownership. */
  datatype Call = Call(expectedUID: nat, adopt: bool)

  /** Where an instance's call to ensureOwnedNode stands between two requests. */
  datatype Phase =
    | Idle
    | Started
    | Absent
    | Conflicted
    | Patching(snapshot: Node, verifyUID: nat)
    | Succeeded(node: Node)
    | Failed

  datatype Proc = Proc(call: Call, phase: Phase)

  /** The API server's object under this name, its counters, every instance's progress, and every success so far. */
  datatype System = System(
    server: Option<Node>,
    lastVersion: nat,
    lastUID: nat,
    procs: map<string, Proc>,
    won: set<(nat, string)>)

  /** One atomic request, a request whose answer was lost, or an outside writer. */
  datatype Step =
    | Begin(id: string, call: Call)
    | Get(id: string)
    | Post(id: string, answered: bool)
    | Refresh(id: string)
    | SendPatch(id: string, answered: bool)
    | RequestFails(id: string)
    | OutsideWrite(labels: map<string, string>, annotations: map<string, string>, taints: seq<Taint>)
    | OutsideCreate(labels: map<string, string>, annotations: map<string, string>, taints: seq<Taint>)
    | OutsideDelete

  predicate Instance(step: Step) {
    !step.OutsideWrite? && !step.OutsideCreate? && !step.OutsideDelete?
  }

  predicate ByInstance(step: Step, id: string) {
    Instance(step) && step.id == id
  }

  /** What a call does with a decoded Node: verify it, then return it or patch it. */
  function Decide(name: string, arch: string, id: string, node: Node, verifyUID: nat, adopt: bool): Phase {
    if !VerifyNodeOwnership(node, name, arch, id, verifyUID, adopt) then Failed
    else if NeedsPatch(node, arch, id) then Patching(node, verifyUID)
    else Succeeded(node)
  }

  /** The decoded answer to a patch is verified again, without adoption. */
  function Conclude(name: string, arch: string, id: string, node: Node, verifyUID: nat): Phase {
    if VerifyNodeOwnership(node, name, arch, id, verifyUID, false) then Succeeded(node) else Failed
  }

  function Enter(s: System, id: string, phase: Phase): System
    requires id in s.procs
  {
    s.(procs := s.procs[id := s.procs[id].(phase := phase)],
       won := if phase.Succeeded? then s.won + {(phase.node.uid, id)} else s.won)
  }

  function Store(s: System, node: Node): System {
    s.(server := Some(node.(resourceVersion := s.lastVersion + 1)), lastVersion := s.lastVersion + 1)
  }

  function Create(s: System, node: Node): System {
    Store(s.(lastUID := s.lastUID + 1), node.(uid := s.lastUID + 1))
  }

  predicate PatchMatches(s: System, id: string, arch: string) {
    && id in s.procs && s.procs[id].phase.Patching? && s.server.Some?
    && var version := s.procs[id].phase.snapshot.resourceVersion;
       (version == 0 || version == s.server.value.resourceVersion)
  }

  function Next(name: string, arch: string, s: System, step: Step): System {
    if Instance(step) && step.id !in s.procs then s
    else match step
      case Begin(id, call) =>
        if s.procs[id].phase.Idle? || s.procs[id].phase.Succeeded? || s.procs[id].phase.Failed?
        then s.(procs := s.procs[id := Proc(call, if id == "" then Failed else Started)])
        else s
      case Get(id) =>
        if !s.procs[id].phase.Started? then s
        else if s.server.None? then Enter(s, id, Absent)
        else Enter(s, id, Decide(name, arch, id, s.server.value, s.procs[id].call.expectedUID, s.procs[id].call.adopt))
      case Post(id, answered) =>
        if !s.procs[id].phase.Absent? then s
        else if s.server.Some? then Enter(s, id, if answered then Conflicted else Failed)
        else
          var t := Create(s, DesiredOwnedNode(name, arch, id));
          Enter(t, id, if answered then Decide(name, arch, id, t.server.value, 0, s.procs[id].call.adopt) else Failed)
      case Refresh(id) =>
        if !s.procs[id].phase.Conflicted? then s
        else if s.server.None? then Enter(s, id, Failed)
        else Enter(s, id, Decide(name, arch, id, s.server.value, s.procs[id].call.expectedUID, s.procs[id].call.adopt))
      case SendPatch(id, answered) =>
        if !s.procs[id].phase.Patching? then s
        else if !PatchMatches(s, id, arch) then Enter(s, id, Failed)
        else
          var Patching(snapshot, verifyUID) := s.procs[id].phase;
          var t := Store(s, ApplyPatch(s.server.value, PatchFor(snapshot, arch, id), 0));
          Enter(t, id, if answered then Conclude(name, arch, id, DecodeInto(snapshot, t.server.value), verifyUID)
                       else Failed)
      case RequestFails(id) =>
        if s.procs[id].phase.Idle? || s.procs[id].phase.Succeeded? then s else Enter(s, id, Failed)
      case OutsideWrite(labels, annotations, taints) =>
        if s.server.None? then s
        else Store(s, s.server.value.(labels := labels, annotations := annotations, taints := taints))
      case OutsideCreate(labels, annotations, taints) =>
        if s.server.Some? then s
        else Create(s, Node(name, 0, 0, labels, annotations, taints))
      case OutsideDelete => s.(server := None)
  }

  function After(name: string, arch: string, s: System, steps: seq<Step>): System {
    if steps == [] then s
    else Next(name, arch, After(name, arch, s, steps[..|steps| - 1]), steps[|steps| - 1])
  }

  /** No call under way and no success yet; the Node may already exist, with or without a marker. */
  ghost predicate Initial(s: System) {
    && s.won == {}
    && (s.server.Some? ==> 0 < s.server.value.resourceVersion <= s.lastVersion && 0 < s.server.value.uid <= s.lastUID)
    && forall id :: id in s.procs ==> s.procs[id].phase.Idle?
  }

  // ---- Safety with arbitrary outside writers -----------------------------------------------

  /** What one call remembers about its Node. */
  ghost predicate PhaseOk(name: string, arch: string, s: System, id: string)
    requires id in s.procs
  {
    match s.procs[id].phase
    case Patching(snapshot, verifyUID) =>
      && id != ""
      && 0 < snapshot.resourceVersion <= s.lastVersion
      && (exists adopt :: VerifyNodeOwnership(snapshot, name, arch, id, verifyUID, adopt))
      && (s.server.Some? && s.server.value.resourceVersion == snapshot.resourceVersion ==> s.server.value == snapshot)
    case Succeeded(node) => id != "" && node.name == name && Converged(node, arch, id) && (node.uid, id) in s.won
    case Idle => true
    case Failed => true
    case _ => id != ""
  }

  /** A resource version identifies one content of one object, so a matching patch meets what was verified. */
  ghost predicate Consistent(name: string, arch: string, s: System) {
    && (s.server.Some? ==> 0 < s.server.value.resourceVersion <= s.lastVersion && 0 < s.server.value.uid <= s.lastUID)
    && forall id :: id in s.procs ==> PhaseOk(name, arch, s, id)
  }

  lemma OthersUntouched(name: string, arch: string, s: System, step: Step, id: string)
    requires !ByInstance(step, id)
    ensures var t := Next(name, arch, s, step);
            (id in t.procs <==> id in s.procs) && (id in s.procs ==> t.procs[id] == s.procs[id])
  {
    hide VerifyNodeOwnership, NeedsPatch, Decide, Conclude;
  }

  lemma VerifiedName(node: Node, name: string, arch: string, id: string, uid: nat, adopt: bool)
    requires VerifyNodeOwnership(node, name, arch, id, uid, adopt)
    ensures node.name == name
  {
  }

  lemma DecideOk(name: string, arch: string, s: System, id: string, verifyUID: nat, adopt: bool)
    requires Consistent(name, arch, s) && s.server.Some? && id in s.procs && id != ""
    ensures var t := Enter(s, id, Decide(name, arch, id, s.server.value, verifyUID, adopt));
            Consistent(name, arch, t)
  {
    hide VerifyNodeOwnership, NeedsPatch, Converged;
    var node := s.server.value;
    var t := Enter(s, id, Decide(name, arch, id, node, verifyUID, adopt));
    if VerifyNodeOwnership(node, name, arch, id, verifyUID, adopt) {
      NoPatchExactlyWhenConverged(node, name, arch, id, verifyUID, adopt);
      VerifiedName(node, name, arch, id, verifyUID, adopt);
    }
    forall other | other in t.procs ensures PhaseOk(name, arch, t, other) {
      if other != id { assert PhaseOk(name, arch, s, other); }
    }
  }

  /** Storing anything under a new version invalidates every snapshot. */
  lemma StoreOk(name: string, arch: string, s: System, node: Node)
    requires Consistent(name, arch, s) && 0 < node.uid <= s.lastUID
    ensures Consistent(name, arch, Store(s, node))
  {
    hide VerifyNodeOwnership, Converged;
    var t := Store(s, node);
    forall id | id in t.procs ensures PhaseOk(name, arch, t, id) { assert PhaseOk(name, arch, s, id); }
  }

  lemma EnterOk(name: string, arch: string, s: System, id: string, phase: Phase)
    requires Consistent(name, arch, s) && id in s.procs
    requires phase.Idle? || phase.Failed? || (id != "" && !phase.Patching? && !phase.Succeeded?) ||
             (id != "" && phase.Succeeded? && phase.node.name == name && Converged(phase.node, arch, id))
    ensures Consistent(name, arch, Enter(s, id, phase))
  {
    hide VerifyNodeOwnership, Converged;
    var t := Enter(s, id, phase);
    forall other | other in t.procs ensures PhaseOk(name, arch, t, other) { assert PhaseOk(name, arch, s, other); }
  }

  lemma CreateOk(name: string, arch: string, s: System, node: Node)
    requires Consistent(name, arch, s)
    ensures Consistent(name, arch, Create(s, node))
  {
    hide VerifyNodeOwnership, Converged;
    var t := s.(lastUID := s.lastUID + 1);
    forall id | id in t.procs ensures PhaseOk(name, arch, t, id) { assert PhaseOk(name, arch, s, id); }
    StoreOk(name, arch, t, node.(uid := t.lastUID));
  }

  /** A patch that goes through was made from exactly the object it changes, and its answer is that object converged. */
  lemma PatchMeetsSnapshot(name: string, arch: string, s: System, id: string)
    requires Consistent(name, arch, s) && PatchMatches(s, id, arch)
    ensures var Patching(snapshot, verifyUID) := s.procs[id].phase;
            var stored := ApplyPatch(s.server.value, PatchFor(snapshot, arch, id), s.lastVersion + 1);
            && s.server.value == snapshot && id != "" && stored.name == name
            && (Marked(s.server.value) ==> s.server.value.annotations[INSTANCE_ANNOTATION] == id)
            && Store(s, ApplyPatch(s.server.value, PatchFor(snapshot, arch, id), 0)).server == Some(stored)
            && DecodeInto(snapshot, stored) == stored
            && Conclude(name, arch, id, stored, verifyUID) == Succeeded(stored)
            && Converged(stored, arch, id) && Preserves(snapshot, stored, arch)
            && !NeedsPatch(stored, arch, id)
  {
    hide NeedsPatch, Converged, Preserves;
    assert PhaseOk(name, arch, s, id);
    var Patching(snapshot, verifyUID) := s.procs[id].phase;
    var adopt :| VerifyNodeOwnership(snapshot, name, arch, id, verifyUID, adopt);
    PatchConverges(snapshot, name, arch, id, verifyUID, adopt, s.lastVersion + 1);
  }

  lemma NextConsistent(name: string, arch: string, s: System, step: Step)
    requires Consistent(name, arch, s)
    ensures Consistent(name, arch, Next(name, arch, s, step))
  {
    hide VerifyNodeOwnership, Converged, NeedsPatch, PhaseOk, Preserves, Decide, Conclude;
    if Instance(step) && step.id !in s.procs { return; }
    if Instance(step) { StartedNamed(name, arch, s, step.id); }
    match step {
      case Begin(id, call) =>
        BeginOk(name, arch, s, id, call);
      case Get(id) =>
        if s.procs[id].phase.Started? {
          if s.server.None? { EnterOk(name, arch, s, id, Absent); }
          else { DecideOk(name, arch, s, id, s.procs[id].call.expectedUID, s.procs[id].call.adopt); }
        }
      case Post(id, answered) =>
        if s.procs[id].phase.Absent? {
          if s.server.Some? {
            EnterOk(name, arch, s, id, if answered then Conflicted else Failed);
          } else {
            var t := Create(s, DesiredOwnedNode(name, arch, id));
            CreateOk(name, arch, s, DesiredOwnedNode(name, arch, id));
            if answered { DecideOk(name, arch, t, id, 0, s.procs[id].call.adopt); }
            else { EnterOk(name, arch, t, id, Failed); }
          }
        }
      case Refresh(id) =>
        if s.procs[id].phase.Conflicted? {
          if s.server.None? { EnterOk(name, arch, s, id, Failed); }
          else { DecideOk(name, arch, s, id, s.procs[id].call.expectedUID, s.procs[id].call.adopt); }
        }
      case SendPatch(id, answered) =>
        if s.procs[id].phase.Patching? {
          if !PatchMatches(s, id, arch) {
            EnterOk(name, arch, s, id, Failed);
          } else {
            PatchMeetsSnapshot(name, arch, s, id);
            var stored := ApplyPatch(s.server.value, PatchFor(s.procs[id].phase.snapshot, arch, id), 0);
            StoreOk(name, arch, s, stored);
            var t := Store(s, stored);
            if answered { EnterOk(name, arch, t, id, Succeeded(t.server.value)); }
            else { EnterOk(name, arch, t, id, Failed); }
          }
        }
      case RequestFails(id) =>
        EnterOk(name, arch, s, id, Failed);
      case OutsideWrite(labels, annotations, taints) =>
        if s.server.Some? {
          StoreOk(name, arch, s, s.server.value.(labels := labels, annotations := annotations, taints := taints));
        }
      case OutsideCreate(labels, annotations, taints) =>
        CreateOk(name, arch, s, Node(name, 0, 0, labels, annotations, taints));
      case OutsideDelete =>
        DeleteOk(name, arch, s);
    }
  }

  lemma StartedNamed(name: string, arch: string, s: System, id: string)
    requires Consistent(name, arch, s) && id in s.procs
    ensures s.procs[id].phase.Idle? || s.procs[id].phase.Failed? || id != ""
  {
    assert PhaseOk(name, arch, s, id);
  }

  lemma BeginOk(name: string, arch: string, s: System, id: string, call: Call)
    requires Consistent(name, arch, s) && id in s.procs
    ensures Consistent(name, arch, Next(name, arch, s, Begin(id, call)))
  {
    hide VerifyNodeOwnership, Converged;
    var t := Next(name, arch, s, Begin(id, call));
    forall other | other in t.procs ensures PhaseOk(name, arch, t, other) {
      assert PhaseOk(name, arch, s, other);
    }
  }

  lemma DeleteOk(name: string, arch: string, s: System)
    requires Consistent(name, arch, s)
    ensures Consistent(name, arch, s.(server := None))
  {
    hide VerifyNodeOwnership, Converged;
    var t := s.(server := None);
    forall id | id in t.procs ensures PhaseOk(name, arch, t, id) { assert PhaseOk(name, arch, s, id); }
  }

  lemma {:induction false} RunsConsistent(name: string, arch: string, s: System, steps: seq<Step>)
    requires Initial(s)
    ensures Consistent(name, arch, After(name, arch, s, steps))
  {
    hide Next;
    if steps != [] {
      RunsConsistent(name, arch, s, steps[..|steps| - 1]);
      NextConsistent(name, arch, After(name, arch, s, steps[..|steps| - 1]), steps[|steps| - 1]);
    }
  }

  // ---- Which Nodes a call takes ------------------------------------------------------------

  /** At its k-th step the instance read this object. */
  ghost predicate ReadAt(name: string, arch: string, s: System, steps: seq<Step>, k: nat, id: string, node: Node) {
    && k < |steps| && (steps[k] == Get(id) || steps[k] == Refresh(id))
    && After(name, arch, s, steps[..k]).server == Some(node)
  }

  /** At its k-th step it created the object of this UID. */
  ghost predicate CreatedAt(name: string, arch: string, s: System, steps: seq<Step>, k: nat, id: string, uid: nat) {
    && k < |steps| && steps[k] == Post(id, true)
    && After(name, arch, s, steps[..k]).server.None? && uid == After(name, arch, s, steps[..k]).lastUID + 1
  }

  /** No call of the instance began since. */
  ghost predicate SameCall(name: string, arch: string, s: System, steps: seq<Step>, k: nat, id: string) {
    forall j :: k < j <= |steps| ==>
      var t := After(name, arch, s, steps[..j]); id in t.procs && !t.procs[id].phase.Started?
  }

  /** The object of this UID was read in this call, and was the instance's to take. */
  ghost predicate TookRightfully(name: string, arch: string, s: System, steps: seq<Step>, k: nat, id: string,
                                 call: Call, uid: nat) {
    exists node :: ReadAt(name, arch, s, steps, k, id, node) && node.uid == uid &&
                   Rightful(node, name, arch, id, call.expectedUID, call.adopt)
  }

  ghost predicate ReadRightfully(name: string, arch: string, s: System, steps: seq<Step>, k: nat, id: string,
                                 call: Call, node: Node) {
    && ReadAt(name, arch, s, steps, k, id, node) && Rightful(node, name, arch, id, call.expectedUID, call.adopt)
    && SameCall(name, arch, s, steps, k, id)
  }

  /** What a call patches, it has read and may take; what it returns too, or it created it. */
  ghost predicate Entitled(name: string, arch: string, s: System, steps: seq<Step>, id: string) {
    var t := After(name, arch, s, steps);
    id in t.procs ==>
      match t.procs[id].phase
      case Patching(snapshot, _) => exists k :: ReadRightfully(name, arch, s, steps, k, id, t.procs[id].call, snapshot)
      case Succeeded(node) =>
        exists k :: SameCall(name, arch, s, steps, k, id) &&
                    (CreatedAt(name, arch, s, steps, k, id, node.uid) ||
                     TookRightfully(name, arch, s, steps, k, id, t.procs[id].call, node.uid))
      case _ => true
  }

  lemma SameCallMore(name: string, arch: string, s: System, steps: seq<Step>, k: nat, id: string)
    requires k < |steps| && SameCall(name, arch, s, steps[..|steps| - 1], k, id)
    requires var t := After(name, arch, s, steps); id in t.procs && !t.procs[id].phase.Started?
    ensures SameCall(name, arch, s, steps, k, id)
  {
    hide After;
    forall j | k < j <= |steps|
      ensures var t := After(name, arch, s, steps[..j]); id in t.procs && !t.procs[id].phase.Started?
    {
      if j < |steps| { assert steps[..|steps| - 1][..j] == steps[..j]; } else { assert steps[..j] == steps; }
    }
  }

  lemma ReadMore(name: string, arch: string, s: System, steps: seq<Step>, k: nat, id: string, node: Node)
    requires steps != [] && ReadAt(name, arch, s, steps[..|steps| - 1], k, id, node)
    ensures ReadAt(name, arch, s, steps, k, id, node)
  {
    hide After;
    assert steps[..|steps| - 1][..k] == steps[..k];
  }

  lemma CreatedMore(name: string, arch: string, s: System, steps: seq<Step>, k: nat, id: string, uid: nat)
    requires steps != [] && CreatedAt(name, arch, s, steps[..|steps| - 1], k, id, uid)
    ensures CreatedAt(name, arch, s, steps, k, id, uid)
  {
    hide After;
    assert steps[..|steps| - 1][..k] == steps[..k];
  }

  /** A call that is where it was is entitled to what it was entitled to. */
  lemma StillEntitled(name: string, arch: string, s: System, steps: seq<Step>, id: string)
    requires steps != [] && Entitled(name, arch, s, steps[..|steps| - 1], id)
    requires var before, t := After(name, arch, s, steps[..|steps| - 1]), After(name, arch, s, steps);
             id in before.procs && id in t.procs && t.procs[id] == before.procs[id]
    ensures Entitled(name, arch, s, steps, id)
  {
    hide After, ReadAt, CreatedAt, SameCall, Rightful;
    var init := steps[..|steps| - 1];
    var proc := After(name, arch, s, steps).procs[id];
    match proc.phase {
      case Patching(snapshot, _) =>
        var k :| ReadRightfully(name, arch, s, init, k, id, proc.call, snapshot);
        ReadMore(name, arch, s, steps, k, id, snapshot);
        ReadWithin(name, arch, s, init, k, id, snapshot);
        SameCallMore(name, arch, s, steps, k, id);
        assert ReadRightfully(name, arch, s, steps, k, id, proc.call, snapshot);
      case Succeeded(node) =>
        var k :| SameCall(name, arch, s, init, k, id) &&
                 (CreatedAt(name, arch, s, init, k, id, node.uid) ||
                  TookRightfully(name, arch, s, init, k, id, proc.call, node.uid));
        if CreatedAt(name, arch, s, init, k, id, node.uid) {
          CreatedMore(name, arch, s, steps, k, id, node.uid);
          CreatedWithin(name, arch, s, init, k, id, node.uid);
        } else {
          var read :| ReadAt(name, arch, s, init, k, id, read) && read.uid == node.uid &&
                      Rightful(read, name, arch, id, proc.call.expectedUID, proc.call.adopt);
          ReadMore(name, arch, s, steps, k, id, read);
          ReadWithin(name, arch, s, init, k, id, read);
        }
        SameCallMore(name, arch, s, steps, k, id);
      case _ =>
    }
  }

  lemma ReadWithin(name: string, arch: string, s: System, steps: seq<Step>, k: nat, id: string, node: Node)
    requires ReadAt(name, arch, s, steps, k, id, node)
    ensures k < |steps|
  {
  }

  lemma CreatedWithin(name: string, arch: string, s: System, steps: seq<Step>, k: nat, id: string, uid: nat)
    requires CreatedAt(name, arch, s, steps, k, id, uid)
    ensures k < |steps|
  {
  }

  /** What a call does with an object it reads, it does as one that may take it. */
  lemma DecidedRightfully(name: string, arch: string, id: string, node: Node, call: Call)
    ensures var phase := Decide(name, arch, id, node, call.expectedUID, call.adopt);
            && (phase.Failed? <==> !Rightful(node, name, arch, id, call.expectedUID, call.adopt))
            && (phase.Failed? || phase == Succeeded(node) || phase == Patching(node, call.expectedUID))
  {
    hide NeedsPatch, VerifyNodeOwnership, Rightful;
    VerifiedExactly(node, name, arch, id, call.expectedUID, call.adopt);
  }

  lemma ReadEntitles(name: string, arch: string, s: System, steps: seq<Step>, id: string, node: Node)
    requires steps != []
    requires var before := After(name, arch, s, steps[..|steps| - 1]);
             id in before.procs && before.server == Some(node)
    requires steps[|steps| - 1] == Get(id) || steps[|steps| - 1] == Refresh(id)
    requires var t, call := After(name, arch, s, steps), After(name, arch, s, steps[..|steps| - 1]).procs[id].call;
             id in t.procs && t.procs[id] == Proc(call, Decide(name, arch, id, node, call.expectedUID, call.adopt))
    ensures Entitled(name, arch, s, steps, id)
  {
    hide After, Decide, Rightful;
    var n := |steps| - 1;
    var t := After(name, arch, s, steps);
    var call := t.procs[id].call;
    DecidedRightfully(name, arch, id, node, call);
    assert ReadAt(name, arch, s, steps, n, id, node);
    assert SameCall(name, arch, s, steps, n, id) by { assert steps[..n + 1] == steps; }
    if t.procs[id].phase.Patching? {
      assert ReadRightfully(name, arch, s, steps, n, id, call, node);
    } else if t.procs[id].phase.Succeeded? {
      assert TookRightfully(name, arch, s, steps, n, id, call, node.uid);
    }
  }

  /** A Node just created needs no patch. */
  lemma CreatedSucceeds(name: string, arch: string, id: string, uid: nat, version: nat, adopt: bool)
    requires id != ""
    ensures var node := DesiredOwnedNode(name, arch, id).(uid := uid, resourceVersion := version);
            Decide(name, arch, id, node, 0, adopt) == Succeeded(node)
  {
    hide NeedsPatch;
    var node := DesiredOwnedNode(name, arch, id).(uid := uid, resourceVersion := version);
    assert node.taints[0] == MANAGED_TAINT;
    NoPatchExactlyWhenConverged(node, name, arch, id, 0, adopt);
  }

  lemma CreationEntitles(name: string, arch: string, s: System, steps: seq<Step>, id: string)
    requires steps != [] && steps[|steps| - 1] == Post(id, true) && id != ""
    requires var before := After(name, arch, s, steps[..|steps| - 1]);
             id in before.procs && before.procs[id].phase.Absent? && before.server.None?
    ensures Entitled(name, arch, s, steps, id)
  {
    hide NeedsPatch, VerifyNodeOwnership, Rightful, Decide;
    var n := |steps| - 1;
    var before := After(name, arch, s, steps[..n]);
    var t := After(name, arch, s, steps);
    CreatedSucceeds(name, arch, id, before.lastUID + 1, before.lastVersion + 1, before.procs[id].call.adopt);
    assert CreatedAt(name, arch, s, steps, n, id, before.lastUID + 1);
    assert SameCall(name, arch, s, steps, n, id) by { assert steps[..n + 1] == steps; }
  }

  /** The answer to a patch is the object it was made for. */
  lemma PatchEntitles(name: string, arch: string, s: System, steps: seq<Step>, id: string)
    requires steps != [] && Initial(s) && Entitled(name, arch, s, steps[..|steps| - 1], id)
    requires steps[|steps| - 1] == SendPatch(id, true)
    requires PatchMatches(After(name, arch, s, steps[..|steps| - 1]), id, arch)
    ensures Entitled(name, arch, s, steps, id)
  {
    hide NeedsPatch, VerifyNodeOwnership, Rightful, ReadAt, SameCall, Converged;
    var n := |steps| - 1;
    var before, t := After(name, arch, s, steps[..n]), After(name, arch, s, steps);
    RunsConsistent(name, arch, s, steps[..n]);
    PatchMeetsSnapshot(name, arch, before, id);
    var snapshot, call := before.procs[id].phase.snapshot, before.procs[id].call;
    assert t.procs[id].call == call && t.procs[id].phase.Succeeded? && t.procs[id].phase.node.uid == snapshot.uid;
    hide After, Preserves, PatchMatches;
    var k :| ReadRightfully(name, arch, s, steps[..n], k, id, call, snapshot);
    ReadMore(name, arch, s, steps, k, id, snapshot);
    ReadWithin(name, arch, s, steps[..n], k, id, snapshot);
    SameCallMore(name, arch, s, steps, k, id);
    assert TookRightfully(name, arch, s, steps, k, id, call, snapshot.uid);
  }

  /** In every run every call patches and returns only what it may. */
  lemma {:induction false} RunsEntitled(name: string, arch: string, s: System, steps: seq<Step>, id: string)
    requires Initial(s)
    ensures Entitled(name, arch, s, steps, id)
  {
    hide NeedsPatch, VerifyNodeOwnership, Decide, Conclude, PatchMatches;
    if steps != [] {
      var n := |steps| - 1;
      var before, step := After(name, arch, s, steps[..n]), steps[n];
      RunsEntitled(name, arch, s, steps[..n], id);
      hide Entitled;
      if id !in before.procs {
        NotTaken(name, arch, s, steps, id);
      } else if !ByInstance(step, id) {
        OthersUntouched(name, arch, before, step, id);
        StillEntitled(name, arch, s, steps, id);
      } else {
        RunsConsistent(name, arch, s, steps[..n]);
        StartedNamed(name, arch, before, id);
        OwnStepEntitles(name, arch, s, steps, id);
      }
    }
  }

  lemma NotTaken(name: string, arch: string, s: System, steps: seq<Step>, id: string)
    requires steps != [] && id !in After(name, arch, s, steps[..|steps| - 1]).procs
    ensures Entitled(name, arch, s, steps, id)
  {
    hide NeedsPatch, VerifyNodeOwnership, Decide, Conclude, PatchMatches;
  }

  lemma NothingToTake(name: string, arch: string, s: System, steps: seq<Step>, id: string)
    requires var t := After(name, arch, s, steps);
             id in t.procs && !t.procs[id].phase.Patching? && !t.procs[id].phase.Succeeded?
    ensures Entitled(name, arch, s, steps, id)
  {
    hide After;
  }

  lemma OwnStepEntitles(name: string, arch: string, s: System, steps: seq<Step>, id: string)
    requires steps != [] && Initial(s) && Entitled(name, arch, s, steps[..|steps| - 1], id)
    requires ByInstance(steps[|steps| - 1], id)
    requires var before := After(name, arch, s, steps[..|steps| - 1]);
             id in before.procs && (before.procs[id].phase.Idle? || before.procs[id].phase.Failed? || id != "")
    ensures Entitled(name, arch, s, steps, id)
  {
    hide NeedsPatch, VerifyNodeOwnership, Decide, Conclude, PatchMatches, Entitled;
    var before, t := After(name, arch, s, steps[..|steps| - 1]), After(name, arch, s, steps);
    var phase := before.procs[id].phase;
    var step := steps[|steps| - 1];
    if t.procs[id] == before.procs[id] {
      StillEntitled(name, arch, s, steps, id);
    } else if (step.Get? || step.Refresh?) && before.server.Some? {
      ReadEntitles(name, arch, s, steps, id, before.server.value);
    } else if step.Post? && step.answered && before.server.None? {
      CreationEntitles(name, arch, s, steps, id);
    } else if step.SendPatch? && step.answered && PatchMatches(before, id, arch) {
      PatchEntitles(name, arch, s, steps, id);
    } else {
      NothingToTake(name, arch, s, steps, id);
    }
  }

  /**
   * Whatever outside writers do, a maclet request changes only the Node its call has read and may take: its own, or one
   * without a marker that it may adopt. No Node carrying another instance's marker is ever changed.
   */
  lemma NoForeignNodeChanged(name: string, arch: string, s: System, steps: seq<Step>, step: Step)
    requires Initial(s) && Instance(step)
    ensures var before := After(name, arch, s, steps);
            var after := Next(name, arch, before, step);
            before.server.Some? && after.server != before.server ==>
              && step.SendPatch? && after.server.Some?
              && Preserves(before.server.value, after.server.value, arch)
              && (Marked(before.server.value) ==> before.server.value.annotations[INSTANCE_ANNOTATION] == step.id)
              && step.id in before.procs
              && exists k :: ReadRightfully(name, arch, s, steps, k, step.id, before.procs[step.id].call,
                                            before.server.value)
  {
    hide VerifyNodeOwnership, NeedsPatch, Preserves, PatchMatches, ReadRightfully;
    var before := After(name, arch, s, steps);
    RunsConsistent(name, arch, s, steps);
    if step.SendPatch? && PatchMatches(before, step.id, arch) {
      PatchMeetsSnapshot(name, arch, before, step.id);
      RunsEntitled(name, arch, s, steps, step.id);
      PatchesSnapshot(before, step.id, arch);
    }
  }

  lemma PatchesSnapshot(s: System, id: string, arch: string)
    requires PatchMatches(s, id, arch)
    ensures id in s.procs && s.procs[id].phase.Patching?
  {
  }

  // ---- Mutual exclusion --------------------------------------------------------------------

  /** Outside writers may create and delete objects and change everything but an existing object's marker. */
  ghost predicate LeavesMarker(s: System, step: Step) {
    step.OutsideWrite? && s.server.Some? ==>
      && (INSTANCE_ANNOTATION in step.annotations <==> Marked(s.server.value))
      && (Marked(s.server.value) ==>
            step.annotations[INSTANCE_ANNOTATION] == s.server.value.annotations[INSTANCE_ANNOTATION])
  }

  ghost predicate MarkersLeftAlone(name: string, arch: string, s: System, steps: seq<Step>) {
    forall i :: 0 <= i < |steps| ==> LeavesMarker(After(name, arch, s, steps[..i]), steps[i])
  }

  /** One winner per object, and while the object lives its marker names the winner. */
  ghost predicate Exclusive(s: System) {
    && (forall u, i, j :: (u, i) in s.won && (u, j) in s.won ==> i == j)
    && (forall u, i :: (u, i) in s.won ==>
          && 0 < u <= s.lastUID
          && (s.server.Some? && s.server.value.uid == u ==>
                Marked(s.server.value) && s.server.value.annotations[INSTANCE_ANNOTATION] == i))
  }

  /** A success is always about the object as the server holds it, marked with the winner's ID. */
  lemma SuccessIsMarked(name: string, arch: string, s: System, step: Step)
    requires Consistent(name, arch, s)
    ensures var t := Next(name, arch, s, step);
            t.won == s.won || (Instance(step) && t.server.Some? && t.won == s.won + {(t.server.value.uid, step.id)} &&
              Marked(t.server.value) && t.server.value.annotations[INSTANCE_ANNOTATION] == step.id)
  {
    hide NeedsPatch, VerifyNodeOwnership, PhaseOk, Preserves, Converged;
    if Instance(step) && step.id in s.procs {
      StartedNamed(name, arch, s, step.id);
      if step.SendPatch? && PatchMatches(s, step.id, arch) {
        PatchMeetsSnapshot(name, arch, s, step.id);
        ConvergedMarked(Next(name, arch, s, step).server.value, arch, step.id);
      } else if step.Get? || step.Refresh? || step.Post? {
        var t := Next(name, arch, s, step);
        var call := s.procs[step.id].call;
        if t.server.Some? {
          DecidedMarked(name, arch, step.id, t.server.value, call.expectedUID, call.adopt);
          DecidedMarked(name, arch, step.id, t.server.value, 0, call.adopt);
        }
      }
    }
  }

  lemma ConvergedMarked(node: Node, arch: string, id: string)
    requires Converged(node, arch, id)
    ensures Marked(node) && node.annotations[INSTANCE_ANNOTATION] == id
  {
  }

  lemma DecidedMarked(name: string, arch: string, id: string, node: Node, verifyUID: nat, adopt: bool)
    ensures var phase := Decide(name, arch, id, node, verifyUID, adopt);
            phase.Succeeded? && id != "" ==>
              phase.node == node && Marked(node) && node.annotations[INSTANCE_ANNOTATION] == id
  {
    hide NeedsPatch, VerifyNodeOwnership;
    if VerifyNodeOwnership(node, name, arch, id, verifyUID, adopt) && id != "" {
      NoPatchExactlyWhenConverged(node, name, arch, id, verifyUID, adopt);
    }
  }

  /** No step moves the marker of a living object from one ID to another. */
  lemma MarkerStays(name: string, arch: string, s: System, step: Step)
    requires Consistent(name, arch, s) && LeavesMarker(s, step)
    ensures var t := Next(name, arch, s, step);
            && t.lastUID >= s.lastUID
            && (t.server.Some? && (s.server.None? || t.server.value.uid != s.server.value.uid) ==>
                  t.server.value.uid > s.lastUID)
            && (t.server.Some? && s.server.Some? && t.server.value.uid == s.server.value.uid &&
                Marked(s.server.value) ==>
                  Marked(t.server.value) &&
                  t.server.value.annotations[INSTANCE_ANNOTATION] == s.server.value.annotations[INSTANCE_ANNOTATION])
  {
    hide NeedsPatch, VerifyNodeOwnership, PhaseOk, Preserves, Decide, Conclude, Converged;
    if step.SendPatch? && PatchMatches(s, step.id, arch) {
      PatchMeetsSnapshot(name, arch, s, step.id);
      ConvergedMarked(Next(name, arch, s, step).server.value, arch, step.id);
    }
  }

  lemma NextExclusive(name: string, arch: string, s: System, step: Step)
    requires Consistent(name, arch, s) && Exclusive(s) && LeavesMarker(s, step)
    ensures Exclusive(Next(name, arch, s, step))
  {
    hide Next, Consistent, LeavesMarker;
    NextConsistent(name, arch, s, step);
    SuccessIsMarked(name, arch, s, step);
    MarkerStays(name, arch, s, step);
    ServerUID(name, arch, Next(name, arch, s, step));
  }

  lemma ServerUID(name: string, arch: string, s: System)
    requires Consistent(name, arch, s)
    ensures s.server.Some? ==> 0 < s.server.value.uid <= s.lastUID
  {
  }

  /** At most one instance ID ever succeeds on one Node object, under every interleaving. */
  lemma {:induction false} MutualExclusion(name: string, arch: string, s: System, steps: seq<Step>)
    requires Initial(s) && MarkersLeftAlone(name, arch, s, steps)
    ensures Exclusive(After(name, arch, s, steps))
  {
    hide Next, Exclusive, Consistent, LeavesMarker;
    if steps == [] {
      InitialExclusive(s);
    } else {
      var n := |steps| - 1;
      forall i | 0 <= i < n
        ensures LeavesMarker(After(name, arch, s, steps[..n][..i]), steps[..n][i])
      {
        assert steps[..n][..i] == steps[..i];
        assert LeavesMarker(After(name, arch, s, steps[..i]), steps[i]);
      }
      MutualExclusion(name, arch, s, steps[..n]);
      RunsConsistent(name, arch, s, steps[..n]);
      assert LeavesMarker(After(name, arch, s, steps[..n]), steps[n]);
      NextExclusive(name, arch, After(name, arch, s, steps[..n]), steps[n]);
    }
  }

  lemma InitialExclusive(s: System)
    requires Initial(s)
    ensures Exclusive(s)
  {
  }
}
