/** ensureOwnedNode as it runs: one instance's requests with everyone else's in between. */
module NodeRegistration {
  import opened Text
  import opened NodeOwnership
  import opened NodeClaims

  datatype Response = Body(node: Node) | NotFound | Conflict | OtherError

  /** The API server, and the run of the whole system that it has seen. */
  class ApiServer {
    const name: string
    const arch: string
    var system: System
    ghost const start: System
    ghost var steps: seq<Step>

    constructor (name: string, arch: string, start: System)
      requires Initial(start)
      ensures Valid() && this.name == name && this.arch == arch && system == start && steps == []
    {
      this.name, this.arch, this.start, system, steps := name, arch, start, start, [];
    }

    ghost predicate Valid()
      reads this
    {
      Initial(start) && system == After(name, arch, start, steps)
    }

    /** Other instances and outside writers only move others' calls. */
    ghost predicate Interfered(before: System, more: seq<Step>, id: string)
      reads this
    {
      && (forall i :: 0 <= i < |more| ==> !ByInstance(more[i], id))
      && (id in system.procs <==> id in before.procs)
      && (id in before.procs ==> system.procs[id] == before.procs[id])
    }

    method Take(step: Step)
      requires Valid()
      modifies this
      ensures Valid() && system == Next(name, arch, old(system), step) && steps == old(steps) + [step]
    {
      system := Next(name, arch, system, step);
      steps := steps + [step];
      assert steps[..|steps| - 1] == old(steps);
    }

    method Interfere(id: string)
      requires Valid()
      modifies this
      ensures Valid() && old(steps) <= steps && Interfered(old(system), steps[|old(steps)|..], id)
    {
      var n: nat := *;
      while n > 0
        invariant Valid() && old(steps) <= steps && Interfered(old(system), steps[|old(steps)|..], id)
      {
        var step: Step := *;
        if !ByInstance(step, id) {
          OthersUntouched(name, arch, system, step, id);
          ghost var seen := steps;
          Take(step);
          assert steps[|old(steps)|..] == seen[|old(steps)|..] + [step];
        }
        n := n - 1;
      }
    }

    method Request(id: string, step: Step)
      requires Valid() && ByInstance(step, id) && id in system.procs
      modifies this
      ensures Valid() && old(steps) <= steps
      ensures exists before :: Consistent(name, arch, before) && id in before.procs && id in system.procs &&
                before.procs[id] == old(system.procs[id]) && system == Next(name, arch, before, step)
    {
      Interfere(id);
      RunsConsistent(name, arch, start, steps);
      NextKeepsProcs(name, arch, system, step);
      Take(step);
    }

    method Begin(id: string, call: Call)
      requires Valid() && id in system.procs
      requires system.procs[id].phase.Idle? || system.procs[id].phase.Succeeded? || system.procs[id].phase.Failed?
      modifies this
      ensures Valid() && old(steps) <= steps && id in system.procs
      ensures system.procs[id] == Proc(call, if id == "" then Failed else Started)
    {
      Request(id, NodeClaims.Step.Begin(id, call));
    }

    /** A request that may fail outright, whatever the server holds. */
    method Fails(id: string) returns (fails: bool)
      requires Valid() && id in system.procs
      requires !system.procs[id].phase.Idle? && !system.procs[id].phase.Succeeded?
      modifies this
      ensures Valid() && old(steps) <= steps && id in system.procs
      ensures system.procs[id] == if fails then old(system.procs[id]).(phase := Failed) else old(system.procs[id])
      ensures !fails ==> system == old(system)
    {
      fails := *;
      if fails { Request(id, RequestFails(id)); }
    }

    /** GET: the object, 404, or any other error. */
    method Get(id: string) returns (r: Response)
      requires Valid() && id in system.procs && system.procs[id].phase.Started?
      modifies this
      ensures Valid() && old(steps) <= steps && id in system.procs
      ensures system.procs[id].call == old(system.procs[id].call)
      ensures r.Body? || r.NotFound? || r.OtherError?
      ensures system.procs[id].phase ==
                match r
                case Body(node) =>
                  Decide(name, arch, id, node, system.procs[id].call.expectedUID, system.procs[id].call.adopt)
                case NotFound => Absent
                case _ => Failed
    {
      hide Decide;
      var fails := Fails(id);
      if fails { return OtherError; }
      Request(id, NodeClaims.Step.Get(id));
      r := if system.server.Some? then Body(system.server.value) else NotFound;
    }

    /** POST: the created object, 409, or an error that may or may not have created it. */
    method Post(id: string) returns (r: Response)
      requires Valid() && id in system.procs && system.procs[id].phase.Absent?
      modifies this
      ensures Valid() && old(steps) <= steps && id in system.procs
      ensures system.procs[id].call == old(system.procs[id].call)
      ensures r.Body? || r.Conflict? || r.OtherError?
      ensures system.procs[id].phase ==
                match r
                case Body(node) => Decide(name, arch, id, node, 0, system.procs[id].call.adopt)
                case Conflict => Conflicted
                case _ => Failed
    {
      hide Decide;
      var fails := Fails(id);
      if fails { return OtherError; }
      var answered: bool := *;
      Request(id, NodeClaims.Step.Post(id, answered));
      if !answered { return OtherError; }
      r := if system.procs[id].phase.Conflicted? then Conflict else Body(system.server.value);
      assert !r.Conflict? ==> system.server.Some?;
    }

    /** The GET after a create conflict; anything but the object is an error. */
    method Refresh(id: string) returns (r: Response)
      requires Valid() && id in system.procs && system.procs[id].phase.Conflicted?
      modifies this
      ensures Valid() && old(steps) <= steps && id in system.procs
      ensures system.procs[id].call == old(system.procs[id].call)
      ensures r.Body? || r.OtherError?
      ensures system.procs[id].phase ==
                match r
                case Body(node) =>
                  Decide(name, arch, id, node, system.procs[id].call.expectedUID, system.procs[id].call.adopt)
                case _ => Failed
    {
      hide Decide;
      var fails := Fails(id);
      if fails { return OtherError; }
      Request(id, NodeClaims.Step.Refresh(id));
      r := if system.server.Some? then Body(system.server.value) else OtherError;
    }

    /** PATCH: the patched object, or an error that may or may not have applied it. */
    method SendPatch(id: string, patch: Patch) returns (r: Response)
      requires Valid() && id in system.procs && system.procs[id].phase.Patching?
      requires patch == PatchFor(system.procs[id].phase.snapshot, arch, id)
      modifies this
      ensures Valid() && old(steps) <= steps && id in system.procs
      ensures system.procs[id].call == old(system.procs[id].call)
      ensures r.Body? || r.OtherError?
      ensures system.procs[id].phase ==
                match r
                case Body(node) =>
                  Conclude(name, arch, id, DecodeInto(old(system.procs[id].phase.snapshot), node),
                           old(system.procs[id].phase.verifyUID))
                case _ => Failed
    {
      hide Conclude, DecodeInto;
      var fails := Fails(id);
      if fails { return OtherError; }
      var answered: bool := *;
      Request(id, NodeClaims.Step.SendPatch(id, answered));
      r := if system.procs[id].phase.Failed? || system.server.None? then OtherError else Body(system.server.value);
    }
  }

  lemma NextKeepsProcs(name: string, arch: string, s: System, step: Step)
    ensures Next(name, arch, s, step).procs.Keys == s.procs.Keys
  {
    hide VerifyNodeOwnership, NeedsPatch, Decide, Conclude;
  }

  /** The loops that copy one map and lay another over it. */
  method MergeMaps(under: map<string, string>, over: map<string, string>) returns (merged: map<string, string>)
    ensures merged == under + over
  {
    merged := map[];
    var remaining := under.Keys;
    while remaining != {}
      invariant remaining <= under.Keys && merged == map key | key in under && key !in remaining :: under[key]
      decreases remaining
    {
      var key :| key in remaining;
      remaining := remaining - {key};
      merged := merged[key := under[key]];
    }
    assert merged == under;
    remaining := over.Keys;
    while remaining != {}
      invariant remaining <= over.Keys
      invariant merged == under + map key | key in over && key !in remaining :: over[key]
      decreases remaining
    {
      var key :| key in remaining;
      remaining := remaining - {key};
      merged := merged[key := over[key]];
    }
    assert merged == under + over;
  }

  /** GET, POST if absent, GET again on a create conflict. */
  method ReadOrCreate(api: ApiServer, id: string) returns (body: Response, created: bool)
    requires api.Valid() && id in api.system.procs && api.system.procs[id].phase.Started?
    modifies api
    ensures api.Valid() && old(api.steps) <= api.steps && id in api.system.procs
    ensures api.system.procs[id].call == old(api.system.procs[id].call)
    ensures api.system.procs[id].phase ==
              if !body.Body? then Failed
              else Decide(api.name, api.arch, id, body.node,
                          if created then 0 else api.system.procs[id].call.expectedUID, api.system.procs[id].call.adopt)
  {
    hide Decide, ApiServer.Valid;
    created := false;
    body := api.Get(id);
    if body.OtherError? { return; }
    if body.NotFound? {
      body := api.Post(id);
      if body.OtherError? { return; }
      if body.Conflict? {
        // A concurrent create is read back and checked like any other Node.
        body := api.Refresh(id);
        if body.OtherError? { return; }
      } else {
        created := true;
      }
    }
  }

  /** The merged labels, annotations and taints, tied to the version they were read at. */
  method BuildPatch(node: Node, arch: string, id: string) returns (patch: Patch)
    ensures patch == PatchFor(node, arch, id)
  {
    hide HasManagedTaint;
    var mergedLabels := MergeMaps(node.labels, DesiredLabels(arch));
    var mergedTaints := node.taints;
    if !HasManagedTaint(mergedTaints) { mergedTaints := mergedTaints + [MANAGED_TAINT]; }
    var marker := Lookup(node.annotations, INSTANCE_ANNOTATION);
    var mergedAnnotations := MergeMaps(node.annotations, map[]);
    assert mergedAnnotations == node.annotations;
    if marker == "" { mergedAnnotations := mergedAnnotations[INSTANCE_ANNOTATION := id]; }
    return Patch(mergedLabels, mergedAnnotations, mergedTaints, node.resourceVersion);
  }

  /** A call that succeeds holds a converged Node of its own, recorded as a win in the run all instances share. */
  method EnsureOwnedNode(api: ApiServer, id: string, call: Call) returns (r: Option<Node>)
    requires api.Valid() && id in api.system.procs
    requires var p := api.system.procs[id].phase; p.Idle? || p.Succeeded? || p.Failed?
    modifies api
    ensures api.Valid() && old(api.steps) <= api.steps && id in api.system.procs
    ensures api.system.procs[id].phase == if r.Some? then Succeeded(r.value) else Failed
    ensures r.Some? ==> id != "" && r.value.name == api.name && Converged(r.value, api.arch, id)
    ensures r.Some? ==> (r.value.uid, id) in api.system.won
    ensures r.Some? ==>
              exists k: nat :: |old(api.steps)| <= k &&
                (CreatedAt(api.name, api.arch, api.start, api.steps, k, id, r.value.uid) ||
                 TookRightfully(api.name, api.arch, api.start, api.steps, k, id, call, r.value.uid))
  {
    hide VerifyNodeOwnership, StringMapEqual, TaintsEqual, DecodeInto, Converged, Consistent, ApiServer.Valid,
         Next, After, CreatedAt, TookRightfully;
    api.Begin(id, call);
    ghost var begun := api.steps;
    RunNow(api, id);
    assert id != "" ==> After(api.name, api.arch, api.start, begun).procs[id].phase.Started?;
    if id == "" { return None; }
    var body, created := ReadOrCreate(api, id);
    if !body.Body? { return None; }
    var node := body.node;
    var verifyUID := if created then 0 else call.expectedUID;
    if !VerifyNodeOwnership(node, api.name, api.arch, id, verifyUID, call.adopt) { return None; }
    var patch := BuildPatch(node, api.arch, id);
    if !StringMapEqual(node.labels, patch.labels) || !StringMapEqual(node.annotations, patch.annotations) ||
       !TaintsEqual(node.taints, patch.taints) {
      var response := api.SendPatch(id, patch);
      if response.OtherError? { return None; }
      node := DecodeInto(node, response.node);
      if !VerifyNodeOwnership(node, api.name, api.arch, id, verifyUID, false) { return None; }
    }
    SuccessHolds(api, id, node);
    assert begun == api.steps[..|begun|];
    SuccessEntitled(api, id, node, |begun|);
    return Some(node);
  }

  lemma RunNow(api: ApiServer, id: string)
    requires api.Valid() && id in api.system.procs
    ensures After(api.name, api.arch, api.start, api.steps) == api.system
  {
  }

  /** The object a call returns was read in it, or made by it. */
  lemma SuccessEntitled(api: ApiServer, id: string, node: Node, begun: nat)
    requires api.Valid() && id in api.system.procs && api.system.procs[id].phase == Succeeded(node)
    requires begun <= |api.steps|
    requires var t := After(api.name, api.arch, api.start, api.steps[..begun]);
             id in t.procs && t.procs[id].phase.Started?
    ensures exists k: nat :: begun <= k &&
              (CreatedAt(api.name, api.arch, api.start, api.steps, k, id, node.uid) ||
               TookRightfully(api.name, api.arch, api.start, api.steps, k, id, api.system.procs[id].call, node.uid))
  {
    hide After, CreatedAt, TookRightfully;
    RunsEntitled(api.name, api.arch, api.start, api.steps, id);
    var k :| SameCall(api.name, api.arch, api.start, api.steps, k, id) &&
             (CreatedAt(api.name, api.arch, api.start, api.steps, k, id, node.uid) ||
              TookRightfully(api.name, api.arch, api.start, api.steps, k, id, api.system.procs[id].call, node.uid));
  }

  lemma SuccessHolds(api: ApiServer, id: string, node: Node)
    requires api.Valid() && id in api.system.procs && api.system.procs[id].phase == Succeeded(node)
    ensures id != "" && node.name == api.name && Converged(node, api.arch, id) && (node.uid, id) in api.system.won
  {
    hide Converged;
    RunsConsistent(api.name, api.arch, api.start, api.steps);
    assert PhaseOk(api.name, api.arch, api.system, id);
  }

  /** While nobody else writes, a second call with the recorded UID reads the Node and sends nothing. */
  lemma SecondCallSendsNothing(name: string, arch: string, s: System, id: string, node: Node, adopt: bool)
    requires Consistent(name, arch, s) && id in s.procs
    requires s.procs[id].phase == Succeeded(node) && s.server == Some(node)
    ensures var t := After(name, arch, s, [NodeClaims.Step.Begin(id, Call(node.uid, adopt)), NodeClaims.Step.Get(id)]);
            id in t.procs && t.procs[id].phase == Succeeded(node) && t.server == s.server && t.won == s.won
  {
    hide NeedsPatch;
    assert PhaseOk(name, arch, s, id);
    var call := Call(node.uid, adopt);
    assert VerifyNodeOwnership(node, name, arch, id, node.uid, adopt);
    NoPatchExactlyWhenConverged(node, name, arch, id, node.uid, adopt);
    var steps := [NodeClaims.Step.Begin(id, call), NodeClaims.Step.Get(id)];
    assert steps[..1] == [NodeClaims.Step.Begin(id, call)] && steps[..1][..0] == [];
    var begun := Next(name, arch, s, NodeClaims.Step.Begin(id, call));
    assert After(name, arch, s, steps[..1]) == begun;
    assert begun.procs[id] == Proc(call, Started) && begun.server == s.server;
    assert Decide(name, arch, id, node, node.uid, adopt) == Succeeded(node);
  }

  /** Two instances that both got a Node back did not get the same object. */
  lemma TwoWinnersTwoObjects(api: ApiServer, i: string, j: string)
    requires api.Valid() && MarkersLeftAlone(api.name, api.arch, api.start, api.steps)
    requires i in api.system.procs && j in api.system.procs && i != j
    requires api.system.procs[i].phase.Succeeded? && api.system.procs[j].phase.Succeeded?
    ensures api.system.procs[i].phase.node.uid != api.system.procs[j].phase.node.uid
  {
    MutualExclusion(api.name, api.arch, api.start, api.steps);
    SuccessHolds(api, i, api.system.procs[i].phase.node);
    SuccessHolds(api, j, api.system.procs[j].phase.node);
  }
}
