/** The checks and merges behind a maclet instance's claim to its Node object. */
module NodeOwnership {
  import opened Text

  const INSTANCE_ANNOTATION := "k8s-darwin.dev/maclet-instance-id"
  const OS_LABEL := "kubernetes.io/os"
  const ARCH_LABEL := "kubernetes.io/arch"
  const MANAGED_KEY := "k8s-darwin.dev/native"
  const MANAGED_VALUE := "true"
  const MANAGED_EFFECT := "NoSchedule"

  datatype Taint = Taint(key: string, value: string, effect: string, timeAdded: Option<int>)

  /** A Node object; UIDs and resource versions are the server's counters, 0 standing for an empty text. */
  datatype Node = Node(name: string, uid: nat, resourceVersion: nat, labels: map<string, string>,
                       annotations: map<string, string>, taints: seq<Taint>)

  /** The merge patch ensureOwnedNode sends; resource version 0 means the field is omitted. */
  datatype Patch = Patch(labels: map<string, string>, annotations: map<string, string>,
                         taints: seq<Taint>, resourceVersion: nat)

  /** A map index of a missing key yields the empty string. */
  function Lookup(m: map<string, string>, key: string): string {
    if key in m then m[key] else ""
  }

  predicate Marked(node: Node) {
    INSTANCE_ANNOTATION in node.annotations
  }

  // ---- The checks of ownership.go ----------------------------------------------------------

  predicate ValidateAdoptableNode(node: Node, arch: string) {
    && Lookup(node.labels, OS_LABEL) in ["", "darwin"]
    && Lookup(node.labels, ARCH_LABEL) in ["", arch]
    && Lookup(node.labels, MANAGED_KEY) in ["", MANAGED_VALUE]
  }

  /** verifyNodeOwnership returned no error. */
  predicate VerifyNodeOwnership(node: Node, name: string, arch: string, instanceID: string,
                                expectedUID: nat, adopt: bool) {
    && node.name == name
    && (Marked(node) ==> node.annotations[INSTANCE_ANNOTATION] == instanceID)
    && (expectedUID != 0 ==> node.uid != 0 && node.uid == expectedUID)
    && (!Marked(node) ==> adopt && ValidateAdoptableNode(node, arch))
  }

  predicate StringMapEqual(left: map<string, string>, right: map<string, string>) {
    |left| == |right| && forall key :: key in left ==> Lookup(right, key) == left[key]
  }

  predicate TaintsEqual(left: seq<Taint>, right: seq<Taint>) {
    |left| == |right| && forall i :: 0 <= i < |left| ==>
      && left[i].key == right[i].key && left[i].value == right[i].value && left[i].effect == right[i].effect
      && left[i].timeAdded == right[i].timeAdded
  }

  predicate HasManagedTaint(taints: seq<Taint>) {
    exists i :: 0 <= i < |taints| &&
      taints[i].key == MANAGED_KEY && taints[i].value == MANAGED_VALUE && taints[i].effect == MANAGED_EFFECT
  }

  const MANAGED_TAINT := Taint(MANAGED_KEY, MANAGED_VALUE, MANAGED_EFFECT, None)

  function DesiredLabels(arch: string): map<string, string> {
    map[ARCH_LABEL := arch, OS_LABEL := "darwin", MANAGED_KEY := MANAGED_VALUE]
  }

  /** desiredOwnedNode, before the server gives it a UID and a resource version. */
  function DesiredOwnedNode(name: string, arch: string, instanceID: string): Node {
    Node(name, 0, 0, DesiredLabels(arch), map[INSTANCE_ANNOTATION := instanceID], [MANAGED_TAINT])
  }

  function MergedLabels(node: Node, arch: string): map<string, string> {
    node.labels + DesiredLabels(arch)
  }

  function MergedTaints(node: Node): seq<Taint> {
    if HasManagedTaint(node.taints) then node.taints else node.taints + [MANAGED_TAINT]
  }

  function MergedAnnotations(node: Node, instanceID: string): map<string, string> {
    if Lookup(node.annotations, INSTANCE_ANNOTATION) == "" then node.annotations[INSTANCE_ANNOTATION := instanceID]
    else node.annotations
  }

  predicate NeedsPatch(node: Node, arch: string, instanceID: string) {
    || !StringMapEqual(node.labels, MergedLabels(node, arch))
    || !StringMapEqual(node.annotations, MergedAnnotations(node, instanceID))
    || !TaintsEqual(node.taints, MergedTaints(node))
  }

  function PatchFor(node: Node, arch: string, instanceID: string): Patch {
    Patch(MergedLabels(node, arch), MergedAnnotations(node, instanceID), MergedTaints(node), node.resourceVersion)
  }

  /** JSON merge patch (section 2 of RFC 7396): objects merge key by key, arrays are replaced. */
  function ApplyPatch(node: Node, patch: Patch, version: nat): Node {
    node.(labels := node.labels + patch.labels, annotations := node.annotations + patch.annotations,
          taints := patch.taints, resourceVersion := version)
  }

  /** Decoding a response into the struct already filled: maps keep the keys the response lacks. */
  function DecodeInto(node: Node, response: Node): Node {
    response.(labels := node.labels + response.labels, annotations := node.annotations + response.annotations)
  }

  // ---- How exact the comparison is ---------------------------------------------------------

  /** With the left keys among the right ones the comparison is equality. */
  lemma StringMapEqualExact(left: map<string, string>, right: map<string, string>)
    requires left.Keys <= right.Keys
    ensures StringMapEqual(left, right) <==> left == right
  {
    if StringMapEqual(left, right) {
      assert |right.Keys - left.Keys| == |right.Keys| - |left.Keys|;
      assert right.Keys - left.Keys == {};
      assert right.Keys == left.Keys;
    }
  }

  lemma {:induction false} LengthBound(keys: set<string>) returns (n: nat)
    ensures forall key :: key in keys ==> |key| < n
    decreases keys
  {
    if keys == {} { return 0; }
    var key :| key in keys;
    var m := LengthBound(keys - {key});
    return if |key| < m then m else |key| + 1;
  }

  /** On arbitrary maps it is equality exactly if no left value is empty. */
  lemma StringMapEqualUnlessEmpty(left: map<string, string>)
    ensures (forall right :: StringMapEqual(left, right) <==> left == right) <==> "" !in left.Values
  {
    if "" in left.Values {
      var key :| key in left && left[key] == "";
      var n := LengthBound(left.Keys);
      var spare := seq(n, _ => 'x');
      var right := (left - {key})[spare := "x"];
      assert spare !in left;
      assert right.Keys == left.Keys - {key} + {spare};
      assert |right.Keys| == |left.Keys|;
      assert StringMapEqual(left, right) && left != right;
    } else {
      forall right ensures StringMapEqual(left, right) <==> left == right {
        if StringMapEqual(left, right) {
          forall key | key in left ensures key in right { assert left[key] in left.Values; }
          StringMapEqualExact(left, right);
        }
      }
    }
  }

  lemma TaintsEqualExact(left: seq<Taint>, right: seq<Taint>)
    ensures TaintsEqual(left, right) <==> left == right
  {
    if TaintsEqual(left, right) {
      forall i | 0 <= i < |left| ensures left[i] == right[i] {
        assert left[i].key == right[i].key;
      }
    }
  }

  // ---- What adoption changes ---------------------------------------------------------------

  ghost predicate Labelled(node: Node, key: string, value: string) {
    key in node.labels && node.labels[key] == value
  }

  /** Everything ensureOwnedNode wants of its Node. */
  ghost predicate Converged(node: Node, arch: string, instanceID: string) {
    && Marked(node) && node.annotations[INSTANCE_ANNOTATION] == instanceID
    && Labelled(node, OS_LABEL, "darwin") && Labelled(node, ARCH_LABEL, arch)
    && Labelled(node, MANAGED_KEY, MANAGED_VALUE)
    && Tainted(node)
  }

  /** The taint that keeps other Pods away, whenever it was added. */
  ghost predicate Tainted(node: Node) {
    exists added :: Taint(MANAGED_KEY, MANAGED_VALUE, MANAGED_EFFECT, added) in node.taints
  }

  lemma TaintedExactly(node: Node)
    ensures HasManagedTaint(node.taints) <==> Tainted(node)
  {
    if HasManagedTaint(node.taints) {
      var i :| 0 <= i < |node.taints| && node.taints[i].key == MANAGED_KEY && node.taints[i].value == MANAGED_VALUE &&
               node.taints[i].effect == MANAGED_EFFECT;
      assert Taint(MANAGED_KEY, MANAGED_VALUE, MANAGED_EFFECT, node.taints[i].timeAdded) == node.taints[i];
    }
  }

  // ---- Whose Node it is --------------------------------------------------------------------

  /** Another label of this key stands in nobody's way: it is missing, empty, or the value wanted. */
  ghost predicate LabelFits(node: Node, key: string, value: string) {
    key in node.labels && node.labels[key] != "" ==> node.labels[key] == value
  }

  /**
   * An instance may take a Node as it reads it: one that carries its own marker, or with adoption one without a marker
   * whose labels tell of no other kind of machine; and none but the recorded one, if one was recorded.
   */
  ghost predicate Rightful(node: Node, name: string, arch: string, instanceID: string, recorded: nat, adopt: bool) {
    && node.name == name
    && (if INSTANCE_ANNOTATION in node.annotations then node.annotations[INSTANCE_ANNOTATION] == instanceID
        else
          adopt && LabelFits(node, OS_LABEL, "darwin") && LabelFits(node, ARCH_LABEL, arch) &&
          LabelFits(node, MANAGED_KEY, MANAGED_VALUE))
    && (recorded != 0 ==> node.uid == recorded)
  }

  /** verifyNodeOwnership refuses exactly the others. */
  lemma VerifiedExactly(node: Node, name: string, arch: string, instanceID: string, recorded: nat, adopt: bool)
    ensures VerifyNodeOwnership(node, name, arch, instanceID, recorded, adopt) <==>
            Rightful(node, name, arch, instanceID, recorded, adopt)
  {
  }

  /** Nothing of the earlier object is lost: other labels, other annotations, taints in order. */
  ghost predicate Preserves(before: Node, after: Node, arch: string) {
    && after.name == before.name && after.uid == before.uid
    && (forall key :: key !in DesiredLabels(arch) ==>
          (key in after.labels <==> key in before.labels) &&
          (key in before.labels ==> after.labels[key] == before.labels[key]))
    && (forall key :: key != INSTANCE_ANNOTATION ==>
          (key in after.annotations <==> key in before.annotations) &&
          (key in before.annotations ==> after.annotations[key] == before.annotations[key]))
    && after.taints == if Tainted(before) then before.taints else before.taints + [MANAGED_TAINT]
  }

  /** No patch is needed exactly when the verified object already has everything. */
  lemma NoPatchExactlyWhenConverged(node: Node, name: string, arch: string, instanceID: string, uid: nat, adopt: bool)
    requires instanceID != "" && VerifyNodeOwnership(node, name, arch, instanceID, uid, adopt)
    ensures !NeedsPatch(node, arch, instanceID) <==> Converged(node, arch, instanceID)
  {
    hide StringMapEqual, TaintsEqual;
    var labels, annotations := MergedLabels(node, arch), MergedAnnotations(node, instanceID);
    StringMapEqualExact(node.labels, labels);
    StringMapEqualExact(node.annotations, annotations);
    TaintsEqualExact(node.taints, MergedTaints(node));
    TaintedExactly(node);
    if Converged(node, arch, instanceID) {
      assert labels == node.labels;
    }
    assert labels[OS_LABEL] == "darwin" && labels[ARCH_LABEL] == arch && labels[MANAGED_KEY] == MANAGED_VALUE;
  }

  /** Applying the patch to the object it was made from, and decoding the answer, converges without loss. */
  lemma PatchConverges(node: Node, name: string, arch: string, instanceID: string, uid: nat, adopt: bool, version: nat)
    requires instanceID != "" && VerifyNodeOwnership(node, name, arch, instanceID, uid, adopt)
    ensures var stored := ApplyPatch(node, PatchFor(node, arch, instanceID), version);
            && DecodeInto(node, stored) == stored
            && Converged(stored, arch, instanceID) && Preserves(node, stored, arch)
            && VerifyNodeOwnership(stored, name, arch, instanceID, uid, false)
            && !NeedsPatch(stored, arch, instanceID)
  {
    hide NeedsPatch, Preserves, HasManagedTaint, MergedTaints, Tainted;
    var stored := ApplyPatch(node, PatchFor(node, arch, instanceID), version);
    MergeKeeps(node, arch, instanceID);
    TaintedExactly(stored);
    PatchPreserves(node, arch, instanceID, version);
    assert stored.labels == MergedLabels(node, arch);
    assert stored.annotations == MergedAnnotations(node, instanceID);
    NoPatchExactlyWhenConverged(stored, name, arch, instanceID, uid, false);
  }

  lemma PatchPreserves(node: Node, arch: string, instanceID: string, version: nat)
    requires instanceID != ""
    ensures Preserves(node, ApplyPatch(node, PatchFor(node, arch, instanceID), version), arch)
  {
    TaintedExactly(node);
  }

  lemma MergeKeeps(node: Node, arch: string, instanceID: string)
    ensures node.labels + MergedLabels(node, arch) == MergedLabels(node, arch)
    ensures node.annotations + MergedAnnotations(node, instanceID) == MergedAnnotations(node, instanceID)
    ensures HasManagedTaint(MergedTaints(node))
  {
    if !HasManagedTaint(node.taints) {
      assert MergedTaints(node)[|node.taints|] == MANAGED_TAINT;
    }
  }
}
