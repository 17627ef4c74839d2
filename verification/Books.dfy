/** What one reconcile pass is about: the listed Pods, the errors it collects, and the books it keeps. */
module Books {
  import opened Text
  import opened AddressPlan
  import opened Journals
  import opened Machines
  import opened Managers
  import D = DarwinNetwork
  import PodStatuses

  /** A listed Pod: what the status code sees of it, and what decides how it is handled. */
  datatype Pod = Pod(listed: PodStatuses.Pod, deleting: bool, native: bool, hostNetwork: bool,
                     clusterFirstWithHostNet: bool, policy: Policy)

  /** The errors a pass collects. */
  datatype Failure =
    | PruneJournal
    | RemoveDeleted(uid: string) | PersistDeleted
    | StatusWrite
    | UnsupportedNetwork | NoNetwork
    | PersistOwnership
    | NoAddress | InvalidAddress | ReleaseOldAddress | PersistAddress | AddAddress
    | MackerUnavailable | InspectionUndecodable
    | PersistRetired | StopForRestart | PersistRestart
    | Prepare | PersistMounts | StartFailed | NotRunning | PersistStarted
    | RemoveStale(uid: string) | PersistStale

  // ---- Pods --------------------------------------------------------------------------------

  /** The UID a Pod is managed under; never empty. */
  function Key(p: Pod): (uid: string)
    ensures uid != ""
  {
    if p.listed.uid == "" then p.listed.namespace + "/" + p.listed.name else p.listed.uid
  }

  function FirstContainer(p: Pod): string {
    if p.listed.containers == [] then "" else p.listed.containers[0].name
  }

  function RestartPolicy(p: Pod): Policy {
    if p.policy == Unspecified then Always else p.policy
  }

  /** validateNativePodNetwork */
  predicate SupportedNetwork(p: Pod) {
    p.hostNetwork == p.clusterFirstWithHostNet
  }

  predicate Live(p: Pod) {
    !p.deleting && p.native
  }

  /** Pods whose address is one of the PodCIDR's. */
  predicate Addressed(p: Pod) {
    Live(p) && !p.hostNetwork
  }

  /** A Pod that has ended and is not to be restarted. */
  predicate Finished(p: Pod) {
    PodStatuses.Terminal(p.listed.status.phase) && RestartPolicy(p) != Always
  }

  /** Pods with UIDs have keys of their own; those without one go by their namespace and name. */
  lemma KeysDistinct(p: Pod, q: Pod)
    ensures p.listed.uid != "" && q.listed.uid != "" ==> (Key(p) == Key(q) <==> p.listed.uid == q.listed.uid)
    ensures p.listed.uid != "" && q.listed.uid == "" && '/' !in p.listed.uid ==> Key(p) != Key(q)
    ensures p.listed.uid == "" && q.listed.uid == "" && '/' !in p.listed.namespace && '/' !in q.listed.namespace ==>
              (Key(p) == Key(q) <==> p.listed.namespace == q.listed.namespace && p.listed.name == q.listed.name)
  {
    var s, t := p.listed.namespace + "/" + p.listed.name, q.listed.namespace + "/" + q.listed.name;
    var m, n := |p.listed.namespace|, |q.listed.namespace|;
    assert s[m] == '/' && t[n] == '/' && s[..m] == p.listed.namespace && t[..n] == q.listed.namespace;
    assert s[m + 1..] == p.listed.name && t[n + 1..] == q.listed.name;
    assert t[n] in t;
    assert forall i :: 0 <= i < m ==> s[i] in p.listed.namespace;
    assert forall i :: 0 <= i < n ==> t[i] in q.listed.namespace;
  }

  // ---- Failed journal writes ---------------------------------------------------------------

  predicate FailedWrite(e: Failure) {
    || e.PruneJournal? || e.PersistDeleted? || e.PersistOwnership? || e.PersistAddress? || e.PersistRetired?
    || e.PersistRestart? || e.PersistMounts? || e.PersistStarted? || e.PersistStale?
  }

  /** Failed journal writes are among the errors, and only they are. */
  ghost predicate WritesTold(before: nat, after: nat, errors: seq<Failure>) {
    before <= after && (after == before <==> forall e :: e in errors ==> !FailedWrite(e))
  }

  lemma WritesMore(a: nat, b: nat, c: nat, errors: seq<Failure>, more: seq<Failure>)
    requires WritesTold(a, b, errors) && WritesTold(b, c, more)
    ensures WritesTold(a, c, errors + more)
  {
    hide FailedWrite;
    if c == a {
      forall e | e in errors + more ensures !FailedWrite(e) {}
    }
    if forall e :: e in errors + more ==> !FailedWrite(e) {
      forall e | e in errors ensures !FailedWrite(e) { assert e in errors + more; }
      forall e | e in more ensures !FailedWrite(e) { assert e in errors + more; }
    }
  }

  /** One step that may fail: with a journal write, or without one. */
  lemma Tallied(before: nat, after: nat, ok: bool, e: Failure)
    requires after == if ok || !FailedWrite(e) then before else before + 1
    ensures WritesTold(before, after, if ok then [] else [e])
  {
    if !ok { assert e in [e]; }
  }

  /** What follows an errorless part. */
  lemma OnlyTold(a: nat, b: nat, c: nat, errors: seq<Failure>)
    requires WritesTold(a, b, []) && WritesTold(b, c, errors)
    ensures WritesTold(a, c, errors)
  {
    hide FailedWrite;
  }

  // ---- What a pass may do to the maps ------------------------------------------------------

  /** Where the process and the pass stand: only the last five change within a pass. */
  datatype Standing = Standing(strays: set<string>, loaded: bool, finished: seq<Process>, rounds: seq<Round>,
                               bootFailed: bool, opening: nat, turn: Turn, begun: set<Turn>, ended: seq<TurnEnd>,
                               deletions: set<string>, resurrected: set<string>)

  ghost function StandingOf(machine: Machine): Standing
    reads machine`strays, machine`loaded, machine`finished, machine`rounds, machine`bootFailed, machine`turn
    reads machine`opening, machine`begun, machine`ended, machine`deletions, machine`resurrected
  {
    Standing(machine.strays, machine.loaded, machine.finished, machine.rounds, machine.bootFailed, machine.opening,
             machine.turn, machine.begun, machine.ended, machine.deletions, machine.resurrected)
  }

  /**
   * The manager's books: its maps, the containers removed or retired in this pass, how many removal commands have
   * failed, and where it stands.
   */
  datatype Book = Book(workloads: Workloads, retained: Workloads, gone: set<string>, refusals: nat,
                       standing: Standing)

  ghost function At(m: Manager): Book
    reads m`workloads, m`retained, m.machine`removed, m.machine`retired, m.machine`strays, m.machine`loaded
    reads m.machine`finished, m.machine`rounds, m.machine`bootFailed, m.machine`opening, m.machine`turn
    reads m.machine`begun, m.machine`ended, m.machine`deletions, m.machine`resurrected, m.machine`refusals
    reads m.host
  {
    Book(m.workloads, m.retained, m.machine.removed + m.machine.retired, m.Refusals(), StandingOf(m.machine))
  }

  ghost predicate SamePass(a: Standing, b: Standing) {
    b == a.(turn := b.turn, begun := b.begun, ended := b.ended, deletions := b.deletions,
            resurrected := b.resurrected)
  }

  /** Within one turn only its own key may be resurrected, and only if it was listed as being deleted. */
  ghost predicate SameTurn(a: Standing, b: Standing, uid: string) {
    && b == a.(resurrected := b.resurrected) && a.resurrected <= b.resurrected
    && (forall key :: key in b.resurrected ==> key in a.resurrected || (key == uid && key in a.deletions))
  }

  /** No UID is forgotten, and a workload is dropped only once it was removed, or retired under its Pod's policy. */
  ghost predicate Kept(a: Book, b: Book) {
    && a.gone <= b.gone && a.refusals <= b.refusals && SamePass(a.standing, b.standing)
    && (forall uid :: uid in a.workloads || uid in a.retained ==> uid in b.workloads || uid in b.retained)
    && (forall uid :: uid in a.workloads ==>
          || (uid in b.workloads && b.workloads[uid].container == a.workloads[uid].container)
          || a.workloads[uid].container in b.gone)
  }

  /** And only one UID is concerned, within its turn. */
  ghost predicate Touched(a: Book, b: Book, uid: string) {
    && Kept(a, b) && SameTurn(a.standing, b.standing, uid)
    && b.workloads - {uid} == a.workloads - {uid}
    && b.retained - {uid} == a.retained - {uid}
  }

  lemma KeptMore(a: Book, b: Book, c: Book)
    requires Kept(a, b) && Kept(b, c)
    ensures Kept(a, c)
  {
  }

  lemma TouchedMore(a: Book, b: Book, c: Book, uid: string)
    requires Touched(a, b, uid) && Touched(b, c, uid)
    ensures Touched(a, c, uid)
  {
    KeptMore(a, b, c);
  }

  lemma TouchedTurn(a: Book, b: Book, uid: string)
    requires Touched(a, b, uid)
    ensures a.standing.turn == b.standing.turn && a.standing.deletions == b.standing.deletions
    ensures a.standing.ended == b.standing.ended && a.standing.begun == b.standing.begun && a.refusals <= b.refusals
    ensures forall key :: key in b.standing.resurrected ==>
              key in a.standing.resurrected || (key == uid && key in a.standing.deletions)
  {
  }

  /** A workload changed in place, or entered. */
  lemma AssignTouches(a: Book, b: Book, uid: string)
    requires uid in b.workloads && b.workloads == a.workloads[uid := b.workloads[uid]] && b.retained == a.retained
    requires uid in a.workloads ==> b.workloads[uid].container == a.workloads[uid].container
    requires a.gone <= b.gone && a.refusals <= b.refusals && a.standing == b.standing
    ensures Touched(a, b, uid)
  {
  }

  /** A workload retained. */
  lemma RetainTouches(a: Book, b: Book, uid: string)
    requires uid in b.retained && b.retained == a.retained[uid := b.retained[uid]]
    requires b.workloads == a.workloads - {uid}
    requires uid in a.workloads ==> a.workloads[uid].container in b.gone
    requires a.gone <= b.gone && a.refusals <= b.refusals && a.standing == b.standing
    ensures Touched(a, b, uid)
  {
  }

  lemma NothingTouched(a: Book, b: Book, uid: string)
    requires a.workloads == b.workloads && a.retained == b.retained
    requires a.gone <= b.gone && a.refusals <= b.refusals && SameTurn(a.standing, b.standing, uid)
    ensures Touched(a, b, uid)
  {
  }

  lemma NothingMoves(a: Book, uid: string)
    ensures Touched(a, a, uid)
  {
  }

  /** An entry changed in place keeps its address and its container name. */
  ghost predicate SamePlace(before: Workload, after: Workload) {
    after.ip == before.ip && after.container == before.container && after.hostNetwork == before.hostNetwork
  }

  /** A listed Pod's turn, under some number. */
  ghost function TurnOf(number: nat, pod: Pod): Turn {
    Turn(number, Key(pod), Live(pod), pod.deleting, RestartPolicy(pod), Some(pod.listed))
  }

  /** It is this Pod's turn. */
  ghost predicate HasTurn(m: Manager, pod: Pod)
    reads m.machine`turn
  {
    m.machine.turn == TurnOf(m.machine.turn.number, pod)
  }

  /** And the Pod is live, and managed under this key. */
  ghost predicate OnTurn(m: Manager, pod: Pod, uid: string)
    reads m.machine`turn
  {
    HasTurn(m, pod) && Live(pod) && uid == Key(pod)
  }

  /** Every turn begun since was one of a listed Pod. */
  ghost predicate TurnsOf(before: set<Turn>, begun: set<Turn>, pods: seq<Pod>) {
    forall t :: t in begun ==> t in before || exists p :: p in pods && t == TurnOf(t.number, p)
  }

  lemma TurnsOfSnoc(before: set<Turn>, begun: set<Turn>, pods: seq<Pod>, n: nat, number: nat)
    requires n < |pods| && TurnsOf(before, begun, pods[..n])
    ensures TurnsOf(before, begun + {TurnOf(number, pods[n])}, pods[..n + 1])
  {
    hide TurnOf;
    assert pods[..n + 1] == pods[..n] + [pods[n]];
    NumberOf(number, pods[n]);
  }

  lemma NumberOf(number: nat, pod: Pod)
    ensures TurnOf(number, pod).number == number
  {
  }

  lemma TurnsOfMore(before: set<Turn>, begun: set<Turn>, later: set<Turn>, listing: seq<Pod>, pods: seq<Pod>)
    requires TurnsOf(before, begun, listing) && TurnsOf(begun, later, pods)
    ensures TurnsOf(before, later, listing + pods)
  {
    hide TurnOf;
  }

  /** All that has been started is the container of one entry. */
  ghost predicate StartedOnly(before: set<string>, m: Manager, uid: string)
    reads m`workloads, m.machine`running
  {
    forall c :: c in m.machine.running && c !in before ==> uid in m.workloads && c == m.workloads[uid].container
  }

  // ---- What the API server is told ---------------------------------------------------------

  /** The last status reported was put to this Pod as it was listed, in its turn; every PUT said what was meant. */
  ghost predicate LastTold(m: Manager, pod: Pod)
    reads m.machine`reports, m.machine`turn
  {
    m.machine.reports != [] &&
    var r := Last(m.machine.reports);
    r.turn == m.machine.turn && Said(r) && r.puts[0].0 == pod.listed
  }

  /** One status update more. */
  ghost predicate OneMore(before: seq<StatusReport>, after: seq<StatusReport>) {
    before < after && |after| == |before| + 1
  }

  ghost predicate AtMostOne(before: seq<StatusReport>, after: seq<StatusReport>) {
    after == before || OneMore(before, after)
  }

  /** The last status update was stored. */
  ghost predicate Arrived(m: Manager)
    reads m.machine`reports
  {
    m.machine.reports != [] && Last(m.machine.reports).result.Stored?
  }

  /** It told this phase, of this container. */
  ghost predicate Told(m: Manager, pod: Pod, container: string, phase: PodStatuses.Phase)
    reads m.machine`reports, m.machine`turn
  {
    LastTold(m, pod) && Last(m.machine.reports).container == container && Last(m.machine.reports).phase == phase
  }

  /** Still Pending, and why. */
  ghost predicate PendingFor(m: Manager, pod: Pod, reason: PodStatuses.Cause)
    reads m.machine`reports, m.machine`turn
  {
    && LastTold(m, pod)
    && Last(m.machine.reports).phase == PodStatuses.Pending && Last(m.machine.reports).update.reason == reason
  }

  /** With this address and restart count. */
  ghost predicate ToldPending(m: Manager, pod: Pod, ip: IPText, restarts: Int32, reason: PodStatuses.Cause)
    reads m.machine`reports, m.machine`turn
  {
    && PendingFor(m, pod, reason)
    && Last(m.machine.reports).update.ip == ip && Last(m.machine.reports).update.restartCount == restarts
  }

  // ---- What follows an error ---------------------------------------------------------------

  /** After these errors the workload is left alone for a while. */
  predicate PutsOff(e: Failure) {
    || e.PersistOwnership? || e.PersistAddress? || e.MackerUnavailable? || e.InspectionUndecodable?
    || e.StopForRestart? || e.PersistRestart? || e.Prepare? || e.PersistMounts? || e.StartFailed? || e.NotRunning?
    || e.PersistStarted?
  }

  /** And after these the Pod is told that it is still Pending, for this reason. */
  function PendingReason(e: Failure): Option<PodStatuses.Cause> {
    match e
    case UnsupportedNetwork => Some(PodStatuses.UnsupportedPod)
    case NoNetwork => Some(PodStatuses.NetworkSetupFailed)
    case NoAddress => Some(PodStatuses.AddressAllocationFailed)
    case InvalidAddress => Some(PodStatuses.InvalidPodIP)
    case AddAddress => Some(PodStatuses.NetworkSetupFailed)
    case MackerUnavailable => Some(PodStatuses.Cause.MackerUnavailable)
    case Prepare => Some(PodStatuses.MackerLaunchFailed)
    case PersistMounts => Some(PodStatuses.OwnershipPersistFailed)
    case StartFailed => Some(PodStatuses.MackerLaunchFailed)
    case NotRunning => Some(PodStatuses.MackerLaunchFailed)
    case PersistStarted => Some(PodStatuses.OwnershipPersistFailed)
    case _ => None
  }

  ghost predicate Delayed(m: Manager, uid: string, since: int)
    reads m`workloads
  {
    RetryTime(m.workloads, uid).Some? && RetryTime(m.workloads, uid).value >= since + RETRY_DELAY
  }

  ghost predicate Answered(m: Manager, pod: Pod, uid: string, errors: seq<Failure>, since: int)
    reads m`workloads, m.machine`reports, m.machine`turn
  {
    forall e :: e in errors ==>
      && (PutsOff(e) ==> Delayed(m, uid, since))
      && (PendingReason(e).Some? ==> PendingFor(m, pod, PendingReason(e).value))
  }

  lemma AnsweredOne(m: Manager, pod: Pod, uid: string, e: Failure, since: int)
    requires PutsOff(e) ==> Delayed(m, uid, since)
    requires PendingReason(e).Some? ==> PendingFor(m, pod, PendingReason(e).value)
    ensures Answered(m, pod, uid, [e], since)
  {
  }

  lemma NoneAnswered(m: Manager, pod: Pod, uid: string, since: int)
    ensures Answered(m, pod, uid, [], since)
  {
  }

  /** Other errors ask for nothing. */
  lemma Unanswered(m: Manager, pod: Pod, uid: string, errors: seq<Failure>, since: int)
    requires forall e :: e in errors ==> !PutsOff(e) && PendingReason(e).None?
    ensures Answered(m, pod, uid, errors, since)
  {
  }

  lemma DelayedSince(m: Manager, uid: string, since: int, earlier: int)
    requires Delayed(m, uid, since) && earlier <= since
    ensures Delayed(m, uid, earlier)
  {
  }

  lemma AnsweredSince(m: Manager, pod: Pod, uid: string, errors: seq<Failure>, since: int, earlier: int)
    requires Answered(m, pod, uid, errors, since) && earlier <= since
    ensures Answered(m, pod, uid, errors, earlier)
  {
    hide PutsOff, PendingReason, PendingFor;
  }

  /** The journal, if there is one, is clean and holds both maps. */
  ghost predicate Synced(m: Manager)
    reads m`workloads, m`retained, m.machine`disk, m.machine`clean
  {
    m.journaled ==> m.machine.clean && Holds(m.machine.disk, m.workloads, m.retained)
  }

  /** A deleted Pod's end, with the address it was listed with. */
  ghost predicate ToldDeleted(m: Manager, pod: Pod)
    reads m.machine`reports, m.machine`turn
  {
    && LastTold(m, pod) && m.machine.turn.deleting
    && Last(m.machine.reports).phase == PodStatuses.Failed
    && Last(m.machine.reports).update.ip == pod.listed.status.podIP
  }

  /** Running, with the address and the restart count of the entry. */
  ghost predicate ToldRunning(m: Manager, pod: Pod, uid: string)
    requires uid in m.workloads
    reads m`workloads, m.machine`reports, m.machine`turn
  {
    Told(m, pod, m.workloads[uid].container, PodStatuses.Running) &&
    var r := Last(m.machine.reports);
    r.update.ip == m.workloads[uid].ip && r.update.restartCount == m.workloads[uid].restartCount
  }

  /** A live Pod has been dealt with: Running if it is still managed, else ended as its policy has it. */
  ghost predicate Settled(m: Manager, pod: Pod, uid: string)
    reads m`workloads, m.machine`reports, m.machine`turn, m.machine`seen
  {
    Arrived(m) &&
    if uid in m.workloads then ToldRunning(m, pod, uid)
    else
      && EndsPods(RestartPolicy(pod)) && LastTold(m, pod)
      && Last(m.machine.reports).phase == ExitPhase(RestartPolicy(pod), ExitCode(ReportOf(m.machine.seen)))
      && Last(m.machine.reports).update.inspection == ReportOf(m.machine.seen)
  }

  /** The entry is not to be touched before a time that has not come. */
  ghost predicate Waits(workloads: Workloads, uid: string, now: int) {
    RetryTime(workloads, uid).Some? && now < RetryTime(workloads, uid).value
  }

  /** What an entry waits for, if there is one. */
  ghost function RetryTime(workloads: Workloads, uid: string): Option<int> {
    if uid in workloads then workloads[uid].retryAfter else None
  }

  /** Reasons not to touch the container of a live Pod in its turn, which found these entries. */
  ghost predicate LeftAlone(found: Workloads, pod: Pod, now: int) {
    || |pod.listed.containers| != 1
    || Finished(pod)
    || Waits(found, Key(pod), now)
  }

  lemma LeftAloneSame(a: Workloads, b: Workloads, pod: Pod, now: int)
    requires RetryTime(a, Key(pod)) == RetryTime(b, Key(pod))
    ensures LeftAlone(a, pod, now) == LeftAlone(b, pod, now)
  {
  }

  // ---- What keeps a Pod from being run -----------------------------------------------------

  ghost predicate Parses(t: IPText) {
    t == Unset || ParseV4(t).Some?
  }

  /** The address a live Pod should get cannot be had: the one it reports is none of the plan, or no other is left. */
  ghost predicate Unaddressable(m: Manager, pod: Pod, used: set<IPText>)
    requires m.network != null
  {
    !pod.hostNetwork &&
    if pod.listed.status.podIP == Unset then !m.Free(used)
    else ParseV4(pod.listed.status.podIP).None? || !m.network.Acceptable(ParseV4(pod.listed.status.podIP).value)
  }

  /** A live Pod cannot be run whatever the commands say: by its own specification, or for want of an address. */
  ghost predicate Obstructed(m: Manager, pod: Pod, used: set<IPText>, workloads: Workloads) {
    || !SupportedNetwork(pod) || m.network == null
    || Unaddressable(m, pod, used)
    || (|pod.listed.containers| == 1 && pod.listed.containers[0].image == "")
    || !Parses(AddressOf(workloads, Key(pod)))
  }

  /** Nothing of the kind, as long as no more than so many addresses are in use. */
  ghost predicate Runnable(m: Manager, pod: Pod, inUse: nat) {
    && SupportedNetwork(pod) && m.network != null
    && (|pod.listed.containers| == 1 ==> pod.listed.containers[0].image != "")
    && (!pod.hostNetwork ==>
          if pod.listed.status.podIP == Unset then
            && m.network.podCIDR.V4? && m.network.podCIDR.prefix >= 16
            && inUse < Capacity(m.network.podCIDR, |m.network.peerGateways|)
          else ParseV4(pod.listed.status.podIP).Some? && m.network.Acceptable(ParseV4(pod.listed.status.podIP).value))
  }

  lemma RunnableUnobstructed(m: Manager, pod: Pod, used: set<IPText>, workloads: Workloads, inUse: nat)
    requires m.Valid() && Runnable(m, pod, inUse) && |used| <= inUse && Parses(AddressOf(workloads, Key(pod)))
    ensures !Obstructed(m, pod, used, workloads)
  {
    hide Key, Machine.Good, Filed, Manager.Logged, Standard, Capacity, D.Handle.Acceptable;
    if !pod.hostNetwork && pod.listed.status.podIP == Unset { StillFree(m, used); }
  }

  lemma StillFree(m: Manager, used: set<IPText>)
    requires m.network != null && m.network.Planned() && m.network.podCIDR.prefix >= 16
    requires |used| < Capacity(m.network.podCIDR, |m.network.peerGateways|)
    ensures m.Free(used)
  {
    FreeByCounting(m.network.podCIDR, |m.network.peerGateways|, used);
  }

  /** No Pod of the list is in the way of itself, nor are all of them together in each other's. */
  ghost predicate AllRunnable(m: Manager, pods: seq<Pod>) {
    forall p :: p in pods && Live(p) ==> Runnable(m, p, |Reported(pods)| + |pods| - 1)
  }

  // ---- Addresses ---------------------------------------------------------------------------

  /** An address picked for a Pod: the reported one, or the lowest free one, and always an acceptable one. */
  ghost predicate ChosenFor(m: Manager, pod: Pod, used: set<IPText>, usedAfter: set<IPText>, a: IPText) {
    && m.network != null && ParseV4(a).Some? && m.network.Acceptable(ParseV4(a).value)
    && (pod.listed.status.podIP != Unset ==> a == pod.listed.status.podIP)
    && (pod.listed.status.podIP == Unset ==> a.Dotted? && m.network.Allocates(used, a.value) && a in usedAfter)
  }

  /** The address an entry carries, if there is one. */
  ghost function AddressOf(workloads: Workloads, uid: string): IPText {
    if uid in workloads then workloads[uid].ip else Unset
  }

  /** Where a turn leaves its entry's address. */
  ghost predicate Placed(before: Workloads, after: Workloads, pod: Pod, nodeIP: IPText, given: Option<IPText>) {
    Key(pod) in after ==>
      var was, now := AddressOf(before, Key(pod)), after[Key(pod)].ip;
      if given.Some? then now == given.value
      else if Addressed(pod) then now == was
      else if Live(pod) then now == was || now == nodeIP
      else now == if Key(pod) in before then was else pod.listed.status.podIP
  }

  ghost function Reported(pods: seq<Pod>): set<IPText> {
    set p | p in pods && p.listed.status.podIP != Unset :: p.listed.status.podIP
  }

  /** The addresses a pass gave out, by position in the list. */
  ghost predicate Distributed(m: Manager, pods: seq<Pod>, given: map<nat, IPText>) {
    && (forall i :: i in given ==>
          && i < |pods| && Addressed(pods[i])
          && m.network != null && ParseV4(given[i]).Some? && m.network.Acceptable(ParseV4(given[i]).value)
          && (pods[i].listed.status.podIP != Unset ==> given[i] == pods[i].listed.status.podIP)
          && (pods[i].listed.status.podIP == Unset ==>
                given[i].Dotted? && given[i] !in Reported(pods) && m.network.podCIDR.prefix >= 16))
    && (forall i, j :: i in given && j in given && i < j &&
                       pods[i].listed.status.podIP == Unset && pods[j].listed.status.podIP == Unset ==>
          given[i] != given[j])
  }

  /** What the pass remembers in use covers all reports and everything it picked itself. */
  ghost predicate Remembered(pods: seq<Pod>, given: map<nat, IPText>, used: set<IPText>) {
    && Reported(pods) <= used
    && forall i :: i in given && i < |pods| && pods[i].listed.status.podIP == Unset ==> given[i] in used
  }

  lemma GiveOne(m: Manager, pods: seq<Pod>, given: map<nat, IPText>, used: set<IPText>, usedAfter: set<IPText>,
                n: nat, a: IPText)
    requires Distributed(m, pods, given) && Remembered(pods, given, used) && used <= usedAfter
    requires n < |pods| && n !in given && (forall i :: i in given ==> i < n)
    requires Addressed(pods[n]) && ChosenFor(m, pods[n], used, usedAfter, a)
    ensures Distributed(m, pods, given[n := a]) && Remembered(pods, given[n := a], usedAfter)
  {
    hide D.Handle.Acceptable, Reported;
  }

  lemma StillRemembered(pods: seq<Pod>, given: map<nat, IPText>, used: set<IPText>, usedAfter: set<IPText>)
    requires Remembered(pods, given, used) && used <= usedAfter
    ensures Remembered(pods, given, usedAfter)
  {
  }

  lemma ReportedSnoc(pods: seq<Pod>, i: nat)
    requires i < |pods|
    ensures var ip := pods[i].listed.status.podIP;
            Reported(pods[..i + 1]) == Reported(pods[..i]) + if ip != Unset then {ip} else {}
  {
    assert pods[..i + 1] == pods[..i] + [pods[i]];
  }

  // ---- The entries' addresses over a pass --------------------------------------------------

  ghost predicate DistinctKeys(pods: seq<Pod>) {
    forall i, j :: 0 <= i < j < |pods| ==> Key(pods[i]) != Key(pods[j])
  }

  /** Each addressed Pod's entry carries what the pass gave it, or else what it carried before. */
  ghost predicate Placements(start: Workloads, now: Workloads, pods: seq<Pod>, n: nat, given: map<nat, IPText>) {
    forall i :: 0 <= i < n <= |pods| && Addressed(pods[i]) && Key(pods[i]) in now ==>
      now[Key(pods[i])].ip == if i in given then given[i] else AddressOf(start, Key(pods[i]))
  }

  /** Entries whose Pod has not had its turn yet are as they were. */
  ghost predicate Untouched(start: Workloads, now: Workloads, pods: seq<Pod>, n: nat) {
    forall i :: 0 <= n <= i < |pods| ==>
      && AddressOf(now, Key(pods[i])) == AddressOf(start, Key(pods[i]))
      && RetryTime(now, Key(pods[i])) == RetryTime(start, Key(pods[i]))
  }

  lemma PlaceOne(start: Workloads, a: Book, b: Book, pods: seq<Pod>, n: nat, given: map<nat, IPText>, nodeIP: IPText,
                 one: Option<IPText>)
    requires n < |pods| && DistinctKeys(pods) && (forall i :: i in given ==> i < n)
    requires Placements(start, a.workloads, pods, n, given) && Untouched(start, a.workloads, pods, n)
    requires Touched(a, b, Key(pods[n])) && Placed(a.workloads, b.workloads, pods[n], nodeIP, one)
    ensures Untouched(start, b.workloads, pods, n + 1)
    ensures Placements(start, b.workloads, pods, n + 1, if one.Some? then given[n := one.value] else given)
  {
    hide Key, Kept, SameTurn;
    var key := Key(pods[n]);
    forall i | 0 <= i < |pods| && i != n
      ensures Key(pods[i]) in a.workloads <==> Key(pods[i]) in b.workloads
      ensures Key(pods[i]) in a.workloads ==> a.workloads[Key(pods[i])] == b.workloads[Key(pods[i])]
    {
      var other := Key(pods[i]);
      assert other != key;
      assert other in a.workloads - {key} <==> other in b.workloads - {key};
      if other in a.workloads { assert (a.workloads - {key})[other] == (b.workloads - {key})[other]; }
    }
  }

  /** Removing what is stale leaves every other entry's address. */
  lemma PlacementsSwept(start: Workloads, before: Workloads, after: Workloads, pods: seq<Pod>, given: map<nat, IPText>)
    requires Placements(start, before, pods, |pods|, given)
    requires forall uid :: uid in after ==> uid in before && after[uid].ip == before[uid].ip
    ensures Placements(start, after, pods, |pods|, given)
  {
  }

  /** The reported addresses of a list's addressed Pods are pairwise distinct. */
  ghost predicate DistinctReports(pods: seq<Pod>) {
    forall i, j :: 0 <= i < j < |pods| && Addressed(pods[i]) && Addressed(pods[j]) &&
                   pods[i].listed.status.podIP != Unset ==>
      pods[i].listed.status.podIP != pods[j].listed.status.podIP
  }

  /** Then the pass gives no address twice, and none that another addressed Pod reported. */
  lemma AddressesUnique(m: Manager, pods: seq<Pod>, given: map<nat, IPText>)
    requires Distributed(m, pods, given) && DistinctReports(pods)
    ensures forall i, j :: i in given && j in given && i < j ==> given[i] != given[j]
    ensures forall i, j :: i in given && 0 <= j < |pods| && i != j && Addressed(pods[j]) &&
                           pods[j].listed.status.podIP != Unset ==>
              given[i] != pods[j].listed.status.podIP
  {
    hide D.Handle.Acceptable;
    forall j | 0 <= j < |pods| && pods[j].listed.status.podIP != Unset
      ensures pods[j].listed.status.podIP in Reported(pods) {}
  }

  /** The Pods whose entry has another address after the pass than before it. */
  ghost predicate Moved(start: Workloads, now: Workloads, p: Pod) {
    Addressed(p) && Key(p) in now && now[Key(p)].ip != AddressOf(start, Key(p))
  }

  /**
   * One-pass address uniqueness, of the entries themselves: an address that an entry took in the pass is acceptable,
   * no other entry took it, and no other addressed Pod reported it; an allocated one was reported by no Pod at all.
   */
  lemma EntryAddressesUnique(m: Manager, start: Workloads, now: Workloads, pods: seq<Pod>, given: map<nat, IPText>)
    requires Distributed(m, pods, given) && Placements(start, now, pods, |pods|, given)
    requires DistinctReports(pods)
    ensures forall i :: 0 <= i < |pods| && Moved(start, now, pods[i]) ==>
              m.network != null && ParseV4(now[Key(pods[i])].ip).Some? &&
              m.network.Acceptable(ParseV4(now[Key(pods[i])].ip).value)
    ensures forall i, j :: 0 <= i < j < |pods| && Moved(start, now, pods[i]) && Moved(start, now, pods[j]) ==>
              now[Key(pods[i])].ip != now[Key(pods[j])].ip
    ensures forall i, j :: 0 <= i < |pods| && 0 <= j < |pods| && i != j && Moved(start, now, pods[i]) &&
                           Addressed(pods[j]) && pods[j].listed.status.podIP != Unset ==>
              now[Key(pods[i])].ip != pods[j].listed.status.podIP
    ensures forall i, j :: 0 <= i < |pods| && 0 <= j < |pods| && Moved(start, now, pods[i]) &&
                           pods[i].listed.status.podIP == Unset && pods[j].listed.status.podIP != Unset ==>
              now[Key(pods[i])].ip != pods[j].listed.status.podIP
  {
    hide Key, D.Handle.Acceptable;
    AddressesUnique(m, pods, given);
    forall i | 0 <= i < |pods| && Moved(start, now, pods[i])
      ensures i in given && now[Key(pods[i])].ip == given[i]
    {
    }
    forall j | 0 <= j < |pods| && pods[j].listed.status.podIP != Unset
      ensures pods[j].listed.status.podIP in Reported(pods) {}
    hide Reported;
  }

  /** A reported address no other addressed Pod reports, in any spelling. */
  ghost predicate DistinctValues(pods: seq<Pod>) {
    forall i, j :: 0 <= i < j < |pods| && Addressed(pods[i]) && Addressed(pods[j]) &&
                   ParseV4(pods[i].listed.status.podIP).Some? ==>
      ParseV4(pods[i].listed.status.podIP) != ParseV4(pods[j].listed.status.podIP)
  }

  /** No report in a spelling under which the allocator gives the address out again (Handle.ReportedKeptExactly). */
  ghost predicate NoneReissuable(m: Manager, pods: seq<Pod>) {
    forall p :: p in pods && Addressed(p) && m.network != null ==> !m.network.Reissuable(p.listed.status.podIP)
  }

  /** Then what a pass gives out differs as IPv4 addresses too. */
  lemma AddressValuesUnique(m: Manager, pods: seq<Pod>, given: map<nat, IPText>)
    requires Distributed(m, pods, given) && DistinctReports(pods) && DistinctValues(pods) && NoneReissuable(m, pods)
    ensures forall i, j :: i in given && j in given && i < j ==> ParseV4(given[i]) != ParseV4(given[j])
  {
    AddressesUnique(m, pods, given);
    hide D.Handle.Acceptable, Reported;
    forall i, j | i in given && j in given && i < j
      ensures ParseV4(given[i]) != ParseV4(given[j])
    {
      assert pods[i] in pods && pods[j] in pods;
    }
  }

  /** And so do the entries that took an address in it. */
  lemma EntryAddressValuesUnique(m: Manager, start: Workloads, now: Workloads, pods: seq<Pod>,
                                 given: map<nat, IPText>)
    requires Distributed(m, pods, given) && Placements(start, now, pods, |pods|, given)
    requires DistinctReports(pods) && DistinctValues(pods) && NoneReissuable(m, pods)
    ensures forall i, j :: 0 <= i < j < |pods| && Moved(start, now, pods[i]) && Moved(start, now, pods[j]) ==>
              ParseV4(now[Key(pods[i])].ip) != ParseV4(now[Key(pods[j])].ip)
  {
    hide Key, D.Handle.Acceptable, Reported, Distributed, DistinctReports, DistinctValues, NoneReissuable;
    AddressValuesUnique(m, pods, given);
    forall i | 0 <= i < |pods| && Moved(start, now, pods[i])
      ensures i in given && now[Key(pods[i])].ip == given[i]
    {
    }
  }

  // ---- Why a workload is no longer managed -------------------------------------------------

  /** The keys a pass leaves to their Pods: the rest is stale. */
  ghost function Seen(pods: seq<Pod>): set<string> {
    set p | p in pods && (p.deleting || p.native) :: Key(p)
  }

  lemma SeenSnoc(pods: seq<Pod>, i: nat)
    requires i < |pods|
    ensures Seen(pods[..i + 1]) == Seen(pods[..i]) + if pods[i].deleting || pods[i].native then {Key(pods[i])} else {}
  {
    hide Key;
    assert pods[..i + 1] == pods[..i] + [pods[i]];
  }

  /** A Pod that may cost its workload: it is being deleted, or its policy lets it end. */
  predicate Ends(p: Pod) {
    p.deleting || (Live(p) && EndsPods(RestartPolicy(p)))
  }

  ghost predicate EndListed(pods: seq<Pod>, n: nat, uid: string) {
    exists i :: 0 <= i < n <= |pods| && Ends(pods[i]) && Key(pods[i]) == uid
  }

  /** What the first n Pods' turns dropped. */
  ghost predicate Dropped(before: Workloads, after: Workloads, pods: seq<Pod>, n: nat) {
    forall uid :: uid in before && uid !in after ==> EndListed(pods, n, uid)
  }

  lemma DroppedMore(start: Workloads, a: Book, b: Book, pods: seq<Pod>, n: nat)
    requires n < |pods| && Dropped(start, a.workloads, pods, n) && Touched(a, b, Key(pods[n]))
    requires Key(pods[n]) in a.workloads && Key(pods[n]) !in b.workloads ==> Ends(pods[n])
    ensures Dropped(start, b.workloads, pods, n + 1)
  {
    hide Key, Kept, SameTurn, Ends;
    var key := Key(pods[n]);
    forall uid | uid in start && uid !in b.workloads
      ensures EndListed(pods, n + 1, uid)
    {
      assert uid != key ==> (uid in a.workloads - {key} <==> uid in b.workloads - {key});
    }
  }

  /** A pass drops a workload only if its Pod is being deleted or may end, or if no Pod accounts for it. */
  ghost predicate DroppedForCause(before: Workloads, after: Workloads, pods: seq<Pod>) {
    forall uid :: uid in before && uid !in after ==> EndListed(pods, |pods|, uid) || uid !in Seen(pods)
  }

  // ---- Why a workload is still managed -----------------------------------------------------

  ghost predicate LiveListed(pods: seq<Pod>, n: nat, uid: string) {
    exists i :: 0 <= i < n <= |pods| && Live(pods[i]) && Key(pods[i]) == uid
  }

  /** No address is in the way of a removal: all are IPv4 addresses, or there is no network. */
  ghost predicate AddressesParse(m: Manager, workloads: Workloads, pods: seq<Pod>) {
    || m.network == null
    || (&& Parses(m.nodeIP)
        && (forall p :: p in pods && p.deleting ==> Parses(p.listed.status.podIP))
        && (forall uid :: uid in workloads ==> Parses(workloads[uid].ip)))
  }

  lemma ParsedReleasable(m: Manager, workloads: Workloads, pods: seq<Pod>)
    requires AddressesParse(m, workloads, pods)
    ensures m.AllReleasable(workloads)
  {
    hide ParseV4;
  }

  /** And none gets in the way in a Pod's turn. */
  lemma ParsedOne(m: Manager, a: Book, b: Book, pods: seq<Pod>, n: nat, one: Option<IPText>)
    requires n < |pods| && AddressesParse(m, a.workloads, pods) && Touched(a, b, Key(pods[n]))
    requires Placed(a.workloads, b.workloads, pods[n], m.nodeIP, one) && (one.Some? ==> Parses(one.value))
    requires !pods[n].deleting && !pods[n].native ==> b.workloads == a.workloads
    ensures AddressesParse(m, b.workloads, pods)
  {
    hide Key, Kept, SameTurn, ParseV4;
    var key := Key(pods[n]);
    forall uid | uid in b.workloads && m.network != null
      ensures Parses(b.workloads[uid].ip)
    {
      assert pods[n] in pods;
      assert uid != key ==> uid in b.workloads - {key} && (a.workloads - {key})[uid] == (b.workloads - {key})[uid];
    }
  }

  /** What a removal of the Pod's entry, or of one made up for it, would release parses. */
  ghost predicate Removable(m: Manager, workloads: Workloads, pod: Pod) {
    if Key(pod) in workloads then m.Releasable(workloads[Key(pod)])
    else
      || pod.listed.status.podIP == Unset || m.network == null || pod.hostNetwork
      || ParseV4(pod.listed.status.podIP).Some?
  }

  /** A Pod being deleted that is not managed and has an IPv6 address: its removal fails in every pass. */
  lemma ForeignAddressStays(m: Manager, workloads: Workloads, pod: Pod, text: string)
    requires m.network != null && !pod.hostNetwork && Key(pod) !in workloads && pod.listed.status.podIP == Other(text)
    ensures !Removable(m, workloads, pod)
    ensures forall w: Workload :: w.ip == pod.listed.status.podIP && !w.hostNetwork ==> !m.Releasable(w)
  {
  }

  /** Something may keep a removal from succeeding: a removal command failed, or an address does not parse. */
  ghost predicate Excused(m: Manager, start: Book, now: Book, pods: seq<Pod>) {
    now.refusals > start.refusals || !AddressesParse(m, start.workloads, pods)
  }

  /** Why a seen UID is still managed: its Pod is live, or its removal failed. */
  ghost predicate Explained(workloads: Workloads, seen: set<string>, pods: seq<Pod>, n: nat, errors: seq<Failure>,
                            excused: bool) {
    forall uid :: uid in workloads && uid in seen ==>
      LiveListed(pods, n, uid) || (excused && RemoveDeleted(uid) in errors)
  }

  lemma ExplainedMore(a: Book, b: Book, seen: set<string>, pods: seq<Pod>, n: nat, errors: seq<Failure>,
                      more: seq<Failure>, excused: bool, excusedAfter: bool)
    requires n < |pods| && Explained(a.workloads, seen, pods, n, errors, excused) && Touched(a, b, Key(pods[n]))
    requires !pods[n].deleting && !pods[n].native ==> b.workloads == a.workloads
    requires excused ==> excusedAfter
    requires pods[n].deleting && Key(pods[n]) in b.workloads ==> excusedAfter && RemoveDeleted(Key(pods[n])) in more
    ensures Explained(b.workloads, if pods[n].deleting || pods[n].native then seen + {Key(pods[n])} else seen,
                      pods, n + 1, errors + more, excusedAfter)
  {
    hide Key, Kept, SameTurn;
    var key := Key(pods[n]);
    forall uid | uid in b.workloads && (uid in seen || (uid == key && (pods[n].deleting || pods[n].native)))
      ensures LiveListed(pods, n + 1, uid) || (excusedAfter && RemoveDeleted(uid) in errors + more)
    {
      if uid == key && (pods[n].deleting || pods[n].native) {
        assert !pods[n].deleting ==> Live(pods[n]);
      } else {
        assert uid != key ==> uid in a.workloads - {key};
        assert uid in a.workloads;
      }
    }
  }

  /** Why a workload is still managed after a pass. */
  ghost predicate Accounted(workloads: Workloads, pods: seq<Pod>, errors: seq<Failure>, excused: bool) {
    forall uid :: uid in workloads ==>
      || LiveListed(pods, |pods|, uid)
      || (excused && (RemoveDeleted(uid) in errors || RemoveStale(uid) in errors))
  }

  lemma AllAccounted(before: Workloads, after: Workloads, seen: set<string>, pods: seq<Pod>, errors: seq<Failure>,
                     more: seq<Failure>, excused: bool, excusedAfter: bool)
    requires Explained(before, seen, pods, |pods|, errors, excused) && (excused ==> excusedAfter)
    requires forall uid :: uid in after ==>
               uid in before && (uid in seen || (excusedAfter && RemoveStale(uid) in more))
    ensures Accounted(after, pods, errors + more, excusedAfter)
  {
  }

  // ---- What became of every listed Pod -----------------------------------------------------

  /** This Pod was told a phase last, in this turn. */
  ghost predicate ToldIn(e: TurnEnd, p: Pod) {
    e.last.Some? &&
    var r := e.last.value;
    r.turn == e.turn && Said(r) && Disciplined(r) && r.puts[0].0 == p.listed
  }

  /**
   * A turn without an error: a deleted Pod was told its end. A live one was told Running and is managed, or told its
   * end as its policy has it, in either case after Macker had said so in the same turn; or there was a reason to leave
   * it alone.
   */
  ghost predicate Concluded(e: TurnEnd, p: Pod) {
    && (p.deleting ==>
          && ToldIn(e, p) && !e.last.value.result.PutFailed?
          && e.last.value.phase == PodStatuses.Failed && e.last.value.update.ip == p.listed.status.podIP)
    && (Live(p) ==>
          || |p.listed.containers| != 1
          || Finished(p)
          || e.waiting
          || (ToldIn(e, p) && e.last.value.result.Stored? &&
              if e.managed then e.last.value.phase == PodStatuses.Running
              else EndsPods(RestartPolicy(p)) && PodStatuses.Terminal(e.last.value.phase)))
  }

  /** How a turn ended, between what it found and what it left. */
  ghost predicate EndedSo(e: TurnEnd, found: Workloads, left: Workloads, pod: Pod, now: int) {
    (e.managed <==> Key(pod) in left) && (e.waiting ==> Waits(found, Key(pod), now))
  }

  /**
   * The record of a pass: a live Pod managed at its turn's end is managed now, and one left alone to wait was put off
   * before the pass began.
   */
  ghost predicate Recalled(start: Workloads, now: Workloads, pods: seq<Pod>, ended: seq<TurnEnd>, n: nat) {
    && n == |ended| <= |pods|
    && forall i :: 0 <= i < n ==>
         && (Live(pods[i]) ==> (ended[i].managed <==> Key(pods[i]) in now))
         && (ended[i].waiting ==> RetryTime(start, Key(pods[i])).Some?)
  }

  lemma RecalledMore(start: Workloads, a: Book, b: Book, pods: seq<Pod>, ended: seq<TurnEnd>, n: nat, e: TurnEnd,
                     now: int)
    requires n < |pods| && DistinctKeys(pods) && Touched(a, b, Key(pods[n]))
    requires Recalled(start, a.workloads, pods, ended, n) && Untouched(start, a.workloads, pods, n)
    requires EndedSo(e, a.workloads, b.workloads, pods[n], now)
    ensures Recalled(start, b.workloads, pods, ended + [e], n + 1)
  {
    hide Key, Kept, SameTurn;
    var key := Key(pods[n]);
    forall i | 0 <= i < n
      ensures Key(pods[i]) in a.workloads <==> Key(pods[i]) in b.workloads
    {
      var other := Key(pods[i]);
      assert other != key;
      assert other in a.workloads - {key} <==> other in b.workloads - {key};
    }
  }

  /** The last loop keeps what live Pods have. */
  lemma RecalledSwept(start: Workloads, before: Workloads, after: Workloads, pods: seq<Pod>, ended: seq<TurnEnd>)
    requires Recalled(start, before, pods, ended, |pods|)
    requires forall uid :: uid in after ==> uid in before
    requires forall uid :: uid in Seen(pods) && uid in before ==> uid in after
    ensures Recalled(start, after, pods, ended, |pods|)
  {
    hide Key;
    forall i | 0 <= i < |pods| && Live(pods[i]) ensures Key(pods[i]) in Seen(pods) {}
  }

  ghost function ErrorCount(ends: seq<TurnEnd>): nat {
    if ends == [] then 0 else ErrorCount(ends[..|ends| - 1]) + ends[|ends| - 1].errors
  }

  /** The first n listed Pods had their turns, in order, which had so many errors. */
  ghost predicate TurnsTaken(ended: seq<TurnEnd>, pods: seq<Pod>, n: nat, errors: nat) {
    && n == |ended| <= |pods| && ErrorCount(ended) == errors
    && forall i :: 0 <= i < n ==>
         && ended[i].turn == TurnOf(ended[i].turn.number, pods[i])
         && (ended[i].errors == 0 ==> Concluded(ended[i], pods[i]))
  }

  /** Every listed Pod had its turn, and its errors are among those of the pass. */
  ghost predicate AllTurnsTaken(ended: seq<TurnEnd>, pods: seq<Pod>, errors: nat) {
    exists n: nat :: n <= errors && TurnsTaken(ended, pods, |pods|, n)
  }

  lemma TurnsTakenMore(ended: seq<TurnEnd>, pods: seq<Pod>, n: nat, errors: nat, e: TurnEnd)
    requires n < |pods| && TurnsTaken(ended, pods, n, errors)
    requires e.turn == TurnOf(e.turn.number, pods[n]) && (e.errors == 0 ==> Concluded(e, pods[n]))
    ensures TurnsTaken(ended + [e], pods, n + 1, errors + e.errors)
  {
    hide TurnOf, Concluded, ErrorCount, Key, Live, RestartPolicy;
    ErrorCountMore(ended, e);
  }

  lemma ErrorCountMore(ended: seq<TurnEnd>, e: TurnEnd)
    ensures ErrorCount(ended + [e]) == ErrorCount(ended) + e.errors
  {
    assert (ended + [e])[..|ended|] == ended;
  }

  lemma {:induction false} NoErrors(ended: seq<TurnEnd>)
    requires ErrorCount(ended) == 0
    ensures forall e :: e in ended ==> e.errors == 0
  {
    if ended != [] {
      NoErrors(ended[..|ended| - 1]);
      assert ended == ended[..|ended| - 1] + [ended[|ended| - 1]];
    }
  }

  /** After a pass without errors every listed Pod has been dealt with. */
  lemma AllConcluded(ended: seq<TurnEnd>, pods: seq<Pod>)
    requires AllTurnsTaken(ended, pods, 0)
    ensures |ended| == |pods|
    ensures forall i :: 0 <= i < |pods| ==>
              ended[i].turn == TurnOf(ended[i].turn.number, pods[i]) && Concluded(ended[i], pods[i])
  {
    hide TurnOf, Concluded;
    NoErrors(ended);
    forall i | 0 <= i < |pods| ensures ended[i].errors == 0 { assert ended[i] in ended; }
  }

  // ---- Deletion timestamps -----------------------------------------------------------------

  /** The keys listed as being deleted. */
  ghost function Deleted(pods: seq<Pod>): set<string> {
    set p | p in pods && p.deleting :: Key(p)
  }

  /** The keys listed live after having been listed as being deleted. */
  ghost function Cleared(pods: seq<Pod>, deletions: set<string>): set<string> {
    if pods == [] then {}
    else
      var init, last := pods[..|pods| - 1], pods[|pods| - 1];
      Cleared(init, deletions) + if Live(last) && Key(last) in deletions + Deleted(init) then {Key(last)} else {}
  }

  lemma DeletedAppend(a: seq<Pod>, b: seq<Pod>)
    ensures Deleted(a + b) == Deleted(a) + Deleted(b)
  {
    hide Key;
  }

  lemma {:induction false} ClearedAppend(a: seq<Pod>, b: seq<Pod>, deletions: set<string>)
    ensures Cleared(a + b, deletions) == Cleared(a, deletions) + Cleared(b, deletions + Deleted(a))
  {
    hide Key, Deleted;
    if b == [] {
      assert a + b == a;
    } else {
      var init := b[..|b| - 1];
      ClearedAppend(a, init, deletions);
      DeletedAppend(a, init);
      assert (a + b)[..|a + b| - 1] == a + init;
    }
  }

  lemma {:induction false} ClearedGrows(pods: seq<Pod>, fewer: set<string>, more: set<string>)
    requires fewer <= more
    ensures Cleared(pods, fewer) <= Cleared(pods, more)
  {
    hide Key, Deleted;
    if pods != [] { ClearedGrows(pods[..|pods| - 1], fewer, more); }
  }

  lemma DeletedSnoc(pods: seq<Pod>, i: nat)
    requires i < |pods|
    ensures Deleted(pods[..i + 1]) == Deleted(pods[..i]) + if pods[i].deleting then {Key(pods[i])} else {}
  {
    hide Key;
    assert pods[..i + 1] == pods[..i] + [pods[i]];
  }

  lemma ClearedSnoc(pods: seq<Pod>, i: nat, deletions: set<string>)
    requires i < |pods|
    ensures Cleared(pods[..i + 1], deletions) ==
              Cleared(pods[..i], deletions) +
              if Live(pods[i]) && Key(pods[i]) in deletions + Deleted(pods[..i]) then {Key(pods[i])} else {}
  {
    hide Key, Deleted;
    assert pods[..i + 1][..i] == pods[..i];
  }
}
