/** One reconcile pass: what it does to each listed Pod, and what it sweeps away at the end. */
module Reconcilers {
  import opened Text
  import opened AddressPlan
  import opened Journals
  import opened Machines
  import opened Managers
  import opened Books
  import D = DarwinNetwork
  import PodStatuses

  // ---- What changes no entry ---------------------------------------------------------------

  /** The journal follows. */
  method Write(m: Manager) returns (ok: bool)
    requires m.Consistent()
    modifies m`doomed
    modifies m.machine`disk, m.machine`clean, m.machine`failedWrites, m.machine`past, m.machine`trace
    ensures m.Valid() && At(m) == old(At(m))
    ensures m.machine.failedWrites == if ok then old(m.machine.failedWrites) else old(m.machine.failedWrites) + 1
    ensures m.Setbacks() == if ok then old(m.Setbacks()) else old(m.Setbacks()) + 1
    ensures ok ==> Synced(m)
    ensures !ok ==> !m.machine.clean
    ensures LaunchOf(m) == old(LaunchOf(m)) && m.machine.resurrected == old(m.machine.resurrected)
  {
    hide At, Manager.Consistent, Manager.Valid, Manager.Setbacks, Holds;
    ok := m.PersistJournal();
  }

  /** An entry is changed in place. */
  method Change(m: Manager, w: Workload)
    requires m.Valid() && w.uid in m.workloads && m.workloads[w.uid].container == w.container && !w.retained
    modifies m`workloads
    ensures m.Valid() && Touched(old(At(m)), At(m), w.uid) && m.workloads == old(m.workloads)[w.uid := w]
  {
    hide Manager.Valid, Kept, Touched, StandingOf, Manager.Refusals;
    ghost var start := At(m);
    m.Assign(w);
    AssignTouches(start, At(m), w.uid);
  }

  method Ask(m: Manager, container: string) returns (r: Listing)
    requires m.Valid()
    modifies m.machine`running, m.machine`now, m.machine`past, m.machine`trace
    modifies m.machine`observed, m.machine`unanswered, m.machine`denials, m.machine`first
    modifies m.machine`listed, m.machine`exited, m.machine`setbacks
    ensures m.Valid() && At(m) == old(At(m)) && m.machine.running <= old(m.machine.running)
    ensures old(m.Setbacks()) <= m.Setbacks() && (r.ListingFailed? ==> m.Setbacks() > old(m.Setbacks()))
    ensures old(m.machine.first).None? ==> m.machine.first == Some(r)
    ensures r == Listed(false) ==> SeenExited(m, container)
    ensures r == Listed(true) ==> Saw(container, true, m.machine.turn) in m.machine.observed
    ensures m.machine.now >= old(m.machine.now)
  {
    hide At, Manager.Valid, Manager.Setbacks, Launched;
    r := m.ContainerStatus(container);
  }

  method Inspect(m: Manager, container: string) returns (r: Inspection)
    requires m.Valid()
    modifies m.machine`running, m.machine`now, m.machine`past, m.machine`trace
    modifies m.machine`observed, m.machine`unanswered, m.machine`denials, m.machine`seen, m.machine`setbacks
    ensures m.Valid() && At(m) == old(At(m)) && m.machine.running <= old(m.machine.running)
    ensures old(m.machine.observed) <= m.machine.observed
    ensures m.machine.unanswered == old(m.machine.unanswered) + if r.Undecodable? then 1 else 0
    ensures m.machine.seen == r
    ensures old(m.Setbacks()) <= m.Setbacks() && (r.Undecodable? ==> m.Setbacks() > old(m.Setbacks()))
    ensures m.machine.now >= old(m.machine.now)
  {
    hide At, Manager.Valid, Manager.Setbacks, Launched;
    r := m.ContainerInspection(container);
  }

  /** A live Pod stays Pending. */
  method TellPending(m: Manager, pod: Pod, ip: IPText, reason: PodStatuses.Cause, restarts: Int32)
    returns (r: PutResult)
    requires m.Valid() && OnTurn(m, pod, Key(pod))
    modifies m.machine`reports, m.machine`setbacks, m.machine`running, m.machine`now, m.machine`past, m.machine`trace
    ensures m.Valid() && At(m) == old(At(m)) && ToldPending(m, pod, ip, restarts, reason)
    ensures m.machine.running <= old(m.machine.running)
    ensures old(m.Setbacks()) <= m.Setbacks() && (!r.Stored? ==> m.Setbacks() > old(m.Setbacks()))
    ensures m.machine.now >= old(m.machine.now)
    ensures OneMore(old(m.machine.reports), m.machine.reports) && Last(m.machine.reports).result == r
  {
    hide At, Manager.Valid, Manager.Setbacks, Said, Key;
    r := m.ReportPending(pod.listed, ip, reason, restarts);
    PutToPod(m, pod);
  }

  /** It was put to the Pod whose turn it is. */
  lemma PutToPod(m: Manager, pod: Pod)
    requires m.machine.reports != [] && HasTurn(m, pod)
    requires Last(m.machine.reports).turn == m.machine.turn && Said(Last(m.machine.reports))
    ensures LastTold(m, pod)
  {
  }

  // ---- A Pod being deleted -----------------------------------------------------------------

  /** The entry a deleted Pod is removed under: the managed one, or one made up from the Pod. */
  method Departing(m: Manager, pod: Pod) returns (w: Workload)
    requires m.Valid()
    ensures Entry(w, Key(pod), false)
    ensures Key(pod) in m.workloads ==> w == m.workloads[Key(pod)]
    ensures Key(pod) !in m.workloads ==>
              w.ip == pod.listed.status.podIP && w.hostNetwork == pod.hostNetwork && w.restartCount == 0
  {
    hide Key, ContainerName;
    var uid := Key(pod);
    if uid in m.workloads {
      m.Known(uid);
      return m.workloads[uid];
    }
    var p := pod.listed;
    var name := WorkloadContainerName(m.unicode, p.namespace, p.name, p.uid);
    ContainerNameValid(m.unicode, p.namespace, p.name, p.uid);
    w := Workload(uid, p.namespace, p.name, FirstContainer(pod), name, p.status.podIP, 0, pod.hostNetwork, false,
                  [], [], "", None, None);
  }

  /** The entry stays, or comes back. */
  method Reenter(m: Manager, uid: string, w: Workload)
    requires m.Valid() && Entry(w, uid, false) && uid in m.machine.deletions
    requires uid in m.workloads ==> m.workloads[uid].container == w.container
    modifies m`workloads, m`doomed
    ensures m.Valid() && Touched(old(At(m)), At(m), uid) && m.workloads == old(m.workloads)[uid := w]
  {
    hide Manager.Consistent, Manager.Logged, Kept, Touched, StandingOf, Manager.Refusals, Manager.Setbacks;
    ghost var start := At(m);
    if uid in m.workloads { m.Assign(w); } else { m.EnterDoomed(w); }
    AssignTouches(start, At(m), uid);
  }

  /** The entry of a removed container is retained. */
  method Retain(m: Manager, uid: string, w: Workload)
    requires m.Valid() && Entry(w, uid, false) && w.container !in m.machine.running
    requires w.container in m.machine.removed + m.machine.retired
    requires uid in m.workloads ==> m.workloads[uid].container == w.container
    modifies m`workloads, m`retained
    ensures m.Valid() && Touched(old(At(m)), At(m), uid) && uid !in m.workloads && uid in m.retained
    ensures m.retained[uid] == AsRetained(w, m.machine.now + m.Retention())
  {
    hide Manager.Consistent, Manager.Logged, Kept, Touched, StandingOf, Manager.Refusals, Manager.Setbacks, AsRetained;
    ghost var start := At(m);
    m.RetainWorkload(w);
    RetainTouches(start, At(m), uid);
  }

  /** The logs of a container there was are in their file, and kept as long as they should be, unless that failed. */
  ghost predicate LogKept(m: Manager, w: Workload, after: Workload, since: int, missed: nat)
    reads m.machine`missedLogs, m.machine`logFiles
  {
    w.container != "" && m.keepsLogs && m.machine.missedLogs == missed ==>
      && after.logFile == m.LogFileName(w) && after.logFile in m.machine.logFiles
      && after.logExpiresAt.Some? && after.logExpiresAt.value >= since + m.Retention()
  }

  lemma KeptLog(m: Manager, w: Workload, after: Workload, now: int, missed: nat)
    requires m.Archived(w, after, now, missed)
    ensures LogKept(m, w, after, now, missed)
  {
  }

  /** A retained entry keeps its log. */
  lemma RetainedLog(m: Manager, w: Workload, after: Workload, expiry: int, since: int, missed: nat)
    requires LogKept(m, w, after, since, missed)
    ensures LogKept(m, w, AsRetained(after, expiry), since, missed)
  {
  }

  /** Removing what an entry stands for changes no entry. */
  method Remove(m: Manager, uid: string, w: Workload) returns (ok: bool, after: Workload)
    requires m.Valid() && w.container != ""
    modifies m.machine`running, m.machine`now, m.machine`past, m.machine`trace, m.machine`removed, m.network, m.host
    modifies m.machine`mounts, m.machine`volumes, m.machine`logs, m.machine`missedLogs, m.machine`logFiles
    modifies m.machine`refusals, m.machine`present
    ensures m.Valid() && Touched(old(At(m)), At(m), uid) && m.machine.running <= old(m.machine.running)
    ensures old(m.Refusals()) <= m.Refusals() && (ok <==> m.Releasable(w) && m.Refusals() == old(m.Refusals()))
    ensures m.Setbacks() == old(m.Setbacks()) + m.Refusals() - old(m.Refusals())
    ensures Emptied(w, after) && (ok ==> m.Vanished(w) && w.container in m.machine.removed)
    ensures ok ==> w.container !in m.machine.running
    ensures LogKept(m, w, after, old(m.machine.now), old(m.machine.missedLogs))
    ensures LaunchOf(m) == old(LaunchOf(m)) && m.machine.resurrected == old(m.machine.resurrected)
    ensures m.machine.failedWrites == old(m.machine.failedWrites)
    ensures m.machine.mounts <= old(m.machine.mounts) && m.machine.volumes <= old(m.machine.volumes)
    ensures m.machine.now >= old(m.machine.now)
  {
    hide Manager.Valid, Kept, Touched, StandingOf, Manager.Refusals, Manager.Setbacks, Manager.Releasable, LogKept;
    hide Manager.Vacated, Manager.Archived;
    ghost var start := At(m);
    ok, after := m.RemoveWorkload(w);
    KeptLog(m, w, after, old(m.machine.now), old(m.machine.missedLogs));
    NothingTouched(start, At(m), uid);
  }

  /** What a removed workload used is given back, and its log is kept. */
  ghost predicate Departed(m: Manager, w: Workload, kept: Workload, since: int, missed: nat)
    reads m.network, m.host, m.machine`present, m.machine`mounts, m.machine`volumes
    reads m.machine`missedLogs, m.machine`logFiles
  {
    m.Vacated(w) && LogKept(m, w, kept, since, missed)
  }

  lemma VacatedOff(m: Manager, w: Workload)
    requires m.Vanished(w)
    ensures Off(m, w.container) && m.Vacated(w)
  {
  }

  /** A failed removal keeps, or puts back, the entry. */
  method RemoveDeletedPod(m: Manager, pod: Pod) returns (ok: bool, removed: Workload)
    requires m.Valid() && Key(pod) in m.machine.deletions
    modifies m`workloads, m`retained, m`doomed, m.network, m.host
    modifies m.machine`running, m.machine`now, m.machine`past, m.machine`trace, m.machine`removed, m.machine`refusals
    modifies m.machine`present
    modifies m.machine`mounts, m.machine`volumes, m.machine`logs, m.machine`missedLogs, m.machine`logFiles
    ensures m.Valid() && Touched(old(At(m)), At(m), Key(pod))
    ensures ok <==> Key(pod) !in m.workloads
    ensures old(m.Refusals()) <= m.Refusals()
    ensures m.Setbacks() == old(m.Setbacks()) + m.Refusals() - old(m.Refusals())
    ensures ok <==> old(Removable(m, m.workloads, pod)) && m.Refusals() == old(m.Refusals())
    ensures ok ==> Key(pod) in m.retained && removed.container in m.machine.removed && Off(m, removed.container)
    ensures ok ==> Departed(m, removed, m.retained[Key(pod)], old(m.machine.now), old(m.machine.missedLogs))
    ensures !ok ==> m.workloads[Key(pod)].ip == removed.ip
    ensures if Key(pod) in old(m.workloads) then removed == old(m.workloads)[Key(pod)]
            else removed.ip == pod.listed.status.podIP && removed.restartCount == 0
    ensures LaunchOf(m) == old(LaunchOf(m)) && m.machine.resurrected == old(m.machine.resurrected)
    ensures m.machine.failedWrites == old(m.machine.failedWrites)
    ensures m.machine.running <= old(m.machine.running)
    ensures m.machine.now >= old(m.machine.now)
  {
    hide At, Manager.Valid, Key, Kept, Touched, StandingOf, AsRetained, Manager.Refusals, Manager.Setbacks, LogKept;
    hide Manager.Vacated;
    var uid := Key(pod);
    ghost var start := At(m);
    removed := Departing(m, pod);
    var after;
    ok, after := Remove(m, uid, removed);
    ghost var tried := At(m);
    if ok {
      Retain(m, uid, after);
      VacatedOff(m, removed);
      RetainedLog(m, removed, after, m.machine.now + m.Retention(), old(m.machine.now), old(m.machine.missedLogs));
    } else {
      Reenter(m, uid, after);
    }
    TouchedMore(start, tried, At(m), uid);
  }

  /** The API server is told of the end; a Pod that is gone is no error. */
  method ReportDeleted(m: Manager, pod: Pod, removed: Workload) returns (errors: seq<Failure>)
    requires m.Valid() && HasTurn(m, pod) && pod.deleting && removed.container in m.machine.removed
    modifies m.machine`reports, m.machine`setbacks, m.machine`running, m.machine`now, m.machine`past, m.machine`trace
    ensures m.Valid() && ToldDeleted(m, pod) && m.machine.running <= old(m.machine.running)
    ensures Last(m.machine.reports).update.restartCount == removed.restartCount
    ensures errors == [] || errors == [StatusWrite]
    ensures old(m.Setbacks()) <= m.Setbacks() && (errors != [] ==> m.Setbacks() > old(m.Setbacks()))
    ensures m.machine.now >= old(m.machine.now)
    ensures OneMore(old(m.machine.reports), m.machine.reports)
    ensures errors == [StatusWrite] <==> Last(m.machine.reports).result.PutFailed?
    ensures LaunchOf(m) == old(LaunchOf(m)) && m.machine.resurrected == old(m.machine.resurrected)
  {
    hide Manager.Consistent, Manager.Logged, Manager.Setbacks, Said;
    var message: string := *;
    var put := m.ReportStatus(removed.container, pod.listed, PodStatuses.Failed, pod.listed.status.podIP,
                              PodStatuses.WorkloadDeleted, message, false, removed.restartCount, None);
    ReportFields(m);
    PutToPod(m, pod);
    errors := if put.PutFailed? then [StatusWrite] else [];
  }

  /** What was put is not the rest of the report. */
  lemma ReportFields(m: Manager)
    requires m.machine.reports != []
    ensures var r := Last(m.machine.reports);
            && Bare(r).container == r.container && Bare(r).phase == r.phase
            && Bare(r).update == r.update && Bare(r).turn == r.turn && Bare(r).result == r.result
  {
  }

  /** What follows a removal: the API server is told whatever happened to the journal. */
  method ConcludeDeleted(m: Manager, pod: Pod, removed: Workload, ghost kept: Workload, ghost since: int,
                         ghost missed: nat)
    returns (errors: seq<Failure>)
    requires m.Valid() && HasTurn(m, pod) && pod.deleting && removed.container in m.machine.removed
    requires Off(m, removed.container) && Departed(m, removed, kept, since, missed)
    modifies m`doomed, m.machine`disk, m.machine`clean, m.machine`failedWrites
    modifies m.machine`reports, m.machine`setbacks, m.machine`running, m.machine`now, m.machine`past, m.machine`trace
    ensures m.Valid() && At(m) == old(At(m)) && ToldDeleted(m, pod)
    ensures Last(m.machine.reports).update.restartCount == removed.restartCount
    ensures PersistDeleted !in errors ==> Synced(m)
    ensures Off(m, removed.container) && Departed(m, removed, kept, since, missed)
    ensures LaunchOf(m) == old(LaunchOf(m)) && m.machine.resurrected == old(m.machine.resurrected)
    ensures m.workloads == old(m.workloads) && m.retained == old(m.retained) && m.Refusals() == old(m.Refusals())
    ensures WritesTold(old(m.machine.failedWrites), m.machine.failedWrites, errors)
    ensures forall e :: e in errors ==> e == PersistDeleted || e == StatusWrite
    ensures old(m.Setbacks()) <= m.Setbacks() && (errors != [] ==> m.Setbacks() > old(m.Setbacks()))
    ensures m.machine.running <= old(m.machine.running)
    ensures m.machine.now >= old(m.machine.now)
    ensures OneMore(old(m.machine.reports), m.machine.reports)
    ensures StatusWrite in errors <==> Last(m.machine.reports).result.PutFailed?
  {
    hide At, Manager.Consistent, Manager.Logged, Manager.Setbacks, Holds, WritesTold, HasTurn, Departed, ToldDeleted;
    hide Said, Manager.Refusals, Synced, OneMore;
    ghost var start := At(m);
    var persisted := Write(m);
    ghost var writes := m.machine.failedWrites;
    Tallied(old(m.machine.failedWrites), writes, persisted, PersistDeleted);
    errors := if persisted then [] else [PersistDeleted];
    var more := ReportDeleted(m, pod, removed);
    Tallied(writes, writes, more == [], StatusWrite);
    WritesMore(old(m.machine.failedWrites), writes, writes, errors, more);
    errors := errors + more;
  }

  /** The deletion branch. */
  method ReconcileDeleted(m: Manager, pod: Pod) returns (errors: seq<Failure>)
    requires m.Valid() && HasTurn(m, pod) && pod.deleting && Key(pod) in m.machine.deletions
    modifies m`workloads, m`retained, m`doomed, m.network, m.host
    modifies m.machine`running, m.machine`now, m.machine`past, m.machine`trace, m.machine`removed, m.machine`refusals
    modifies m.machine`present
    modifies m.machine`mounts, m.machine`volumes, m.machine`logs, m.machine`missedLogs, m.machine`logFiles
    modifies m.machine`disk, m.machine`clean, m.machine`failedWrites, m.machine`reports, m.machine`setbacks
    ensures m.Valid() && Touched(old(At(m)), At(m), Key(pod))
    ensures WritesTold(old(m.machine.failedWrites), m.machine.failedWrites, errors)
    ensures Key(pod) in m.workloads <==> RemoveDeleted(Key(pod)) in errors
    ensures forall e :: e in errors ==> e.RemoveDeleted? || e == PersistDeleted || e == StatusWrite
    ensures LaunchOf(m) == old(LaunchOf(m)) && m.machine.resurrected == old(m.machine.resurrected)
    ensures Key(pod) in m.workloads <==> !old(Removable(m, m.workloads, pod)) || m.Refusals() > old(m.Refusals())
    ensures Key(pod) !in m.workloads ==> Key(pod) in m.retained && ToldDeleted(m, pod)
    ensures Key(pod) !in m.workloads ==>
              Last(m.machine.reports).update.restartCount ==
              if Key(pod) in old(m.workloads) then old(m.workloads)[Key(pod)].restartCount else 0
    ensures Key(pod) !in m.workloads && PersistDeleted !in errors ==> Synced(m)
    ensures Key(pod) !in m.workloads && Key(pod) in old(m.workloads) ==>
              var w := old(m.workloads)[Key(pod)];
              && Off(m, w.container)
              && Departed(m, w, m.retained[Key(pod)], old(m.machine.now), old(m.machine.missedLogs))
    ensures Key(pod) in m.workloads ==>
              m.workloads[Key(pod)].ip == if Key(pod) in old(m.workloads) then old(m.workloads)[Key(pod)].ip
                                          else pod.listed.status.podIP
    ensures errors == [] ==> ToldDeleted(m, pod) && !Last(m.machine.reports).result.PutFailed?
    ensures old(m.Setbacks()) <= m.Setbacks()
    ensures errors != [] ==> m.Setbacks() > old(m.Setbacks()) || !old(Removable(m, m.workloads, pod))
    ensures m.machine.running <= old(m.machine.running)
    ensures m.machine.now >= old(m.machine.now)
    ensures AtMostOne(old(m.machine.reports), m.machine.reports)
    ensures Key(pod) !in m.workloads ==> (StatusWrite in errors <==> Last(m.machine.reports).result.PutFailed?)
    ensures Key(pod) in m.workloads ==> errors == [RemoveDeleted(Key(pod))]
  {
    hide Manager.Consistent, Manager.Logged, Key, Kept, Touched, StandingOf, WritesTold, ToldDeleted, Removable;
    hide HasTurn, Manager.Refusals, Manager.Setbacks, Manager.Valid, Departed, Synced, Off, OneMore, At, LaunchOf;
    ghost var writes := m.machine.failedWrites;
    var ok, removed := RemoveDeletedPod(m, pod);
    Tallied(writes, writes, ok, RemoveDeleted(Key(pod)));
    if ok {
      errors := ConcludeDeleted(m, pod, removed, m.retained[Key(pod)], old(m.machine.now), old(m.machine.missedLogs));
    } else {
      errors := [RemoveDeleted(Key(pod))];
    }
  }

  // ---- A live Pod --------------------------------------------------------------------------

  /** The entry a live Pod is first managed under. */
  method Arriving(m: Manager, pod: Pod) returns (w: Workload)
    requires m.Valid()
    ensures Entry(w, Key(pod), false) && Unused(w, pod) && w.retryAfter == None
    ensures w.container == ContainerName(m.unicode, pod.listed.namespace, pod.listed.name, pod.listed.uid)
    ensures w.restartCount == PodStatuses.FirstContainerRestartCount(pod.listed.status)
  {
    hide Key, ContainerName;
    var p := pod.listed;
    var name := WorkloadContainerName(m.unicode, p.namespace, p.name, p.uid);
    ContainerNameValid(m.unicode, p.namespace, p.name, p.uid);
    w := Workload(Key(pod), "", "", FirstContainer(pod), name, Unset, 0, false, false, [], [], "", None, None);
    if p.status.containers != [] { w := w.(restartCount := p.status.containers[0].restartCount); }
  }

  /** The entry's description of its Pod is the Pod's. */
  ghost predicate Describes(w: Workload, p: Pod) {
    && w.namespace == p.listed.namespace && w.name == p.listed.name
    && w.podContainer == (if p.listed.containers == [] then "" else p.listed.containers[0].name)
    && w.hostNetwork == p.hostNetwork
  }

  /** The journal on disk has a record of the entry's container. */
  ghost predicate OnRecord(m: Manager, uid: string)
    requires uid in m.workloads
    reads m`workloads, m.machine`disk
  {
    OnDisk(m.machine.disk, uid, m.workloads[uid].container)
  }

  lemma WrittenOnRecord(m: Manager, uid: string)
    requires m.Valid() && uid in m.workloads && Holds(m.machine.disk, m.workloads, m.retained)
    ensures OnRecord(m, uid)
  {
    hide Machine.Good, Manager.NetworkValid, Standard;
    HoldsNames(m.machine.disk, m.workloads, m.retained);
  }

  /** The journal follows a change; if it cannot, the workload is left alone for a while. */
  method PersistOrRetry(m: Manager, uid: string) returns (ok: bool)
    requires m.Consistent() && uid in m.workloads
    modifies m`workloads, m`doomed
    modifies m.machine`disk, m.machine`clean, m.machine`failedWrites, m.machine`past, m.machine`trace
    ensures m.Valid() && Touched(old(At(m)), At(m), uid) && uid in m.workloads
    ensures if ok then m.workloads == old(m.workloads) else Delayed(m, uid, old(m.machine.now))
    ensures SameButRetry(old(m.workloads)[uid], m.workloads[uid])
    ensures m.machine.failedWrites == if ok then old(m.machine.failedWrites) else old(m.machine.failedWrites) + 1
    ensures m.Setbacks() == if ok then old(m.Setbacks()) else old(m.Setbacks()) + 1
    ensures !ok ==> !m.machine.clean
    ensures ok ==> Synced(m) && (m.journaled ==> OnRecord(m, uid))
  {
    hide Manager.Consistent, Manager.Logged, Kept, Touched, StandingOf, Manager.Refusals, Manager.Setbacks, Holds;
    hide OnRecord;
    ghost var start := At(m);
    ok := Write(m);
    if ok && m.journaled { WrittenOnRecord(m, uid); }
    NothingTouched(start, At(m), uid);
    if !ok {
      hide SameButRetry;
      ghost var written := At(m);
      PutOff(m, uid);
      TouchedMore(start, written, At(m), uid);
    }
  }

  /** Nothing of an entry but the description of its Pod changes. */
  ghost predicate Redescribed(before: Workload, after: Workload) {
    after == before.(namespace := after.namespace, name := after.name, podContainer := after.podContainer,
                     hostNetwork := after.hostNetwork)
  }

  /** A new entry holds nothing yet, and goes on counting where the Pod's status says. */
  ghost predicate Unused(w: Workload, pod: Pod) {
    && w.ip == Unset && w.nfsMounts == [] && w.volumePaths == [] && w.logFile == "" && w.logExpiresAt == None
    && w.restartCount == if pod.listed.status.containers == [] then 0 else pod.listed.status.containers[0].restartCount
  }

  /** Entering and updating, before the journal is written. */
  method EnterOrUpdate(m: Manager, pod: Pod) returns (changed: bool)
    requires m.Valid()
    modifies m`workloads
    ensures m.Consistent() && (!changed ==> m.Valid()) && Touched(old(At(m)), At(m), Key(pod))
    ensures Key(pod) in m.workloads && Describes(m.workloads[Key(pod)], pod)
    ensures !changed <==> Key(pod) in old(m.workloads) && Describes(old(m.workloads)[Key(pod)], pod)
    ensures Key(pod) in old(m.workloads) ==>
              m.workloads[Key(pod)].container == old(m.workloads)[Key(pod)].container
    ensures m.workloads[Key(pod)].ip == AddressOf(old(m.workloads), Key(pod))
    ensures m.workloads[Key(pod)].retryAfter == RetryTime(old(m.workloads), Key(pod))
    ensures if Key(pod) in old(m.workloads) then Redescribed(old(m.workloads)[Key(pod)], m.workloads[Key(pod)])
            else Unused(m.workloads[Key(pod)], pod)
    ensures m.retained == old(m.retained)
  {
    hide Manager.Consistent, Manager.Logged, Key, Kept, Touched, StandingOf, Manager.Refusals, Manager.Setbacks, Entry;
    hide Describes, Redescribed, Unused;
    var uid := Key(pod);
    ghost var start := At(m);
    var managed;
    managed, changed := Describe(m, pod);
    if uid in m.workloads { m.Assign(managed); } else { m.Enter(managed); }
    AssignTouches(start, At(m), uid);
  }

  /** The entry as it should describe its Pod, and whether that is news. */
  method Describe(m: Manager, pod: Pod) returns (managed: Workload, changed: bool)
    requires m.Valid()
    ensures Entry(managed, Key(pod), false) && managed.uid == Key(pod) && !managed.retained && Describes(managed, pod)
    ensures !changed <==> Key(pod) in m.workloads && Describes(m.workloads[Key(pod)], pod)
    ensures !changed ==> managed == m.workloads[Key(pod)]
    ensures if Key(pod) in m.workloads then Redescribed(m.workloads[Key(pod)], managed) else Unused(managed, pod)
    ensures Key(pod) in m.workloads ==> managed.container == m.workloads[Key(pod)].container
    ensures managed.ip == AddressOf(m.workloads, Key(pod)) && managed.retryAfter == RetryTime(m.workloads, Key(pod))
  {
    hide Manager.Consistent, Manager.Logged, Key, ContainerName;
    var uid, p := Key(pod), pod.listed;
    changed := false;
    if uid in m.workloads {
      m.Known(uid);
      managed := m.workloads[uid];
    } else {
      managed := Arriving(m, pod);
      changed := true;
    }
    if managed.namespace != p.namespace || managed.name != p.name || managed.podContainer != FirstContainer(pod)
       || managed.hostNetwork != pod.hostNetwork {
      managed := managed.(namespace := p.namespace, name := p.name, podContainer := FirstContainer(pod),
                          hostNetwork := pod.hostNetwork);
      changed := true;
    }
  }

  /** Ownership comes first: a new or changed entry is journaled before anything else is done for the Pod. */
  method EnsureManaged(m: Manager, pod: Pod) returns (ok: bool)
    requires m.Valid()
    modifies m`workloads, m`doomed
    modifies m.machine`disk, m.machine`clean, m.machine`failedWrites, m.machine`past, m.machine`trace
    ensures m.Valid() && Touched(old(At(m)), At(m), Key(pod))
    ensures Key(pod) in m.workloads && Describes(m.workloads[Key(pod)], pod)
    ensures m.workloads[Key(pod)].ip == AddressOf(old(m.workloads), Key(pod))
    ensures ok ==> m.workloads[Key(pod)].retryAfter == RetryTime(old(m.workloads), Key(pod))
    ensures Key(pod) in old(m.workloads) ==>
              m.workloads[Key(pod)].container == old(m.workloads)[Key(pod)].container
    ensures if Key(pod) in old(m.workloads)
            then exists w :: Redescribed(old(m.workloads)[Key(pod)], w) && SameButRetry(w, m.workloads[Key(pod)])
            else Unused(m.workloads[Key(pod)], pod)
    ensures m.machine.failedWrites == if ok then old(m.machine.failedWrites) else old(m.machine.failedWrites) + 1
    ensures m.Setbacks() == if ok then old(m.Setbacks()) else old(m.Setbacks()) + 1
    ensures !ok ==> !m.machine.clean && Delayed(m, Key(pod), old(m.machine.now))
    ensures if Key(pod) in old(m.workloads) && Describes(old(m.workloads)[Key(pod)], pod)
            then ok && m.machine.clean == old(m.machine.clean) && OnRecord(m, Key(pod)) == old(OnRecord(m, Key(pod)))
            else ok ==> Synced(m) && (m.journaled ==> OnRecord(m, Key(pod)))
  {
    hide Manager.Consistent, Manager.Logged, Key, Kept, Touched, StandingOf, Manager.Refusals, Manager.Setbacks;
    hide FirstContainer, AddressOf, RetryTime, Holds, Describes, OnDisk, Delayed, Redescribed;
    ghost var start := At(m);
    var changed := EnterOrUpdate(m, pod);
    ghost var entered, managed := At(m), m.workloads[Key(pod)];
    ok := true;
    if changed {
      ok := PersistOrRetry(m, Key(pod));
      TouchedMore(start, entered, At(m), Key(pod));
      StillDescribes(managed, m.workloads[Key(pod)], pod);
    }
  }

  lemma StillDescribes(before: Workload, after: Workload, pod: Pod)
    requires SameButRetry(before, after) && Describes(before, pod)
    ensures Describes(after, pod)
  {
  }

  // ---- Its address -------------------------------------------------------------------------

  method ChooseAddress(m: Manager, pod: Pod, used: set<IPText>)
    returns (r: Option<IPText>, usedAfter: set<IPText>, errors: seq<Failure>)
    requires m.Valid() && m.network != null && Key(pod) in m.workloads && OnTurn(m, pod, Key(pod))
    modifies m.machine`reports, m.machine`setbacks, m.machine`running, m.machine`now, m.machine`past, m.machine`trace
    ensures m.Valid() && used <= usedAfter && |usedAfter| <= |used| + 1
    ensures r.Some? && pod.hostNetwork ==> r.value == m.nodeIP
    ensures r.Some? && !pod.hostNetwork ==> ChosenFor(m, pod, used, usedAfter, r.value) && m.network.AddTests(r.value)
    ensures r.None? ==>
              && Unaddressable(m, pod, used) && Answered(m, pod, Key(pod), errors, old(m.machine.now))
              && ToldPending(m, pod, pod.listed.status.podIP, m.workloads[Key(pod)].restartCount,
                             if errors == [NoAddress] then PodStatuses.AddressAllocationFailed
                             else PodStatuses.InvalidPodIP)
    ensures old(m.Setbacks()) <= m.Setbacks()
    ensures if r.Some? then errors == [] else errors == [NoAddress] || errors == [InvalidAddress]
    ensures m.machine.running <= old(m.machine.running)
    ensures m.machine.now >= old(m.machine.now)
    ensures if r.Some? then m.machine.reports == old(m.machine.reports)
            else OneMore(old(m.machine.reports), m.machine.reports)
    ensures AtMostOne(old(m.machine.reports), m.machine.reports)
  {
    hide At, Manager.Valid, Manager.Setbacks, Manager.Free, D.Handle.Acceptable, D.Handle.AddTests, Key, OnTurn, Said;
    hide Answered, PendingFor;
    errors, usedAfter := [], used;
    var restarts := m.workloads[Key(pod)].restartCount;
    var ip := pod.listed.status.podIP;
    if pod.hostNetwork { ip := m.nodeIP; }
    if ip == Unset && !pod.hostNetwork {
      var picked := m.AllocateAddress(used);
      if picked.Err? {
        var _ := TellPending(m, pod, Unset, PodStatuses.AddressAllocationFailed, restarts);
        AnsweredOne(m, pod, Key(pod), NoAddress, old(m.machine.now));
        return None, usedAfter, [NoAddress];
      }
      ip := Dotted(picked.value);
      usedAfter := used + {ip};
    }
    if !pod.hostNetwork {
      var valid := m.CheckAddress(ip);
      if !valid {
        var _ := TellPending(m, pod, ip, PodStatuses.InvalidPodIP, restarts);
        AnsweredOne(m, pod, Key(pod), InvalidAddress, old(m.machine.now));
        return None, usedAfter, [InvalidAddress];
      }
    }
    r := Some(ip);
  }

  /** The entry takes the address, and the journal follows. */
  method TakeAddress(m: Manager, uid: string, ip: IPText) returns (ok: bool)
    requires m.Valid() && uid in m.workloads
    modifies m`workloads, m`doomed
    modifies m.machine`disk, m.machine`clean, m.machine`failedWrites, m.machine`past, m.machine`trace
    ensures m.Valid() && Touched(old(At(m)), At(m), uid) && uid in m.workloads && m.workloads[uid].ip == ip
    ensures m.workloads[uid].container == old(m.workloads)[uid].container
    ensures ok ==> m.workloads[uid].retryAfter == old(m.workloads)[uid].retryAfter
    ensures m.machine.failedWrites == if ok then old(m.machine.failedWrites) else old(m.machine.failedWrites) + 1
    ensures m.Setbacks() == if ok then old(m.Setbacks()) else old(m.Setbacks()) + 1
    ensures !ok ==> !m.machine.clean && Delayed(m, uid, old(m.machine.now))
    ensures ok && old(m.workloads)[uid].ip != ip ==> Synced(m)
    ensures SameButRetry(old(m.workloads)[uid].(ip := ip), m.workloads[uid])
    ensures m.workloads[uid].restartCount == old(m.workloads)[uid].restartCount
    ensures ok && m.journaled ==> OnRecord(m, uid) == (old(m.workloads)[uid].ip != ip || old(OnRecord(m, uid)))
  {
    hide Manager.Consistent, Manager.Logged, Kept, Touched, StandingOf, Manager.Refusals, Manager.Setbacks, Holds;
    hide OnDisk;
    ghost var start := At(m);
    m.Known(uid);
    ok := true;
    if m.workloads[uid].ip == ip {
      NothingTouched(start, start, uid);
    } else {
      Change(m, m.workloads[uid].(ip := ip));
      ghost var taken := At(m);
      ok := PersistOrRetry(m, uid);
      TouchedMore(start, taken, At(m), uid);
    }
  }

  /** The alias of the entry's old address, unless it keeps it. */
  method LetGo(m: Manager, uid: string, managed: Workload, ip: IPText) returns (ok: bool)
    requires m.Valid() && m.network != null
    modifies m.network, m.host
    ensures m.Valid() && Touched(old(At(m)), At(m), uid) && m.workloads == old(m.workloads)
    ensures ok && !managed.hostNetwork ==> Replaced(m, managed.ip, ip)
    ensures old(m.Setbacks()) <= m.Setbacks()
    ensures !ok ==> !Parses(managed.ip) || m.Setbacks() > old(m.Setbacks())
  {
    hide Manager.Consistent, Manager.Logged, Manager.Setbacks, Kept, Touched, StandingOf;
    ghost var start := At(m);
    ok := true;
    if managed.ip != Unset && managed.ip != ip && !managed.hostNetwork {
      ok := m.ReleaseAddress(managed.ip);
    }
    NothingTouched(start, At(m), uid);
  }

  /** The alias of the new address, unless the Pod uses the host's. */
  method PutUp(m: Manager, pod: Pod, ip: IPText, restarts: Int32) returns (ok: bool)
    requires m.Valid() && m.network != null && OnTurn(m, pod, Key(pod))
    modifies m.network`aliases, m.network.host`addresses, m.network.host`setbacks
    modifies m.machine`past, m.machine`trace, m.machine`reports, m.machine`setbacks, m.machine`running, m.machine`now
    ensures m.Valid() && At(m) == old(At(m)) && m.machine.running <= old(m.machine.running)
    ensures ok && !pod.hostNetwork ==> Installed(m, ip)
    ensures ok && !pod.hostNetwork ==> forall before :: old(Replaced(m, before, ip)) ==> Replaced(m, before, ip)
    ensures old(m.Setbacks()) <= m.Setbacks()
    ensures !ok ==> (!pod.hostNetwork && !m.network.AddTests(ip)) || m.Setbacks() > old(m.Setbacks())
    ensures !ok ==> ToldPending(m, pod, ip, restarts, PodStatuses.NetworkSetupFailed)
    ensures m.machine.now >= old(m.machine.now)
    ensures if ok then m.machine.reports == old(m.machine.reports)
            else OneMore(old(m.machine.reports), m.machine.reports)
  {
    hide Manager.Consistent, Manager.Logged, Manager.Setbacks, Manager.Refusals, D.Handle.AddTests, Key;
    ok := true;
    if !pod.hostNetwork {
      ok := m.AddAddress(ip);
      if !ok { var _ := TellPending(m, pod, ip, PodStatuses.NetworkSetupFailed, restarts); }
    }
  }

  /** The new address: in the entry, in the journal, and last as an alias. */
  method MoveIn(m: Manager, pod: Pod, ip: IPText) returns (errors: seq<Failure>)
    requires m.Valid() && m.network != null && Key(pod) in m.workloads && OnTurn(m, pod, Key(pod))
    requires !pod.hostNetwork ==> m.network.AddTests(ip)
    modifies m`workloads, m`doomed, m.network`aliases, m.network.host`addresses, m.network.host`setbacks
    modifies m.machine`disk, m.machine`clean, m.machine`failedWrites, m.machine`past, m.machine`trace
    modifies m.machine`reports, m.machine`setbacks, m.machine`running, m.machine`now
    ensures m.Valid() && Touched(old(At(m)), At(m), Key(pod)) && Key(pod) in m.workloads
    ensures WritesTold(old(m.machine.failedWrites), m.machine.failedWrites, errors)
    ensures m.workloads[Key(pod)].ip == ip && m.workloads[Key(pod)].container == old(m.workloads)[Key(pod)].container
    ensures errors == [] ==> m.workloads[Key(pod)].retryAfter == old(m.workloads)[Key(pod)].retryAfter
    ensures m.workloads[Key(pod)].restartCount == old(m.workloads)[Key(pod)].restartCount
    ensures errors == [] || errors == [PersistAddress] || errors == [AddAddress]
    ensures Answered(m, pod, Key(pod), errors, old(m.machine.now))
    ensures errors == [AddAddress] ==>
              ToldPending(m, pod, ip, m.workloads[Key(pod)].restartCount, PodStatuses.NetworkSetupFailed)
    ensures errors != [PersistAddress] && old(m.workloads)[Key(pod)].ip != ip ==> Synced(m)
    ensures errors == [] && !pod.hostNetwork ==> Installed(m, ip)
    ensures errors == [] && !pod.hostNetwork ==>
              forall before :: old(Replaced(m, before, ip)) ==> Replaced(m, before, ip)
    ensures old(m.Setbacks()) <= m.Setbacks() && (errors != [] ==> m.Setbacks() > old(m.Setbacks()))
    ensures errors == [] && m.journaled ==>
              OnRecord(m, Key(pod)) == (old(m.workloads)[Key(pod)].ip != ip || old(OnRecord(m, Key(pod))))
    ensures m.machine.running <= old(m.machine.running)
    ensures m.machine.now >= old(m.machine.now)
    ensures AtMostOne(old(m.machine.reports), m.machine.reports)
    ensures errors == [] ==> m.machine.reports == old(m.machine.reports)
  {
    hide At, Manager.Valid, Key, Kept, Touched, StandingOf, Manager.Refusals, Manager.Setbacks, WritesTold, Installed;
    hide Replaced, OnDisk, OnTurn, D.Handle.AddTests, Answered, Delayed, PendingFor, Synced;
    ghost var writes := m.machine.failedWrites;
    var ok := TakeAddress(m, Key(pod), ip);
    Tallied(writes, m.machine.failedWrites, ok, PersistAddress);
    if !ok {
      AnsweredOne(m, pod, Key(pod), PersistAddress, old(m.machine.now));
      return [PersistAddress];
    }
    ok := PutUp(m, pod, ip, m.workloads[Key(pod)].restartCount);
    Tallied(writes, writes, ok, AddAddress);
    if ok {
      NoneAnswered(m, pod, Key(pod), old(m.machine.now));
    } else {
      AnsweredOne(m, pod, Key(pod), AddAddress, old(m.machine.now));
    }
    errors := if ok then [] else [AddAddress];
  }

  /** The old address is let go first. */
  method InstallAddress(m: Manager, pod: Pod, ip: IPText) returns (ok: bool, errors: seq<Failure>, ghost given: bool)
    requires m.Valid() && m.network != null && Key(pod) in m.workloads && Describes(m.workloads[Key(pod)], pod)
    requires OnTurn(m, pod, Key(pod)) && (!pod.hostNetwork ==> m.network.AddTests(ip))
    modifies m`workloads, m`doomed, m.network, m.host
    modifies m.machine`disk, m.machine`clean, m.machine`failedWrites, m.machine`past, m.machine`trace
    modifies m.machine`reports, m.machine`setbacks, m.machine`running, m.machine`now
    ensures m.Valid() && Touched(old(At(m)), At(m), Key(pod)) && Key(pod) in m.workloads
    ensures WritesTold(old(m.machine.failedWrites), m.machine.failedWrites, errors)
    ensures m.workloads[Key(pod)].ip == if given then ip else old(m.workloads)[Key(pod)].ip
    ensures ok ==> given && (!pod.hostNetwork ==> Installed(m, ip))
    ensures ok && !pod.hostNetwork ==> Replaced(m, old(m.workloads)[Key(pod)].ip, ip)
    ensures ok <==> errors == []
    ensures ok ==> m.workloads[Key(pod)].retryAfter == old(m.workloads)[Key(pod)].retryAfter
    ensures m.workloads[Key(pod)].restartCount == old(m.workloads)[Key(pod)].restartCount
    ensures forall e :: e in errors ==> e == ReleaseOldAddress || e == PersistAddress || e == AddAddress
    ensures Answered(m, pod, Key(pod), errors, old(m.machine.now))
    ensures ok && old(m.workloads)[Key(pod)].ip != ip ==> Synced(m)
    ensures old(m.Setbacks()) <= m.Setbacks()
    ensures !ok ==> !Parses(old(m.workloads)[Key(pod)].ip) || m.Setbacks() > old(m.Setbacks())
    ensures ok && m.journaled ==>
              OnRecord(m, Key(pod)) == (old(m.workloads)[Key(pod)].ip != ip || old(OnRecord(m, Key(pod))))
    ensures m.machine.running <= old(m.machine.running)
    ensures m.workloads[Key(pod)].container == old(m.workloads)[Key(pod)].container
    ensures m.machine.now >= old(m.machine.now)
    ensures AtMostOne(old(m.machine.reports), m.machine.reports)
    ensures ok ==> m.machine.reports == old(m.machine.reports)
  {
    hide At, Manager.Valid, Key, Kept, Touched, StandingOf, Manager.Refusals, Manager.Setbacks, WritesTold, Installed;
    hide Replaced, OnDisk, OnTurn, D.Handle.AddTests, Parses, Answered, Delayed, PendingFor, Synced;
    var uid := Key(pod);
    ghost var start, writes := At(m), m.machine.failedWrites;
    var managed := m.workloads[uid];
    given := false;
    ok := LetGo(m, uid, managed, ip);
    Tallied(writes, writes, ok, ReleaseOldAddress);
    if !ok {
      AnsweredOne(m, pod, Key(pod), ReleaseOldAddress, old(m.machine.now));
      return false, [ReleaseOldAddress], false;
    }
    ghost var released := At(m);
    errors := MoveIn(m, pod, ip);
    TouchedMore(start, released, At(m), uid);
    ok, given := errors == [], true;
  }

  /** The alias of an address no longer used is gone. */
  ghost predicate Replaced(m: Manager, before: IPText, after: IPText)
    requires m.network != null
    reads m.network
  {
    before != Unset && before != after ==>
      ParseV4(before).Some? && (ParseV4(before) == ParseV4(after) || ParseV4(before).value !in m.network.aliases)
  }

  ghost predicate Installed(m: Manager, ip: IPText)
    requires m.network != null
    reads m.network
  {
    ParseV4(ip).Some? && ParseV4(ip).value in m.network.aliases
  }

  // ---- Its container -----------------------------------------------------------------------

  /** Seen to have exited, in this turn. */
  ghost predicate SeenExited(m: Manager, container: string)
    reads m.machine`running, m.machine`exited, m.machine`observed, m.machine`turn
  {
    && container !in m.machine.running && container in m.machine.exited
    && Saw(container, false, m.machine.turn) in m.machine.observed
  }

  /** Macker runs nothing of the name, and holds nothing of it. */
  ghost predicate Off(m: Manager, container: string)
    reads m.machine`running, m.machine`present
  {
    container !in m.machine.running && container !in m.machine.present
  }

  /** Stopping changes no entry. */
  method Stop(m: Manager, uid: string) returns (ok: bool)
    requires m.Valid() && uid in m.workloads
    modifies m.machine`running, m.machine`now, m.machine`past, m.machine`trace, m.machine`refusals, m.machine`present
    ensures m.Valid() && Touched(old(At(m)), At(m), uid) && m.machine.running <= old(m.machine.running)
    ensures ok <==> m.machine.refusals == old(m.machine.refusals)
    ensures ok ==> Off(m, m.workloads[uid].container)
    ensures old(m.Setbacks()) <= m.Setbacks() && (!ok ==> m.Setbacks() > old(m.Setbacks()))
    ensures old(m.Refusals()) <= m.Refusals() && (!ok ==> m.Refusals() > old(m.Refusals()))
    ensures m.machine.now >= old(m.machine.now)
  {
    hide Manager.Consistent, Manager.Logged, Kept, Touched, StandingOf;
    ghost var start := At(m);
    m.Known(uid);
    ok := m.StopContainer(m.workloads[uid].container);
    NothingTouched(start, At(m), uid);
  }

  /** Its logs are archived, and it is stopped whether or not that works. */
  method ArchiveAndStop(m: Manager, uid: string) returns (archived: Workload)
    requires m.Valid() && uid in m.workloads
    modifies m.machine`logs, m.machine`missedLogs, m.machine`logFiles, m.machine`running, m.machine`now, m.machine`past
    modifies m.machine`trace, m.machine`refusals, m.machine`present
    ensures m.Valid() && Touched(old(At(m)), At(m), uid)
    ensures m.machine.running <= old(m.machine.running) && old(m.Setbacks()) <= m.Setbacks()
    ensures Entry(archived, uid, false) && archived.container == m.workloads[uid].container
    ensures LogKept(m, m.workloads[uid], archived, old(m.machine.now), old(m.machine.missedLogs))
    ensures Off(m, archived.container) || m.Refusals() > old(m.Refusals())
    ensures old(m.Refusals()) <= m.Refusals()
    ensures m.machine.now >= old(m.machine.now)
  {
    hide At, Manager.Consistent, Manager.Logged, Kept, Touched, StandingOf, Manager.Refusals, Manager.Setbacks;
    hide LogKept, Manager.Archived;
    m.Known(uid);
    var done;
    done, archived := m.ArchiveLogs(m.workloads[uid]);
    KeptLog(m, m.workloads[uid], archived, old(m.machine.now), old(m.machine.missedLogs));
    done := Stop(m, uid);
  }

  /** Nothing is left of an exited workload but its retained entry with its log, unless a command failed. */
  ghost predicate Retired(m: Manager, w: Workload, kept: Workload, since: int, missed: nat, refusals: nat)
    reads m.machine`running, m.machine`present, m.machine`missedLogs, m.machine`logFiles
    reads m.machine`refusals, m.host
  {
    LogKept(m, w, kept, since, missed) && (Off(m, w.container) || m.Refusals() > refusals)
  }

  /** An exited container that will not be started again is retained whatever the stop says. */
  method RetainExited(m: Manager, pod: Pod, uid: string)
    requires m.Valid() && uid in m.workloads && EndsPods(RestartPolicy(pod))
    requires SeenExited(m, m.workloads[uid].container)
    modifies m`workloads, m`retained, m.machine`logs, m.machine`missedLogs, m.machine`logFiles, m.machine`retired
    modifies m.machine`running, m.machine`now, m.machine`past, m.machine`trace, m.machine`refusals, m.machine`present
    ensures m.Valid() && Touched(old(At(m)), At(m), uid)
    ensures uid !in m.workloads && uid in m.retained
    ensures Retired(m, old(m.workloads)[uid], m.retained[uid], old(m.machine.now), old(m.machine.missedLogs),
                    old(m.Refusals()))
    ensures m.machine.running <= old(m.machine.running) && old(m.Setbacks()) <= m.Setbacks()
    ensures m.machine.now >= old(m.machine.now)
  {
    hide Manager.Consistent, Manager.Logged, Kept, Touched, StandingOf, Manager.Refusals, Manager.Setbacks;
    hide RestartPolicy, LogKept, AsRetained, At, EndsPods;
    ghost var start, managed := At(m), m.workloads[uid];
    var archived := ArchiveAndStop(m, uid);
    ghost var stopped := At(m);
    Mark(m, archived.container, pod, uid);
    ghost var marked := At(m);
    Retain(m, uid, archived);
    RetainedLog(m, managed, archived, m.machine.now + m.Retention(), old(m.machine.now), old(m.machine.missedLogs));
    TouchedMore(start, stopped, marked, uid);
    TouchedMore(start, marked, At(m), uid);
  }

  /** The container goes on record as retired. */
  ghost method Mark(m: Manager, container: string, pod: Pod, uid: string)
    requires m.Valid() && EndsPods(RestartPolicy(pod)) && container in m.machine.exited
    modifies m.machine`retired
    ensures m.Valid() && Touched(old(At(m)), At(m), uid) && container in m.machine.retired
  {
    hide Manager.Valid, Kept, Touched, StandingOf, Manager.Refusals, RestartPolicy, EndsPods;
    ghost var start := At(m);
    m.machine.MarkRetired(container, RestartPolicy(pod));
    NothingTouched(start, At(m), uid);
  }

  /** Its journal follows. */
  method RetireEntry(m: Manager, pod: Pod, uid: string) returns (errors: seq<Failure>)
    requires m.Valid() && uid in m.workloads && EndsPods(RestartPolicy(pod))
    requires SeenExited(m, m.workloads[uid].container)
    modifies m`workloads, m`retained, m`doomed, m.machine`logs, m.machine`missedLogs, m.machine`logFiles
    modifies m.machine`retired
    modifies m.machine`running, m.machine`now, m.machine`past, m.machine`trace, m.machine`refusals, m.machine`present
    modifies m.machine`disk, m.machine`clean, m.machine`failedWrites
    ensures m.Valid() && Touched(old(At(m)), At(m), uid)
    ensures WritesTold(old(m.machine.failedWrites), m.machine.failedWrites, errors)
    ensures uid !in m.workloads && uid in m.retained
    ensures Retired(m, old(m.workloads)[uid], m.retained[uid], old(m.machine.now), old(m.machine.missedLogs),
                    old(m.Refusals()))
    ensures if errors == [] then Synced(m) else errors == [PersistRetired]
    ensures old(m.Setbacks()) <= m.Setbacks() && (errors != [] ==> m.Setbacks() > old(m.Setbacks()))
    ensures m.machine.running <= old(m.machine.running)
    ensures m.machine.now >= old(m.machine.now)
  {
    hide Manager.Consistent, Manager.Logged, Kept, Touched, StandingOf, Manager.Refusals, Manager.Setbacks, Holds;
    hide WritesTold, SeenExited, LogKept, Synced;
    RetainExited(m, pod, uid);
    ghost var kept := At(m);
    var persisted := Write(m);
    Tallied(old(m.machine.failedWrites), m.machine.failedWrites, persisted, PersistRetired);
    errors := if persisted then [] else [PersistRetired];
  }

  /** What the API server is told of a Pod that ended by itself. */
  ghost predicate ToldEnd(m: Manager, pod: Pod, w: Workload, inspection: Option<PodStatuses.Inspection>)
    reads m.machine`reports, m.machine`turn
  {
    LastTold(m, pod) &&
    var r := Last(m.machine.reports);
    && r.container == w.container && r.phase == ExitPhase(RestartPolicy(pod), ExitCode(inspection))
    && r.update.ip == w.ip && r.update.restartCount == w.restartCount && r.update.inspection == inspection
  }

  /** The phase and the reason of an exited container. */
  method EndPhase(pod: Pod, inspection: Option<PodStatuses.Inspection>)
    returns (phase: PodStatuses.Phase, reason: PodStatuses.Cause)
    requires EndsPods(RestartPolicy(pod))
    ensures phase == ExitPhase(RestartPolicy(pod), ExitCode(inspection)) && PodStatuses.Terminal(phase)
  {
    phase, reason := PodStatuses.Succeeded, PodStatuses.WorkloadCompleted;
    if RestartPolicy(pod) == OnFailure { phase, reason := PodStatuses.Failed, PodStatuses.WorkloadExited; }
    if inspection.Some? && inspection.value.exitCode.Some? {
      if inspection.value.exitCode.value != 0 {
        phase, reason := PodStatuses.Failed, PodStatuses.WorkloadFailed;
      } else {
        phase, reason := PodStatuses.Succeeded, PodStatuses.WorkloadCompleted;
      }
    }
  }

  method ReportEnd(m: Manager, pod: Pod, w: Workload, inspection: Option<PodStatuses.Inspection>)
    returns (errors: seq<Failure>)
    requires m.Valid() && OnTurn(m, pod, Key(pod)) && EndsPods(RestartPolicy(pod))
    requires Saw(w.container, false, m.machine.turn) in m.machine.observed
    modifies m.machine`reports, m.machine`setbacks, m.machine`running, m.machine`now, m.machine`past, m.machine`trace
    ensures m.Valid() && ToldEnd(m, pod, w, inspection) && m.machine.running <= old(m.machine.running)
    ensures errors == [] || errors == [StatusWrite]
    ensures old(m.Setbacks()) <= m.Setbacks() && (errors != [] ==> m.Setbacks() > old(m.Setbacks()))
    ensures m.machine.now >= old(m.machine.now)
    ensures OneMore(old(m.machine.reports), m.machine.reports)
    ensures if errors == [] then Arrived(m) else !Arrived(m)
  {
    hide Manager.Consistent, Manager.Logged, Manager.Setbacks, Said, ExitPhase, RestartPolicy, EndsPods, Key;
    var phase, reason := EndPhase(pod, inspection);
    var message: string := *;
    var put := m.ReportStatus(w.container, pod.listed, phase, w.ip, reason, message, false, w.restartCount, inspection);
    ReportFields(m);
    PutToPod(m, pod);
    errors := if put.Stored? then [] else [StatusWrite];
  }

  /** An exited container under Never or OnFailure, and the phase its Pod ends in. */
  method Retire(m: Manager, pod: Pod, uid: string, inspection: Option<PodStatuses.Inspection>)
    returns (errors: seq<Failure>)
    requires m.Valid() && uid in m.workloads && OnTurn(m, pod, uid) && EndsPods(RestartPolicy(pod))
    requires SeenExited(m, m.workloads[uid].container)
    modifies m`workloads, m`retained, m`doomed, m.machine`logs, m.machine`missedLogs, m.machine`logFiles
    modifies m.machine`retired
    modifies m.machine`running, m.machine`now, m.machine`past, m.machine`trace, m.machine`refusals, m.machine`present
    modifies m.machine`disk, m.machine`clean, m.machine`failedWrites, m.machine`reports, m.machine`setbacks
    ensures m.Valid() && Touched(old(At(m)), At(m), uid)
    ensures WritesTold(old(m.machine.failedWrites), m.machine.failedWrites, errors)
    ensures uid !in m.workloads && uid in m.retained
    ensures Retired(m, old(m.workloads)[uid], m.retained[uid], old(m.machine.now), old(m.machine.missedLogs),
                    old(m.Refusals()))
    ensures forall e :: e in errors ==> e == PersistRetired || e == StatusWrite
    ensures PersistRetired !in errors ==> Synced(m)
    ensures ToldEnd(m, pod, old(m.workloads)[uid], inspection)
    ensures old(m.Setbacks()) <= m.Setbacks() && (errors != [] ==> m.Setbacks() > old(m.Setbacks()))
    ensures m.machine.running <= old(m.machine.running)
    ensures m.machine.now >= old(m.machine.now)
    ensures OneMore(old(m.machine.reports), m.machine.reports)
    ensures StatusWrite in errors <==> !Arrived(m)
  {
    hide Manager.Consistent, Manager.Logged, Kept, Touched, StandingOf, Manager.Refusals, Manager.Setbacks, WritesTold;
    hide ToldEnd, RestartPolicy, EndsPods, LogKept, Synced, At, OneMore, Arrived, Key;
    var managed := m.workloads[uid];
    errors := RetireEntry(m, pod, uid);
    ghost var kept, writes := At(m), m.machine.failedWrites;
    var more := ReportEnd(m, pod, managed, inspection);
    Tallied(writes, writes, more == [], StatusWrite);
    WritesMore(old(m.machine.failedWrites), writes, writes, errors, more);
    errors := errors + more;
  }

  /** Its logs are archived, and stamped in the entry. */
  method Archive(m: Manager, uid: string)
    requires m.Valid() && uid in m.workloads
    modifies m`workloads, m.machine`logs, m.machine`missedLogs, m.machine`logFiles
    ensures m.Valid() && Touched(old(At(m)), At(m), uid) && uid in m.workloads
    ensures SamePlace(old(m.workloads)[uid], m.workloads[uid])
    ensures m.workloads[uid].restartCount == old(m.workloads)[uid].restartCount
    ensures m.workloads[uid].retryAfter == old(m.workloads)[uid].retryAfter
    ensures LogKept(m, old(m.workloads)[uid], m.workloads[uid], m.machine.now, old(m.machine.missedLogs))
  {
    hide Manager.Consistent, Manager.Logged, Kept, Touched, StandingOf, Manager.Refusals, Manager.Setbacks, LogKept;
    hide Manager.Archived;
    m.Known(uid);
    var _, archived := m.ArchiveLogs(m.workloads[uid]);
    KeptLog(m, m.workloads[uid], archived, m.machine.now, old(m.machine.missedLogs));
    Change(m, archived);
  }

  method PutOff(m: Manager, uid: string)
    requires m.Valid() && uid in m.workloads
    modifies m`workloads
    ensures m.Valid() && Touched(old(At(m)), At(m), uid) && uid in m.workloads
    ensures SameButRetry(old(m.workloads)[uid], m.workloads[uid]) && Delayed(m, uid, m.machine.now)
  {
    hide Manager.Consistent, Manager.Logged, Kept, Touched, StandingOf, Manager.Refusals, Manager.Setbacks;
    ghost var start := At(m);
    m.SetRetry(uid);
    AssignTouches(start, At(m), uid);
  }

  lemma SameLog(m: Manager, w: Workload, before: Workload, after: Workload, since: int, missed: nat)
    requires LogKept(m, w, before, since, missed)
    requires after.logFile == before.logFile && after.logExpiresAt == before.logExpiresAt
    ensures LogKept(m, w, after, since, missed)
  {
  }

  /** Its logs are archived, and nothing of it runs. */
  method StopForGood(m: Manager, uid: string) returns (stopped: bool)
    requires m.Valid() && uid in m.workloads
    modifies m`workloads, m.machine`logs, m.machine`missedLogs, m.machine`logFiles, m.machine`refusals
    modifies m.machine`present
    modifies m.machine`running, m.machine`now, m.machine`past, m.machine`trace
    ensures m.Valid() && Touched(old(At(m)), At(m), uid) && uid in m.workloads
    ensures SamePlace(old(m.workloads)[uid], m.workloads[uid])
    ensures m.workloads[uid].restartCount == old(m.workloads)[uid].restartCount
    ensures stopped <==> m.machine.refusals == old(m.machine.refusals)
    ensures old(m.Setbacks()) <= m.Setbacks() && (!stopped ==> m.Setbacks() > old(m.Setbacks()))
    ensures stopped ==> Off(m, m.workloads[uid].container)
    ensures if stopped then m.workloads[uid].retryAfter == old(m.workloads)[uid].retryAfter
            else Delayed(m, uid, old(m.machine.now))
    ensures LogKept(m, old(m.workloads)[uid], m.workloads[uid], old(m.machine.now), old(m.machine.missedLogs))
    ensures m.machine.running <= old(m.machine.running)
    ensures m.machine.now >= old(m.machine.now)
  {
    hide At, Manager.Consistent, Manager.Logged, Kept, Touched, StandingOf, Manager.Refusals, Manager.Setbacks;
    hide SameTurn, LogKept, Off;
    ghost var start, managed := At(m), m.workloads[uid];
    Archive(m, uid);
    ghost var archived := At(m);
    stopped := Stop(m, uid);
    ghost var stood := At(m);
    TouchedMore(start, archived, stood, uid);
    if !stopped {
      ghost var before := m.workloads[uid];
      PutOff(m, uid);
      SameLog(m, managed, before, m.workloads[uid], old(m.machine.now), old(m.machine.missedLogs));
      TouchedMore(start, stood, At(m), uid);
    }
  }

  /** One more restart, on record. */
  method CountRestart(m: Manager, uid: string) returns (ok: bool)
    requires m.Valid() && uid in m.workloads
    modifies m`workloads, m`doomed
    modifies m.machine`disk, m.machine`clean, m.machine`failedWrites, m.machine`past, m.machine`trace
    ensures m.Valid() && Touched(old(At(m)), At(m), uid) && uid in m.workloads
    ensures SamePlace(old(m.workloads)[uid], m.workloads[uid])
    ensures m.workloads[uid].restartCount == Increment(old(m.workloads)[uid].restartCount)
    ensures m.machine.failedWrites == if ok then old(m.machine.failedWrites) else old(m.machine.failedWrites) + 1
    ensures m.Setbacks() == if ok then old(m.Setbacks()) else old(m.Setbacks()) + 1
    ensures if ok then Synced(m) else Delayed(m, uid, old(m.machine.now))
    ensures m.workloads[uid].logFile == old(m.workloads)[uid].logFile
    ensures m.workloads[uid].logExpiresAt == old(m.workloads)[uid].logExpiresAt
  {
    hide At, Manager.Consistent, Manager.Logged, Kept, Touched, StandingOf, Manager.Refusals, Manager.Setbacks, Holds;
    hide Increment, OnRecord;
    ghost var start := At(m);
    m.Known(uid);
    Change(m, m.workloads[uid].(restartCount := Increment(m.workloads[uid].restartCount)));
    ghost var counted := At(m);
    ok := PersistOrRetry(m, uid);
    TouchedMore(start, counted, At(m), uid);
  }

  /** An exited container under any other policy: nothing of it may run before it is started again. */
  method Restart(m: Manager, uid: string) returns (errors: seq<Failure>)
    requires m.Valid() && uid in m.workloads
    modifies m`workloads, m`doomed, m.machine`logs, m.machine`missedLogs, m.machine`logFiles, m.machine`running
    modifies m.machine`now, m.machine`past, m.machine`trace
    modifies m.machine`disk, m.machine`clean, m.machine`failedWrites, m.machine`refusals, m.machine`present
    ensures m.Valid() && Touched(old(At(m)), At(m), uid) && uid in m.workloads
    ensures WritesTold(old(m.machine.failedWrites), m.machine.failedWrites, errors)
    ensures SamePlace(old(m.workloads)[uid], m.workloads[uid])
    ensures StopForRestart in errors <==> m.machine.refusals != old(m.machine.refusals)
    ensures old(m.Setbacks()) <= m.Setbacks() && (errors != [] ==> m.Setbacks() > old(m.Setbacks()))
    ensures errors == [] ==> Off(m, m.workloads[uid].container) && Synced(m)
    ensures errors == [] ==> m.workloads[uid].restartCount == Increment(old(m.workloads)[uid].restartCount)
    ensures errors != [] ==> Delayed(m, uid, old(m.machine.now))
    ensures errors == [] || errors == [StopForRestart] || errors == [PersistRestart]
    ensures LogKept(m, old(m.workloads)[uid], m.workloads[uid], old(m.machine.now), old(m.machine.missedLogs))
    ensures m.machine.running <= old(m.machine.running)
    ensures m.machine.now >= old(m.machine.now)
  {
    hide At, Manager.Valid, Kept, Touched, StandingOf, Manager.Refusals, Manager.Setbacks, WritesTold, Increment;
    hide LogKept, Off, Synced, Delayed;
    ghost var start, managed, writes := At(m), m.workloads[uid], m.machine.failedWrites;
    var stopped := StopForGood(m, uid);
    Tallied(writes, writes, stopped, StopForRestart);
    if !stopped { return [StopForRestart]; }
    ghost var emptied, before, since := At(m), m.workloads[uid], m.machine.now;
    var persisted := CountRestart(m, uid);
    if !persisted { DelayedSince(m, uid, since, old(m.machine.now)); }
    SameLog(m, managed, before, m.workloads[uid], old(m.machine.now), old(m.machine.missedLogs));
    TouchedMore(start, emptied, At(m), uid);
    Tallied(writes, m.machine.failedWrites, persisted, PersistRestart);
    errors := if persisted then [] else [PersistRestart];
  }

  lemma EndSettled(m: Manager, pod: Pod, uid: string, w: Workload, inspection: Option<PodStatuses.Inspection>)
    requires uid !in m.workloads && EndsPods(RestartPolicy(pod)) && ToldEnd(m, pod, w, inspection)
    requires inspection == ReportOf(m.machine.seen) && Arrived(m)
    ensures Settled(m, pod, uid)
  {
    assert Told(m, pod, w.container, ExitPhase(RestartPolicy(pod), ExitCode(inspection)));
  }

  /** Retired, seen from before. */
  method EndExited(m: Manager, pod: Pod, uid: string, inspection: Option<PodStatuses.Inspection>, ghost since: int)
    returns (errors: seq<Failure>)
    requires m.Valid() && uid in m.workloads && OnTurn(m, pod, uid) && EndsPods(RestartPolicy(pod))
    requires SeenExited(m, m.workloads[uid].container) && since <= m.machine.now
    requires inspection == ReportOf(m.machine.seen)
    modifies m`workloads, m`retained, m`doomed, m.machine`logs, m.machine`missedLogs, m.machine`logFiles
    modifies m.machine`retired, m.machine`running, m.machine`now, m.machine`past, m.machine`trace
    modifies m.machine`refusals, m.machine`present
    modifies m.machine`disk, m.machine`clean, m.machine`failedWrites, m.machine`reports, m.machine`setbacks
    ensures m.Valid() && Touched(old(At(m)), At(m), uid)
    ensures WritesTold(old(m.machine.failedWrites), m.machine.failedWrites, errors)
    ensures uid !in m.workloads && (Arrived(m) ==> Settled(m, pod, uid)) && Answered(m, pod, uid, errors, since)
    ensures forall e :: e in errors ==> e == PersistRetired || e == StatusWrite
    ensures LeftBehind(m, uid, old(m.workloads)[uid], errors, since, old(m.machine.missedLogs), old(m.Refusals()))
    ensures old(m.Setbacks()) <= m.Setbacks() && (errors != [] ==> m.Setbacks() > old(m.Setbacks()))
    ensures m.machine.running <= old(m.machine.running)
    ensures m.machine.now >= old(m.machine.now)
    ensures OneMore(old(m.machine.reports), m.machine.reports)
    ensures StatusWrite in errors <==> !Arrived(m)
  {
    hide At, Manager.Valid, Touched, Manager.Refusals, Manager.Setbacks, WritesTold, RestartPolicy, EndsPods, OnTurn;
    hide Settled, Answered, ToldEnd, LogKept, Off, Synced, SeenExited, PutsOff, PendingReason;
    ghost var managed, begun := m.workloads[uid], m.machine.now;
    errors := Retire(m, pod, uid, inspection);
    EndsUnanswered(m, pod, uid, errors, since);
    if Arrived(m) { EndSettled(m, pod, uid, managed, inspection); }
    LogSince(m, managed, m.retained[uid], begun, since, old(m.machine.missedLogs));
  }

  lemma EndsUnanswered(m: Manager, pod: Pod, uid: string, errors: seq<Failure>, since: int)
    requires forall e :: e in errors ==> e == PersistRetired || e == StatusWrite
    ensures Answered(m, pod, uid, errors, since)
  {
  }

  lemma LogSince(m: Manager, w: Workload, after: Workload, since: int, earlier: int, missed: nat)
    requires LogKept(m, w, after, since, missed) && earlier <= since
    ensures LogKept(m, w, after, earlier, missed)
  {
  }

  /** Made ready for a restart, seen from before. */
  method RestartExited(m: Manager, pod: Pod, uid: string, ghost since: int) returns (errors: seq<Failure>)
    requires m.Valid() && uid in m.workloads && since <= m.machine.now
    modifies m`workloads, m`doomed, m.machine`logs, m.machine`missedLogs, m.machine`logFiles
    modifies m.machine`running, m.machine`now, m.machine`past, m.machine`trace
    modifies m.machine`disk, m.machine`clean, m.machine`failedWrites, m.machine`refusals, m.machine`present
    ensures m.Valid() && Touched(old(At(m)), At(m), uid) && uid in m.workloads
    ensures WritesTold(old(m.machine.failedWrites), m.machine.failedWrites, errors)
    ensures SamePlace(old(m.workloads)[uid], m.workloads[uid])
    ensures errors == [] || errors == [StopForRestart] || errors == [PersistRestart]
    ensures errors == [] ==> Off(m, m.workloads[uid].container) && Synced(m)
    ensures errors == [] ==> m.workloads[uid].restartCount == Increment(old(m.workloads)[uid].restartCount)
    ensures Answered(m, pod, uid, errors, since)
    ensures LogKept(m, old(m.workloads)[uid], m.workloads[uid], since, old(m.machine.missedLogs))
    ensures old(m.Setbacks()) <= m.Setbacks() && (errors != [] ==> m.Setbacks() > old(m.Setbacks()))
    ensures m.machine.running <= old(m.machine.running)
    ensures m.machine.now >= old(m.machine.now)
  {
    hide At, Manager.Valid, Touched, Manager.Refusals, Manager.Setbacks, WritesTold, Increment, Answered, LogKept, Off;
    hide Synced, Delayed, PendingFor;
    ghost var managed, begun := m.workloads[uid], m.machine.now;
    errors := Restart(m, uid);
    LogSince(m, managed, m.workloads[uid], begun, since, old(m.machine.missedLogs));
    if errors == [] {
      NoneAnswered(m, pod, uid, since);
    } else {
      DelayedSince(m, uid, begun, since);
      AnsweredOne(m, pod, uid, errors[0], since);
    }
  }

  /** Without a readable inspection nothing is decided. */
  method PutOffUnread(m: Manager, pod: Pod, uid: string, ghost since: int) returns (errors: seq<Failure>)
    requires m.Valid() && uid in m.workloads && since <= m.machine.now
    modifies m`workloads
    ensures m.Valid() && Touched(old(At(m)), At(m), uid) && uid in m.workloads && errors == [InspectionUndecodable]
    ensures SameButRetry(old(m.workloads)[uid], m.workloads[uid]) && Answered(m, pod, uid, errors, since)
    ensures LeftBehind(m, uid, old(m.workloads)[uid], errors, since, m.machine.missedLogs, m.Refusals())
    ensures WritesTold(m.machine.failedWrites, m.machine.failedWrites, errors)
  {
    hide Manager.Valid, Touched, Manager.Refusals, Delayed, Answered, LeftBehind, WritesTold, At;
    ghost var managed := m.workloads[uid];
    PutOff(m, uid);
    errors := [InspectionUndecodable];
    DelayedSince(m, uid, m.machine.now, since);
    AnsweredOne(m, pod, uid, InspectionUndecodable, since);
    StillHere(m, uid, managed, errors, since, m.machine.missedLogs, m.Refusals());
    Tallied(m.machine.failedWrites, m.machine.failedWrites, false, InspectionUndecodable);
  }

  /** What ps listed as not running: retired for good, or made ready for a restart. */
  method RetireOrRestart(m: Manager, pod: Pod, uid: string) returns (proceed: bool, errors: seq<Failure>)
    requires m.Valid() && uid in m.workloads && OnTurn(m, pod, uid) && SeenExited(m, m.workloads[uid].container)
    modifies m`workloads, m`retained, m`doomed, m.machine`logs, m.machine`missedLogs, m.machine`logFiles
    modifies m.machine`retired, m.machine`refusals, m.machine`present
    modifies m.machine`running, m.machine`now, m.machine`past, m.machine`trace, m.machine`observed
    modifies m.machine`unanswered, m.machine`denials, m.machine`seen
    modifies m.machine`disk, m.machine`clean, m.machine`failedWrites, m.machine`reports, m.machine`setbacks
    ensures m.Valid() && Touched(old(At(m)), At(m), uid)
    ensures WritesTold(old(m.machine.failedWrites), m.machine.failedWrites, errors)
    ensures !EndsPods(RestartPolicy(pod)) ==> uid in m.workloads
    ensures proceed ==> errors == [] && uid in m.workloads && !EndsPods(RestartPolicy(pod))
    ensures proceed ==> m.workloads[uid].restartCount == Increment(old(m.workloads)[uid].restartCount)
    ensures proceed ==> Off(m, m.workloads[uid].container) && Synced(m)
    ensures Answered(m, pod, uid, errors, old(m.machine.now))
    ensures NotRunning !in errors && PersistStarted !in errors
    ensures EndsPods(RestartPolicy(pod)) && uid in m.workloads ==> errors == [InspectionUndecodable]
    ensures InspectionUndecodable in errors <==> m.machine.unanswered > old(m.machine.unanswered)
    ensures LeftBehind(m, uid, old(m.workloads)[uid], errors, old(m.machine.now), old(m.machine.missedLogs),
                       old(m.Refusals()))
    ensures uid in m.workloads && errors != [InspectionUndecodable] ==>
              LogKept(m, old(m.workloads)[uid], m.workloads[uid], old(m.machine.now), old(m.machine.missedLogs))
    ensures uid in m.workloads ==> SamePlace(old(m.workloads)[uid], m.workloads[uid])
    ensures !proceed && errors == [] ==> uid !in m.workloads && Settled(m, pod, uid)
    ensures old(m.Setbacks()) <= m.Setbacks() && (errors != [] ==> m.Setbacks() > old(m.Setbacks()))
    ensures m.machine.running <= old(m.machine.running)
    ensures m.machine.now >= old(m.machine.now)
    ensures AtMostOne(old(m.machine.reports), m.machine.reports)
    ensures proceed ==> m.machine.reports == old(m.machine.reports)
    ensures !proceed && errors == [] ==> Arrived(m)
    ensures StatusWrite in errors ==> !Arrived(m)
  {
    hide Manager.Consistent, Manager.Logged, Kept, Touched, StandingOf, Manager.Refusals, Manager.Setbacks, Increment;
    hide Settled, WritesTold, ToldEnd, LogKept, Off, Synced, Delayed, PendingFor, Answered, LeftBehind, EndsPods;
    hide At, Arrived;
    ghost var start, writes := At(m), m.machine.failedWrites;
    var managed := m.workloads[uid];
    var inspection := Inspect(m, managed.container);
    if inspection.Undecodable? {
      errors := PutOffUnread(m, pod, uid, old(m.machine.now));
      return false, errors;
    }
    var report := if inspection.Inspected? then Some(inspection.report) else None;
    if EndsPods(RestartPolicy(pod)) {
      errors := EndExited(m, pod, uid, report, old(m.machine.now));
      proceed := false;
    } else {
      errors := RestartExited(m, pod, uid, old(m.machine.now));
      StillHere(m, uid, managed, errors, old(m.machine.now), old(m.machine.missedLogs), old(m.Refusals()));
      proceed := errors == [];
    }
  }

  /** A failed launch is tried again later, and the Pod stays Pending. */
  method GiveUp(m: Manager, pod: Pod, uid: string, reason: PodStatuses.Cause)
    requires m.Valid() && uid in m.workloads && OnTurn(m, pod, uid)
    modifies m`workloads, m.machine`reports, m.machine`setbacks, m.machine`running, m.machine`now, m.machine`past
    modifies m.machine`trace
    ensures m.Valid() && Touched(old(At(m)), At(m), uid)
    ensures uid in m.workloads && Delayed(m, uid, old(m.machine.now))
    ensures SameButRetry(old(m.workloads)[uid], m.workloads[uid])
    ensures ToldPending(m, pod, m.workloads[uid].ip, m.workloads[uid].restartCount, reason)
    ensures m.machine.running <= old(m.machine.running) && old(m.Setbacks()) <= m.Setbacks()
    ensures m.machine.now >= old(m.machine.now)
    ensures OneMore(old(m.machine.reports), m.machine.reports)
  {
    hide Manager.Consistent, Manager.Logged, Kept, Touched, StandingOf, Manager.Refusals, Manager.Setbacks, Said, Key;
    PutOff(m, uid);
    var _ := TellPending(m, pod, m.workloads[uid].ip, reason, m.workloads[uid].restartCount);
  }

  /** As an error asks for it. */
  method GiveUpOn(m: Manager, pod: Pod, uid: string, reason: PodStatuses.Cause, ghost e: Failure, ghost since: int)
    requires m.Valid() && uid in m.workloads && OnTurn(m, pod, uid) && since <= m.machine.now
    requires PendingReason(e) == Some(reason)
    modifies m`workloads, m.machine`reports, m.machine`setbacks, m.machine`running, m.machine`now, m.machine`past
    modifies m.machine`trace
    ensures m.Valid() && Touched(old(At(m)), At(m), uid) && uid in m.workloads
    ensures SameButRetry(old(m.workloads)[uid], m.workloads[uid]) && Answered(m, pod, uid, [e], since)
    ensures ToldPending(m, pod, m.workloads[uid].ip, m.workloads[uid].restartCount, reason)
    ensures m.machine.running <= old(m.machine.running) && old(m.Setbacks()) <= m.Setbacks()
    ensures m.machine.now >= old(m.machine.now)
    ensures OneMore(old(m.machine.reports), m.machine.reports)
  {
    hide At, Manager.Valid, Touched, OnTurn, Manager.Setbacks, ToldPending, PendingFor, Answered, Delayed, PutsOff;
    hide PendingReason;
    ghost var begun := m.machine.now;
    GiveUp(m, pod, uid, reason);
    DelayedSince(m, uid, begun, since);
    PendingReasonTold(m, pod, m.workloads[uid].ip, m.workloads[uid].restartCount, reason);
    AnsweredOne(m, pod, uid, e, since);
  }

  /** Whatever was mounted and materialized is recorded in the entry, also when the run arguments fail. */
  method Equip(m: Manager, uid: string) returns (ok: bool)
    requires m.Valid() && uid in m.workloads
    modifies m`workloads, m.machine`mounts, m.machine`volumes, m.machine`setbacks
    ensures m.Valid() && Touched(old(At(m)), At(m), uid) && uid in m.workloads
    ensures SamePlace(old(m.workloads)[uid], m.workloads[uid])
    ensures m.workloads[uid].restartCount == old(m.workloads)[uid].restartCount
    ensures m.Setbacks() == if ok then old(m.Setbacks()) else old(m.Setbacks()) + 1
    ensures forall t :: t in m.machine.mounts ==> t in old(m.machine.mounts) || t in m.workloads[uid].nfsMounts
    ensures forall p :: p in m.machine.volumes ==> p in old(m.machine.volumes) || p in m.workloads[uid].volumePaths
  {
    hide At, Manager.Consistent, Manager.Logged, Kept, Touched, StandingOf, Manager.Refusals;
    m.Known(uid);
    ok := m.machine.Prepare();
    var mounted: seq<string>, volumes: seq<string> := *, *;
    m.machine.Materialize(mounted, volumes);
    Change(m, m.workloads[uid].(nfsMounts := m.workloads[uid].nfsMounts + mounted, volumePaths := volumes));
  }

  /** Every mount and volume made since is in the entry. */
  ghost predicate HeldBy(w: Workload, stored: (set<string>, set<string>), before: (set<string>, set<string>)) {
    && (forall t :: t in stored.0 ==> t in before.0 || t in w.nfsMounts)
    && (forall p :: p in stored.1 ==> p in before.1 || p in w.volumePaths)
  }

  /** The run arguments: mounts and volumes are recorded in the entry, and mounts journaled. */
  method PrepareRun(m: Manager, pod: Pod, uid: string) returns (errors: seq<Failure>)
    requires m.Valid() && uid in m.workloads && OnTurn(m, pod, uid)
    modifies m`workloads, m`doomed, m.machine`mounts, m.machine`volumes
    modifies m.machine`reports, m.machine`setbacks, m.machine`running, m.machine`now, m.machine`past, m.machine`trace
    modifies m.machine`disk, m.machine`clean, m.machine`failedWrites
    ensures m.Valid() && Touched(old(At(m)), At(m), uid) && uid in m.workloads
    ensures WritesTold(old(m.machine.failedWrites), m.machine.failedWrites, errors)
    ensures SamePlace(old(m.workloads)[uid], m.workloads[uid])
    ensures m.workloads[uid].restartCount == old(m.workloads)[uid].restartCount
    ensures errors == [] || errors == [Prepare] || errors == [PersistMounts]
    ensures Answered(m, pod, uid, errors, old(m.machine.now))
    ensures errors != [] ==>
              ToldPending(m, pod, m.workloads[uid].ip, m.workloads[uid].restartCount,
                          if errors == [Prepare] then PodStatuses.MackerLaunchFailed
                          else PodStatuses.OwnershipPersistFailed)
    ensures old(m.Setbacks()) <= m.Setbacks() && (errors != [] ==> m.Setbacks() > old(m.Setbacks()))
    ensures errors == [] && m.workloads[uid].nfsMounts != [] ==> Synced(m)
    ensures m.workloads[uid].nfsMounts == [] ==> m.machine.disk == old(m.machine.disk)
    ensures HeldBy(m.workloads[uid], StorageOf(m), old(StorageOf(m)))
    ensures m.machine.running <= old(m.machine.running)
    ensures m.machine.now >= old(m.machine.now)
    ensures AtMostOne(old(m.machine.reports), m.machine.reports)
    ensures errors == [] ==> m.machine.reports == old(m.machine.reports)
  {
    hide At, Manager.Consistent, Manager.Logged, Kept, Touched, StandingOf, Manager.Refusals, Manager.Setbacks;
    hide SameTurn, Holds, WritesTold, OnTurn, Answered, Delayed, PendingFor, Synced;
    ghost var start, writes := At(m), m.machine.failedWrites;
    var ok := Equip(m, uid);
    Tallied(writes, writes, ok, Prepare);
    ghost var prepared := At(m);
    if !ok {
      GiveUpOn(m, pod, uid, PodStatuses.MackerLaunchFailed, Prepare, old(m.machine.now));
      TouchedMore(start, prepared, At(m), uid);
      return [Prepare];
    }
    if m.workloads[uid].nfsMounts != [] {
      ok := KeepMounts(m, pod, uid);
      Tallied(writes, m.machine.failedWrites, ok, PersistMounts);
      TouchedMore(start, prepared, At(m), uid);
      if !ok { return [PersistMounts]; }
    }
    NoneAnswered(m, pod, uid, old(m.machine.now));
    errors := [];
  }

  /** The journal learns of the mounts, or the Pod stays Pending. */
  method KeepMounts(m: Manager, pod: Pod, uid: string) returns (ok: bool)
    requires m.Valid() && uid in m.workloads && OnTurn(m, pod, uid)
    modifies m`workloads, m`doomed, m.machine`reports, m.machine`setbacks
    modifies m.machine`running, m.machine`now, m.machine`past, m.machine`trace
    modifies m.machine`disk, m.machine`clean, m.machine`failedWrites
    ensures m.Valid() && Touched(old(At(m)), At(m), uid) && uid in m.workloads
    ensures SameButRetry(old(m.workloads)[uid], m.workloads[uid])
    ensures m.machine.failedWrites == if ok then old(m.machine.failedWrites) else old(m.machine.failedWrites) + 1
    ensures old(m.Setbacks()) <= m.Setbacks() && (!ok ==> m.Setbacks() > old(m.Setbacks()))
    ensures ok ==> Synced(m)
    ensures !ok ==>
              && Answered(m, pod, uid, [PersistMounts], old(m.machine.now))
              && ToldPending(m, pod, m.workloads[uid].ip, m.workloads[uid].restartCount,
                             PodStatuses.OwnershipPersistFailed)
    ensures m.machine.running <= old(m.machine.running)
    ensures m.machine.now >= old(m.machine.now)
    ensures AtMostOne(old(m.machine.reports), m.machine.reports)
    ensures ok ==> m.machine.reports == old(m.machine.reports)
  {
    hide At, Manager.Consistent, Manager.Logged, Touched, Key, Manager.Setbacks, ToldPending, PendingFor, Answered;
    hide Delayed, Synced, OnRecord;
    ok := PersistOrRetry(m, uid);
    if !ok {
      var w := m.workloads[uid];
      var _ := TellPending(m, pod, w.ip, PodStatuses.OwnershipPersistFailed, w.restartCount);
      PendingReasonTold(m, pod, w.ip, w.restartCount, PodStatuses.OwnershipPersistFailed);
      AnsweredOne(m, pod, uid, PersistMounts, old(m.machine.now));
    }
  }

  lemma PendingReasonTold(m: Manager, pod: Pod, ip: IPText, restarts: Int32, reason: PodStatuses.Cause)
    requires ToldPending(m, pod, ip, restarts, reason)
    ensures m.machine.reports != [] && Last(m.machine.reports).update.reason == reason && PendingFor(m, pod, reason)
  {
  }

  /** A Pod that comes back from its deletion may be started unjournaled. */
  method ComeBack(m: Manager, pod: Pod, uid: string)
    requires m.Valid() && OnTurn(m, pod, uid)
    modifies m.machine`clean, m.machine`resurrected, m.machine`past, m.machine`trace
    ensures m.Valid() && Touched(old(At(m)), At(m), uid) && (m.machine.clean ==> uid !in m.doomed)
  {
    hide Manager.Consistent, Manager.Logged, Kept, Touched;
    ghost var start := At(m);
    m.Resurrect(uid);
    NothingTouched(start, At(m), uid);
  }

  /** The run command. */
  method StartContainer(m: Manager, pod: Pod, uid: string) returns (started: bool)
    requires m.Valid() && uid in m.workloads && |pod.listed.containers| == 1 && OnTurn(m, pod, uid)
    requires m.machine.launches == []
    modifies m.machine`clean, m.machine`resurrected, m.machine`starts, m.machine`launches, m.machine`present
    modifies m.machine`setbacks
    modifies m.machine`running, m.machine`now, m.machine`past, m.machine`trace
    ensures m.Valid() && Touched(old(At(m)), At(m), uid)
    ensures started ==> m.machine.starts == old(m.machine.starts) + 1
    ensures LaunchedAs(m.machine.launches, m.workloads[uid].container, pod.listed.containers[0].image, started)
    ensures started ==> Launched(m.machine.launches, m.workloads[uid].container)
    ensures old(m.Setbacks()) <= m.Setbacks()
    ensures !started ==> pod.listed.containers[0].image == "" || m.Setbacks() > old(m.Setbacks())
    ensures m.machine.running <= old(m.machine.running) + {m.workloads[uid].container}
    ensures m.machine.now >= old(m.machine.now)
  {
    hide Manager.Consistent, Manager.Logged, Touched, StandingOf, Manager.Refusals, Manager.Setbacks, OnTurn;
    hide LaunchedAs;
    ComeBack(m, pod, uid);
    ghost var back := At(m);
    started := m.Start(uid, pod.listed.containers[0].image);
  }

  /** Waiting changes no entry. */
  method Await(m: Manager, container: string) returns (ok: bool)
    requires m.Valid()
    modifies m.machine`running, m.machine`now, m.machine`past, m.machine`trace
    modifies m.machine`observed, m.machine`unanswered, m.machine`denials, m.machine`seen, m.machine`first
    modifies m.machine`listed, m.machine`exited, m.machine`setbacks
    ensures m.Valid() && At(m) == old(At(m)) && m.machine.running <= old(m.machine.running)
    ensures old(m.Setbacks()) <= m.Setbacks()
    ensures !ok && Launched(m.machine.launches, container) ==> m.Setbacks() > old(m.Setbacks())
    ensures ok ==> Saw(container, true, m.machine.turn) in m.machine.observed
    ensures old(m.machine.first).Some? ==> m.machine.first == old(m.machine.first)
    ensures m.machine.now >= old(m.machine.now)
  {
    hide At, Manager.Valid, Manager.Setbacks, Launched;
    ok := m.WaitForMackerRunning(container);
  }

  lemma LaunchedSome(m: Manager, container: string, image: string, ok: bool)
    requires LaunchedAs(m.machine.launches, container, image, ok)
    ensures m.machine.launches != []
  {
  }

  /** The books count the refusals. */
  lemma RefusalsAt(m: Manager)
    ensures At(m).refusals == m.Refusals()
  {
  }

  /** A container that did not come up is stopped again. */
  method AbandonStart(m: Manager, pod: Pod, uid: string, ghost since: int)
    requires m.Valid() && uid in m.workloads && OnTurn(m, pod, uid) && since <= m.machine.now
    modifies m`workloads, m.machine`reports, m.machine`setbacks, m.machine`refusals, m.machine`present
    modifies m.machine`running, m.machine`now, m.machine`past, m.machine`trace
    ensures m.Valid() && Touched(old(At(m)), At(m), uid) && uid in m.workloads
    ensures SameButRetry(old(m.workloads)[uid], m.workloads[uid]) && Answered(m, pod, uid, [NotRunning], since)
    ensures ToldPending(m, pod, m.workloads[uid].ip, m.workloads[uid].restartCount, PodStatuses.MackerLaunchFailed)
    ensures Off(m, m.workloads[uid].container) || m.Refusals() > old(m.Refusals())
    ensures old(m.Refusals()) <= m.Refusals()
    ensures m.machine.running <= old(m.machine.running) && old(m.Setbacks()) <= m.Setbacks()
    ensures m.machine.now >= old(m.machine.now)
    ensures OneMore(old(m.machine.reports), m.machine.reports)
  {
    hide At, Manager.Valid, Kept, Touched, StandingOf, Manager.Refusals, Manager.Setbacks, OnTurn, ToldPending;
    hide Answered;
    ghost var start := At(m);
    var _ := Stop(m, uid);
    ghost var stopped := At(m);
    GiveUpOn(m, pod, uid, PodStatuses.MackerLaunchFailed, NotRunning, since);
    TouchedMore(start, stopped, At(m), uid);
  }

  /** Started, or left Pending. */
  method TryStart(m: Manager, pod: Pod, uid: string) returns (ok: bool)
    requires m.Valid() && uid in m.workloads && |pod.listed.containers| == 1 && OnTurn(m, pod, uid)
    requires m.machine.launches == []
    modifies m`workloads, m.machine`clean, m.machine`resurrected, m.machine`starts, m.machine`launches
    modifies m.machine`present, m.machine`reports, m.machine`setbacks
    modifies m.machine`running, m.machine`now, m.machine`past, m.machine`trace
    ensures m.Valid() && Touched(old(At(m)), At(m), uid) && uid in m.workloads
    ensures if ok then m.workloads == old(m.workloads) else SameButRetry(old(m.workloads)[uid], m.workloads[uid])
    ensures ok ==> m.machine.starts == old(m.machine.starts) + 1
    ensures ok ==> Launched(m.machine.launches, m.workloads[uid].container)
    ensures LaunchedAs(m.machine.launches, m.workloads[uid].container, pod.listed.containers[0].image, ok)
    ensures m.machine.launches != []
    ensures !ok ==>
              && Answered(m, pod, uid, [StartFailed], old(m.machine.now))
              && ToldPending(m, pod, m.workloads[uid].ip, m.workloads[uid].restartCount,
                             PodStatuses.MackerLaunchFailed)
    ensures old(m.Setbacks()) <= m.Setbacks()
    ensures !ok ==> pod.listed.containers[0].image == "" || m.Setbacks() > old(m.Setbacks())
    ensures m.machine.running <= old(m.machine.running) + {m.workloads[uid].container}
    ensures m.machine.now >= old(m.machine.now)
    ensures AtMostOne(old(m.machine.reports), m.machine.reports)
    ensures ok ==> m.machine.reports == old(m.machine.reports)
    ensures StorageOf(m) == old(StorageOf(m))
  {
    hide At, Manager.Valid, Launched, Kept, Touched, StandingOf, Manager.Refusals, Manager.Setbacks, SameTurn, OnTurn;
    hide ToldPending, LaunchedAs, Answered;
    ghost var start, managed := At(m), m.workloads;
    ok := StartContainer(m, pod, uid);
    ghost var started := At(m);
    LaunchedSome(m, m.workloads[uid].container, pod.listed.containers[0].image, ok);
    if !ok {
      GiveUpOn(m, pod, uid, PodStatuses.MackerLaunchFailed, StartFailed, old(m.machine.now));
      TouchedMore(start, started, At(m), uid);
    }
  }

  /** Seen running, or stopped again and left Pending. */
  method TryWait(m: Manager, pod: Pod, uid: string, ghost since: int) returns (ok: bool)
    requires m.Valid() && uid in m.workloads && OnTurn(m, pod, uid) && since <= m.machine.now
    requires Launched(m.machine.launches, m.workloads[uid].container)
    modifies m`workloads, m.machine`observed, m.machine`unanswered, m.machine`denials, m.machine`seen, m.machine`first
    modifies m.machine`listed, m.machine`exited
    modifies m.machine`reports, m.machine`setbacks, m.machine`running, m.machine`now, m.machine`past, m.machine`trace
    modifies m.machine`refusals, m.machine`present
    ensures m.Valid() && Touched(old(At(m)), At(m), uid) && uid in m.workloads
    ensures if ok then m.workloads == old(m.workloads) else SameButRetry(old(m.workloads)[uid], m.workloads[uid])
    ensures ok ==> Saw(m.workloads[uid].container, true, m.machine.turn) in m.machine.observed
    ensures old(m.Refusals()) <= m.Refusals()
    ensures !ok ==>
              && Answered(m, pod, uid, [NotRunning], since)
              && ToldPending(m, pod, m.workloads[uid].ip, m.workloads[uid].restartCount,
                             PodStatuses.MackerLaunchFailed)
              && (Off(m, m.workloads[uid].container) || m.Refusals() > old(m.Refusals()))
    ensures old(m.machine.first).Some? ==> m.machine.first == old(m.machine.first)
    ensures old(m.Setbacks()) <= m.Setbacks() && (!ok ==> m.Setbacks() > old(m.Setbacks()))
    ensures m.machine.running <= old(m.machine.running)
    ensures m.machine.now >= old(m.machine.now)
    ensures AtMostOne(old(m.machine.reports), m.machine.reports)
    ensures ok ==> m.machine.reports == old(m.machine.reports)
    ensures StorageOf(m) == old(StorageOf(m)) && m.machine.launches == old(m.machine.launches)
    ensures m.machine.starts == old(m.machine.starts)
  {
    hide At, Manager.Valid, Launched, Kept, Touched, StandingOf, Manager.Refusals, Manager.Setbacks, SameTurn, OnTurn;
    hide ToldPending, Answered, Off;
    ghost var start := At(m);
    NothingMoves(start, uid);
    ok := Await(m, m.workloads[uid].container);
    if !ok { AbandonStart(m, pod, uid, since); }
  }

  /** Started, and seen running. */
  method StartAndWait(m: Manager, pod: Pod, uid: string) returns (errors: seq<Failure>)
    requires m.Valid() && uid in m.workloads && |pod.listed.containers| == 1 && OnTurn(m, pod, uid)
    requires m.machine.launches == []
    modifies m`workloads, m.machine`clean, m.machine`resurrected, m.machine`starts, m.machine`launches
    modifies m.machine`present, m.machine`observed, m.machine`unanswered, m.machine`denials, m.machine`seen
    modifies m.machine`first, m.machine`listed, m.machine`exited
    modifies m.machine`reports, m.machine`setbacks
    modifies m.machine`running, m.machine`now, m.machine`past, m.machine`trace, m.machine`refusals
    ensures m.Valid() && Touched(old(At(m)), At(m), uid) && uid in m.workloads
    ensures SameButRetry(old(m.workloads)[uid], m.workloads[uid])
    ensures errors == [] ==> m.machine.starts == old(m.machine.starts) + 1
    ensures errors == [] ==> Saw(m.workloads[uid].container, true, m.machine.turn) in m.machine.observed
    ensures LaunchedAs(m.machine.launches, m.workloads[uid].container, pod.listed.containers[0].image,
                       StartFailed !in errors)
    ensures errors == [] || errors == [StartFailed] || errors == [NotRunning]
    ensures Answered(m, pod, uid, errors, old(m.machine.now))
    ensures errors != [] ==>
              ToldPending(m, pod, m.workloads[uid].ip, m.workloads[uid].restartCount, PodStatuses.MackerLaunchFailed)
    ensures errors == [NotRunning] ==> Off(m, m.workloads[uid].container) || m.Refusals() > old(m.Refusals())
    ensures old(m.Refusals()) <= m.Refusals() && m.machine.launches != [] && StorageOf(m) == old(StorageOf(m))
    ensures old(m.machine.first).Some? ==> m.machine.first == old(m.machine.first)
    ensures old(m.Setbacks()) <= m.Setbacks()
    ensures errors != [] ==> pod.listed.containers[0].image == "" || m.Setbacks() > old(m.Setbacks())
    ensures m.machine.running <= old(m.machine.running) + {m.workloads[uid].container}
    ensures m.machine.now >= old(m.machine.now)
    ensures AtMostOne(old(m.machine.reports), m.machine.reports)
    ensures errors == [] ==> m.machine.reports == old(m.machine.reports)
  {
    hide At, Manager.Valid, Launched, Kept, Touched, StandingOf, Manager.Refusals, Manager.Setbacks, SameTurn, OnTurn;
    hide ToldPending, LaunchedAs, Answered, Off, AtMostOne, OneMore;
    ghost var start := At(m);
    var ok := TryStart(m, pod, uid);
    if !ok { return [StartFailed]; }
    ghost var started := At(m);
    ok := TryWait(m, pod, uid, old(m.machine.now));
    TouchedMore(start, started, At(m), uid);
    if !ok { return [NotRunning]; }
    NoneAnswered(m, pod, uid, old(m.machine.now));
    errors := [];
  }

  /**
   * What was started is taken back: nothing of it runs or is held, its address, mounts and volumes are given back, and
   * the entry holds none of them, unless a removal command failed or the address does not parse.
   */
  ghost predicate Undone(m: Manager, w: Workload, after: Workload, refusals: nat)
    reads m.machine`running, m.machine`present, m.machine`removed, m.machine`mounts, m.machine`volumes
    reads m.machine`refusals, m.host, m.network
  {
    && after.nfsMounts == [] && after.volumePaths == []
    && ((m.Vanished(w) && w.container in m.machine.removed) || !m.Releasable(w) || m.Refusals() > refusals)
  }

  /** A container that runs but could not be journaled is removed again. */
  method RemoveUnjournaled(m: Manager, pod: Pod, uid: string, ghost since: int)
    requires m.Valid() && uid in m.workloads && OnTurn(m, pod, uid) && since <= m.machine.now
    modifies m`workloads, m.machine`reports, m.machine`setbacks, m.machine`running, m.machine`now, m.machine`past
    modifies m.machine`trace
    modifies m.machine`removed, m.network, m.host, m.machine`mounts, m.machine`volumes, m.machine`logs
    modifies m.machine`missedLogs
    modifies m.machine`logFiles, m.machine`refusals, m.machine`present
    ensures m.Valid() && Touched(old(At(m)), At(m), uid) && uid in m.workloads
    ensures SamePlace(old(m.workloads)[uid], m.workloads[uid]) && Answered(m, pod, uid, [PersistStarted], since)
    ensures m.workloads[uid].restartCount == old(m.workloads)[uid].restartCount
    ensures ToldPending(m, pod, m.workloads[uid].ip, m.workloads[uid].restartCount,
                        PodStatuses.OwnershipPersistFailed)
    ensures Undone(m, old(m.workloads)[uid], m.workloads[uid], old(m.Refusals()))
    ensures m.machine.mounts <= old(m.machine.mounts) && m.machine.volumes <= old(m.machine.volumes)
    ensures m.machine.running <= old(m.machine.running) && old(m.Setbacks()) <= m.Setbacks()
    ensures m.machine.now >= old(m.machine.now)
    ensures OneMore(old(m.machine.reports), m.machine.reports)
  {
    hide At, Manager.Valid, Kept, Touched, StandingOf, Manager.Refusals, Manager.Setbacks, OnTurn, ToldPending;
    hide Manager.Vacated, Answered, Manager.Releasable;
    ghost var start := At(m);
    TakeBack(m, uid);
    ghost var emptied := At(m);
    GiveUpOn(m, pod, uid, PodStatuses.OwnershipPersistFailed, PersistStarted, since);
    TouchedMore(start, emptied, At(m), uid);
  }

  /** The removal, and what it leaves in the entry. */
  method TakeBack(m: Manager, uid: string)
    requires m.Valid() && uid in m.workloads
    modifies m`workloads, m.machine`running, m.machine`now, m.machine`past, m.machine`trace
    modifies m.machine`removed, m.network, m.host, m.machine`mounts, m.machine`volumes, m.machine`logs
    modifies m.machine`missedLogs, m.machine`logFiles, m.machine`refusals, m.machine`present
    ensures m.Valid() && Touched(old(At(m)), At(m), uid) && uid in m.workloads
    ensures SamePlace(old(m.workloads)[uid], m.workloads[uid])
    ensures m.workloads[uid].restartCount == old(m.workloads)[uid].restartCount
    ensures Undone(m, old(m.workloads)[uid], m.workloads[uid], old(m.Refusals()))
    ensures m.machine.mounts <= old(m.machine.mounts) && m.machine.volumes <= old(m.machine.volumes)
    ensures m.machine.running <= old(m.machine.running) && old(m.Setbacks()) <= m.Setbacks()
    ensures m.machine.now >= old(m.machine.now)
  {
    hide At, Manager.Valid, Kept, Touched, StandingOf, Manager.Refusals, Manager.Setbacks, LogKept, Manager.Vacated;
    hide Manager.Releasable;
    ghost var start := At(m);
    m.Known(uid);
    var _, after := Remove(m, uid, m.workloads[uid]);
    ghost var removed := At(m);
    Change(m, after);
    TouchedMore(start, removed, At(m), uid);
  }

  /** What a Pod reported Running after a start can rely on. */
  ghost predicate Journaled(m: Manager, uid: string)
    requires uid in m.workloads
    reads m`workloads, m.machine`disk, m.machine`clean
  {
    m.journaled ==> m.machine.clean && OnRecord(m, uid)
  }

  lemma WrittenJournaled(m: Manager, uid: string)
    requires m.Valid() && uid in m.workloads
    requires m.journaled ==> m.machine.clean && Holds(m.machine.disk, m.workloads, m.retained)
    ensures Journaled(m, uid)
  {
    hide Manager.Consistent, Manager.Logged, Holds;
    if m.journaled { WrittenOnRecord(m, uid); }
  }

  /** A live Pod is reported Running, as its entry has it. */
  method TellRunning(m: Manager, pod: Pod, uid: string) returns (r: PutResult)
    requires m.Valid() && uid in m.workloads && OnTurn(m, pod, uid)
    requires Saw(m.workloads[uid].container, true, m.machine.turn) in m.machine.observed
    modifies m.machine`reports, m.machine`setbacks, m.machine`running, m.machine`now, m.machine`past, m.machine`trace
    ensures m.Valid() && At(m) == old(At(m)) && ToldRunning(m, pod, uid)
    ensures old(m.Setbacks()) <= m.Setbacks() && (!r.Stored? ==> m.Setbacks() > old(m.Setbacks()))
    ensures m.machine.running <= old(m.machine.running)
    ensures m.machine.now >= old(m.machine.now)
    ensures OneMore(old(m.machine.reports), m.machine.reports) && Last(m.machine.reports).result == r
  {
    hide At, Manager.Valid, Manager.Setbacks, Said, Key;
    var message: string := *;
    var w := m.workloads[uid];
    r := m.ReportStatus(w.container, pod.listed, PodStatuses.Running, w.ip, PodStatuses.WorkloadRunning, message,
                        true, w.restartCount, None);
    ReportFields(m);
    PutToPod(m, pod);
  }

  /** The retry time is over, and the Pod is reported Running. */
  method Announce(m: Manager, pod: Pod, uid: string, volumes: seq<string>) returns (errors: seq<Failure>)
    requires m.Valid() && uid in m.workloads && OnTurn(m, pod, uid)
    requires Saw(m.workloads[uid].container, true, m.machine.turn) in m.machine.observed
    modifies m`workloads, m.machine`reports, m.machine`setbacks, m.machine`running, m.machine`now, m.machine`past
    modifies m.machine`trace
    ensures m.Valid() && Touched(old(At(m)), At(m), uid) && uid in m.workloads
    ensures WritesTold(m.machine.failedWrites, m.machine.failedWrites, errors)
    ensures SamePlace(old(m.workloads)[uid], m.workloads[uid]) && m.workloads[uid].retryAfter == None
    ensures m.workloads[uid].restartCount == old(m.workloads)[uid].restartCount
    ensures m.workloads[uid].volumePaths == volumes
    ensures ToldRunning(m, pod, uid) && (old(Journaled(m, uid)) ==> Journaled(m, uid))
    ensures errors == [] || errors == [StatusWrite]
    ensures old(m.Setbacks()) <= m.Setbacks() && (errors != [] ==> m.Setbacks() > old(m.Setbacks()))
    ensures m.machine.running <= old(m.machine.running)
    ensures m.machine.now >= old(m.machine.now)
    ensures OneMore(old(m.machine.reports), m.machine.reports)
    ensures if errors == [] then Arrived(m) else !Arrived(m)
  {
    hide At, Manager.Valid, Kept, Touched, StandingOf, Manager.Refusals, Manager.Setbacks, OnDisk, WritesTold, OnTurn;
    hide ToldRunning;
    m.Known(uid);
    Change(m, m.workloads[uid].(volumePaths := volumes, retryAfter := None));
    var put := TellRunning(m, pod, uid);
    Tallied(m.machine.failedWrites, m.machine.failedWrites, put.Stored?, StatusWrite);
    errors := if put.Stored? then [] else [StatusWrite];
  }

  /** The journal is written once more before the Pod is reported Running. */
  method ConfirmStarted(m: Manager, pod: Pod, uid: string) returns (errors: seq<Failure>)
    requires m.Valid() && uid in m.workloads && OnTurn(m, pod, uid)
    requires Saw(m.workloads[uid].container, true, m.machine.turn) in m.machine.observed
    modifies m`workloads, m`doomed, m.machine`reports, m.machine`setbacks, m.machine`running, m.machine`now
    modifies m.machine`past
    modifies m.machine`trace, m.machine`removed, m.network, m.host, m.machine`mounts, m.machine`volumes, m.machine`logs
    modifies m.machine`missedLogs, m.machine`logFiles
    modifies m.machine`disk, m.machine`clean, m.machine`failedWrites, m.machine`refusals, m.machine`present
    ensures m.Valid() && Touched(old(At(m)), At(m), uid) && uid in m.workloads
    ensures WritesTold(old(m.machine.failedWrites), m.machine.failedWrites, errors)
    ensures SamePlace(old(m.workloads)[uid], m.workloads[uid])
    ensures PersistStarted !in errors ==> ToldRunning(m, pod, uid) && Journaled(m, uid)
    ensures m.workloads[uid].restartCount == old(m.workloads)[uid].restartCount
    ensures errors == [] || errors == [StatusWrite] || errors == [PersistStarted]
    ensures Answered(m, pod, uid, errors, old(m.machine.now))
    ensures PersistStarted in errors ==>
              && ToldPending(m, pod, m.workloads[uid].ip, m.workloads[uid].restartCount,
                             PodStatuses.OwnershipPersistFailed)
              && Undone(m, old(m.workloads)[uid], m.workloads[uid], old(m.Refusals()))
              && m.machine.mounts <= old(m.machine.mounts) && m.machine.volumes <= old(m.machine.volumes)
    ensures old(m.Setbacks()) <= m.Setbacks() && (errors != [] ==> m.Setbacks() > old(m.Setbacks()))
    ensures m.machine.running <= old(m.machine.running)
    ensures m.machine.now >= old(m.machine.now)
    ensures OneMore(old(m.machine.reports), m.machine.reports)
    ensures errors == [] ==> Arrived(m)
    ensures StatusWrite in errors ==> !Arrived(m)
  {
    hide Manager.Consistent, Manager.Logged, Kept, Touched, StandingOf, Manager.Refusals, Manager.Setbacks, Holds;
    hide ToldRunning, WritesTold, Journaled, ToldPending, OnTurn, Answered, Delayed, PendingFor, Undone;
    ghost var start, writes := At(m), m.machine.failedWrites;
    var persisted := Write(m);
    Tallied(writes, m.machine.failedWrites, persisted, PersistStarted);
    if persisted {
      WrittenJournaled(m, uid);
      errors := Announce(m, pod, uid, m.workloads[uid].volumePaths);
      Unanswered(m, pod, uid, errors, old(m.machine.now));
    } else {
      RemoveUnjournaled(m, pod, uid, old(m.machine.now));
      errors := [PersistStarted];
    }
  }

  /** What was started in vain is stopped, and what could not be journaled is taken back. */
  ghost predicate TakenBack(m: Manager, uid: string, errors: seq<Failure>, refusals: nat)
    reads m`workloads, m.machine`running, m.machine`present, m.machine`removed, m.machine`mounts, m.machine`volumes
    reads m.machine`refusals, m.host, m.network
  {
    && (NotRunning in errors ==>
          uid in m.workloads && (Off(m, m.workloads[uid].container) || m.Refusals() > refusals))
    && (PersistStarted in errors ==> uid in m.workloads && Undone(m, m.workloads[uid], m.workloads[uid], refusals))
  }

  lemma StartTold(writes: nat, errors: seq<Failure>)
    requires errors == [] || errors == [StartFailed] || errors == [NotRunning]
    ensures WritesTold(writes, writes, errors)
  {
  }

  lemma SameHere(before: Workload, after: Workload)
    requires SameButRetry(before, after)
    ensures SamePlace(before, after) && after.restartCount == before.restartCount
  {
  }

  lemma StoppedBack(m: Manager, uid: string, errors: seq<Failure>, refusals: nat)
    requires errors == [StartFailed] || errors == [NotRunning]
    requires errors == [NotRunning] ==>
               uid in m.workloads && (Off(m, m.workloads[uid].container) || m.Refusals() > refusals)
    ensures TakenBack(m, uid, errors, refusals)
  {
  }

  lemma NothingToTakeBack(m: Manager, uid: string, errors: seq<Failure>, refusals: nat)
    requires NotRunning !in errors && PersistStarted !in errors
    ensures TakenBack(m, uid, errors, refusals)
  {
  }

  lemma TakenBackSince(m: Manager, uid: string, errors: seq<Failure>, refusals: nat, earlier: nat)
    requires TakenBack(m, uid, errors, refusals) && earlier <= refusals
    ensures TakenBack(m, uid, errors, earlier)
  {
  }

  /** What held mounts and volumes holds none of them any more. */
  lemma Brought(m: Manager, w: Workload, begun: Workload, uid: string, errors: seq<Failure>, refusals: nat,
                earlier: nat)
    requires uid in m.workloads && SamePlace(begun, m.workloads[uid]) && SameButRetry(w, begun) && earlier <= refusals
    requires errors == [] || errors == [StatusWrite] || errors == [PersistStarted]
    requires PersistStarted in errors ==> Undone(m, begun, m.workloads[uid], refusals)
    ensures TakenBack(m, uid, errors, earlier) && SamePlace(w, m.workloads[uid])
    ensures PersistStarted in errors ==> Undone(m, w, m.workloads[uid], earlier)
  {
  }

  /** What is on record of a turn's launch. */
  ghost function LaunchOf(m: Manager): (seq<Machines.Launch>, nat, Option<Listing>)
    reads m.machine`launches, m.machine`starts, m.machine`first
  {
    (m.machine.launches, m.machine.starts, m.machine.first)
  }

  /** The mounts and volumes on the host. */
  ghost function StorageOf(m: Manager): (set<string>, set<string>)
    reads m.machine`mounts, m.machine`volumes
  {
    (m.machine.mounts, m.machine.volumes)
  }

  /** The same after a start that may have failed, seen from before it. */
  method Confirm(m: Manager, pod: Pod, uid: string, failed: seq<Failure>, ghost managed: Workload, ghost refusals: nat,
                 ghost since: int)
    returns (errors: seq<Failure>)
    requires m.Valid() && uid in m.workloads && OnTurn(m, pod, uid)
    requires failed == [] ==> Saw(m.workloads[uid].container, true, m.machine.turn) in m.machine.observed
    requires failed == [] || failed == [StartFailed] || failed == [NotRunning]
    requires Answered(m, pod, uid, failed, since)
    requires failed == [NotRunning] ==> Off(m, m.workloads[uid].container) || m.Refusals() > refusals
    requires SameButRetry(managed, m.workloads[uid]) && refusals <= m.Refusals() && since <= m.machine.now
    modifies m`workloads, m`doomed, m.machine`reports, m.machine`setbacks, m.machine`running, m.machine`now
    modifies m.machine`past, m.machine`trace, m.machine`removed, m.network, m.host, m.machine`mounts, m.machine`volumes
    modifies m.machine`logs, m.machine`missedLogs, m.machine`logFiles
    modifies m.machine`disk, m.machine`clean, m.machine`failedWrites, m.machine`refusals, m.machine`present
    ensures m.Valid() && Touched(old(At(m)), At(m), uid) && uid in m.workloads
    ensures WritesTold(old(m.machine.failedWrites), m.machine.failedWrites, errors)
    ensures SamePlace(managed, m.workloads[uid]) && m.workloads[uid].restartCount == managed.restartCount
    ensures errors == [] ==> ToldRunning(m, pod, uid) && Journaled(m, uid)
    ensures Answered(m, pod, uid, errors, since) && TakenBack(m, uid, errors, refusals)
    ensures PersistStarted in errors ==>
              && Undone(m, managed, m.workloads[uid], refusals)
              && m.machine.mounts <= old(m.machine.mounts) && m.machine.volumes <= old(m.machine.volumes)
    ensures old(m.Setbacks()) <= m.Setbacks()
    ensures errors != [] ==> failed != [] || m.Setbacks() > old(m.Setbacks())
    ensures errors == [] ==> failed == []
    ensures LaunchOf(m) == old(LaunchOf(m))
    ensures m.machine.running <= old(m.machine.running)
    ensures m.machine.now >= old(m.machine.now)
    ensures if failed == [] then OneMore(old(m.machine.reports), m.machine.reports)
            else m.machine.reports == old(m.machine.reports)
    ensures errors == [] ==> Arrived(m)
    ensures StatusWrite in errors ==> !Arrived(m)
  {
    hide At, Manager.Valid, Touched, Manager.Refusals, Manager.Setbacks, WritesTold, ToldRunning, ToldPending;
    hide Journaled, OnTurn, Answered, Undone, TakenBack, SamePlace, Off, Kept, SameTurn, StandingOf;
    ghost var begun, refused, now := m.workloads[uid], m.Refusals(), m.machine.now;
    if failed != [] {
      NothingMoves(At(m), uid);
      SameHere(managed, begun);
      StartTold(m.machine.failedWrites, failed);
      StoppedBack(m, uid, failed, refusals);
      return failed;
    }
    errors := ConfirmStarted(m, pod, uid);
    AnsweredSince(m, pod, uid, errors, now, since);
    Brought(m, managed, begun, uid, errors, refused, refusals);
  }

  /** The run arguments are ready: started, journaled once more, and reported. */
  method Bring(m: Manager, pod: Pod, uid: string) returns (errors: seq<Failure>)
    requires m.Valid() && uid in m.workloads && |pod.listed.containers| == 1 && OnTurn(m, pod, uid)
    requires m.machine.launches == []
    modifies m`workloads, m`doomed, m.machine`clean, m.machine`resurrected, m.machine`starts, m.machine`launches
    modifies m.machine`present, m.machine`observed, m.machine`unanswered, m.machine`denials, m.machine`seen
    modifies m.machine`first, m.machine`listed, m.machine`exited
    modifies m.machine`reports, m.machine`setbacks, m.machine`running, m.machine`now, m.machine`past, m.machine`trace
    modifies m.machine`refusals, m.machine`removed, m.network, m.host, m.machine`mounts, m.machine`volumes
    modifies m.machine`disk
    modifies m.machine`failedWrites, m.machine`logs, m.machine`missedLogs, m.machine`logFiles
    ensures m.Valid() && Touched(old(At(m)), At(m), uid) && uid in m.workloads
    ensures WritesTold(old(m.machine.failedWrites), m.machine.failedWrites, errors)
    ensures SamePlace(old(m.workloads)[uid], m.workloads[uid])
    ensures errors == [] ==> ToldRunning(m, pod, uid) && Journaled(m, uid)
    ensures errors == [] ==> m.machine.starts == old(m.machine.starts) + 1
    ensures m.workloads[uid].restartCount == old(m.workloads)[uid].restartCount
    ensures Answered(m, pod, uid, errors, old(m.machine.now))
    ensures TakenBack(m, uid, errors, old(m.Refusals()))
    ensures PersistStarted in errors ==>
              && Undone(m, old(m.workloads)[uid], m.workloads[uid], old(m.Refusals()))
              && m.machine.mounts <= old(m.machine.mounts) && m.machine.volumes <= old(m.machine.volumes)
    ensures m.machine.launches != []
    ensures old(m.machine.first).Some? ==> m.machine.first == old(m.machine.first)
    ensures old(m.Setbacks()) <= m.Setbacks()
    ensures errors != [] ==> pod.listed.containers[0].image == "" || m.Setbacks() > old(m.Setbacks())
    ensures m.machine.running <= old(m.machine.running) + {m.workloads[uid].container}
    ensures m.machine.now >= old(m.machine.now)
    ensures AtMostOne(old(m.machine.reports), m.machine.reports)
    ensures StatusWrite in errors ==> !Arrived(m)
    ensures errors == [] ==> Arrived(m)
  {
    hide At, Manager.Valid, Kept, Touched, StandingOf, Manager.Refusals, Manager.Setbacks, WritesTold, ToldRunning;
    hide ToldPending, Journaled, LaunchedAs, SameTurn, Holds, OnTurn, Answered, Delayed, PendingFor, Off, Undone;
    hide TakenBack, SeenExited;
    ghost var start, managed, writes := At(m), m.workloads[uid], m.machine.failedWrites;
    var failed := StartAndWait(m, pod, uid);
    ghost var started := At(m);
    errors := Confirm(m, pod, uid, failed, managed, old(m.Refusals()), old(m.machine.now));
    TouchedMore(start, started, At(m), uid);
  }

  /** Prepared, started and reported. */
  method Launch(m: Manager, pod: Pod, uid: string) returns (errors: seq<Failure>)
    requires m.Valid() && uid in m.workloads && |pod.listed.containers| == 1 && OnTurn(m, pod, uid)
    requires m.machine.launches == []
    modifies m, m.machine, m.network, m.host
    ensures m.Valid() && Touched(old(At(m)), At(m), uid) && uid in m.workloads
    ensures WritesTold(old(m.machine.failedWrites), m.machine.failedWrites, errors)
    ensures SamePlace(old(m.workloads)[uid], m.workloads[uid])
    ensures errors == [] ==> ToldRunning(m, pod, uid) && Journaled(m, uid)
    ensures errors == [] ==> m.machine.starts == old(m.machine.starts) + 1
    ensures m.workloads[uid].restartCount == old(m.workloads)[uid].restartCount
    ensures m.machine.launches == [] ==> errors != []
    ensures old(m.machine.first).Some? ==> m.machine.first == old(m.machine.first)
    ensures Answered(m, pod, uid, errors, old(m.machine.now))
    ensures TakenBack(m, uid, errors, old(m.Refusals()))
    ensures StorageBack(m, uid, errors, old(StorageOf(m)), old(m.Refusals()))
    ensures old(m.Setbacks()) <= m.Setbacks()
    ensures errors != [] ==> pod.listed.containers[0].image == "" || m.Setbacks() > old(m.Setbacks())
    ensures m.machine.running <= old(m.machine.running) + {m.workloads[uid].container}
    ensures m.machine.now >= old(m.machine.now)
    ensures AtMostOne(old(m.machine.reports), m.machine.reports)
    ensures StatusWrite in errors ==> !Arrived(m)
    ensures errors == [] ==> Arrived(m)
  {
    hide At, Manager.Valid, Kept, Touched, StandingOf, Manager.Refusals, Manager.Setbacks, WritesTold, ToldRunning;
    hide ToldPending, Journaled, SameTurn, Holds, OnTurn, Answered, TakenBack, Undone, Synced, HeldBy, StorageBack;
    ghost var start, writes, managed := At(m), m.machine.failedWrites, m.workloads[uid];
    errors := PrepareRun(m, pod, uid);
    if errors != [] {
      NothingToTakeBack(m, uid, errors, old(m.Refusals()));
      NothingStored(m, uid, errors, old(StorageOf(m)), old(m.Refusals()));
      return;
    }
    ghost var prepared, prepares, since, ready := At(m), m.machine.failedWrites, m.machine.now, m.workloads[uid];
    ghost var stored := StorageOf(m);
    errors := Bring(m, pod, uid);
    StoredBack(m, uid, ready, errors, stored, old(StorageOf(m)), old(m.Refusals()));
    AnsweredSince(m, pod, uid, errors, since, old(m.machine.now));
    TouchedMore(start, prepared, At(m), uid);
    OnlyTold(writes, prepares, m.machine.failedWrites, errors);
  }

  /** A start that is taken back leaves no mount and no volume of its own. */
  ghost predicate StorageBack(m: Manager, uid: string, errors: seq<Failure>, before: (set<string>, set<string>),
                              refusals: nat)
    reads m`workloads, m.machine`mounts, m.machine`volumes, m.machine`refusals, m.host
  {
    PersistStarted in errors && m.Refusals() == refusals && uid in m.workloads && m.Releasable(m.workloads[uid]) ==>
      m.machine.mounts <= before.0 && m.machine.volumes <= before.1
  }

  lemma NothingStored(m: Manager, uid: string, errors: seq<Failure>, before: (set<string>, set<string>), refusals: nat)
    requires PersistStarted !in errors
    ensures StorageBack(m, uid, errors, before, refusals)
  {
  }

  lemma StoredBack(m: Manager, uid: string, w: Workload, errors: seq<Failure>, stored: (set<string>, set<string>),
                   before: (set<string>, set<string>), refusals: nat)
    requires HeldBy(w, stored, before) && uid in m.workloads && SamePlace(w, m.workloads[uid])
    requires PersistStarted in errors ==>
               && Undone(m, w, m.workloads[uid], refusals)
               && m.machine.mounts <= stored.0 && m.machine.volumes <= stored.1
    ensures StorageBack(m, uid, errors, before, refusals)
  {
  }

  /** ps could not say. */
  method HandleUnavailable(m: Manager, pod: Pod, uid: string) returns (errors: seq<Failure>)
    requires m.Valid() && uid in m.workloads && |pod.listed.containers| == 1 && OnTurn(m, pod, uid)
    requires m.machine.launches == [] && m.machine.first == Some(ListingFailed)
    modifies m`workloads, m.machine`reports, m.machine`setbacks, m.machine`running, m.machine`now, m.machine`past
    modifies m.machine`trace
    ensures m.Valid() && Touched(old(At(m)), At(m), uid)
    ensures WritesTold(old(m.machine.failedWrites), m.machine.failedWrites, errors)
    ensures !EndsPods(RestartPolicy(pod)) ==> uid in m.workloads
    ensures uid in m.workloads ==> SamePlace(old(m.workloads)[uid], m.workloads[uid])
    ensures errors == [] ==> Settled(m, pod, uid)
    ensures Driven(m, pod, uid, old(m.workloads)[uid], errors)
    ensures Answered(m, pod, uid, errors, old(m.machine.now))
    ensures TakenBack(m, uid, errors, old(m.Refusals()))
    ensures LeftBehind(m, uid, old(m.workloads)[uid], errors, old(m.machine.now), old(m.machine.missedLogs),
                       old(m.Refusals()))
    ensures old(m.Setbacks()) <= m.Setbacks()
    ensures errors != []
    ensures StartedOnly(old(m.machine.running), m, uid)
    ensures m.machine.now >= old(m.machine.now)
    ensures AtMostOne(old(m.machine.reports), m.machine.reports)
    ensures StatusWrite in errors ==> !Arrived(m)
  {
    hide Manager.Consistent, Manager.Logged, Kept, Touched, StandingOf, Manager.Refusals, Manager.Setbacks, WritesTold;
    hide At, Journaled, SameTurn, OnTurn, RestartPolicy, EndsPods, Answered, TakenBack, StorageBack, LeftBehind;
    hide Synced, Increment, ToldRunning, ToldPending;
    ghost var managed, now, missed, refusals := m.workloads[uid], m.machine.now, m.machine.missedLogs, m.Refusals();
    Tallied(m.machine.failedWrites, m.machine.failedWrites, false, MackerUnavailable);
    GiveUpOn(m, pod, uid, PodStatuses.Cause.MackerUnavailable, MackerUnavailable, now);
    errors := [MackerUnavailable];
    NothingToTakeBack(m, uid, errors, refusals);
    StillHere(m, uid, managed, errors, now, missed, refusals);
  }

  /** A container ps lists as running: its Pod is Running, its retry time is over. */
  method ConfirmRunning(m: Manager, pod: Pod, uid: string) returns (errors: seq<Failure>)
    requires m.Valid() && uid in m.workloads && |pod.listed.containers| == 1 && OnTurn(m, pod, uid)
    requires m.machine.launches == [] && m.machine.first == Some(Listed(true))
    requires Saw(m.workloads[uid].container, true, m.machine.turn) in m.machine.observed
    modifies m`workloads, m.machine`reports, m.machine`setbacks, m.machine`running, m.machine`now, m.machine`past
    modifies m.machine`trace
    ensures m.Valid() && Touched(old(At(m)), At(m), uid)
    ensures WritesTold(old(m.machine.failedWrites), m.machine.failedWrites, errors)
    ensures !EndsPods(RestartPolicy(pod)) ==> uid in m.workloads
    ensures uid in m.workloads ==> SamePlace(old(m.workloads)[uid], m.workloads[uid])
    ensures errors == [] ==> Settled(m, pod, uid)
    ensures Driven(m, pod, uid, old(m.workloads)[uid], errors)
    ensures Answered(m, pod, uid, errors, old(m.machine.now))
    ensures TakenBack(m, uid, errors, old(m.Refusals()))
    ensures LeftBehind(m, uid, old(m.workloads)[uid], errors, old(m.machine.now), old(m.machine.missedLogs),
                       old(m.Refusals()))
    ensures old(m.Setbacks()) <= m.Setbacks()
    ensures errors != [] ==> pod.listed.containers[0].image == "" || m.Setbacks() > old(m.Setbacks())
    ensures StartedOnly(old(m.machine.running), m, uid)
    ensures m.machine.now >= old(m.machine.now)
    ensures AtMostOne(old(m.machine.reports), m.machine.reports)
    ensures StatusWrite in errors ==> !Arrived(m)
  {
    hide Manager.Consistent, Manager.Logged, Kept, Touched, StandingOf, Manager.Refusals, Manager.Setbacks, WritesTold;
    hide At, Journaled, SameTurn, OnTurn, RestartPolicy, EndsPods, Answered, TakenBack, StorageBack, LeftBehind;
    hide Synced, Increment, ToldRunning;
    ghost var managed, now, missed, refusals := m.workloads[uid], m.machine.now, m.machine.missedLogs, m.Refusals();
    var refreshed: bool, volumes: seq<string> := *, *;
    errors := Announce(m, pod, uid, if refreshed then volumes else m.workloads[uid].volumePaths);
    RunningUnanswered(m, pod, uid, errors, now);
    NothingToTakeBack(m, uid, errors, refusals);
    StillHere(m, uid, managed, errors, now, missed, refusals);
  }

  lemma RunningUnanswered(m: Manager, pod: Pod, uid: string, errors: seq<Failure>, since: int)
    requires errors == [] || errors == [StatusWrite]
    ensures Answered(m, pod, uid, errors, since)
  {
  }

  /** One that is not listed is launched. */
  method HandleUnlisted(m: Manager, pod: Pod, uid: string) returns (errors: seq<Failure>)
    requires m.Valid() && uid in m.workloads && |pod.listed.containers| == 1 && OnTurn(m, pod, uid)
    requires m.machine.launches == [] && m.machine.first == Some(NotListed)
    modifies m, m.machine, m.network, m.host
    ensures m.Valid() && Touched(old(At(m)), At(m), uid)
    ensures WritesTold(old(m.machine.failedWrites), m.machine.failedWrites, errors)
    ensures !EndsPods(RestartPolicy(pod)) ==> uid in m.workloads
    ensures uid in m.workloads ==> SamePlace(old(m.workloads)[uid], m.workloads[uid])
    ensures errors == [] ==> Settled(m, pod, uid)
    ensures Driven(m, pod, uid, old(m.workloads)[uid], errors)
    ensures Answered(m, pod, uid, errors, old(m.machine.now))
    ensures TakenBack(m, uid, errors, old(m.Refusals()))
    ensures LeftBehind(m, uid, old(m.workloads)[uid], errors, old(m.machine.now), old(m.machine.missedLogs),
                       old(m.Refusals()))
    ensures old(m.Setbacks()) <= m.Setbacks()
    ensures errors != [] ==> pod.listed.containers[0].image == "" || m.Setbacks() > old(m.Setbacks())
    ensures StartedOnly(old(m.machine.running), m, uid)
    ensures m.machine.now >= old(m.machine.now)
    ensures AtMostOne(old(m.machine.reports), m.machine.reports)
    ensures StatusWrite in errors ==> !Arrived(m)
  {
    hide Manager.Consistent, Manager.Logged, Kept, Touched, StandingOf, Manager.Refusals, Manager.Setbacks, WritesTold;
    hide At, Journaled, SameTurn, OnTurn, RestartPolicy, EndsPods, Answered, TakenBack, StorageBack, LeftBehind;
    hide Synced, Increment, ToldRunning;
    ghost var managed, now, missed, refusals := m.workloads[uid], m.machine.now, m.machine.missedLogs, m.Refusals();
    errors := Launch(m, pod, uid);
    StillHere(m, uid, managed, errors, now, missed, refusals);
  }

  /** What ps listed as not running is retired, or started once more. */
  method HandleExited(m: Manager, pod: Pod, uid: string) returns (errors: seq<Failure>)
    requires m.Valid() && uid in m.workloads && |pod.listed.containers| == 1 && OnTurn(m, pod, uid)
    requires m.machine.launches == [] && m.machine.first == Some(Listed(false))
    requires SeenExited(m, m.workloads[uid].container)
    modifies m, m.machine, m.network, m.host
    ensures m.Valid() && Touched(old(At(m)), At(m), uid)
    ensures WritesTold(old(m.machine.failedWrites), m.machine.failedWrites, errors)
    ensures !EndsPods(RestartPolicy(pod)) ==> uid in m.workloads
    ensures uid in m.workloads ==> SamePlace(old(m.workloads)[uid], m.workloads[uid])
    ensures errors == [] ==> Settled(m, pod, uid)
    ensures Driven(m, pod, uid, old(m.workloads)[uid], errors)
    ensures Answered(m, pod, uid, errors, old(m.machine.now))
    ensures TakenBack(m, uid, errors, old(m.Refusals()))
    ensures LeftBehind(m, uid, old(m.workloads)[uid], errors, old(m.machine.now), old(m.machine.missedLogs),
                       old(m.Refusals()))
    ensures old(m.Setbacks()) <= m.Setbacks()
    ensures errors != [] ==> pod.listed.containers[0].image == "" || m.Setbacks() > old(m.Setbacks())
    ensures StartedOnly(old(m.machine.running), m, uid)
    ensures m.machine.now >= old(m.machine.now)
    ensures AtMostOne(old(m.machine.reports), m.machine.reports)
    ensures StatusWrite in errors ==> !Arrived(m)
  {
    hide Manager.Consistent, Manager.Logged, Kept, Touched, StandingOf, Manager.Refusals, Manager.Setbacks, WritesTold;
    hide At, Journaled, SameTurn, OnTurn, Answered, TakenBack, StorageBack, LeftBehind, Synced, Increment, SeenExited;
    hide Settled, ToldRunning, Retired;
    ghost var managed, now, missed, refusals := m.workloads[uid], m.machine.now, m.machine.missedLogs, m.Refusals();
    ghost var start, writes := At(m), m.machine.failedWrites;
    RefusalsAt(m);
    var proceed;
    proceed, errors := RetireOrRestart(m, pod, uid);
    NothingToTakeBack(m, uid, errors, refusals);
    if proceed {
      ghost var handled, handledWrites, since, refused := At(m), m.machine.failedWrites, m.machine.now, m.Refusals();
      RefusalsAt(m);
      TouchedRefusals(start, handled, uid);
      errors := Launch(m, pod, uid);
      TouchedMore(start, handled, At(m), uid);
      OnlyTold(writes, handledWrites, m.machine.failedWrites, errors);
      AnsweredSince(m, pod, uid, errors, since, now);
      TakenBackSince(m, uid, errors, refused, refusals);
      StillHere(m, uid, managed, errors, now, missed, refusals);
      StillSettled(m, pod, uid, errors);
    }
  }

  lemma StillSettled(m: Manager, pod: Pod, uid: string, errors: seq<Failure>)
    requires uid in m.workloads && (errors == [] ==> ToldRunning(m, pod, uid) && Arrived(m))
    ensures errors == [] ==> Settled(m, pod, uid)
  {
  }

  /** A workload that is no longer managed is retained, and nothing else is left of it; the journal knows. */
  ghost predicate LeftBehind(m: Manager, uid: string, w: Workload, errors: seq<Failure>, since: int, missed: nat,
                             refusals: nat)
    reads m`workloads, m`retained, m.machine`running, m.machine`present, m.machine`missedLogs, m.machine`logFiles
    reads m.machine`refusals, m.host, m.machine`disk, m.machine`clean
  {
    uid !in m.workloads ==>
      && uid in m.retained && Retired(m, w, m.retained[uid], since, missed, refusals)
      && (PersistRetired !in errors ==> Synced(m))
  }

  lemma StillHere(m: Manager, uid: string, w: Workload, errors: seq<Failure>, since: int, missed: nat, refusals: nat)
    requires uid in m.workloads
    ensures LeftBehind(m, uid, w, errors, since, missed, refusals)
  {
  }

  lemma TouchedRefusals(a: Book, b: Book, uid: string)
    requires Touched(a, b, uid)
    ensures a.refusals <= b.refusals
  {
  }

  /**
   * What ps says first decides what is done. Nothing is launched if it cannot say, or lists the container as running;
   * an exited one is launched again only under a policy that restarts, and counted; and one that is not listed is
   * launched and not counted.
   */
  ghost predicate Driven(m: Manager, pod: Pod, uid: string, before: Workload, errors: seq<Failure>)
    reads m`workloads, m.machine`first, m.machine`launches, m.machine`reports, m.machine`turn
  {
    m.machine.first.Some? &&
    match m.machine.first.value
    case ListingFailed =>
      && errors == [MackerUnavailable] && m.machine.launches == []
      && uid in m.workloads && m.workloads[uid].restartCount == before.restartCount
    case NotListed =>
      && uid in m.workloads && m.workloads[uid].restartCount == before.restartCount
      && (m.machine.launches == [] ==> errors != [])
    case Listed(running) =>
      if running then
        && m.machine.launches == [] && uid in m.workloads && ToldRunning(m, pod, uid)
        && m.workloads[uid].restartCount == before.restartCount
      else if pod.policy == Never || pod.policy == OnFailure then
        m.machine.launches == [] && (uid in m.workloads ==> errors == [InspectionUndecodable])
      else
        uid in m.workloads &&
        if m.machine.launches == [] then errors != []
        else m.workloads[uid].restartCount == Increment(before.restartCount)
  }

  /** From the listing on: report, retire, restart or launch. */
  method Drive(m: Manager, pod: Pod, uid: string) returns (errors: seq<Failure>)
    requires m.Valid() && uid in m.workloads && |pod.listed.containers| == 1 && OnTurn(m, pod, uid)
    requires m.machine.launches == [] && m.machine.first == None
    modifies m, m.machine, m.network, m.host
    ensures m.Valid() && Touched(old(At(m)), At(m), uid)
    ensures WritesTold(old(m.machine.failedWrites), m.machine.failedWrites, errors)
    ensures !EndsPods(RestartPolicy(pod)) ==> uid in m.workloads
    ensures uid in m.workloads ==> SamePlace(old(m.workloads)[uid], m.workloads[uid])
    ensures errors == [] ==> Settled(m, pod, uid)
    ensures Driven(m, pod, uid, old(m.workloads)[uid], errors)
    ensures Answered(m, pod, uid, errors, old(m.machine.now))
    ensures TakenBack(m, uid, errors, old(m.Refusals()))
    ensures LeftBehind(m, uid, old(m.workloads)[uid], errors, old(m.machine.now), old(m.machine.missedLogs),
                       old(m.Refusals()))
    ensures old(m.Setbacks()) <= m.Setbacks()
    ensures errors != [] ==> pod.listed.containers[0].image == "" || m.Setbacks() > old(m.Setbacks())
    ensures StartedOnly(old(m.machine.running), m, uid)
    ensures m.machine.now >= old(m.machine.now)
    ensures AtMostOne(old(m.machine.reports), m.machine.reports)
    ensures StatusWrite in errors ==> !Arrived(m)
  {
    hide Manager.Valid, Kept, Touched, StandingOf, Manager.Refusals, Manager.Setbacks, WritesTold, At, SameTurn;
    hide OnTurn, RestartPolicy, EndsPods, Answered, TakenBack, LeftBehind, Driven, Settled, SeenExited;
    ghost var managed := m.workloads[uid];
    var listing := Ask(m, m.workloads[uid].container);
    ghost var since := m.machine.now;
    match listing {
      case ListingFailed => errors := HandleUnavailable(m, pod, uid);
      case Listed(true) => errors := ConfirmRunning(m, pod, uid);
      case Listed(false) => errors := HandleExited(m, pod, uid);
      case NotListed => errors := HandleUnlisted(m, pod, uid);
    }
    AnsweredSince(m, pod, uid, errors, since, old(m.machine.now));
    LeftSince(m, uid, managed, errors, since, old(m.machine.now), old(m.machine.missedLogs), old(m.Refusals()));
  }

  lemma LeftSince(m: Manager, uid: string, w: Workload, errors: seq<Failure>, since: int, earlier: int, missed: nat,
                  refusals: nat)
    requires LeftBehind(m, uid, w, errors, since, missed, refusals) && earlier <= since
    ensures LeftBehind(m, uid, w, errors, earlier, missed, refusals)
  {
  }

  // ---- One Pod -----------------------------------------------------------------------------

  /** The Pod was told why. */
  ghost predicate RefusedFor(m: Manager, pod: Pod)
    reads m.machine`reports, m.machine`turn
  {
    ToldPending(m, pod, pod.listed.status.podIP, 0,
                if pod.hostNetwork == pod.clusterFirstWithHostNet && m.network == null
                then PodStatuses.NetworkSetupFailed
                else PodStatuses.UnsupportedPod)
  }

  /** Refusals before anything is managed: they keep the Pod Pending. */
  method Refuse(m: Manager, pod: Pod) returns (refused: bool, errors: seq<Failure>)
    requires m.Valid() && OnTurn(m, pod, Key(pod))
    modifies m.machine`reports, m.machine`setbacks, m.machine`running, m.machine`now, m.machine`past, m.machine`trace
    ensures m.Valid() && At(m) == old(At(m))
    ensures WritesTold(m.machine.failedWrites, m.machine.failedWrites, errors)
    ensures refused <==> !SupportedNetwork(pod) || m.network == null || |pod.listed.containers| != 1
    ensures refused && errors == [] ==> |pod.listed.containers| != 1
    ensures if refused then RefusedFor(m, pod) else errors == []
    ensures errors == [] || errors == [UnsupportedNetwork] || errors == [NoNetwork] || errors == [StatusWrite]
    ensures Answered(m, pod, Key(pod), errors, old(m.machine.now))
    ensures old(m.Setbacks()) <= m.Setbacks()
    ensures errors != [] ==>
              !SupportedNetwork(pod) || m.network == null || m.Setbacks() > old(m.Setbacks())
    ensures m.machine.running <= old(m.machine.running)
    ensures m.machine.now >= old(m.machine.now)
    ensures if refused then OneMore(old(m.machine.reports), m.machine.reports)
            else m.machine.reports == old(m.machine.reports)
    ensures StatusWrite in errors ==> !Arrived(m)
    ensures refused && errors == [] ==> Arrived(m)
  {
    hide At, Manager.Valid, Manager.Setbacks, WritesTold, Key, Answered, OnTurn, ToldPending;
    if !SupportedNetwork(pod) {
      errors := TellRefused(m, pod, PodStatuses.UnsupportedPod, Some(UnsupportedNetwork));
      return true, errors;
    }
    if m.network == null {
      errors := TellRefused(m, pod, PodStatuses.NetworkSetupFailed, Some(NoNetwork));
      return true, errors;
    }
    if |pod.listed.containers| != 1 {
      errors := TellRefused(m, pod, PodStatuses.UnsupportedPod, None);
      return true, errors;
    }
    NoneAnswered(m, pod, Key(pod), m.machine.now);
    Tallied(m.machine.failedWrites, m.machine.failedWrites, true, StatusWrite);
    return false, [];
  }

  /** Either there is an error whatever becomes of the status, or the status itself may fail. */
  method TellRefused(m: Manager, pod: Pod, reason: PodStatuses.Cause, e: Option<Failure>) returns (errors: seq<Failure>)
    requires m.Valid() && OnTurn(m, pod, Key(pod))
    requires e.Some? ==> !FailedWrite(e.value) && !PutsOff(e.value) && PendingReason(e.value) == Some(reason)
    modifies m.machine`reports, m.machine`setbacks, m.machine`running, m.machine`now, m.machine`past, m.machine`trace
    ensures m.Valid() && At(m) == old(At(m)) && ToldPending(m, pod, pod.listed.status.podIP, 0, reason)
    ensures if e.Some? then errors == [e.value] else errors == [] || errors == [StatusWrite]
    ensures WritesTold(m.machine.failedWrites, m.machine.failedWrites, errors)
    ensures Answered(m, pod, Key(pod), errors, old(m.machine.now))
    ensures old(m.Setbacks()) <= m.Setbacks()
    ensures errors == [StatusWrite] ==> e.Some? || m.Setbacks() > old(m.Setbacks())
    ensures m.machine.running <= old(m.machine.running) && m.machine.now >= old(m.machine.now)
    ensures OneMore(old(m.machine.reports), m.machine.reports)
    ensures errors == [StatusWrite] ==> e.Some? || !Arrived(m)
    ensures errors == [] ==> Arrived(m)
  {
    hide At, Manager.Valid, Manager.Setbacks, WritesTold, Key, Answered, OnTurn, ToldPending;
    ghost var writes, since := m.machine.failedWrites, m.machine.now;
    var put := TellPending(m, pod, pod.listed.status.podIP, reason, 0);
    PendingReasonTold(m, pod, pod.listed.status.podIP, 0, reason);
    if e.Some? {
      errors := [e.value];
      Tallied(writes, writes, false, e.value);
      AnsweredOne(m, pod, Key(pod), e.value, since);
    } else {
      errors := if put.Stored? then [] else [StatusWrite];
      Tallied(writes, writes, put.Stored?, StatusWrite);
      RunningUnanswered(m, pod, Key(pod), errors, since);
    }
  }

  /** Everything for a managed Pod with a usable address. */
  method Proceed(m: Manager, pod: Pod, ip: IPText) returns (errors: seq<Failure>, ghost given: bool)
    requires m.Valid() && m.network != null && |pod.listed.containers| == 1 && OnTurn(m, pod, Key(pod))
    requires Key(pod) in m.workloads && Describes(m.workloads[Key(pod)], pod)
    requires m.machine.launches == [] && m.machine.first == None
    requires !pod.hostNetwork ==> m.network.AddTests(ip)
    modifies m, m.machine, m.network, m.host
    ensures m.Valid() && Touched(old(At(m)), At(m), Key(pod))
    ensures WritesTold(old(m.machine.failedWrites), m.machine.failedWrites, errors)
    ensures !EndsPods(RestartPolicy(pod)) ==> Key(pod) in m.workloads
    ensures Key(pod) in m.workloads ==>
              m.workloads[Key(pod)].ip == if given then ip else old(m.workloads)[Key(pod)].ip
    ensures errors == [] ==> Settled(m, pod, Key(pod)) || LeftAlone(old(m.workloads), pod, m.machine.now)
    ensures Justified(m, pod, old(m.workloads), errors, old(m.machine.now), old(m.Refusals()),
                      old(m.machine.failedWrites))
    ensures old(m.Setbacks()) <= m.Setbacks()
    ensures errors != [] ==>
              || !Parses(old(m.workloads)[Key(pod)].ip) || pod.listed.containers[0].image == ""
              || m.Setbacks() > old(m.Setbacks())
    ensures StartedOnly(old(m.machine.running), m, Key(pod))
    ensures Finished(pod) ==> m.machine.running <= old(m.machine.running)
    ensures m.machine.now >= old(m.machine.now)
    ensures AtMostOne(old(m.machine.reports), m.machine.reports)
    ensures StatusWrite in errors ==> !Arrived(m)
  {
    hide At, Manager.Consistent, Manager.Logged, Kept, Touched, StandingOf, Manager.Refusals, Manager.Setbacks, Key;
    hide Installed, Replaced, Describes, WritesTold, Settled, OnTurn, RestartPolicy, EndsPods, Finished, OnRecord;
    hide Parses, D.Handle.AddTests, Justified, Answered, Synced;
    ghost var start, found, writes := At(m), m.workloads, m.machine.failedWrites;
    RefusalsAt(m);
    var installed;
    installed, errors, given := InstallAddress(m, pod, ip);
    JustifiedQuietly(m, pod, found, errors, old(m.machine.now), old(m.Refusals()), writes);
    if !installed { return; }
    ghost var addressed, installs := At(m), m.machine.failedWrites;
    RefusalsAt(m);
    TouchedRefusals(start, addressed, Key(pod));
    ghost var since, refused := m.machine.now, m.Refusals();
    ghost var moved := m.workloads;
    FewWrites(writes, installs, errors);
    errors := DriveUnlessLeft(m, pod);
    FewWrites(installs, m.machine.failedWrites, errors);
    TouchedMore(start, addressed, At(m), Key(pod));
    OnlyTold(writes, installs, m.machine.failedWrites, errors);
    LeftAloneSame(moved, found, pod, m.machine.now);
    JustifiedSince(m, pod, moved, found, errors, since, refused, installs, old(m.machine.now), old(m.Refusals()),
                   writes);
  }

  /** A Pod that has ended, and one that waits for a retry, is left alone; any other is driven. */
  method DriveUnlessLeft(m: Manager, pod: Pod) returns (errors: seq<Failure>)
    requires m.Valid() && |pod.listed.containers| == 1 && OnTurn(m, pod, Key(pod))
    requires Key(pod) in m.workloads && m.machine.launches == [] && m.machine.first == None
    modifies m, m.machine, m.network, m.host
    ensures m.Valid() && Touched(old(At(m)), At(m), Key(pod))
    ensures WritesTold(old(m.machine.failedWrites), m.machine.failedWrites, errors)
    ensures !EndsPods(RestartPolicy(pod)) ==> Key(pod) in m.workloads
    ensures Key(pod) in m.workloads ==> m.workloads[Key(pod)].ip == old(m.workloads)[Key(pod)].ip
    ensures errors == [] ==> Settled(m, pod, Key(pod)) || LeftAlone(old(m.workloads), pod, m.machine.now)
    ensures Justified(m, pod, old(m.workloads), errors, old(m.machine.now), old(m.Refusals()),
                      old(m.machine.failedWrites))
    ensures old(m.Setbacks()) <= m.Setbacks()
    ensures errors != [] ==> pod.listed.containers[0].image == "" || m.Setbacks() > old(m.Setbacks())
    ensures StartedOnly(old(m.machine.running), m, Key(pod))
    ensures Finished(pod) ==> m.machine.running <= old(m.machine.running)
    ensures m.machine.now >= old(m.machine.now)
    ensures AtMostOne(old(m.machine.reports), m.machine.reports)
    ensures StatusWrite in errors ==> !Arrived(m)
  {
    hide Manager.Valid, Kept, Touched, StandingOf, Manager.Refusals, Manager.Setbacks, WritesTold, At, SameTurn;
    hide OnTurn, RestartPolicy, EndsPods, Answered, TakenBack, LeftBehind, Driven, Settled, Finished, Justified, Key;
    var uid := Key(pod);
    ghost var found, now, refusals, writes := m.workloads, m.machine.now, m.Refusals(), m.machine.failedWrites;
    ghost var missed := m.machine.missedLogs;
    LiveTurn(m, pod, uid);
    NothingMoves(At(m), uid);
    Tallied(writes, writes, true, StatusWrite);
    NoneAnswered(m, pod, uid, now);
    errors := [];
    var retryAfter := m.workloads[uid].retryAfter;
    if Finished(pod) || (retryAfter.Some? && m.machine.now < retryAfter.value) {
      JustifiedQuietly(m, pod, found, errors, now, refusals, writes);
    } else {
      errors := Drive(m, pod, uid);
      JustifiedDriven(m, pod, found, errors, now, refusals, writes, missed);
    }
  }

  lemma LiveTurn(m: Manager, pod: Pod, uid: string)
    requires OnTurn(m, pod, uid)
    ensures Live(pod)
  {
  }

  /** A Pod that says itself that it has ended, and is not to be restarted. */
  predicate EndedForGood(pod: Pod) {
    && (pod.listed.status.phase == PodStatuses.Succeeded || pod.listed.status.phase == PodStatuses.Failed)
    && pod.policy != Always && pod.policy != Unspecified
  }

  /**
   * What a turn did, and why. Errors are answered, and what was started in vain is taken back. Macker is not even asked
   * about a Pod that is being deleted, has ended, or was put off before its turn and is so still; and a container seen
   * exited is not launched again under Never or OnFailure. A workload no longer managed is retained, and gone from
   * Macker, unless a removal failed; the journal knows, unless a write failed.
   */
  ghost predicate Justified(m: Manager, pod: Pod, found: Workloads, errors: seq<Failure>, since: int, refusals: nat,
                            writes: nat)
    reads m`workloads, m`retained, m.machine`reports, m.machine`turn, m.machine`first, m.machine`launches
    reads m.machine`running, m.machine`present, m.machine`removed, m.machine`mounts, m.machine`volumes
    reads m.machine`refusals, m.host, m.network, m.machine`now, m.machine`disk, m.machine`clean
    reads m.machine`failedWrites
  {
    var uid := Key(pod);
    && Answered(m, pod, uid, errors, since) && TakenBack(m, uid, errors, refusals)
    && (m.machine.first.Some? ==>
          && !pod.deleting && pod.native && |pod.listed.containers| == 1 && !EndedForGood(pod)
          && !Waits(found, uid, m.machine.now))
    && (m.machine.launches != [] ==>
          || m.machine.first == Some(NotListed)
          || (m.machine.first == Some(Listed(false)) && pod.policy != Never && pod.policy != OnFailure))
    && (uid in found && uid !in m.workloads ==>
          && uid in m.retained && (Off(m, found[uid].container) || m.Refusals() > refusals)
          && (m.machine.failedWrites == writes ==> Synced(m)))
  }

  lemma JustifiedQuietly(m: Manager, pod: Pod, found: Workloads, errors: seq<Failure>, since: int, refusals: nat,
                         writes: nat)
    requires m.machine.first == None && m.machine.launches == [] && Answered(m, pod, Key(pod), errors, since)
    requires NotRunning !in errors && PersistStarted !in errors
    requires Key(pod) in found ==> Key(pod) in m.workloads
    ensures Justified(m, pod, found, errors, since, refusals, writes)
  {
    hide Answered, Synced;
  }

  lemma JustifiedDriven(m: Manager, pod: Pod, found: Workloads, errors: seq<Failure>, since: int, refusals: nat,
                        writes: nat, missed: nat)
    requires Key(pod) in found && Driven(m, pod, Key(pod), found[Key(pod)], errors)
    requires Answered(m, pod, Key(pod), errors, since) && TakenBack(m, Key(pod), errors, refusals)
    requires LeftBehind(m, Key(pod), found[Key(pod)], errors, since, missed, refusals)
    requires Live(pod) && |pod.listed.containers| == 1 && !Finished(pod)
    requires !Waits(found, Key(pod), m.machine.now) && WritesTold(writes, m.machine.failedWrites, errors)
    ensures Justified(m, pod, found, errors, since, refusals, writes)
  {
    hide Answered, Synced, TakenBack, LogKept, Key;
  }

  lemma JustifiedSince(m: Manager, pod: Pod, moved: Workloads, found: Workloads, errors: seq<Failure>, since: int,
                       refusals: nat, writes: nat, earlier: int, fewer: nat, before: nat)
    requires Justified(m, pod, moved, errors, since, refusals, writes)
    requires earlier <= since && fewer <= refusals && before <= writes <= m.machine.failedWrites
    requires RetryTime(moved, Key(pod)) == RetryTime(found, Key(pod))
    requires Key(pod) in found ==> Key(pod) in moved && moved[Key(pod)].container == found[Key(pod)].container
    ensures Justified(m, pod, found, errors, earlier, fewer, before)
  {
    AnsweredSince(m, pod, Key(pod), errors, since, earlier);
    TakenBackSince(m, Key(pod), errors, refusals, fewer);
    hide Answered, TakenBack, Synced, Off;
  }

  /** A managed Pod: addressed and driven. */
  method AddressAndDrive(m: Manager, pod: Pod, used: set<IPText>)
    returns (errors: seq<Failure>, usedAfter: set<IPText>, ghost given: Option<IPText>)
    requires m.Valid() && m.network != null && |pod.listed.containers| == 1 && OnTurn(m, pod, Key(pod))
    requires Key(pod) in m.workloads && Describes(m.workloads[Key(pod)], pod)
    requires m.machine.launches == [] && m.machine.first == None
    modifies m, m.machine, m.network, m.host
    ensures m.Valid() && Touched(old(At(m)), At(m), Key(pod)) && used <= usedAfter && |usedAfter| <= |used| + 1
    ensures WritesTold(old(m.machine.failedWrites), m.machine.failedWrites, errors)
    ensures !EndsPods(RestartPolicy(pod)) ==> Key(pod) in m.workloads
    ensures given.Some? ==> if pod.hostNetwork then given.value == m.nodeIP
                            else ChosenFor(m, pod, used, usedAfter, given.value)
    ensures Key(pod) in m.workloads ==>
              m.workloads[Key(pod)].ip == if given.Some? then given.value else old(m.workloads)[Key(pod)].ip
    ensures errors == [] ==> Settled(m, pod, Key(pod)) || LeftAlone(old(m.workloads), pod, m.machine.now)
    ensures Justified(m, pod, old(m.workloads), errors, old(m.machine.now), old(m.Refusals()),
                      old(m.machine.failedWrites))
    ensures old(m.Setbacks()) <= m.Setbacks()
    ensures errors != [] ==>
              || Unaddressable(m, pod, used) || !Parses(old(m.workloads)[Key(pod)].ip)
              || pod.listed.containers[0].image == "" || m.Setbacks() > old(m.Setbacks())
    ensures StartedOnly(old(m.machine.running), m, Key(pod))
    ensures Finished(pod) ==> m.machine.running <= old(m.machine.running)
    ensures m.machine.now >= old(m.machine.now)
    ensures AtMostOne(old(m.machine.reports), m.machine.reports)
    ensures StatusWrite in errors ==> !Arrived(m)
  {
    hide At, Manager.Valid, Kept, Touched, StandingOf, Manager.Refusals, Manager.Setbacks, Key, ChosenFor, OnTurn;
    hide Unaddressable, Parses, LastTold, D.Handle.AddTests, Describes, WritesTold, Settled, LeftAlone, RestartPolicy;
    hide EndsPods, Finished, Justified, Answered, ToldPending, AtMostOne, OneMore, Arrived;
    ghost var start, writes := At(m), m.machine.failedWrites;
    given := None;
    NothingMoves(start, Key(pod));
    var chosen;
    ghost var found, now := m.workloads, m.machine.now;
    chosen, usedAfter, errors := ChooseAddress(m, pod, used);
    if chosen.None? {
      Tallied(writes, writes, false, NoAddress);
      Tallied(writes, writes, false, InvalidAddress);
      JustifiedQuietly(m, pod, found, errors, now, old(m.Refusals()), writes);
      return;
    }
    ghost var taken, since;
    since := m.machine.now;
    errors, taken := Proceed(m, pod, chosen.value);
    FewWrites(writes, m.machine.failedWrites, errors);
    JustifiedSince(m, pod, found, found, errors, since, old(m.Refusals()), writes, now, old(m.Refusals()), writes);
    given := if taken then chosen else None;
  }

  lemma FewWrites(before: nat, after: nat, errors: seq<Failure>)
    requires WritesTold(before, after, errors)
    ensures before <= after
  {
  }

  /** A live Pod that is not refused: managed, addressed and driven. */
  method Manage(m: Manager, pod: Pod, used: set<IPText>)
    returns (errors: seq<Failure>, usedAfter: set<IPText>, ghost given: Option<IPText>)
    requires m.Valid() && m.network != null && |pod.listed.containers| == 1 && OnTurn(m, pod, Key(pod))
    requires m.machine.launches == [] && m.machine.first == None
    modifies m, m.machine, m.network, m.host
    ensures m.Valid() && Touched(old(At(m)), At(m), Key(pod)) && used <= usedAfter && |usedAfter| <= |used| + 1
    ensures WritesTold(old(m.machine.failedWrites), m.machine.failedWrites, errors)
    ensures !EndsPods(RestartPolicy(pod)) ==> Key(pod) in m.workloads
    ensures given.Some? ==> if pod.hostNetwork then given.value == m.nodeIP
                            else ChosenFor(m, pod, used, usedAfter, given.value)
    ensures Key(pod) in m.workloads ==>
              m.workloads[Key(pod)].ip == if given.Some? then given.value else AddressOf(old(m.workloads), Key(pod))
    ensures errors == [] ==> Settled(m, pod, Key(pod)) || LeftAlone(old(m.workloads), pod, m.machine.now)
    ensures Justified(m, pod, old(m.workloads), errors, old(m.machine.now), old(m.Refusals()),
                      old(m.machine.failedWrites))
    ensures old(m.Setbacks()) <= m.Setbacks()
    ensures errors != [] ==> Obstructed(m, pod, used, old(m.workloads)) || m.Setbacks() > old(m.Setbacks())
    ensures StartedOnly(old(m.machine.running), m, Key(pod))
    ensures Finished(pod) ==> m.machine.running <= old(m.machine.running)
    ensures m.machine.now >= old(m.machine.now)
    ensures AtMostOne(old(m.machine.reports), m.machine.reports)
    ensures StatusWrite in errors ==> !Arrived(m)
  {
    hide At, Manager.Consistent, Manager.Logged, Kept, Touched, StandingOf, Manager.Refusals, Manager.Setbacks, Key;
    hide ChosenFor, Unaddressable, Parses, SupportedNetwork, LastTold, D.Handle.AddTests, Describes, Holds, WritesTold;
    hide Settled, LeftAlone, OnTurn, AddressOf, RestartPolicy, EndsPods, Finished, OnRecord;
    ghost var start, writes := At(m), m.machine.failedWrites;
    usedAfter, given := used, None;
    ghost var found, now, refusals := m.workloads, m.machine.now, m.Refusals();
    var managed := EnsureManaged(m, pod);
    ghost var entered, enters := At(m), m.machine.failedWrites;
    Tallied(writes, enters, managed, PersistOwnership);
    if !managed {
      AnsweredOne(m, pod, Key(pod), PersistOwnership, now);
      JustifiedQuietly(m, pod, found, [PersistOwnership], now, refusals, writes);
      return [PersistOwnership], used, None;
    }
    ghost var managing := m.workloads;
    errors, usedAfter, given := AddressAndDrive(m, pod, used);
    LeftAloneSame(found, managing, pod, m.machine.now);
    FewWrites(enters, m.machine.failedWrites, errors);
    JustifiedSince(m, pod, managing, found, errors, now, refusals, enters, now, refusals, writes);
    TouchedMore(start, entered, At(m), Key(pod));
    OnlyTold(writes, enters, m.machine.failedWrites, errors);
  }

  /** A live Pod's turn. Only an address of the PodCIDR counts as given. */
  method ReconcileLive(m: Manager, pod: Pod, used: set<IPText>)
    returns (errors: seq<Failure>, usedAfter: set<IPText>, ghost given: Option<IPText>)
    requires m.Valid() && OnTurn(m, pod, Key(pod)) && m.machine.launches == [] && m.machine.first == None
    modifies m, m.machine, m.network, m.host
    ensures m.Valid() && Touched(old(At(m)), At(m), Key(pod)) && used <= usedAfter && |usedAfter| <= |used| + 1
    ensures WritesTold(old(m.machine.failedWrites), m.machine.failedWrites, errors)
    ensures Key(pod) in old(m.workloads) && Key(pod) !in m.workloads ==> EndsPods(RestartPolicy(pod))
    ensures given.Some? ==> !pod.hostNetwork && ChosenFor(m, pod, used, usedAfter, given.value)
    ensures Placed(old(m.workloads), m.workloads, pod, m.nodeIP, given)
    ensures errors == [] ==> Settled(m, pod, Key(pod)) || LeftAlone(old(m.workloads), pod, m.machine.now)
    ensures Justified(m, pod, old(m.workloads), errors, old(m.machine.now), old(m.Refusals()),
                      old(m.machine.failedWrites))
    ensures old(m.Setbacks()) <= m.Setbacks()
    ensures errors != [] ==> Obstructed(m, pod, used, old(m.workloads)) || m.Setbacks() > old(m.Setbacks())
    ensures StartedOnly(old(m.machine.running), m, Key(pod))
    ensures Finished(pod) ==> m.machine.running <= old(m.machine.running)
    ensures m.machine.now >= old(m.machine.now)
    ensures AtMostOne(old(m.machine.reports), m.machine.reports)
    ensures StatusWrite in errors ==> !Arrived(m)
  {
    hide At, Manager.Consistent, Manager.Logged, Kept, Touched, StandingOf, Manager.Refusals, Manager.Setbacks, Key;
    hide ChosenFor, WritesTold, Settled, RestartPolicy, EndsPods, Finished;
    usedAfter, given := used, None;
    hide Justified, Answered, LeftAlone, ToldPending, RefusedFor, Obstructed;
    NothingMoves(At(m), Key(pod));
    var refused;
    ghost var found, now, writes, refusals := m.workloads, m.machine.now, m.machine.failedWrites, m.Refusals();
    refused, errors := Refuse(m, pod);
    JustifiedQuietly(m, pod, found, errors, now, refusals, writes);
    if refused {
      RefusalStands(m, pod, used, found);
      return;
    }
    ghost var since := m.machine.now;
    errors, usedAfter, given := Manage(m, pod, used);
    FewWrites(writes, m.machine.failedWrites, errors);
    JustifiedSince(m, pod, found, found, errors, since, refusals, writes, now, refusals, writes);
    if pod.hostNetwork { given := None; }
  }

  lemma RefusalStands(m: Manager, pod: Pod, used: set<IPText>, found: Workloads)
    ensures |pod.listed.containers| != 1 ==> LeftAlone(found, pod, m.machine.now)
    ensures !SupportedNetwork(pod) || m.network == null ==> Obstructed(m, pod, used, found)
  {
  }

  /** The books as a new turn begins. */
  ghost function NextTurn(a: Book, pod: Pod): Book {
    var next := TurnOf(a.standing.turn.number + 1, pod);
    a.(standing := a.standing.(turn := next, begun := a.standing.begun + {next},
                               deletions := a.standing.deletions + if pod.deleting then {Key(pod)} else {}))
  }

  /** One turn of the loop over the listed Pods. */
  method ReconcilePod(m: Manager, pod: Pod, used: set<IPText>)
    returns (errors: seq<Failure>, usedAfter: set<IPText>, ghost given: Option<IPText>)
    requires m.Valid()
    modifies m, m.machine, m.network, m.host
    ensures m.Valid() && TurnDone(m, old(At(m)), At(m), pod, errors) && used <= usedAfter && |usedAfter| <= |used| + 1
    ensures WritesTold(old(m.machine.failedWrites), m.machine.failedWrites, errors)
    ensures given.Some? ==> Addressed(pod) && ChosenFor(m, pod, used, usedAfter, given.value)
    ensures Placed(old(m.workloads), m.workloads, pod, m.nodeIP, given)
    ensures errors == [] && pod.deleting ==> ToldDeleted(m, pod) && !Last(m.machine.reports).result.PutFailed?
    ensures errors == [] && Live(pod) ==>
              Settled(m, pod, Key(pod)) || LeftAlone(old(m.workloads), pod, m.machine.now)
    ensures Justified(m, pod, old(m.workloads), errors, old(m.machine.now), old(m.Refusals()),
                      old(m.machine.failedWrites))
    ensures old(m.Setbacks()) <= m.Setbacks()
    ensures errors != [] ==> Hampered(m, pod, used, old(m.workloads)) || m.Setbacks() > old(m.Setbacks())
    ensures StartedOnly(old(m.machine.running), m, Key(pod))
    ensures !Live(pod) || Finished(pod) ==> m.machine.running <= old(m.machine.running)
    ensures m.machine.now >= old(m.machine.now)
    ensures AtMostOne(old(m.machine.reports), m.machine.reports)
    ensures Live(pod) && StatusWrite in errors ==> !Arrived(m)
  {
    hide Manager.Consistent, Manager.Logged, Kept, Touched, Key, ChosenFor, WritesTold, Settled, LeftAlone;
    hide RestartPolicy, EndsPods, Finished, ToldDeleted, Manager.Setbacks, Obstructed, Removable, Justified, Answered;
    hide Synced, Departed, Off, Manager.Refusals, Placed, SameTurn, TurnOf, TurnDone;
    ghost var before := At(m);
    NewTurn(m, pod);
    NothingMoves(At(m), Key(pod));
    errors, usedAfter, given := [], used, None;
    ghost var found, now, writes, refusals := m.workloads, m.machine.now, m.machine.failedWrites, m.Refusals();
    if pod.deleting {
      errors := ReconcileDeleted(m, pod);
      JustifiedDeleted(m, pod, found, errors, now, refusals, writes);
      PlacedDeleted(found, m.workloads, pod, m.nodeIP);
      DoneDeleted(m, before, At(m), pod, errors);
    } else if pod.native {
      errors, usedAfter, given := ReconcileLive(m, pod, used);
      DoneLive(m, before, At(m), pod, errors);
    } else {
      PlacedForeign(found, pod, m.nodeIP);
      DoneForeign(m, before, pod);
      NoneAnswered(m, pod, Key(pod), now);
      JustifiedQuietly(m, pod, found, errors, now, refusals, writes);
      Tallied(writes, writes, true, StatusWrite);
    }
  }

  lemma DoneDeleted(m: Manager, a: Book, b: Book, pod: Pod, errors: seq<Failure>)
    requires Touched(NextTurn(a, pod), b, Key(pod)) && pod.deleting
    requires b.standing.resurrected == a.standing.resurrected
    requires Key(pod) in b.workloads ==>
               RemoveDeleted(Key(pod)) in errors && (!Removable(m, a.workloads, pod) || b.refusals > a.refusals)
    ensures TurnDone(m, a, b, pod, errors)
  {
    hide Touched, Removable, Key;
  }

  lemma DoneLive(m: Manager, a: Book, b: Book, pod: Pod, errors: seq<Failure>)
    requires Touched(NextTurn(a, pod), b, Key(pod)) && Live(pod)
    requires Key(pod) in a.workloads && Key(pod) !in b.workloads ==> EndsPods(RestartPolicy(pod))
    ensures TurnDone(m, a, b, pod, errors)
  {
    hide Touched, Removable, Key, RestartPolicy, EndsPods;
  }

  lemma DoneForeign(m: Manager, a: Book, pod: Pod)
    requires !pod.deleting && !pod.native
    ensures TurnDone(m, a, NextTurn(a, pod), pod, [])
  {
    hide Removable, Key;
    NothingMoves(NextTurn(a, pod), Key(pod));
  }

  lemma PlacedDeleted(found: Workloads, after: Workloads, pod: Pod, nodeIP: IPText)
    requires pod.deleting
    requires Key(pod) in after ==>
               after[Key(pod)].ip == if Key(pod) in found then found[Key(pod)].ip else pod.listed.status.podIP
    ensures Placed(found, after, pod, nodeIP, None)
  {
    hide Key;
  }

  lemma PlacedForeign(found: Workloads, pod: Pod, nodeIP: IPText)
    requires !pod.deleting && !pod.native
    ensures Placed(found, found, pod, nodeIP, None)
  {
    hide Key;
  }

  lemma JustifiedDeleted(m: Manager, pod: Pod, found: Workloads, errors: seq<Failure>, since: int, refusals: nat,
                         writes: nat)
    requires m.machine.first == None && m.machine.launches == []
    requires forall e :: e in errors ==> e.RemoveDeleted? || e == PersistDeleted || e == StatusWrite
    requires WritesTold(writes, m.machine.failedWrites, errors)
    requires Key(pod) !in m.workloads ==> Key(pod) in m.retained && (PersistDeleted !in errors ==> Synced(m))
    requires Key(pod) in found && Key(pod) !in m.workloads ==> Off(m, found[Key(pod)].container)
    ensures Justified(m, pod, found, errors, since, refusals, writes)
  {
    hide Synced;
  }

  /** Why a Pod's turn may have errors although every command succeeds. */
  ghost predicate Hampered(m: Manager, pod: Pod, used: set<IPText>, workloads: Workloads) {
    if pod.deleting then !Removable(m, workloads, pod) else Live(pod) && Obstructed(m, pod, used, workloads)
  }

  /** A new turn begins. */
  ghost method NewTurn(m: Manager, pod: Pod)
    requires m.Valid()
    modifies m.machine`turn, m.machine`begun, m.machine`first, m.machine`listed, m.machine`launches, m.machine`deletions
    ensures m.Valid() && At(m) == NextTurn(old(At(m)), pod)
    ensures HasTurn(m, pod) && m.machine.launches == [] && m.machine.first == None
    ensures pod.deleting ==> Key(pod) in m.machine.deletions
  {
    hide Manager.NetworkValid, Machine.Good, Filed, Manager.Logged, Standard, Key, Names;
    m.machine.BeginPod(TurnOf(m.machine.turn.number + 1, pod), Names(m.workloads));
  }

  // ---- The pass ----------------------------------------------------------------------------

  method UsedAddresses(pods: seq<Pod>) returns (used: set<IPText>)
    ensures used == Reported(pods)
  {
        used := {};
    for i := 0 to |pods|
      invariant used == Reported(pods[..i])
    {
      ReportedSnoc(pods, i);
      if pods[i].listed.status.podIP != Unset { used := used + {pods[i].listed.status.podIP}; }
    }
    assert pods[..|pods|] == pods;
  }

  /** How the loop over the first n Pods left the books. */
  ghost predicate Handled(m: Manager, start: Book, now: Book, pods: seq<Pod>, n: nat, seen: set<string>,
                          errors: seq<Failure>) {
    && n <= |pods| && Kept(start, now) && seen == Seen(pods[..n])
    && Dropped(start.workloads, now.workloads, pods, n)
    && Explained(now.workloads, seen, pods, n, errors, Excused(m, start, now, pods))
    && (AddressesParse(m, start.workloads, pods) ==> AddressesParse(m, now.workloads, pods))
    && TurnsTaken(now.standing.ended, pods, n, |errors|)
    && TurnsOf(start.standing.begun, now.standing.begun, pods[..n])
    && now.standing.deletions == start.standing.deletions + Deleted(pods[..n])
    && now.standing.resurrected <= start.standing.resurrected + Cleared(pods[..n], start.standing.deletions)
  }

  /** Which addresses it gave out, and which entries carry them. */
  ghost predicate Addresses(m: Manager, pods: seq<Pod>, n: nat, given: map<nat, IPText>, used: set<IPText>) {
    && Distributed(m, pods, given) && Remembered(pods, given, used) && (forall j :: j in given ==> j < n)
  }

  /** And what is on record of the turns. */
  ghost predicate Entries(start: Workloads, now: Book, pods: seq<Pod>, n: nat, given: map<nat, IPText>) {
    DistinctKeys(pods) ==>
      && Placements(start, now.workloads, pods, n, given) && Untouched(start, now.workloads, pods, n)
      && Recalled(start, now.workloads, pods, now.standing.ended, n)
  }

  lemma HandledNone(m: Manager, start: Book, pods: seq<Pod>)
    requires start.standing.ended == []
    ensures Handled(m, start, start, pods, 0, {}, [])
    ensures forall given :: Entries(start.workloads, start, pods, 0, given)
  {
  }

  lemma ParsedRemovable(m: Manager, workloads: Workloads, pods: seq<Pod>, n: nat)
    requires n < |pods| && pods[n].deleting && AddressesParse(m, workloads, pods)
    ensures Removable(m, workloads, pods[n])
  {
    hide Key, ParseV4;
  }

  /** A Pod's turn is over. */
  ghost function Closed(a: Book, e: TurnEnd): Book {
    a.(standing := a.standing.(ended := a.standing.ended + [e]))
  }

  /** What one turn must have done, but for its addresses. */
  ghost predicate TurnDone(m: Manager, a: Book, b: Book, pod: Pod, errors: seq<Failure>) {
    && Touched(NextTurn(a, pod), b, Key(pod))
    && (!Live(pod) ==> b.standing.resurrected == a.standing.resurrected)
    && (!pod.deleting && !pod.native ==> b.workloads == a.workloads)
    && (pod.deleting && Key(pod) in b.workloads ==>
          RemoveDeleted(Key(pod)) in errors && (!Removable(m, a.workloads, pod) || b.refusals > a.refusals))
    && (Key(pod) in a.workloads && Key(pod) !in b.workloads ==> Ends(pod))
  }

  lemma HandledOne(m: Manager, start: Book, a: Book, b: Book, pods: seq<Pod>, n: nat, seen: set<string>,
                   errors: seq<Failure>, more: seq<Failure>, one: Option<IPText>, e: TurnEnd)
    requires n < |pods| && Handled(m, start, a, pods, n, seen, errors) && TurnDone(m, a, b, pods[n], more)
    requires Placed(a.workloads, b.workloads, pods[n], m.nodeIP, one) && (one.Some? ==> Parses(one.value))
    requires e.turn == TurnOf(e.turn.number, pods[n]) && e.errors == |more| && (more == [] ==> Concluded(e, pods[n]))
    ensures Handled(m, start, Closed(b, e), pods, n + 1,
                    if pods[n].deleting || pods[n].native then seen + {Key(pods[n])} else seen, errors + more)
  {
    hide Key, Kept, Touched, Explained, Dropped, Ends, Seen, Deleted, Cleared, Removable, AddressesParse, Placed;
    hide TurnsTaken, TurnsOf, TurnOf, Concluded, Parses;
    var p := pods[n];
    TurnKept(a, p);
    TouchedKept(NextTurn(a, p), b, Key(p));
    ClosedKept(b, e);
    KeptMore(start, a, NextTurn(a, p));
    KeptMore(start, NextTurn(a, p), b);
    KeptMore(start, b, Closed(b, e));
    KeptRefusals(start, a);
    KeptRefusals(NextTurn(a, p), b);
    TouchedTurn(NextTurn(a, p), b, Key(p));
    if AddressesParse(m, start.workloads, pods) {
      ParsedOne(m, NextTurn(a, p), b, pods, n, one);
      if p.deleting { ParsedRemovable(m, a.workloads, pods, n); }
    }
    ExplainedMore(NextTurn(a, p), b, seen, pods, n, errors, more, Excused(m, start, a, pods),
                  Excused(m, start, b, pods));
    assert Excused(m, start, Closed(b, e), pods) == Excused(m, start, b, pods);
    DroppedMore(start.workloads, NextTurn(a, p), b, pods, n);
    TurnsTakenMore(a.standing.ended, pods, n, |errors|, e);
    TurnsOfSnoc(start.standing.begun, a.standing.begun, pods, n, a.standing.turn.number + 1);
    SeenSnoc(pods, n);
    DeletedSnoc(pods, n);
    ClearedSnoc(pods, n, start.standing.deletions);
  }

  lemma ClosedKept(a: Book, e: TurnEnd)
    ensures Kept(a, Closed(a, e))
  {
  }

  lemma KeptRefusals(a: Book, b: Book)
    requires Kept(a, b)
    ensures a.refusals <= b.refusals
  {
  }

  lemma TurnKept(a: Book, pod: Pod)
    ensures Kept(a, NextTurn(a, pod))
  {
  }

  lemma TouchedKept(a: Book, b: Book, uid: string)
    requires Touched(a, b, uid)
    ensures Kept(a, b)
  {
  }

  lemma EntriesOne(start: Workloads, a: Book, b: Book, pods: seq<Pod>, n: nat, given: map<nat, IPText>, nodeIP: IPText,
                   one: Option<IPText>, e: TurnEnd, now: int)
    requires n < |pods| && (forall i :: i in given ==> i < n)
    requires Entries(start, a, pods, n, given) && EndedSo(e, a.workloads, b.workloads, pods[n], now)
    requires Touched(NextTurn(a, pods[n]), b, Key(pods[n])) && Placed(a.workloads, b.workloads, pods[n], nodeIP, one)
    ensures Entries(start, Closed(b, e), pods, n + 1, if one.Some? then given[n := one.value] else given)
  {
    hide Key, Touched, Placed, Placements, Untouched, DistinctKeys, Recalled, EndedSo, TurnOf;
    if DistinctKeys(pods) {
      TouchedTurn(NextTurn(a, pods[n]), b, Key(pods[n]));
      PlaceOne(start, NextTurn(a, pods[n]), b, pods, n, given, nodeIP, one);
      RecalledMore(start, NextTurn(a, pods[n]), b, pods, a.standing.ended, n, e, now);
    }
  }

  lemma AddressesOne(m: Manager, pods: seq<Pod>, n: nat, given: map<nat, IPText>, used: set<IPText>,
                     usedAfter: set<IPText>, one: Option<IPText>)
    requires n < |pods| && Addresses(m, pods, n, given, used) && used <= usedAfter
    requires one.Some? ==> Addressed(pods[n]) && ChosenFor(m, pods[n], used, usedAfter, one.value)
    ensures Addresses(m, pods, n + 1, if one.Some? then given[n := one.value] else given, usedAfter)
  {
    hide Distributed, Remembered, ChosenFor;
    if one.Some? {
      GiveOne(m, pods, given, used, usedAfter, n, one.value);
    } else {
      StillRemembered(pods, given, used, usedAfter);
    }
  }

  lemma NothingGiven(m: Manager, pods: seq<Pod>, given: map<nat, IPText>, used: set<IPText>)
    requires used == Reported(pods) && given == map[]
    ensures Addresses(m, pods, 0, given, used)
  {
  }

  lemma TurnFacts(m: Manager, a: Book, b: Book, pod: Pod, errors: seq<Failure>, used: set<IPText>,
                  usedAfter: set<IPText>, one: Option<IPText>)
    requires TurnDone(m, a, b, pod, errors) && (one.Some? ==> ChosenFor(m, pod, used, usedAfter, one.value))
    ensures Touched(NextTurn(a, pod), b, Key(pod))
    ensures b.standing.turn == TurnOf(b.standing.turn.number, pod)
    ensures one.Some? ==> Parses(one.value)
  {
    hide Removable, Kept;
  }

  /** How the turn ended goes on record. */
  ghost method EndTurn(m: Manager, found: Workloads, pod: Pod, errors: seq<Failure>)
    requires m.Valid() && HasTurn(m, pod)
    requires errors == [] && pod.deleting ==> ToldDeleted(m, pod) && !Last(m.machine.reports).result.PutFailed?
    requires errors == [] && Live(pod) ==> Settled(m, pod, Key(pod)) || LeftAlone(found, pod, m.machine.now)
    modifies m.machine`ended
    ensures m.Valid() && |m.machine.ended| == |old(m.machine.ended)| + 1
    ensures var e := m.machine.ended[|m.machine.ended| - 1];
            && At(m) == Closed(old(At(m)), e) && EndedSo(e, found, m.workloads, pod, m.machine.now)
            && e.turn == TurnOf(e.turn.number, pod) && e.errors == |errors| && (errors == [] ==> Concluded(e, pod))
  {
    hide Key, Said, Disciplined, Finished, RestartPolicy, Manager.Logged, Manager.Refusals, Manager.Setbacks;
    LastDisciplined(m);
    m.machine.EndPod(|errors|, Key(pod) in m.workloads, Waits(found, Key(pod), m.machine.now));
  }

  lemma LastDisciplined(m: Manager)
    requires m.Valid()
    ensures m.machine.reports != [] ==> Disciplined(Last(m.machine.reports))
  {
    hide Disciplined, Said, Recorded, AllSafe, AllFinished, Safe;
    assert forall r :: r in m.machine.reports ==> Disciplined(r);
  }

  /** If nothing is wrong with the Pods and their addresses, only a setback can make errors. */
  lemma NothingHampers(m: Manager, start: Book, now: Book, pods: seq<Pod>, n: nat, seen: set<string>,
                       errors: seq<Failure>, used: set<IPText>)
    requires m.Valid() && n < |pods| && Handled(m, start, now, pods, n, seen, errors)
    requires AllRunnable(m, pods) && AddressesParse(m, start.workloads, pods) && |used| <= |Reported(pods)| + n
    ensures !Hampered(m, pods[n], used, now.workloads)
  {
    hide Manager.Valid, Kept, Explained, Dropped, TurnsTaken, TurnsOf, Seen, Deleted, Cleared, Reported, Runnable, Key;
    hide Obstructed, ParseV4;
    var pod := pods[n];
    assert pod in pods;
    if pod.deleting {
      ParsedRemovable(m, now.workloads, pods, n);
    } else if Live(pod) {
      RunnableHasNetwork(m, pod, |Reported(pods)| + |pods| - 1);
      RunnableUnobstructed(m, pod, used, now.workloads, |Reported(pods)| + |pods| - 1);
    }
  }

  lemma RunnableHasNetwork(m: Manager, pod: Pod, inUse: nat)
    requires Runnable(m, pod, inUse)
    ensures m.network != null
  {
  }

  /** One turn, and what it adds to the books. */
  method TakeTurn(m: Manager, pods: seq<Pod>, n: nat, used: set<IPText>, ghost start: Book, ghost seen: set<string>,
                  ghost errors: seq<Failure>, ghost given: map<nat, IPText>)
    returns (more: seq<Failure>, usedAfter: set<IPText>, ghost one: Option<IPText>)
    requires m.Valid() && n < |pods| && Handled(m, start, At(m), pods, n, seen, errors)
    requires Addresses(m, pods, n, given, used) && Entries(start.workloads, At(m), pods, n, given)
    requires |used| <= |Reported(pods)| + n
    modifies m, m.machine, m.network, m.host
    ensures m.Valid() && usedAfter >= used && |usedAfter| <= |used| + 1
    ensures Handled(m, start, At(m), pods, n + 1,
                    if pods[n].deleting || pods[n].native then seen + {Key(pods[n])} else seen, errors + more)
    ensures Addresses(m, pods, n + 1, if one.Some? then given[n := one.value] else given, usedAfter)
    ensures Entries(start.workloads, At(m), pods, n + 1, if one.Some? then given[n := one.value] else given)
    ensures m.machine.ended != [] &&
            EndedSo(m.machine.ended[|m.machine.ended| - 1], old(m.workloads), m.workloads, pods[n], m.machine.now)
    ensures WritesTold(old(m.machine.failedWrites), m.machine.failedWrites, more)
    ensures old(m.Setbacks()) <= m.Setbacks()
    ensures more != [] ==>
              || !AllRunnable(m, pods) || !AddressesParse(m, start.workloads, pods)
              || m.Setbacks() > old(m.Setbacks())
    ensures m.machine.now >= old(m.machine.now)
  {
    hide Manager.Valid, Kept, Touched, Explained, Key, ChosenFor, Distributed, Remembered, Handled, Entries;
    hide Manager.Refusals, Manager.Setbacks, WritesTold, Placed, TurnDone, Concluded, Parses, Settled, LeftAlone;
    hide EndedSo, ToldDeleted, Hampered, AllRunnable, AddressesParse, Reported, AtMostOne, Justified, Arrived;
    ghost var before := At(m);
    if AllRunnable(m, pods) && AddressesParse(m, start.workloads, pods) {
      NothingHampers(m, start, before, pods, n, seen, errors, used);
    }
    more, usedAfter, one := ReconcilePod(m, pods[n], used);
    ghost var after := At(m);
    TurnFacts(m, before, after, pods[n], more, used, usedAfter, one);
    AddressesOne(m, pods, n, given, used, usedAfter, one);
    EndTurn(m, before.workloads, pods[n], more);
    ghost var e := m.machine.ended[|m.machine.ended| - 1];
    EntriesOne(start.workloads, before, after, pods, n, given, m.nodeIP, one, e, m.machine.now);
    HandledOne(m, start, before, after, pods, n, seen, errors, more, one, e);
  }

  /** The loop over the listed Pods. */
  method ReconcileListed(m: Manager, pods: seq<Pod>)
    returns (errors: seq<Failure>, seen: set<string>, ghost given: map<nat, IPText>)
    requires m.Valid() && m.machine.ended == []
    modifies m, m.machine, m.network, m.host
    ensures m.Valid() && Handled(m, old(At(m)), At(m), pods, |pods|, seen, errors)
    ensures WritesTold(old(m.machine.failedWrites), m.machine.failedWrites, errors)
    ensures old(m.Setbacks()) <= m.Setbacks()
    ensures errors != [] ==>
              || !AllRunnable(m, pods) || !AddressesParse(m, old(m.workloads), pods)
              || m.Setbacks() > old(m.Setbacks())
    ensures Distributed(m, pods, given)
    ensures Entries(old(m.workloads), At(m), pods, |pods|, given)
    ensures m.machine.now >= old(m.machine.now)
  {
    hide Manager.Valid, Key, Distributed, Remembered, Manager.Refusals, Manager.Setbacks, Handled, Entries, WritesTold;
    hide AllRunnable, AddressesParse;
    errors, seen, given := [], {}, map[];
    var used := UsedAddresses(pods);
    ghost var start := At(m);
    HandledNone(m, start, pods);
    NothingGiven(m, pods, given, used);
    Tallied(m.machine.failedWrites, m.machine.failedWrites, true, StatusWrite);
    for i := 0 to |pods|
      invariant m.Valid() && Handled(m, start, At(m), pods, i, seen, errors)
      invariant WritesTold(old(m.machine.failedWrites), m.machine.failedWrites, errors)
      invariant Addresses(m, pods, i, given, used)
      invariant Entries(start.workloads, At(m), pods, i, given)
      invariant |used| <= |Reported(pods)| + i && old(m.Setbacks()) <= m.Setbacks()
      invariant m.machine.now >= old(m.machine.now)
      invariant errors != [] ==>
                  || !AllRunnable(m, pods) || !AddressesParse(m, start.workloads, pods)
                  || m.Setbacks() > old(m.Setbacks())
    {
      ghost var writes := m.machine.failedWrites;
      var more;
      ghost var one;
      more, used, one := TakeTurn(m, pods, i, used, start, seen, errors, given);
      WritesMore(old(m.machine.failedWrites), writes, m.machine.failedWrites, errors, more);
      given := if one.Some? then given[i := one.value] else given;
      errors := errors + more;
      if pods[i].deleting || pods[i].native { seen := seen + {Key(pods[i])}; }
    }
  }

  /** What a pass starts from: expired logs are gone, and nothing has been removed or retired. */
  ghost function Opening(m: Manager): Book
    reads m`workloads, m`retained, m.machine`now, m.machine`strays, m.machine`loaded, m.machine`finished
    reads m.machine`rounds, m.machine`bootFailed, m.machine`turn, m.machine`deletions, m.machine`resurrected
    reads m.machine`opening, m.machine`begun, m.machine`ended, m.machine`refusals, m.host
    reads m.machine`failedWrites
  {
    Book(m.workloads, Unexpired(m.retained, m.machine.now), {}, m.Refusals(),
         StandingOf(m.machine).(ended := [], opening := m.machine.failedWrites))
  }

  lemma SweptKept(a: Book, b: Book, removed: set<string>)
    requires Swept(a.workloads, a.retained.Keys, b.workloads, b.retained.Keys, removed)
    requires removed <= b.gone && a.gone <= b.gone && a.refusals <= b.refusals && a.standing == b.standing
    ensures Kept(a, b)
  {
  }

  lemma SweptFields(before: Workloads, kept: set<string>, after: Workloads, keptAfter: set<string>,
                    removed: set<string>)
    requires Swept(before, kept, after, keptAfter, removed)
    ensures forall uid :: uid in after ==> uid in before && after[uid].ip == before[uid].ip
  {
  }

  method ErrorPerUID(failed: set<string>) returns (errors: seq<Failure>)
    ensures forall uid :: uid in failed <==> RemoveStale(uid) in errors
    ensures forall e :: e in errors ==> e.RemoveStale?
  {
    errors := [];
    var left := failed;
    while left != {}
      invariant left <= failed
      invariant forall uid :: uid in failed - left <==> RemoveStale(uid) in errors
      invariant forall e :: e in errors ==> e.RemoveStale?
    {
      var uid :| uid in left;
      left := left - {uid};
      errors := errors + [RemoveStale(uid)];
    }
  }

  lemma StaleTold(n: nat, errors: seq<Failure>)
    requires forall e :: e in errors ==> e.RemoveStale?
    ensures WritesTold(n, n, errors)
  {
  }

  /** The last loop of a pass: what no listed Pod accounts for is removed. */
  method SweepStale(m: Manager, seen: set<string>) returns (errors: seq<Failure>, changed: bool)
    requires m.Valid()
    modifies m`workloads, m`retained, m.network, m.host
    modifies m.machine`running, m.machine`now, m.machine`past, m.machine`trace, m.machine`removed, m.machine`refusals
    modifies m.machine`present
    modifies m.machine`mounts, m.machine`volumes, m.machine`logs, m.machine`missedLogs, m.machine`logFiles
    ensures m.Valid() && Kept(old(At(m)), At(m)) && At(m).standing == old(At(m)).standing
    ensures forall uid :: uid in m.workloads ==> uid in old(m.workloads) && (uid in seen || RemoveStale(uid) in errors)
    ensures forall uid :: RemoveStale(uid) in errors && uid in old(m.workloads) ==>
              !m.Releasable(old(m.workloads)[uid]) || m.Refusals() > old(m.Refusals())
    ensures forall uid :: uid in m.workloads ==> m.workloads[uid].ip == old(m.workloads)[uid].ip
    ensures forall uid :: uid in seen && uid in old(m.workloads) ==> uid in m.workloads
    ensures forall uid :: RemoveStale(uid) in errors ==> uid in m.workloads && uid !in seen
    ensures forall e :: e in errors ==> e.RemoveStale?
    ensures changed <==> m.workloads.Keys != old(m.workloads).Keys
    ensures m.Setbacks() == old(m.Setbacks()) + m.Refusals() - old(m.Refusals()) && old(m.Refusals()) <= m.Refusals()
    ensures m.machine.running <= old(m.machine.running)
    ensures m.machine.now >= old(m.machine.now)
  {
    hide Manager.Consistent, Manager.Logged, Kept, Swept, StandingOf, Manager.Releasable, Manager.Refusals;
    hide Manager.Setbacks;
    ghost var start := At(m);
    var failed;
    changed, failed := m.RemoveUnseen(seen);
    SweptFields(start.workloads, start.retained.Keys, m.workloads, m.retained.Keys, m.machine.removed);
    SweptKept(start, At(m), m.machine.removed);
    errors := ErrorPerUID(failed);
  }

  /** The journal follows if anything went. */
  method WriteSwept(m: Manager, stale: seq<Failure>, changed: bool) returns (errors: seq<Failure>)
    requires m.Valid() && forall e :: e in stale ==> e.RemoveStale?
    modifies m`doomed
    modifies m.machine`disk, m.machine`clean, m.machine`failedWrites, m.machine`past, m.machine`trace
    ensures m.Valid() && At(m) == old(At(m)) && m.Refusals() == old(m.Refusals())
    ensures WritesTold(old(m.machine.failedWrites), m.machine.failedWrites, errors)
    ensures errors == stale || errors == stale + [PersistStale]
    ensures if changed then PersistStale in errors || Synced(m)
            else PersistStale !in errors && m.machine.disk == old(m.machine.disk)
    ensures if PersistStale in errors then m.Setbacks() > old(m.Setbacks()) else m.Setbacks() == old(m.Setbacks())
  {
    hide At, Manager.Consistent, Manager.Logged, Synced, WritesTold, Manager.Setbacks;
    ghost var writes := m.machine.failedWrites;
    StaleTold(writes, stale);
    errors := stale;
    if changed {
      var persisted := Write(m);
      Tallied(writes, m.machine.failedWrites, persisted, PersistStale);
      WritesMore(writes, writes, m.machine.failedWrites, stale, if persisted then [] else [PersistStale]);
      if !persisted { errors := errors + [PersistStale]; } else { assert stale + [] == stale; }
    }
  }

  /** What no Pod accounts for is removed, and the journal follows. */
  method RemoveStaleWorkloads(m: Manager, seen: set<string>) returns (errors: seq<Failure>)
    requires m.Valid()
    modifies m`workloads, m`retained, m`doomed, m.network, m.host
    modifies m.machine`running, m.machine`now, m.machine`past, m.machine`trace, m.machine`removed, m.machine`refusals
    modifies m.machine`present
    modifies m.machine`mounts, m.machine`volumes, m.machine`logs, m.machine`missedLogs, m.machine`logFiles
    modifies m.machine`disk, m.machine`clean, m.machine`failedWrites
    ensures m.Valid() && Kept(old(At(m)), At(m)) && At(m).standing == old(At(m)).standing
    ensures WritesTold(old(m.machine.failedWrites), m.machine.failedWrites, errors)
    ensures forall uid :: uid in m.workloads ==> uid in old(m.workloads) && (uid in seen || RemoveStale(uid) in errors)
    ensures forall uid :: RemoveStale(uid) in errors && uid in old(m.workloads) ==>
              !m.Releasable(old(m.workloads)[uid]) || m.Refusals() > old(m.Refusals())
    ensures forall uid :: uid in m.workloads ==> m.workloads[uid].ip == old(m.workloads)[uid].ip
    ensures forall uid :: uid in seen && uid in old(m.workloads) ==> uid in m.workloads
    ensures forall uid :: RemoveStale(uid) in errors ==> uid in m.workloads && uid !in seen
    ensures forall e :: e in errors ==> e.RemoveStale? || e == PersistStale
    ensures if m.workloads.Keys != old(m.workloads).Keys then PersistStale in errors || Synced(m)
            else PersistStale !in errors && m.machine.disk == old(m.machine.disk)
    ensures old(m.Setbacks()) <= m.Setbacks()
    ensures errors != [] ==> !m.AllReleasable(old(m.workloads)) || m.Setbacks() > old(m.Setbacks())
    ensures m.machine.running <= old(m.machine.running)
    ensures m.machine.now >= old(m.machine.now)
  {
    hide At, Manager.Consistent, Manager.Logged, Kept, Synced, WritesTold, Manager.Releasable, Manager.Refusals;
    hide Manager.Setbacks;
    var stale, changed := SweepStale(m, seen);
    if stale != [] {
      assert stale[0] in stale && stale[0].RemoveStale?;
      assert stale[0].uid in m.workloads && stale[0].uid in old(m.workloads);
    }
    errors := WriteSwept(m, stale, changed);
  }

  lemma HandledParts(m: Manager, start: Book, now: Book, pods: seq<Pod>, seen: set<string>, errors: seq<Failure>)
    requires Handled(m, start, now, pods, |pods|, seen, errors)
    ensures Kept(start, now) && Explained(now.workloads, seen, pods, |pods|, errors, Excused(m, start, now, pods))
    ensures seen == Seen(pods) && Dropped(start.workloads, now.workloads, pods, |pods|)
    ensures AddressesParse(m, start.workloads, pods) ==> AddressesParse(m, now.workloads, pods)
    ensures TurnsTaken(now.standing.ended, pods, |pods|, |errors|)
    ensures TurnsOf(start.standing.begun, now.standing.begun, pods)
    ensures now.standing.deletions == start.standing.deletions + Deleted(pods)
    ensures now.standing.resurrected <= start.standing.resurrected + Cleared(pods, start.standing.deletions)
  {
    hide Explained, AddressesParse, Excused, Dropped, TurnsTaken, TurnsOf, Kept, Deleted, Cleared, Seen;
    assert pods[..|pods|] == pods;
  }

  /** A stale workload that stays is one more reason. */
  lemma StaleExcused(m: Manager, start: Book, handled: Book, now: Book, pods: seq<Pod>, uid: string)
    requires Kept(start, handled) && uid in handled.workloads
    requires AddressesParse(m, start.workloads, pods) ==> AddressesParse(m, handled.workloads, pods)
    requires !m.Releasable(handled.workloads[uid]) || now.refusals > handled.refusals
    ensures Excused(m, start, now, pods)
  {
    hide ParseV4;
  }

  /** Dropping what expired. */
  method Prune(m: Manager) returns (pruned: bool)
    requires m.Valid()
    modifies m.machine`missedLogs, m.machine`logFiles
    modifies m`retained, m`doomed
    modifies m.machine`disk, m.machine`clean, m.machine`failedWrites, m.machine`past, m.machine`trace
    ensures m.Valid() && At(m) == old(At(m)).(retained := Unexpired(old(m.retained), old(m.machine.now)))
    ensures m.machine.failedWrites == old(m.machine.failedWrites) + if pruned then 0 else 1
    ensures m.Setbacks() == if pruned then old(m.Setbacks()) else old(m.Setbacks()) + 1
  {
    hide Manager.Valid, Unexpired, Holds, Manager.Refusals, Manager.Setbacks, StandingOf;
    pruned := m.PruneAndPersist();
  }

  /** A new round begins. */
  ghost method BeginPass(m: Manager)
    requires m.Valid()
    modifies m.machine`ended, m.machine`exited, m.machine`removed, m.machine`retired, m.machine`opening
    ensures m.Valid() && At(m).(retained := Unexpired(m.retained, m.machine.now)) == old(Opening(m))
  {
    hide Manager.Valid, Unexpired, Manager.Refusals;
    m.machine.BeginRound();
  }

  /** A pass begins: what expired is dropped. */
  method OpenPass(m: Manager) returns (pruned: bool)
    requires m.Valid()
    modifies m.machine`missedLogs, m.machine`logFiles
    modifies m`retained, m`doomed, m.machine`ended, m.machine`exited, m.machine`removed, m.machine`retired
    modifies m.machine`opening
    modifies m.machine`disk, m.machine`clean, m.machine`failedWrites, m.machine`past, m.machine`trace
    ensures m.Valid() && At(m) == old(Opening(m))
    ensures m.machine.failedWrites == old(m.machine.failedWrites) + if pruned then 0 else 1
    ensures m.Setbacks() == if pruned then old(m.Setbacks()) else old(m.Setbacks()) + 1
    ensures WritesTold(old(m.machine.failedWrites), m.machine.failedWrites, if pruned then [] else [PruneJournal])
  {
    hide At, Manager.Valid, Unexpired, WritesTold, Manager.Refusals, Manager.Setbacks, Opening;
    BeginPass(m);
    pruned := Prune(m);
    Tallied(old(m.machine.failedWrites), m.machine.failedWrites, pruned, PruneJournal);
  }

  /**
   * reconcile. Whatever fails, no UID is forgotten but by expiry, no workload is dropped before its container was
   * removed or retired, and what stays managed is live or has a failed removal, for which a command failed or an
   * address did not parse; only a journal that could not be pruned ends a pass early. Its errors tell of every
   * failed journal write, and every listed Pod whose turn has none was concluded. There are none at all, if the Pods
   * can be run, the addresses parse, and nothing went wrong outside of maclet.
   */
  method Reconcile(m: Manager, pods: seq<Pod>) returns (errors: seq<Failure>, ghost given: map<nat, IPText>)
    requires m.Valid()
    modifies m, m.machine, m.network, m.host
    ensures m.Valid() && Kept(old(Opening(m)), At(m))
    ensures || (&& errors == [PruneJournal] && m.workloads == old(m.workloads)
                && m.machine.ended == [] && m.machine.failedWrites > old(m.machine.failedWrites))
            || (&& Accounted(m.workloads, pods, errors, Excused(m, old(Opening(m)), At(m), pods))
                && AllTurnsTaken(m.machine.ended, pods, |errors|)
                && (DistinctKeys(pods) ==>
                      Recalled(old(m.workloads), m.workloads, pods, m.machine.ended, |pods|)))
    ensures DroppedForCause(old(m.workloads), m.workloads, pods)
    ensures WritesTold(old(m.machine.failedWrites), m.machine.failedWrites, errors)
    ensures Distributed(m, pods, given)
    ensures DistinctKeys(pods) ==> Placements(old(m.workloads), m.workloads, pods, |pods|, given)
    ensures m.machine.deletions <= old(m.machine.deletions) + Deleted(pods)
    ensures m.machine.resurrected <= old(m.machine.resurrected) + Cleared(pods, old(m.machine.deletions))
    ensures TurnsOf(old(m.machine.begun), m.machine.begun, pods)
    ensures old(m.Setbacks()) <= m.Setbacks()
    ensures errors != [] ==>
              || !AllRunnable(m, pods) || !AddressesParse(m, old(m.workloads), pods)
              || m.Setbacks() > old(m.Setbacks())
    ensures m.machine.now >= old(m.machine.now)
  {
    hide Manager.Consistent, Manager.Logged, Kept, Distributed, Remembered, Explained, Accounted, Unexpired;
    hide Manager.Refusals, Manager.Setbacks, WritesTold, Handled, Placements, Untouched, DistinctKeys, Deleted;
    hide Recalled, Cleared, Seen, EndListed, AddressesParse, Excused, TurnsTaken, Manager.Releasable;
    ghost var start, writes := Opening(m), m.machine.failedWrites;
    given := map[];
    var pruned := OpenPass(m);
    HandledNone(m, start, pods);
    NothingGiven(m, pods, given, Reported(pods));
    if !pruned {
      EarlyPlacements(start.workloads, pods, given);
      KeptSame(start);
      return [PruneJournal], given;
    }
    ghost var begun := m.machine.failedWrites;
    var seen;
    errors, seen, given := ReconcileListed(m, pods);
    ghost var handled, listed := At(m), m.machine.failedWrites;
    HandledParts(m, start, handled, pods, seen, errors);
    OnlyTold(writes, begun, listed, errors);
    if AddressesParse(m, handled.workloads, pods) { ParsedReleasable(m, handled.workloads, pods); }
    var more := RemoveStaleWorkloads(m, seen);
    KeptMore(start, handled, At(m));
    if Excused(m, start, handled, pods) { StillExcused(m, start, handled, At(m), pods); }
    forall uid | uid in m.workloads && uid !in seen ensures Excused(m, start, At(m), pods) {
      StaleExcused(m, start, handled, At(m), pods, uid);
    }
    AllAccounted(handled.workloads, m.workloads, seen, pods, errors, more, Excused(m, start, handled, pods),
                 Excused(m, start, At(m), pods));
    WritesMore(writes, listed, m.machine.failedWrites, errors, more);
    if DistinctKeys(pods) {
      PlacementsSwept(start.workloads, handled.workloads, m.workloads, pods, given);
      RecalledSwept(start.workloads, handled.workloads, m.workloads, pods, handled.standing.ended);
    }
    errors := errors + more;
  }

  lemma StillExcused(m: Manager, start: Book, handled: Book, now: Book, pods: seq<Pod>)
    requires Kept(handled, now) && Excused(m, start, handled, pods)
    ensures Excused(m, start, now, pods)
  {
  }

  lemma KeptSame(a: Book)
    ensures Kept(a, a)
  {
  }

  /** A pass that ends early gives nothing. */
  lemma EarlyPlacements(start: Workloads, pods: seq<Pod>, given: map<nat, IPText>)
    requires given == map[]
    ensures Placements(start, start, pods, |pods|, given)
  {
  }
}
