/** The workload manager: its two maps, the journal, stopping, retaining and draining workloads. */
module Managers {
  import opened Text
  import opened AddressPlan
  import opened Journals
  import opened Machines
  import D = DarwinNetwork
  import PodStatuses

  const DEFAULT_RETENTION := 24 * 60 * 60 * 1000
  const STARTUP_WINDOW := 5_000
  const POLL_INTERVAL := 100
  const RETRY_DELAY := 10_000
  const NUL: char := 0 as char

  /** Why a journal was not loaded. */
  datatype LoadResult = LoadOk | Unreadable | Incomplete | NotRewritten

  /** What a manager starts from: both maps as journaled, and what runs without a record. */
  ghost predicate AsJournaled(disk: seq<Record>, running: set<string>, now: int, workloads: Workloads,
                              retained: Workloads, strays: set<string>) {
    && workloads == Loaded(disk, false)
    && retained == Unexpired(Loaded(disk, true), now)
    && strays == Unclaimed(running, disk)
  }

  lemma Journaled(disk: seq<Record>, running: set<string>, now: int, workloads: Workloads, retained: Workloads,
                  strays: set<string>)
    requires workloads == Loaded(disk, false) && retained == Unexpired(Loaded(disk, true), now)
    requires strays == Unclaimed(running, disk)
    ensures AsJournaled(disk, running, now, workloads, retained, strays)
  {
  }

  class Manager {
    const machine: Machine
    /** nil without VXLAN. */
    const network: D.Handle?
    const unicode: Unicode
    const nodeIP: IPText
    /** Whether there is a journal path, and a directory for retained logs. */
    const journaled: bool
    const keepsLogs: bool
    const logTTL: int
    var workloads: Workloads
    var retained: Workloads
    /** Entered by a failed removal of a deleted Pod, and not written to the journal since. */
    ghost var doomed: set<string>

    ghost const host: D.HostNetwork? := if network == null then null else network.host

    ghost predicate NetworkValid()
      reads network, host
    {
      network != null ==> network.Valid() && network.Present()
    }

    /** Everything but the write-ahead rule. */
    ghost predicate Consistent()
      reads this`workloads, this`retained, this`doomed, machine`deletions, network, host
      reads machine`running, machine`disk, machine`strays, machine`clean, machine`loaded, machine`failedWrites
      reads machine`resurrected, machine`past, machine`trace, machine`finished, machine`reports, machine`turn
      reads machine`begun
    {
      && Standard(unicode)
      && (journaled || !machine.clean)
      && doomed <= machine.deletions
      && Filed(workloads, false) && Filed(retained, true)
      && machine.Good(Names(workloads))
      && NetworkValid()
    }

    /** Write-ahead: ownership is on disk before it can matter. */
    ghost predicate Logged()
      reads this`workloads, this`doomed, machine`clean, machine`disk
    {
      machine.clean ==>
        forall uid :: uid in workloads ==> uid in doomed || OnDisk(machine.disk, uid, workloads[uid].container)
    }

    ghost predicate Valid()
      reads this`workloads, this`retained, this`doomed, network, host
      reads machine`running, machine`disk, machine`strays, machine`clean, machine`loaded, machine`failedWrites
      reads machine`resurrected, machine`past, machine`trace, machine`finished, machine`reports, machine`deletions
      reads machine`turn, machine`begun
    {
      Consistent() && Logged()
    }

    /** A manager that has read nothing yet: all that runs is a stray to it. */
    constructor (machine: Machine, network: D.Handle?, unicode: Unicode, nodeIP: IPText, journaled: bool,
                 keepsLogs: bool, logTTL: int)
      requires Standard(unicode) && Loadable(machine.disk) && machine.History() && machine.trace == []
      requires network != null ==> network.Valid() && network.Present()
      modifies machine`strays, machine`clean, machine`loaded, machine`unreadable, machine`base, machine`rounds
      modifies machine`bootFailed
      ensures Valid() && workloads == map[] && retained == map[] && doomed == {}
      ensures this.machine == machine && this.network == network && this.journaled == journaled
      ensures this.unicode == unicode && this.nodeIP == nodeIP
      ensures machine.strays == machine.running && machine.clean == journaled && !machine.loaded
      ensures !machine.unreadable && machine.base == machine.failedWrites && machine.rounds == [] && !machine.bootFailed
    {
      hide Machine.Good, Machine.History, Loadable, Standard, D.Handle.Valid, D.Handle.Present;
      this.machine, this.network, this.unicode, this.nodeIP := machine, network, unicode, nodeIP;
      this.journaled, this.keepsLogs, this.logTTL := journaled, keepsLogs, logTTL;
      workloads, retained, doomed := map[], map[], {};
      new;
      machine.Begin(journaled);
      assert Names(workloads) == {};
    }

    function Retention(): int {
      if logTTL <= 0 then DEFAULT_RETENTION else logTTL
    }

    // ---- The journal -----------------------------------------------------------------------

    /** One record per entry of a map, in map iteration order. */
    method Records(m: Workloads, ghost flag: bool) returns (records: seq<Record>)
      requires Filed(m, flag)
      ensures |records| == |m|
      ensures forall uid :: uid in m ==> ToRecord(m[uid]) in records
      ensures forall r :: r in records ==> r.retained == flag && r.uid in m && r == ToRecord(m[r.uid])
    {
      records := [];
      var left := m.Keys;
      while left != {}
        invariant left <= m.Keys && |records| + |left| == |m|
        invariant forall uid :: uid in m && uid !in left ==> ToRecord(m[uid]) in records
        invariant forall r :: r in records ==> r.retained == flag && r.uid in m && r == ToRecord(m[r.uid])
      {
        var uid :| uid in left;
        left := left - {uid};
        records := records + [ToRecord(m[uid])];
      }
    }

    /** The records of both maps, in any order: the sort by UID decides nothing the loader looks at. */
    method JournalRecords() returns (records: seq<Record>)
      requires Filed(workloads, false) && Filed(retained, true)
      ensures Holds(records, workloads, retained)
    {
      hide ToRecord, Filed;
      var active := Records(workloads, false);
      var kept := Records(retained, true);
      records := active + kept;
      assert Holds(records, workloads, retained);
      var sorted: seq<Record> := *;
      if multiset(sorted) == multiset(records) {
        HoldsInAnyOrder(records, sorted, workloads, retained);
        records := sorted;
      }
    }

    /** persistJournalLocked */
    method PersistJournal() returns (ok: bool)
      requires Consistent()
      modifies machine`disk, machine`clean, machine`failedWrites, machine`past, machine`trace, this`doomed
      ensures Valid() && machine.failedWrites == if ok then old(machine.failedWrites) else old(machine.failedWrites) + 1
      ensures Setbacks() == if ok then old(Setbacks()) else old(Setbacks()) + 1
      ensures ok && journaled ==> machine.clean && Holds(machine.disk, workloads, retained)
      ensures !ok ==> !machine.clean
      ensures doomed == if ok && journaled then {} else old(doomed)
      ensures Holds(machine.disk, workloads, retained) || machine.disk == old(machine.disk)
    {
      hide Filed, Holds, Names, DiskNames, Loadable, OnDisk, NetworkValid, Machine.Good, Refusals;
      if !journaled { return true; }
      var records := JournalRecords();
      HoldsLoadable(records, workloads, retained);
      HoldsNames(records, workloads, retained);
      ok := machine.WriteJournal(records, Names(workloads));
      if ok { doomed := {}; }
    }

    /** The loader's loop: an incomplete record refuses the journal. */
    method FillMaps(disk: seq<Record>) returns (ok: bool)
      requires workloads == map[] && retained == map[]
      modifies this`workloads, this`retained
      ensures ok <==> AllComplete(disk)
      ensures ok ==> workloads == Loaded(disk, false) && retained == Loaded(disk, true)
    {
      for i := 0 to |disk|
        invariant forall j :: 0 <= j < i ==> Complete(disk[j])
        invariant workloads == Loaded(disk[..i], false) && retained == Loaded(disk[..i], true)
      {
        var record := disk[i];
        assert disk[..i + 1][..i] == disk[..i];
        if record.uid == "" || record.container == "" {
          assert !Complete(record);
          return false;
        }
        var workload := FromRecord(record);
        if workload.retained {
          retained := retained[record.uid := workload];
        } else {
          workloads := workloads[record.uid := workload];
        }
      }
      assert disk[..|disk|] == disk;
      ok := true;
    }

    /** The log files of the entries dropped are gone, and no other, unless one could not be removed. */
    ghost predicate LogsDropped(before: Workloads, after: Workloads, files: set<string>, missed: nat)
      reads machine`missedLogs, machine`logFiles
    {
      && machine.missedLogs >= missed && machine.logFiles <= files
      && (forall f :: f in files && f !in machine.logFiles ==>
            f != "" && keepsLogs && exists uid :: uid in before && uid !in after && before[uid].logFile == f)
      && (machine.missedLogs == missed && keepsLogs ==>
            forall uid :: uid in before && uid !in after && before[uid].logFile != "" ==>
              before[uid].logFile !in machine.logFiles)
    }

    /** pruneRetainedLogsLocked, the loop */
    method DropExpired(now: int) returns (changed: bool)
      modifies this`retained, machine`missedLogs, machine`logFiles
      ensures retained == Unexpired(old(retained), now)
      ensures changed <==> retained != old(retained)
      ensures LogsDropped(old(retained), retained, old(machine.logFiles), old(machine.missedLogs))
    {
      changed := false;
      var left := retained.Keys;
      while left != {}
        invariant left <= retained.Keys
        invariant retained == map uid | uid in old(retained) && (uid in left || !Expired(old(retained)[uid], now))
                                  :: old(retained)[uid]
        invariant changed <==> retained != old(retained)
        invariant LogsDropped(old(retained), retained, old(machine.logFiles), old(machine.missedLogs))
      {
        var uid :| uid in left;
        left := left - {uid};
        if Expired(retained[uid], now) {
          if retained[uid].logFile != "" && keepsLogs { machine.RemoveLog(retained[uid].logFile); }
          retained := retained - {uid};
          changed := true;
        }
      }
    }

    /** pruneRetainedLogsLocked */
    method PruneRetainedLogs(now: int) returns (changed: bool)
      requires Valid()
      modifies this`retained, machine`missedLogs, machine`logFiles
      ensures Valid() && retained == Unexpired(old(retained), now)
      ensures changed <==> retained != old(retained)
      ensures LogsDropped(old(retained), retained, old(machine.logFiles), old(machine.missedLogs))
    {
      hide LogsDropped, Unexpired, Filed, OnDisk, Names, NetworkValid, Machine.Good;
      UnexpiredFiled(retained, now);
      changed := DropExpired(now);
    }

    /** Both the loader and every pass begin like this: what expired is dropped, and the journal follows. */
    method PruneAndPersist() returns (ok: bool)
      requires Valid()
      modifies this`retained, this`doomed, machine`missedLogs, machine`logFiles
      modifies machine`disk, machine`clean, machine`failedWrites, machine`past, machine`trace
      ensures Valid() && machine.failedWrites == if ok then old(machine.failedWrites) else old(machine.failedWrites) + 1
      ensures Setbacks() == if ok then old(Setbacks()) else old(Setbacks()) + 1
      ensures retained == Unexpired(old(retained), old(machine.now))
      ensures !ok ==> !machine.clean
      ensures ok && journaled && old(machine.clean) ==> machine.clean
      ensures ok && journaled && retained != old(retained) ==>
                machine.clean && Holds(machine.disk, workloads, retained)
      ensures retained == old(retained) ==>
                ok && machine.disk == old(machine.disk) && machine.failedWrites == old(machine.failedWrites)
      ensures LogsDropped(old(retained), retained, old(machine.logFiles), old(machine.missedLogs))
      ensures Holds(machine.disk, workloads, retained) || machine.disk == old(machine.disk)
    {
      hide Consistent, Logged, Unexpired, Holds, Setbacks, LogsDropped;
      var pruned := PruneRetainedLogs(machine.now);
      if pruned { ok := PersistJournal(); } else { ok := true; }
    }

    lemma LoadedLogged(disk: seq<Record>)
      requires disk == machine.disk && Loadable(disk) && workloads == Loaded(disk, false) && doomed == {}
      ensures Names(workloads) == DiskNames(disk) && Logged()
    {
      LoadedNames(disk);
    }

    lemma GoodForNone()
      requires Valid() && workloads == map[]
      ensures machine.Good({})
    {
      assert Names(workloads) == {};
    }

    /** The maps as read; what runs without a record is a stray from here on. */
    method AdoptJournal(disk: seq<Record>) returns (filled: bool)
      requires Valid() && disk == machine.disk && workloads == map[] && retained == map[]
      requires journaled && machine.clean && machine.trace == [] && machine.Founded() && Loadable(disk) && doomed == {}
      modifies this`workloads, this`retained, machine`strays, machine`loaded
      ensures filled <==> AllComplete(disk)
      ensures filled ==> Valid() && workloads == Loaded(disk, false) && retained == Loaded(disk, true)
      ensures filled ==> machine.strays == Unclaimed(machine.running, disk)
      ensures if filled then machine.loaded
              else machine.strays == old(machine.strays) && machine.loaded == old(machine.loaded)
    {
      hide Loaded, Loadable, Names, DiskNames, OnDisk, Filed, AllComplete, Unclaimed, Standard, NetworkValid, Logged;
      hide Machine.Good, Machine.Founded, Machine.History;
      GoodForNone();
      filled := FillMaps(disk);
      if !filled { return; }
      LoadedFiled(disk, false);
      LoadedFiled(disk, true);
      LoadedLogged(disk);
      machine.Adopt(Names(workloads));
    }

    lemma WorldKept()
      requires Valid()
      ensures Loadable(machine.disk) && machine.History()
    {
    }

    /** Writing what was loaded changes nothing the journal claims. */
    lemma ClaimsKept(before: seq<Record>, after: seq<Record>)
      requires Loadable(before) && workloads == Loaded(before, false) && AllComplete(before)
      requires Holds(after, workloads, retained) || after == before
      ensures DiskNames(after) == DiskNames(before)
    {
      LoadedFiled(before, false);
      LoadedNames(before);
      if after != before { HoldsNames(after, workloads, retained); }
    }

    /** loadJournalLocked; a journal it refuses, or cannot rewrite, still claims what it claimed. */
    method LoadJournal() returns (r: LoadResult)
      requires Valid() && workloads == map[] && retained == map[] && doomed == {}
      requires machine.clean == journaled && !machine.loaded && machine.trace == [] && machine.Founded()
      modifies this`workloads, this`retained, this`doomed
      modifies machine`disk, machine`clean, machine`failedWrites, machine`past, machine`trace
      modifies machine`strays, machine`loaded, machine`unreadable, machine`missedLogs, machine`logFiles
      ensures r.Incomplete? ==> !AllComplete(old(machine.disk))
      ensures r.Unreadable? ==> machine.unreadable
      ensures machine.failedWrites ==
                if r.NotRewritten? then old(machine.failedWrites) + 1 else old(machine.failedWrites)
      ensures r.LoadOk? ==> Valid()
      ensures r.LoadOk? && journaled ==>
                && machine.clean && machine.loaded
                && AsJournaled(old(machine.disk), machine.running, machine.now, workloads, retained, machine.strays)
      ensures Loadable(machine.disk) && machine.History() && (machine.trace != [] ==> machine.loaded)
      ensures DiskNames(machine.disk) == DiskNames(old(machine.disk))
      ensures machine.loaded ==> machine.strays == Unclaimed(machine.running, old(machine.disk))
    {
      hide Loaded, Loadable, Unexpired, Unclaimed, AsJournaled, AllComplete, DiskNames, Holds, Setbacks, Valid;
      hide Consistent, Logged, Machine.History;
      WorldKept();
      r := LoadOk;
      if journaled {
        ghost var disk, running, now := machine.disk, machine.running, machine.now;
        var read, body := machine.ReadJournal();
        if read {
          var filled := AdoptJournal(body);
          if filled {
            var ok := PruneAndPersist();
            Journaled(disk, running, now, workloads, retained, machine.strays);
            WorldKept();
            ClaimsKept(disk, machine.disk);
            r := if ok then LoadOk else NotRewritten;
          } else {
            r := Incomplete;
          }
        } else {
          r := Unreadable;
        }
      }
    }

    // ---- Stopping and retaining ------------------------------------------------------------

    /** stopContainer: without an error nothing of that name runs. */
    method StopContainer(container: string) returns (ok: bool)
      requires Valid()
      modifies machine`running, machine`now, machine`past, machine`trace, machine`refusals, machine`present
      ensures Valid() && machine.running <= old(machine.running) && machine.now >= old(machine.now)
      ensures old(machine.refusals) <= machine.refusals && (ok <==> machine.refusals == old(machine.refusals))
      ensures ok && container != "" ==> container !in machine.running && container !in machine.present
      ensures container == "" ==> ok && machine.present == old(machine.present)
      ensures machine.present <= old(machine.present)
      ensures Setbacks() == old(Setbacks()) + machine.refusals - old(machine.refusals)
    {
      hide Filed, Names, OnDisk, NetworkValid, Machine.Good;
      if container == "" { return true; }
      var stopped := machine.Discard(container, false, Names(workloads));
      var removed := machine.Discard(container, true, Names(workloads));
      ok := !stopped.Failed? && !removed.Failed?;
    }

    /** archiveWorkloadLogs: file and expiry are stamped exactly when the logs were written. */
    method ArchiveLogs(w: Workload) returns (ok: bool, after: Workload)
      modifies machine`logs, machine`missedLogs, machine`logFiles
      ensures machine.logs == old(machine.logs) || machine.logs == old(machine.logs) + 1
      ensures machine.logs == old(machine.logs) ==> after == w
      ensures machine.logs != old(machine.logs) ==>
                ok && after == w.(logFile := LogFileName(w), logExpiresAt := Some(machine.now + Retention()))
      ensures old(machine.missedLogs) <= machine.missedLogs
      ensures old(machine.logFiles) <= machine.logFiles
      ensures Archived(w, after, machine.now, old(machine.missedLogs))
      ensures machine.missedLogs > old(machine.missedLogs) ==> after == w
      ensures w.container == "" || !keepsLogs ==>
                ok && after == w && machine.logFiles == old(machine.logFiles) &&
                machine.missedLogs == old(machine.missedLogs)
    {
      after := w;
      if w.container == "" || !keepsLogs { return true, after; }
      var logs := machine.Logs();
      if !logs.Succeeded? { return logs.Ignorable?, after; }
      var written := machine.WriteLog(LogFileName(w));
      if !written.Succeeded? { return false, after; }
      after := w.(logFile := LogFileName(w), logExpiresAt := Some(machine.now + Retention()));
      ok := true;
    }

    /** Logs that are kept, of a container there is, are in their file and stamped, unless that failed. */
    ghost predicate Archived(w: Workload, after: Workload, now: int, missed: nat)
      reads machine`missedLogs, machine`logFiles
    {
      w.container != "" && keepsLogs && machine.missedLogs == missed ==>
        && after.logFile == LogFileName(w) && after.logFile in machine.logFiles
        && after.logExpiresAt == Some(now + if logTTL <= 0 then DEFAULT_RETENTION else logTTL)
    }

    /** No two containers of Pods share a file: the parts hold no NUL. */
    lemma LogFilesDistinct(v: Workload, w: Workload)
      requires NUL !in v.namespace + v.uid + v.podContainer && NUL !in w.namespace + w.uid + w.podContainer
      ensures LogFileName(v) == LogFileName(w) <==>
              v.namespace == w.namespace && v.uid == w.uid && v.podContainer == w.podContainer
    {
      hide LogFileName;
      LogFileParts(v);
      LogFileParts(w);
      var a, b := [v.namespace, v.uid, v.podContainer], [w.namespace, w.uid, w.podContainer];
      assert a == b ==> a[0] == b[0] && a[1] == b[1] && a[2] == b[2];
      if a == b { SameFile(v, w); }
    }

    lemma SameFile(v: Workload, w: Workload)
      requires v.namespace == w.namespace && v.uid == w.uid && v.podContainer == w.podContainer
      ensures LogFileName(v) == LogFileName(w)
    {
    }

    lemma LogFileParts(w: Workload)
      requires NUL !in w.namespace + w.uid + w.podContainer
      ensures Split(LogFileName(w), NUL) == [w.namespace, w.uid, w.podContainer]
    {
      var parts := [w.namespace, w.uid, w.podContainer];
      forall c | c in w.namespace || c in w.uid || c in w.podContainer ensures c != NUL {
        assert c in w.namespace + w.uid + w.podContainer;
      }
      assert parts[1..] == [w.uid, w.podContainer] && parts[1..][1..] == [w.podContainer];
      assert Join(parts[1..], NUL) == w.uid + [NUL] + w.podContainer;
      assert LogFileName(w) == w.namespace + [NUL] + (w.uid + [NUL] + w.podContainer);
      SplitJoin(parts, NUL);
    }

    /** What the digest in the file name is taken of. */
    function LogFileName(w: Workload): string {
      w.namespace + [NUL] + w.uid + [NUL] + w.podContainer
    }

    method ReleaseAddress(ip: IPText) returns (ok: bool)
      requires Valid() && network != null
      modifies network, host
      ensures Valid()
      ensures old(network.host.refusals) <= network.host.refusals
      ensures ok <==> ParseV4(ip).Some? && network.host.refusals == old(network.host.refusals)
      ensures ok ==> ParseV4(ip).value !in network.aliases
      ensures Setbacks() == old(Setbacks()) + network.host.refusals - old(network.host.refusals)
    {
      hide Filed, Names, OnDisk, Machine.Good, Logged;
      ok := network.RemoveWorkloadIP(ip);
    }

    method AddAddress(ip: IPText) returns (ok: bool)
      requires Valid() && network != null
      modifies network`aliases, network.host`addresses, network.host`setbacks
      ensures Valid()
      ensures old(Setbacks()) <= Setbacks() && (!ok ==> !network.AddTests(ip) || Setbacks() > old(Setbacks()))
      ensures ok ==> network.AddTests(ip) && ParseV4(ip).Some? && ParseV4(ip).value in network.aliases
      ensures forall a :: a in network.aliases ==> a in old(network.aliases) || Some(a) == ParseV4(ip)
      ensures Refusals() == old(Refusals())
    {
      hide Filed, Names, OnDisk, Machine.Good, Logged;
      ok := network.AddWorkloadIP(ip);
    }

    /** Every mount is tried; without an error all are gone. */
    method ReleaseMounts(targets: seq<string>) returns (ok: bool)
      modifies machine`mounts, machine`refusals
      ensures machine.mounts <= old(machine.mounts)
      ensures old(machine.refusals) <= machine.refusals && (ok <==> machine.refusals == old(machine.refusals))
      ensures ok ==> forall t :: t in targets ==> t !in machine.mounts
    {
      ok := true;
      for i := 0 to |targets|
        invariant machine.mounts <= old(machine.mounts)
        invariant old(machine.refusals) <= machine.refusals && (ok <==> machine.refusals == old(machine.refusals))
        invariant ok ==> forall j :: 0 <= j < i ==> targets[j] !in machine.mounts
      {
        var released := machine.Unmount(targets[i]);
        if released.Failed? { ok := false; }
      }
    }

    /** Every materialized volume is tried; without an error all are gone. */
    method ReleaseVolumes(paths: seq<string>) returns (ok: bool)
      modifies machine`volumes, machine`refusals
      ensures machine.volumes <= old(machine.volumes)
      ensures old(machine.refusals) <= machine.refusals && (ok <==> machine.refusals == old(machine.refusals))
      ensures ok ==> forall p :: p in paths ==> p !in machine.volumes
    {
      ok := true;
      for i := 0 to |paths|
        invariant machine.volumes <= old(machine.volumes)
        invariant old(machine.refusals) <= machine.refusals && (ok <==> machine.refusals == old(machine.refusals))
        invariant ok ==> forall j :: 0 <= j < i ==> paths[j] !in machine.volumes
      {
        var released := machine.RemoveVolume(paths[i]);
        if released.Failed? { ok := false; }
      }
    }

    /** The container and the alias; both are tried. */
    method StopAndRelease(w: Workload) returns (ok: bool)
      requires Valid() && w.container != ""
      modifies machine`running, machine`now, machine`past, machine`trace, machine`refusals, machine`present, network
      modifies host
      ensures Valid() && machine.running <= old(machine.running)
      ensures old(Refusals()) <= Refusals() && (ok <==> Releasable(w) && Refusals() == old(Refusals()))
      ensures Setbacks() == old(Setbacks()) + Refusals() - old(Refusals())
      ensures ok ==> w.container !in machine.running && w.container !in machine.present && Released(w)
      ensures machine.present <= old(machine.present)
      ensures machine.now >= old(machine.now)
    {
      hide Consistent, Logged, ParseV4;
      ok := StopContainer(w.container);
      if w.ip != Unset && network != null && !w.hostNetwork {
        var released := ReleaseAddress(w.ip);
        if !released { ok := false; }
      }
    }

    /** Failed commands that should have let go of something, of Macker, of the host and of its network. */
    ghost function Refusals(): nat
      reads machine`refusals, host
    {
      machine.refusals + if network == null then 0 else network.host.refusals
    }

    /**
     * Whatever went wrong that is not maclet's doing: failed commands and journal writes, addresses found on another
     * interface, and answers that a container just started does not run.
     */
    ghost function Setbacks(): nat
      reads machine`refusals, machine`setbacks, machine`failedWrites, host
    {
      machine.setbacks + machine.failedWrites + Refusals() + if network == null then 0 else network.host.setbacks
    }

    /** removeWorkloadIP refuses a text that is no IPv4 address. */
    predicate Releasable(w: Workload) {
      w.ip == Unset || network == null || w.hostNetwork || ParseV4(w.ip).Some?
    }

    ghost predicate AllReleasable(m: Workloads) {
      forall uid :: uid in m ==> Releasable(m[uid])
    }

    /** No alias of the workload's address is listed. */
    ghost predicate Released(w: Workload)
      reads network, host
    {
      w.ip != Unset && network != null && !w.hostNetwork ==>
        ParseV4(w.ip).Some? && ParseV4(w.ip).value !in network.aliases
    }

    /** Mounts and volumes; all are tried. */
    method ReleaseStorage(w: Workload) returns (ok: bool)
      modifies machine`mounts, machine`volumes, machine`refusals
      ensures old(Refusals()) <= Refusals() && (ok <==> Refusals() == old(Refusals()))
      ensures Setbacks() == old(Setbacks()) + Refusals() - old(Refusals())
      ensures ok ==> forall t :: t in w.nfsMounts ==> t !in machine.mounts
      ensures ok ==> forall p :: p in w.volumePaths ==> p !in machine.volumes
      ensures machine.mounts <= old(machine.mounts) && machine.volumes <= old(machine.volumes)
    {
      var unmounted := ReleaseMounts(w.nfsMounts);
      var deleted := ReleaseVolumes(w.volumePaths);
      ok := unmounted && deleted;
    }

    /** removeWorkload: it succeeds exactly if no removal command fails and the address, if any, is an IPv4 one. */
    method RemoveWorkload(w: Workload) returns (ok: bool, after: Workload)
      requires Valid() && w.container != ""
      modifies machine`running, machine`now, machine`past, machine`trace, machine`removed, network, host
      modifies machine`mounts, machine`volumes, machine`logs, machine`missedLogs, machine`logFiles, machine`refusals
      modifies machine`present
      ensures Valid() && machine.running <= old(machine.running)
      ensures old(Refusals()) <= Refusals() && (ok <==> Releasable(w) && Refusals() == old(Refusals()))
      ensures Setbacks() == old(Setbacks()) + Refusals() - old(Refusals())
      ensures Emptied(w, after) && machine.mounts <= old(machine.mounts) && machine.volumes <= old(machine.volumes)
      ensures ok ==> Vanished(w)
      ensures machine.present <= old(machine.present) && old(machine.missedLogs) <= machine.missedLogs
      ensures Archived(w, after, old(machine.now), old(machine.missedLogs))
      ensures machine.removed == if ok then old(machine.removed) + {w.container} else old(machine.removed)
      ensures machine.now >= old(machine.now)
    {
      hide Valid, LogFileName, Releasable, Refusals, Setbacks, Archived, Vacated;
      var _, archived := ArchiveLogs(w);
      after := archived.(nfsMounts := [], volumePaths := []);
      StillArchived(w, archived, after, old(machine.now), old(machine.missedLogs));
      ok := StopAndEmpty(w);
      if ok { machine.MarkRemoved(w.container); }
    }

    /** The container, the alias, the mounts and the volumes; all are tried. */
    method StopAndEmpty(w: Workload) returns (ok: bool)
      requires Valid() && w.container != ""
      modifies machine`running, machine`now, machine`past, machine`trace, network, host
      modifies machine`mounts, machine`volumes, machine`refusals, machine`present
      ensures Valid() && machine.running <= old(machine.running) && machine.present <= old(machine.present)
      ensures old(Refusals()) <= Refusals() && (ok <==> Releasable(w) && Refusals() == old(Refusals()))
      ensures Setbacks() == old(Setbacks()) + Refusals() - old(Refusals())
      ensures machine.mounts <= old(machine.mounts) && machine.volumes <= old(machine.volumes)
      ensures ok ==> Vanished(w)
      ensures machine.now >= old(machine.now)
    {
      hide Valid, Released, Releasable, Refusals, Setbacks, Vanished;
      ok := StopAndRelease(w);
      var emptied := ReleaseStorage(w);
      ok := ok && emptied;
      if ok { NothingLeft(w); }
    }

    lemma NothingLeft(w: Workload)
      requires w.container !in machine.running && w.container !in machine.present && Released(w)
      requires (forall t :: t in w.nfsMounts ==> t !in machine.mounts)
      requires (forall p :: p in w.volumePaths ==> p !in machine.volumes)
      ensures Vanished(w)
    {
    }

    lemma StillArchived(w: Workload, archived: Workload, after: Workload, now: int, missed: nat)
      requires Archived(w, archived, now, missed)
      requires after.logFile == archived.logFile && after.logExpiresAt == archived.logExpiresAt
      ensures Archived(w, after, now, missed)
    {
    }

    /** Macker holds nothing of the workload, and its address, mounts and volumes are given back. */
    ghost predicate Vanished(w: Workload)
      reads network, host, machine`running, machine`present, machine`mounts, machine`volumes
    {
      w.container !in machine.running && Vacated(w)
    }

    ghost predicate Vacated(w: Workload)
      reads network, host, machine`present, machine`mounts, machine`volumes
    {
      && w.container !in machine.present && Released(w)
      && (forall t :: t in w.nfsMounts ==> t !in machine.mounts)
      && (forall p :: p in w.volumePaths ==> p !in machine.volumes)
    }

    /** retainWorkloadLocked: callers retain only what no longer runs. */
    method RetainWorkload(w: Workload)
      requires Valid() && w.uid != "" && w.container != "" && w.container !in machine.running
      requires w.uid in workloads ==> workloads[w.uid].container == w.container
      modifies this`workloads, this`retained
      ensures Valid() && workloads == old(workloads) - {w.uid}
      ensures retained == old(retained)[w.uid := AsRetained(w, machine.now + Retention())]
    {
      hide Names, OnDisk, Filed, NetworkValid, Machine.Good;
      var entry := w.(retained := true, ip := Unset, volumePaths := [], nfsMounts := []);
      if entry.logExpiresAt.None? {
        entry := entry.(logExpiresAt := Some(machine.now + Retention()));
      }
      FiledPut(retained, true, entry);
      FiledDrop(workloads, false, w.uid);
      retained := retained[w.uid := entry];
      workloads := workloads - {w.uid};
      StillNamed(old(workloads), w);
    }

    lemma StillNamed(before: Workloads, w: Workload)
      requires machine.Good(Names(before)) && w.container !in machine.running
      requires w.uid in before ==> before[w.uid].container == w.container
      ensures machine.Good(Names(before - {w.uid}))
    {
      NamesDrop(before, w.uid);
      hide Names;
      assert machine.running <= Names(before) + machine.strays;
      machine.StillGood(Names(before), Names(before - {w.uid}));
    }

    /** The fields of a managed workload change in place; its UID and container never do. */
    method Assign(w: Workload)
      requires Valid() && w.uid in workloads && workloads[w.uid].container == w.container && !w.retained
      modifies this`workloads
      ensures Valid() && workloads == old(workloads)[w.uid := w]
    {
      hide Names, OnDisk, Filed, NetworkValid, Machine.Good;
      FiledAt(workloads, false, w.uid);
      FiledPut(workloads, false, w);
      NamesSame(workloads, w.uid, w);
      workloads := workloads[w.uid := w];
    }

    /** A new entry: until the journal is written its ownership is only in memory. */
    method Enter(w: Workload)
      requires Valid() && w.uid !in workloads && Entry(w, w.uid, false)
      modifies this`workloads
      ensures Consistent() && workloads == old(workloads)[w.uid := w]
    {
      hide Names, OnDisk, Filed, NetworkValid, Machine.Good;
      FiledPut(workloads, false, w);
      NowNamed(workloads, w);
      workloads := workloads[w.uid := w];
    }

    /** What a failed removal of a deleted Pod leaves behind. */
    method EnterDoomed(w: Workload)
      requires Valid() && w.uid !in workloads && Entry(w, w.uid, false) && w.uid in machine.deletions
      modifies this`workloads, this`doomed
      ensures Valid() && workloads == old(workloads)[w.uid := w]
      ensures doomed == old(doomed) + {w.uid}
    {
      hide OnDisk, Names, Filed, NetworkValid, Machine.Good;
      Enter(w);
      doomed := doomed + {w.uid};
    }

    lemma NowNamed(before: Workloads, w: Workload)
      requires machine.Good(Names(before)) && w.uid !in before
      ensures machine.Good(Names(before[w.uid := w]))
    {
      NamesAdd(before, w.uid, w);
      hide Names;
      assert machine.running <= Names(before) + machine.strays;
      machine.StillGood(Names(before), Names(before[w.uid := w]));
    }

    method SetRetry(uid: string)
      requires Valid() && uid in workloads
      modifies this`workloads
      ensures Valid() && uid in workloads
      ensures workloads == old(workloads)[uid := workloads[uid]]
      ensures workloads[uid].retryAfter == Some(machine.now + RETRY_DELAY)
      ensures workloads[uid].container == old(workloads)[uid].container
      ensures SameButRetry(old(workloads)[uid], workloads[uid])
    {
      hide Consistent, Logged;
      Known(uid);
      Assign(workloads[uid].(retryAfter := Some(machine.now + RETRY_DELAY)));
    }

    // ---- Asking and telling ----------------------------------------------------------------

    method ContainerStatus(name: string) returns (r: Listing)
      requires Valid()
      modifies machine`running, machine`now, machine`past, machine`trace
      modifies machine`observed, machine`unanswered, machine`denials, machine`first, machine`listed
      modifies machine`exited, machine`setbacks
      ensures Valid() && machine.running <= old(machine.running) && machine.now >= old(machine.now)
      ensures Setbacks() == old(Setbacks()) +
                if r.ListingFailed? || (Launched(machine.launches, name) && r != Listed(true)) then 1 else 0
      ensures machine.listed == if r == Listed(true) then old(machine.listed) + {name} else old(machine.listed)
      ensures machine.first == if old(machine.first).None? then Some(r) else old(machine.first)
      ensures machine.unanswered == old(machine.unanswered) + if r.ListingFailed? then 1 else 0
      ensures machine.denials == old(machine.denials) + if r == Listed(false) then 1 else 0
      ensures r.NotListed? || r == Listed(false) ==> name !in machine.running
      ensures machine.observed == if r.Listed? then old(machine.observed) + {Saw(name, r.running, machine.turn)}
                                  else old(machine.observed)
      ensures machine.exited == if r == Listed(false) then old(machine.exited) + {name} else old(machine.exited)
    {
      hide Filed, Names, OnDisk, NetworkValid, Machine.Good, Refusals, Launched;
      r := machine.Ps(name, Names(workloads));
    }

    method ContainerInspection(name: string) returns (r: Inspection)
      requires Valid()
      modifies machine`running, machine`now, machine`past, machine`trace, machine`observed, machine`unanswered
      modifies machine`denials, machine`seen, machine`setbacks
      ensures Valid() && machine.running <= old(machine.running) && machine.now >= old(machine.now)
      ensures Setbacks() == old(Setbacks()) +
                if r.Undecodable? || (r.Inspected? && Launched(machine.launches, name) && !r.running) then 1 else 0
      ensures machine.unanswered == old(machine.unanswered) + if r.Undecodable? then 1 else 0
      ensures machine.denials == old(machine.denials) + if r.Inspected? && !r.running then 1 else 0
      ensures machine.seen == r
      ensures machine.observed == if r.Inspected? then old(machine.observed) + {Saw(name, r.running, machine.turn)}
                                  else old(machine.observed)
    {
      hide Filed, Names, OnDisk, NetworkValid, Machine.Good, Refusals, Launched;
      r := machine.Inspect(name, Names(workloads));
    }

    /** updateStatus with the phase Pending needs no observation. */
    method ReportPending(pod: PodStatuses.Pod, ip: IPText, reason: PodStatuses.Cause, restartCount: Int32)
      returns (r: PutResult)
      requires Valid() && machine.turn.live && !machine.turn.deleting && machine.turn.pod == Some(pod)
      modifies machine`reports, machine`setbacks, machine`running, machine`now, machine`past, machine`trace
      ensures Valid() && machine.running <= old(machine.running) && machine.now >= old(machine.now)
      ensures Setbacks() == if r.Stored? then old(Setbacks()) else old(Setbacks()) + 1
      ensures old(machine.reports) < machine.reports && |machine.reports| == |old(machine.reports)| + 1
      ensures Said(Last(machine.reports)) && Last(machine.reports).result == r
      ensures var r := Last(machine.reports);
              && r.phase == PodStatuses.Pending && r.turn == machine.turn && r.update.ip == ip
              && r.update.restartCount == restartCount && r.update.reason == reason
    {
      hide Consistent, Logged, Said, Setbacks;
      var message: string := *;
      r := ReportStatus("", pod, PodStatuses.Pending, ip, reason, message, false, restartCount, None);
      SameReport(Last(machine.reports));
    }

    /** The PUTs are not the rest of the report. */
    lemma SameReport(r: StatusReport)
      ensures Bare(r).phase == r.phase && Bare(r).turn == r.turn && Bare(r).update == r.update
      ensures Bare(r).result == r.result && Bare(r).container == r.container
    {
    }

    /** updateStatus, for the Pod whose turn it is: what is recorded is what every PUT said. */
    method ReportStatus(container: string, pod: PodStatuses.Pod, phase: PodStatuses.Phase, ip: IPText,
                        reason: PodStatuses.Cause, message: string, running: bool, restartCount: Int32,
                        inspection: Option<PodStatuses.Inspection>) returns (r: PutResult)
      requires Valid() && running == (phase == PodStatuses.Running) && machine.turn.pod == Some(pod)
      requires Disciplined(ReportOfUpdate(container, phase,
                                          Update(nodeIP, ip, reason, message, restartCount, inspection),
                                          machine.turn, machine.now, machine.observed, machine.removed, Stored))
      modifies machine`reports, machine`setbacks, machine`running, machine`now, machine`past, machine`trace
      ensures Valid() && machine.running <= old(machine.running) && machine.now >= old(machine.now)
      ensures Setbacks() == if r.Stored? then old(Setbacks()) else old(Setbacks()) + 1
      ensures old(machine.reports) < machine.reports && |machine.reports| == |old(machine.reports)| + 1
      ensures Said(Last(machine.reports))
      ensures Bare(Last(machine.reports)) ==
                ReportOfUpdate(container, phase, Update(nodeIP, ip, reason, message, restartCount, inspection),
                               machine.turn, old(machine.now), machine.observed, machine.removed, r)
    {
      hide Filed, Names, OnDisk, NetworkValid, Machine.Good, Disciplined, Said, Refusals;
      var update := Update(nodeIP, ip, reason, message, restartCount, inspection);
      r := machine.Report(container, pod, phase, update, running, Names(workloads));
    }

    /** A Pod that came back from its deletion may be started although the journal misses it. */
    method Resurrect(uid: string)
      requires Valid() && machine.turn.live && machine.turn.key == uid
      modifies machine`clean, machine`resurrected, machine`past, machine`trace
      ensures Valid() && machine.clean == (old(machine.clean) && uid !in doomed)
      ensures if uid in doomed then uid in machine.deletions && machine.resurrected == old(machine.resurrected) + {uid}
              else machine.resurrected == old(machine.resurrected)
    {
      hide Filed, Names, OnDisk, NetworkValid, Machine.Good;
      machine.Resurrect(uid, uid in doomed, Names(workloads));
    }

    /** The run command: ownership must be on disk unless the journal has failed. */
    method RunOnce(uid: string, image: string) returns (r: RunResult)
      requires Valid() && uid in workloads && (machine.clean ==> uid !in doomed)
      modifies machine`running, machine`now, machine`past, machine`trace, machine`starts, machine`launches
      modifies machine`present
      modifies machine`setbacks
      ensures machine.starts == if r.Started? then old(machine.starts) + 1 else old(machine.starts)
      ensures machine.launches == old(machine.launches) + [Ran(workloads[uid].container, r)]
      ensures Setbacks() == old(Setbacks()) +
                if r.RunFailed? || (r.ImageMissing? && Pulled(image, true) in old(machine.launches)) then 1 else 0
      ensures Valid() && machine.running <= old(machine.running) + {workloads[uid].container}
      ensures machine.now >= old(machine.now)
    {
      hide Filed, Names, DiskNames, NetworkValid, Machine.Good, Refusals;
      NameOf(workloads, uid);
      if machine.clean { OnDiskName(machine.disk, uid, workloads[uid].container); }
      hide OnDisk;
      r := machine.Run(workloads[uid].container, image, Names(workloads));
    }

    /** startMackerWorkload: a missing image is pulled once, and before the second run. */
    method Start(uid: string, image: string) returns (ok: bool)
      requires Valid() && uid in workloads && (machine.clean ==> uid !in doomed) && machine.launches == []
      modifies machine`running, machine`now, machine`past, machine`trace, machine`starts, machine`launches
      modifies machine`present
      modifies machine`setbacks
      ensures machine.starts == if ok then old(machine.starts) + 1 else old(machine.starts)
      ensures Valid() && machine.running <= old(machine.running) + {workloads[uid].container}
      ensures machine.now >= old(machine.now)
      ensures LaunchedAs(machine.launches, workloads[uid].container, image, ok)
      ensures ok ==> Launched(machine.launches, workloads[uid].container)
      ensures old(Setbacks()) <= Setbacks() && (!ok ==> image == "" || Setbacks() > old(Setbacks()))
    {
      hide Consistent, Logged, Setbacks;
      var first := RunOnce(uid, image);
      if first.Started? { return true; }
      if !first.ImageMissing? || image == "" { return false; }
      var pulled := Pull(image);
      if !pulled { return false; }
      var again := RunOnce(uid, image);
      ok := again.Started?;
    }

    method Pull(image: string) returns (ok: bool)
      requires Valid()
      modifies machine`launches, machine`present, machine`setbacks
      ensures Valid() && machine.launches == old(machine.launches) + [Pulled(image, ok)]
      ensures Setbacks() == if ok then old(Setbacks()) else old(Setbacks()) + 1
    {
      hide Valid, Refusals;
      ok := machine.Pull(image);
    }

    /** waitForMackerRunning: the startup window is waited out while inspect says running; without it ps decides. */
    method WaitForMackerRunning(name: string) returns (ok: bool)
      requires Valid()
      modifies machine`running, machine`now, machine`past, machine`trace
      modifies machine`observed, machine`unanswered, machine`denials, machine`seen, machine`first, machine`listed
      modifies machine`exited, machine`setbacks
      ensures Valid() && machine.running <= old(machine.running) && machine.now >= old(machine.now)
      ensures old(machine.first).Some? ==> machine.first == old(machine.first)
      ensures old(Setbacks()) <= Setbacks()
      ensures !ok && Launched(machine.launches, name) ==> Setbacks() > old(Setbacks())
      ensures old(machine.observed) <= machine.observed && old(machine.exited) <= machine.exited
      ensures old(machine.unanswered) <= machine.unanswered && old(machine.denials) <= machine.denials
      ensures ok ==>
                && Saw(name, true, machine.turn) in machine.observed
                && machine.unanswered == old(machine.unanswered) && machine.denials == old(machine.denials)
                && if machine.seen.Unavailable? then name in machine.listed
                   else machine.now > old(machine.now) + STARTUP_WINDOW
      ensures !ok ==>
                || machine.unanswered > old(machine.unanswered) || machine.denials > old(machine.denials)
                || (machine.seen.Unavailable? && machine.now > old(machine.now) + STARTUP_WINDOW)
    {
      hide Valid, Setbacks, Launched;
      var deadline := machine.now + STARTUP_WINDOW;
      while true
        invariant Valid() && machine.running <= old(machine.running) && old(Setbacks()) <= Setbacks()
        invariant machine.now >= old(machine.now)
        invariant old(machine.first).Some? ==> machine.first == old(machine.first)
        invariant old(machine.observed) <= machine.observed && old(machine.exited) <= machine.exited
        invariant machine.unanswered == old(machine.unanswered) && machine.denials == old(machine.denials)
        decreases deadline - machine.now
      {
        var inspection := ContainerInspection(name);
        if inspection.Undecodable? { return false; }
        if inspection.Inspected? {
          if !inspection.running { return false; }
          if machine.now > deadline { return true; }
          machine.Sleep(POLL_INTERVAL);
          continue;
        }
        var listing := ContainerStatus(name);
        if listing.ListingFailed? { return false; }
        if listing.Listed? { return listing.running; }
        if machine.now > deadline { return false; }
        machine.Sleep(POLL_INTERVAL);
      }
      ok := false;
    }

    method AllocateAddress(used: set<IPText>) returns (r: D.Result<Word>)
      requires Valid() && network != null
      ensures r.Ok? ==> network.Allocates(used, r.value)
      ensures r.Err? ==> !Free(used)
    {
      hide Filed, Names, OnDisk, Machine.Good, Logged, D.Handle.Allocates;
      r := network.FirstAvailableWorkloadIP(used);
    }

    /** The allocator has an address left. */
    ghost predicate Free(used: set<IPText>)
      requires network != null
    {
      && network.podCIDR.V4? && network.podCIDR.prefix >= 16
      && exists a: Word :: network.Acceptable(a) && Dotted(a) !in used
    }

    method CheckAddress(ip: IPText) returns (ok: bool)
      requires Valid() && network != null
      ensures ok <==> ParseV4(ip).Some? && network.Acceptable(ParseV4(ip).value)
      ensures ok <==> network.AddTests(ip)
    {
      hide Filed, Names, OnDisk, Machine.Good, Logged, D.Handle.ValidatesWorkloadAddress, D.Handle.AddTests;
      hide D.Handle.Acceptable;
      network.TestsAgree(ip);
      ok := network.ValidatesWorkloadAddress(ip);
    }

    // ---- Draining --------------------------------------------------------------------------

    /** Where the journal and the round's record stand. */
    ghost function JournalOf(): (nat, seq<Record>, seq<TurnEnd>, nat)
      reads machine`failedWrites, machine`disk, machine`ended, machine`opening
    {
      (machine.failedWrites, machine.disk, machine.ended, machine.opening)
    }

    /** One round of both draining loops. */
    method RemoveAndRetain(uid: string) returns (ok: bool)
      requires Valid() && uid in workloads
      modifies this`workloads, this`retained
      modifies machine`running, machine`now, machine`past, machine`trace, machine`removed, network, host
      modifies machine`mounts, machine`volumes, machine`logs, machine`missedLogs, machine`logFiles, machine`refusals
      modifies machine`present
      ensures Valid() && machine.running <= old(machine.running)
      ensures old(Refusals()) <= Refusals() && Setbacks() == old(Setbacks()) + Refusals() - old(Refusals())
      ensures ok <==> Releasable(old(workloads)[uid]) && Refusals() == old(Refusals())
      ensures retained.Keys == if ok then old(retained).Keys + {uid} else old(retained).Keys
      ensures ok ==> workloads == old(workloads) - {uid}
      ensures !ok ==> uid in workloads && Emptied(old(workloads)[uid], workloads[uid])
                      && workloads[uid].container == old(workloads)[uid].container
                      && workloads[uid].ip == old(workloads)[uid].ip
                      && workloads[uid].hostNetwork == old(workloads)[uid].hostNetwork
                      && workloads == old(workloads)[uid := workloads[uid]]
      ensures machine.removed == if ok then old(machine.removed) + {old(workloads)[uid].container}
                                 else old(machine.removed)
      ensures machine.now >= old(machine.now)
      ensures JournalOf() == old(JournalOf())
    {
      hide Consistent, Logged, AsRetained, Refusals, Setbacks;
      Known(uid);
      var after;
      ok, after := RemoveWorkload(workloads[uid]);
      Assign(after);
      if ok { RetainWorkload(after); }
    }

    lemma NothingManaged()
      requires Valid() && workloads == map[]
      ensures machine.running <= machine.strays
    {
      assert Names(workloads) == {};
    }

    lemma Known(uid: string)
      requires Valid() && uid in workloads
      ensures Entry(workloads[uid], uid, false)
    {
    }

    /** Both draining loops: every workload but the seen ones is removed, and stays only if that failed. */
    method RemoveUnseen(seen: set<string>) returns (changed: bool, failed: set<string>)
      requires Valid()
      modifies this`workloads, this`retained
      modifies machine`running, machine`now, machine`past, machine`trace, machine`removed, network, host
      modifies machine`mounts, machine`volumes, machine`logs, machine`missedLogs, machine`logFiles, machine`refusals
      modifies machine`present
      ensures Valid() && machine.running <= old(machine.running) && old(machine.removed) <= machine.removed
      ensures old(Refusals()) <= Refusals() && Setbacks() == old(Setbacks()) + Refusals() - old(Refusals())
      ensures forall uid :: uid in failed ==>
                uid in old(workloads) && (!Releasable(old(workloads)[uid]) || Refusals() > old(Refusals()))
      ensures Swept(old(workloads), old(retained).Keys, workloads, retained.Keys, machine.removed)
      ensures forall uid :: uid in workloads ==> uid in seen || uid in failed
      ensures forall uid :: uid in seen && uid in old(workloads) ==> uid in workloads
      ensures forall uid :: uid in failed ==> uid in workloads && uid !in seen
      ensures changed <==> workloads.Keys != old(workloads).Keys
      ensures JournalOf() == old(JournalOf())
      ensures machine.now >= old(machine.now)
    {
      hide Consistent, Logged, Emptied, Swept, Refusals, Setbacks, JournalOf;
      changed, failed := false, {};
      var left := workloads.Keys;
      SweptNothing(workloads, retained.Keys, machine.removed);
      while left != {}
        invariant Valid() && machine.running <= old(machine.running) && old(machine.removed) <= machine.removed
        invariant machine.now >= old(machine.now)
        invariant Swept(old(workloads), old(retained).Keys, workloads, retained.Keys, machine.removed)
        invariant old(Refusals()) <= Refusals() && Setbacks() == old(Setbacks()) + Refusals() - old(Refusals())
        invariant forall uid :: uid in left ==> uid in workloads && uid !in failed
        invariant forall uid :: uid in left ==> workloads[uid] == old(workloads)[uid]
        invariant forall uid :: uid in failed ==>
                    uid in old(workloads) && (!Releasable(old(workloads)[uid]) || Refusals() > old(Refusals()))
        invariant forall uid :: uid in workloads ==> uid in left || uid in seen || uid in failed
        invariant forall uid :: uid in seen && uid in old(workloads) ==> uid in workloads
        invariant forall uid :: uid in failed ==> uid in workloads && uid !in seen
        invariant JournalOf() == old(JournalOf())
        invariant changed <==> workloads.Keys != old(workloads).Keys
        invariant workloads.Keys <= old(workloads).Keys
      {
        var uid :| uid in left;
        left := left - {uid};
        if uid in seen { continue; }
        ghost var before, kept, removed := workloads, retained.Keys, machine.removed;
        var ok := RemoveAndRetain(uid);
        SweptMore(old(workloads), old(retained).Keys, before, kept, workloads, retained.Keys,
                  removed, machine.removed, uid);
        if ok { changed := true; } else { failed := failed + {uid}; }
      }
    }

    /**
     * cleanup: without an error nothing is managed any more, and the journal says so. It errs only after a failed
     * command or write, or over an address that is none.
     */
    method Cleanup() returns (ok: bool)
      requires Valid()
      modifies this`workloads, this`retained, this`doomed, network, host
      modifies machine`running, machine`now, machine`past, machine`trace, machine`disk, machine`clean
      modifies machine`failedWrites, machine`ended, machine`exited, machine`removed, machine`retired
      modifies machine`mounts, machine`volumes, machine`logs, machine`missedLogs, machine`logFiles, machine`refusals
      modifies machine`present, machine`opening
      ensures Valid() && machine.running <= old(machine.running)
      ensures workloads != map[] ==> !AllReleasable(old(workloads)) || Setbacks() > old(Setbacks())
      ensures old(Setbacks()) <= Setbacks()
      ensures ok ==> workloads == map[] && machine.running <= machine.strays
      ensures old(Refusals()) <= Refusals() && old(machine.failedWrites) <= machine.failedWrites
      ensures !ok ==>
                || !AllReleasable(old(workloads)) || Refusals() > old(Refusals())
                || machine.failedWrites > old(machine.failedWrites)
      ensures ok && journaled ==> machine.clean && Holds(machine.disk, map[], retained)
      ensures ok ==> machine.failedWrites == old(machine.failedWrites)
      ensures machine.ended == [] && machine.opening == old(machine.failedWrites)
      ensures if workloads.Keys != old(workloads).Keys || workloads == map[] then
                machine.failedWrites > old(machine.failedWrites) ||
                (journaled ==> machine.clean && Holds(machine.disk, workloads, retained))
              else machine.failedWrites == old(machine.failedWrites) && machine.disk == old(machine.disk)
      ensures Swept(old(workloads), old(retained).Keys, workloads, retained.Keys, machine.removed)
      ensures machine.now >= old(machine.now)
    {
      hide Consistent, Logged, Holds, Swept, Releasable, Refusals, Setbacks, NetworkValid;
      machine.BeginRound();
      var changed, failed := RemoveUnseen({});
      ok := failed == {};
      if changed || |workloads| == 0 {
        var persisted := PersistJournal();
        ok := ok && persisted;
      }
      if workloads == map[] { NothingManaged(); }
    }
  }

  /** What draining did: entries moved to the retained map, each only after its removal succeeded. */
  ghost predicate Swept(before: Workloads, kept: set<string>, after: Workloads, keptAfter: set<string>,
                        removed: set<string>) {
    && after.Keys <= before.Keys
    && keptAfter == kept + (before.Keys - after.Keys)
    && (forall uid :: uid in after ==>
          after[uid].container == before[uid].container && after[uid].ip == before[uid].ip)
    && (forall uid :: uid in before && uid !in after ==> before[uid].container in removed)
  }

  lemma SweptNothing(m: Workloads, kept: set<string>, removed: set<string>)
    ensures Swept(m, kept, m, kept, removed)
  {
  }

  lemma SweptMore(start: Workloads, kept0: set<string>, before: Workloads, kept: set<string>, after: Workloads,
                  keptAfter: set<string>, removed0: set<string>, removed: set<string>, uid: string)
    requires Swept(start, kept0, before, kept, removed0) && uid in before && removed0 <= removed
    requires || (after == before - {uid} && keptAfter == kept + {uid} && before[uid].container in removed)
             || (uid in after && after == before[uid := after[uid]] && keptAfter == kept
                 && after[uid].container == before[uid].container && after[uid].ip == before[uid].ip)
    ensures Swept(start, kept0, after, keptAfter, removed)
  {
  }

  ghost predicate SameButRetry(before: Workload, after: Workload) {
    after == before.(retryAfter := after.retryAfter)
  }

  /** removeWorkload lets go of the mounts and volumes in any case, and may stamp archived logs. */
  ghost predicate Emptied(w: Workload, after: Workload) {
    && after == w.(nfsMounts := [], volumePaths := [], logFile := after.logFile, logExpiresAt := after.logExpiresAt)
    && (w.logExpiresAt.Some? ==> after.logExpiresAt.Some?)
  }

  /** A retained entry: no address, mounts or volumes, and an expiry stamp in any case. */
  ghost function AsRetained(w: Workload, expiry: int): Workload {
    w.(retained := true, ip := Unset, volumePaths := [], nfsMounts := [],
       logExpiresAt := if w.logExpiresAt.None? then Some(expiry) else w.logExpiresAt)
  }
}
