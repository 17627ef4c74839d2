/** Whole runs: processes that load the journal, make passes and drains, and die after any of their steps. */
module Recovery {
  import opened Text
  import opened AddressPlan
  import opened Journals
  import opened Machines
  import opened Managers
  import opened Books
  import opened Reconcilers
  import D = DarwinNetwork

  ghost predicate NoRemovalFailed(errors: seq<Failure>) {
    forall e :: e in errors ==> !e.RemoveDeleted? && !e.RemoveStale?
  }

  lemma StraysKept(a: Book, b: Book)
    requires Kept(a, b)
    ensures b.standing.strays == a.standing.strays
  {
  }

  /** Something runs for a listed Pod that is live. */
  ghost predicate RunsForLivePod(m: Manager, pods: seq<Pod>, container: string)
    reads m`workloads
  {
    exists i :: 0 <= i < |pods| && Live(pods[i]) && Key(pods[i]) in m.workloads &&
                m.workloads[Key(pods[i])].container == container
  }

  /** After a pass in which no removal failed, or none had a cause to, what runs and is no stray runs for a live Pod. */
  lemma NoOrphans(m: Manager, pods: seq<Pod>, errors: seq<Failure>, excused: bool)
    requires m.Valid() && Accounted(m.workloads, pods, errors, excused)
    requires excused ==> NoRemovalFailed(errors)
    ensures forall c :: c in m.machine.running && c !in m.machine.strays ==> RunsForLivePod(m, pods, c)
  {
    hide Key;
    Owned(m);
    forall c | c in m.machine.running && c !in m.machine.strays
      ensures RunsForLivePod(m, pods, c)
    {
      var uid :| uid in m.workloads && m.workloads[uid].container == c;
      assert LiveListed(pods, |pods|, uid);
    }
  }

  lemma Owned(m: Manager)
    requires m.Valid()
    ensures m.machine.running <= Names(m.workloads) + m.machine.strays
  {
  }

  /** newDarwinNetwork's handle for a new process: the plan is the same, no alias is known yet. */
  method NewHandle(plan: D.Handle) returns (h: D.Handle)
    requires plan.Planned()
    ensures fresh(h) && h.Valid() && h.Present() && h.host == plan.host
  {
    h := new D.Handle(plan.host, plan.interface, plan.podCIDR, plan.gateway, plan.peerGateways, "", []);
  }

  /** Without VXLAN there is none. */
  method HandleFor(plan: D.Handle?) returns (h: D.Handle?)
    requires plan != null ==> plan.Planned()
    ensures plan == null <==> h == null
    ensures h != null ==> fresh(h) && h.Valid() && h.Present() && h.host == plan.host
  {
    h := null;
    if plan != null { h := NewHandle(plan); }
  }

  /** The process's network follows the plan. */
  ghost predicate Fits(m: Manager, plan: D.Handle?) {
    if plan == null then m.network == null else m.network != null && m.network.host == plan.host
  }

  lemma AcceptedComplete(disk: seq<Record>)
    requires Loadable(disk)
    ensures AllComplete(disk)
  {
  }

  /** A new process loads the journal; nil when that fails, as the agent then gives up. */
  method Start(machine: Machine, plan: D.Handle?, unicode: Unicode, nodeIP: IPText, keepsLogs: bool, logTTL: int)
    returns (m: Manager?, result: LoadResult)
    requires Standard(unicode) && Loadable(machine.disk) && machine.History()
    requires machine.trace == [] && machine.Founded()
    requires plan != null ==> plan.Planned()
    modifies machine`strays, machine`clean, machine`loaded, machine`unreadable, machine`base, machine`rounds
    modifies machine`bootFailed, machine`disk, machine`failedWrites, machine`past, machine`trace
    modifies machine`missedLogs, machine`logFiles
    ensures Loadable(machine.disk) && machine.History() && (machine.trace != [] ==> machine.loaded)
    ensures DiskNames(machine.disk) == DiskNames(old(machine.disk))
    ensures old(machine.failedWrites) <= machine.failedWrites
    ensures machine.loaded ==> machine.strays == Unclaimed(machine.running, old(machine.disk))
    ensures result.LoadOk? <==> m != null
    ensures m == null <==> machine.bootFailed
    ensures machine.rounds == []
    ensures m != null ==> fresh(m) && m.machine == machine && m.Valid() && machine.clean && machine.loaded
    ensures m != null ==> AsJournaled(old(machine.disk), machine.running, machine.now, m.workloads, m.retained,
                                      machine.strays)
    ensures m != null ==> Fits(m, plan) && (m.network != null ==> fresh(m.network))
  {
    hide D.Handle.Planned, D.Handle.Valid, D.Handle.Present, Manager.Valid, Machine.History, Machine.Founded;
    hide AsJournaled, Unclaimed, DiskNames, Loadable, Standard;
    AcceptedComplete(machine.disk);
    var handle := HandleFor(plan);
    var manager := new Manager(machine, handle, unicode, nodeIP, true, keepsLogs, logTTL);
    result := manager.LoadJournal();
    m := if result.LoadOk? then manager else null;
    if m == null { machine.GiveUpBoot(); }
  }

  /** Failed removal commands so far, of the machine and of the planned network's host. */
  ghost function RefusalsOf(machine: Machine, plan: D.Handle?): nat
    reads machine`refusals, (if plan == null then {} else {plan.host})`refusals
  {
    machine.refusals + if plan == null then 0 else plan.host.refusals
  }

  lemma SameRefusals(m: Manager, plan: D.Handle?)
    requires Fits(m, plan)
    ensures m.Refusals() == RefusalsOf(m.machine, plan)
  {
  }

  lemma NoFailedWrite(before: nat, after: nat, errors: seq<Failure>)
    requires WritesTold(before, after, errors) && errors == [PruneJournal]
    ensures before < after
  {
    assert PruneJournal in errors;
  }

  /**
   * Recovery: the journal any crash left, loaded and followed by one pass without a removal error, has no orphans. Nor
   * has one in which no removal command and no journal write fails, if every address on its way parses.
   */
  method RecoverAndReconcile(machine: Machine, plan: D.Handle?, unicode: Unicode, nodeIP: IPText, keepsLogs: bool,
                             logTTL: int, pods: seq<Pod>, ghost crashedAt: Snapshot)
    returns (m: Manager?, errors: seq<Failure>)
    requires Standard(unicode) && machine.History() && machine.trace == []
    requires plan != null ==> plan.Planned()
    requires Safe(crashedAt) && crashedAt.strays == {} && crashedAt.clean
    requires machine.disk == crashedAt.disk && machine.running <= crashedAt.running
    modifies machine, if plan == null then {} else {plan.host}
    ensures m != null ==> m.machine == machine && m.Valid() && machine.strays == {}
    ensures m != null && errors != [PruneJournal] && NoRemovalFailed(errors) ==>
              forall c :: c in machine.running ==> RunsForLivePod(m, pods, c)
    ensures m != null && RefusalsOf(machine, plan) == old(RefusalsOf(machine, plan)) &&
            machine.failedWrites == old(machine.failedWrites) &&
            AddressesParse(m, Loaded(old(machine.disk), false), pods) ==>
              forall c :: c in machine.running ==> RunsForLivePod(m, pods, c)
  {
    hide Manager.Consistent, Manager.Logged, Machine.History, Accounted, RunsForLivePod, Distributed, Kept;
    hide D.Handle.Planned, Loadable, Holds, DroppedForCause, WritesTold, Placements, Deleted, Cleared, DistinctKeys;
    hide AddressesParse, AllTurnsTaken, Manager.Refusals, RefusalsOf, Loaded;
    errors := [];
    var result;
    m, result := Start(machine, plan, unicode, nodeIP, keepsLogs, logTTL);
    if m != null {
      assert machine.strays == {};
      SameRefusals(m, plan);
      ghost var start, writes := Opening(m), machine.failedWrites;
      ghost var given;
      errors, given := Reconcile(m, pods);
      StraysKept(start, At(m));
      SameRefusals(m, plan);
      ghost var excused := Excused(m, start, At(m), pods);
      if errors == [PruneJournal] { NoFailedWrite(writes, machine.failedWrites, errors); }
      if errors != [PruneJournal] && (excused ==> NoRemovalFailed(errors)) { NoOrphans(m, pods, errors, excused); }
    }
  }

  // ---- Scripts -----------------------------------------------------------------------------

  /** What a process is asked to do, and after which of its steps it dies. */
  datatype Work = Pass(pods: seq<Pod>) | Drain
  datatype Life = Life(work: seq<Work>, last: nat)

  /** Every Pod listed, in order. */
  ghost function Listed(work: seq<Work>): seq<Pod> {
    if work == [] then []
    else
      Listed(work[..|work| - 1]) +
      match work[|work| - 1]
      case Pass(pods) => pods
      case Drain => []
  }

  /**
   * What a round must have done: a pass gave every listed Pod its turn, in order, unless its first journal write
   * failed; a drain left nothing managed, unless something went wrong or an address did not parse.
   */
  ghost predicate Did(round: Round, work: Work) {
    match work
    case Pass(pods) =>
      && round.Reconciled?
      && if round.turns == [] && round.failedWrites > 0 then true
         else exists errors :: TurnsTaken(round.turns, pods, |pods|, errors)
    case Drain =>
      round.Drained? && (round.left != {} ==> round.setbacks > 0 || !round.releasable)
  }

  /** What a process goes through. */
  ghost predicate AllDid(rounds: seq<Round>, work: seq<Work>) {
    |rounds| == |work| && forall i :: 0 <= i < |work| ==> Did(rounds[i], work[i])
  }

  ghost function Listing(script: seq<Life>): seq<Pod> {
    if script == [] then []
    else Listing(script[..|script| - 1]) + Listed(script[|script| - 1].work)
  }

  /** What the listings so far allow of deletions, resurrections and turns. */
  ghost predicate Within(machine: Machine, listing: seq<Pod>)
    reads machine`deletions, machine`resurrected, machine`begun
  {
    && machine.deletions <= Deleted(listing) && machine.resurrected <= Cleared(listing, {})
    && TurnsOf({}, machine.begun, listing)
  }

  lemma WithinMore(before: seq<Pod>, pods: seq<Pod>, deletions: set<string>, resurrected: set<string>,
                   deletionsAfter: set<string>, resurrectedAfter: set<string>)
    requires deletions <= Deleted(before) && resurrected <= Cleared(before, {})
    requires deletionsAfter <= deletions + Deleted(pods)
    requires resurrectedAfter <= resurrected + Cleared(pods, deletions)
    ensures deletionsAfter <= Deleted(before + pods) && resurrectedAfter <= Cleared(before + pods, {})
  {
    hide Deleted, Cleared;
    DeletedAppend(before, pods);
    ClearedAppend(before, pods, {});
    ClearedGrows(pods, deletions, {} + Deleted(before));
  }

  lemma ListedSnoc(before: seq<Pod>, work: seq<Work>, i: nat)
    requires i < |work|
    ensures work[..i + 1] == work[..i] + [work[i]]
    ensures before + Listed(work[..i + 1]) ==
              before + Listed(work[..i]) + (if work[i].Pass? then work[i].pods else [])
  {
    assert work[..i + 1][..i] == work[..i];
  }

  lemma ListingSnoc(script: seq<Life>, i: nat)
    requires i < |script|
    ensures Listing(script[..i + 1]) == Listing(script[..i]) + Listed(script[i].work)
  {
    assert script[..i + 1][..i] == script[..i];
  }

  // ---- What is claimed of a run ------------------------------------------------------------

  /** What a step of a sound process guarantees, whatever failed before it. */
  ghost predicate Sound(s: Snapshot) {
    && s.strays == {} && s.running <= s.memory
    && (s.clean ==> s.running <= DiskNames(s.disk))
  }

  ghost predicate AllSound(steps: seq<Snapshot>) {
    forall s :: s in steps ==> Sound(s)
  }

  ghost predicate AllEndClean(finished: seq<Process>) {
    forall p :: p in finished ==> EndsClean(p)
  }

  /** The steps of every process whose predecessors all ended with a clean journal are sound. */
  ghost predicate SoundRun(finished: seq<Process>) {
    forall i :: 0 <= i < |finished| && AllEndClean(finished[..i]) ==> AllSound(finished[i].steps)
  }

  /** At every step before which no journal write has failed, all that runs is on disk. */
  ghost predicate WriteAhead(finished: seq<Process>) {
    forall p, s :: p in finished && s in p.steps && s.failedWrites == 0 ==> s.clean && Sound(s)
  }

  ghost predicate ResurrectedWithin(finished: seq<Process>, keys: set<string>) {
    forall p, s :: p in finished && s in p.steps ==> s.resurrected <= keys
  }

  /** Each process made all its passes and drains, unless it could not load its journal. */
  ghost predicate Worked(finished: seq<Process>, script: seq<Life>) {
    && |finished| == |script|
    && forall i :: 0 <= i < |script| ==> finished[i].bootFailed || AllDid(finished[i].rounds, script[i].work)
  }

  /** Every status was about a listed Pod, and put to it in a turn of its own. */
  ghost predicate AllAboutListed(reports: seq<StatusReport>, listing: seq<Pod>) {
    forall r :: r in reports ==> exists p :: p in listing && r.turn == TurnOf(r.turn.number, p)
  }

  lemma SoundRunMore(finished: seq<Process>, p: Process)
    requires SoundRun(finished) && (AllEndClean(finished) ==> AllSound(p.steps))
    ensures SoundRun(finished + [p])
  {
    hide AllSound, AllEndClean;
    var f := finished + [p];
    forall i | 0 <= i < |f| && AllEndClean(f[..i]) ensures AllSound(f[i].steps) {
      assert f[..i] == finished[..i];
      assert finished[..|finished|] == finished;
    }
  }

  lemma WorkedMore(finished: seq<Process>, script: seq<Life>, i: nat, p: Process)
    requires i < |script| && Worked(finished, script[..i])
    requires p.bootFailed || AllDid(p.rounds, script[i].work)
    ensures Worked(finished + [p], script[..i + 1])
  {
  }

  lemma ResurrectedMore(finished: seq<Process>, p: Process, keys: set<string>, more: set<string>)
    requires ResurrectedWithin(finished, keys) && keys <= more
    requires forall s :: s in p.steps ==> s.resurrected <= more
    ensures ResurrectedWithin(finished + [p], more)
  {
  }

  lemma RunsWriteAhead(finished: seq<Process>)
    requires AllFinished(finished) && ResurrectedWithin(finished, {})
    ensures WriteAhead(finished)
  {
    forall p, s | p in finished && s in p.steps && s.failedWrites == 0
      ensures s.clean && Sound(s)
    {
      assert Safe(s) && s.loaded;
    }
  }

  // ---- Life and death ----------------------------------------------------------------------

  /** Between processes: the journal claims all that runs, unless something went wrong before. */
  ghost predicate Down(machine: Machine)
    reads machine
  {
    && Loadable(machine.disk) && machine.History() && machine.trace == [] && machine.Founded()
    && (AllEndClean(machine.finished) ==> machine.running <= DiskNames(machine.disk))
  }

  /** A process that may die at any time. */
  ghost predicate Mortal(machine: Machine)
    reads machine
  {
    && Loadable(machine.disk) && machine.History() && (machine.trace != [] ==> machine.loaded)
    && (machine.trace == [] ==> machine.Founded())
    && (AllEndClean(machine.finished) ==>
          if machine.trace == [] then machine.running <= DiskNames(machine.disk) else machine.strays == {})
  }

  lemma StepsOf(machine: Machine, last: nat)
    requires machine.History()
    ensures var p := Ended(machine.trace, last, machine.rounds, machine.bootFailed);
            && (machine.strays == {} || p.steps == [] ==> AllSound(p.steps))
            && (forall s :: s in p.steps ==> s.strays == machine.strays && s.resurrected <= machine.resurrected)
            && (p.steps == [] <==> machine.trace == [])
  {
    var n := Taken(|machine.trace|, last);
    assert forall s :: s in machine.trace[..n] ==> s in machine.trace;
  }

  /** What a death leaves is what the next process may find. */
  lemma Founds(finished: seq<Process>, p: Process, before: Snapshot, after: Snapshot)
    requires Left(p, before, after) && Loadable(before.disk)
    requires p.steps == [] && before.failedWrites == 0 && before.resurrected == {} ==>
               before.running <= DiskNames(before.disk)
    requires AllEndClean(finished) ==>
               if p.steps == [] then before.running <= DiskNames(before.disk) else AllNoStrays(p.steps)
    ensures Loadable(after.disk)
    ensures after.failedWrites == 0 && after.resurrected == {} ==> after.running <= DiskNames(after.disk)
    ensures AllEndClean(finished + [p]) ==> after.running <= DiskNames(after.disk)
  {
    if p.steps != [] {
      var s := p.steps[|p.steps| - 1];
      assert s in p.steps;
    }
    if AllEndClean(finished + [p]) {
      assert p in finished + [p];
      forall q | q in finished ensures EndsClean(q) { assert q in finished + [p]; }
    }
  }

  ghost predicate AllNoStrays(steps: seq<Snapshot>) {
    forall s :: s in steps ==> s.strays == {}
  }

  /** Death, after which the run so far is as claimed. */
  method End(machine: Machine, last: nat)
    requires Mortal(machine)
    modifies machine`running, machine`disk, machine`now, machine`past, machine`trace, machine`finished
    modifies machine`loaded, machine`failedWrites, machine`resurrected
    ensures Down(machine) && machine.resurrected <= old(machine.resurrected)
    ensures |machine.finished| == |old(machine.finished)| + 1
    ensures var p := machine.finished[|old(machine.finished)|];
            && machine.finished == old(machine.finished) + [p]
            && p.rounds == old(machine.rounds) && p.bootFailed == old(machine.bootFailed)
            && (forall s :: s in p.steps ==> s.resurrected <= old(machine.resurrected))
            && (AllEndClean(old(machine.finished)) ==> AllSound(p.steps))
  {
    hide Machine.History, Loadable, AllEndClean, AllSound, DiskNames, Left;
    ghost var p := Ended(machine.trace, last, machine.rounds, machine.bootFailed);
    ghost var before, finished := machine.View({}), machine.finished;
    StepsOf(machine, last);
    machine.Die(last);
    Founds(finished, p, before, machine.View({}));
    LeftResurrected(p, before, machine.View({}));
  }

  lemma LeftResurrected(p: Process, before: Snapshot, after: Snapshot)
    requires Left(p, before, after) && forall s :: s in p.steps ==> s.resurrected <= before.resurrected
    ensures after.resurrected <= before.resurrected
  {
    if p.steps != [] { assert p.steps[|p.steps| - 1] in p.steps; }
  }

  /** A process is up, and has done this work. */
  ghost predicate Up(m: Manager, machine: Machine, work: seq<Work>, listing: seq<Pod>)
    reads m, m.machine, machine, m.network, m.host
  {
    && m.machine == machine && m.Valid() && machine.loaded && AllDid(machine.rounds, work)
    && (AllEndClean(machine.finished) ==> machine.strays == {})
    && Within(machine, listing)
  }

  lemma UpMortal(m: Manager, machine: Machine, work: seq<Work>, listing: seq<Pod>)
    requires Up(m, machine, work, listing)
    ensures Mortal(machine) && Within(machine, listing) && AllDid(machine.rounds, work)
  {
    hide Manager.NetworkValid, Filed, Manager.Logged, Loadable, Recorded, AllSafe, AllFinished, AllTold, Standard;
    hide Within, AllEndClean, DiskNames, Ascribed, AllDid;
  }

  lemma DidMore(rounds: seq<Round>, work: seq<Work>, round: Round, item: Work)
    requires AllDid(rounds, work) && Did(round, item)
    ensures AllDid(rounds + [round], work + [item])
  {
    hide Did;
  }

  /** A pass, and what is on record of it. */
  method RecordPass(m: Manager, pods: seq<Pod>) returns (ghost round: Round)
    requires m.Valid()
    modifies m, m.machine, m.network, m.host
    ensures m.Valid() && m.machine.rounds == old(m.machine.rounds) + [round] && Did(round, Pass(pods))
    ensures DistinctKeys(pods) && round.turns != [] ==>
              Recalled(old(m.workloads), m.workloads, pods, round.turns, |pods|)
    ensures var a, b := old(StandingOf(m.machine)), StandingOf(m.machine);
            b == a.(rounds := b.rounds, opening := b.opening, turn := b.turn, begun := b.begun, ended := b.ended,
                    deletions := b.deletions, resurrected := b.resurrected)
    ensures m.machine.deletions <= old(m.machine.deletions) + Deleted(pods)
    ensures m.machine.resurrected <= old(m.machine.resurrected) + Cleared(pods, old(m.machine.deletions))
    ensures TurnsOf(old(m.machine.begun), m.machine.begun, pods)
  {
    hide Manager.Consistent, Manager.Logged, Kept, Accounted, Distributed, DroppedForCause, WritesTold, Placements;
    hide Deleted, Cleared, DistinctKeys, TurnsTaken, TurnsOf, AllRunnable, AddressesParse, Recalled;
    ghost var start, writes := Opening(m), m.machine.failedWrites;
    ghost var errors, given;
    errors, given := Reconcile(m, pods);
    StandingKept(start, At(m));
    WritesGrow(writes, m.machine.failedWrites, errors);
    m.machine.EndPass();
    round := m.machine.rounds[|m.machine.rounds| - 1];
  }

  lemma WritesGrow(before: nat, after: nat, errors: seq<Failure>)
    requires WritesTold(before, after, errors)
    ensures before <= after
  {
  }

  method MakePass(m: Manager, pods: seq<Pod>, ghost work: seq<Work>, ghost listing: seq<Pod>)
    requires Up(m, m.machine, work, listing)
    modifies m, m.machine, m.network, m.host
    ensures Up(m, m.machine, work + [Pass(pods)], listing + pods) && m.machine.finished == old(m.machine.finished)
    ensures m.machine.bootFailed == old(m.machine.bootFailed)
  {
    hide Manager.Valid, AllEndClean, Deleted, Cleared, TurnsOf, Did, AllDid;
    ghost var deletions, resurrected, begun := m.machine.deletions, m.machine.resurrected, m.machine.begun;
    ghost var rounds := m.machine.rounds;
    ghost var round;
    round := RecordPass(m, pods);
    DidMore(rounds, work, round, Pass(pods));
    WithinMore(listing, pods, deletions, resurrected, m.machine.deletions, m.machine.resurrected);
    TurnsOfMore({}, begun, m.machine.begun, listing, pods);
  }

  lemma StandingKept(a: Book, b: Book)
    requires Kept(a, b)
    ensures SamePass(a.standing, b.standing)
  {
  }

  /** A drain, and what is on record of it. */
  method DrainAll(m: Manager, ghost work: seq<Work>, ghost listing: seq<Pod>)
    requires Up(m, m.machine, work, listing)
    modifies m, m.machine, m.network, m.host
    ensures Up(m, m.machine, work + [Drain], listing) && m.machine.finished == old(m.machine.finished)
    ensures m.machine.bootFailed == old(m.machine.bootFailed)
    ensures old(m.Setbacks()) <= m.Setbacks()
    ensures m.machine.rounds == old(m.machine.rounds) +
              [Drained(m.workloads.Keys, m.Setbacks() - old(m.Setbacks()), old(m.AllReleasable(m.workloads)))]
  {
    hide Manager.Consistent, Manager.Logged, Holds, Swept, AllEndClean, Deleted, Cleared, TurnsOf, AllDid;
    hide Manager.Setbacks, Manager.Refusals, Manager.AllReleasable;
    ghost var rounds, before, releasable := m.machine.rounds, m.Setbacks(), m.AllReleasable(m.workloads);
    var _ := m.Cleanup();
    m.machine.EndDrain(m.workloads.Keys, m.Setbacks() - before, releasable);
    DidMore(rounds, work, m.machine.rounds[|rounds|], Drain);
  }

  /** A process does its work. */
  method DoWork(m: Manager, work: seq<Work>, ghost listing: seq<Pod>)
    requires Up(m, m.machine, [], listing)
    modifies m, m.machine, m.network, m.host
    ensures Up(m, m.machine, work, listing + Listed(work))
    ensures m.machine.finished == old(m.machine.finished) && m.machine.bootFailed == old(m.machine.bootFailed)
  {
    hide Up, Listed;
    NoneListed(listing, work);
    for i := 0 to |work|
      invariant Up(m, m.machine, work[..i], listing + Listed(work[..i]))
      invariant m.machine.finished == old(m.machine.finished) && m.machine.bootFailed == old(m.machine.bootFailed)
    {
      ListedSnoc(listing, work, i);
      ghost var before := listing + Listed(work[..i]);
      match work[i]
      case Pass(pods) => MakePass(m, pods, work[..i], before);
      case Drain =>
        DrainAll(m, work[..i], before);
        assert before + [] == before;
    }
    assert work[..|work|] == work;
  }

  lemma NoneListed(listing: seq<Pod>, work: seq<Work>)
    ensures listing + Listed(work[..0]) == listing
  {
  }

  /** A process begins, or gives up at once. */
  method Boot(machine: Machine, plan: D.Handle?, unicode: Unicode, nodeIP: IPText, keepsLogs: bool, logTTL: int,
              ghost listing: seq<Pod>) returns (m: Manager?)
    requires Standard(unicode) && Down(machine) && Within(machine, listing) && (plan != null ==> plan.Planned())
    modifies machine
    ensures machine.finished == old(machine.finished)
    ensures m == null ==> Mortal(machine) && Within(machine, listing) && machine.bootFailed
    ensures m != null ==> fresh(m) && Up(m, machine, [], listing) && Fits(m, plan) && !machine.bootFailed
    ensures m != null && m.network != null ==> fresh(m.network)
  {
    hide AllEndClean, Manager.Consistent, Manager.Logged, D.Handle.Planned, Deleted, Cleared, Loadable;
    hide Machine.History, AsJournaled, DiskNames;
    var result;
    m, result := Start(machine, plan, unicode, nodeIP, keepsLogs, logTTL);
  }

  /** One life: the journal is loaded, the work done, and the process dies, which may undo its last steps. */
  method LiveAndDie(machine: Machine, plan: D.Handle?, unicode: Unicode, nodeIP: IPText, keepsLogs: bool, logTTL: int,
                    life: Life, ghost listing: seq<Pod>)
    requires Standard(unicode) && Down(machine) && Within(machine, listing) && (plan != null ==> plan.Planned())
    modifies machine, if plan == null then {} else {plan.host}
    ensures Down(machine) && Within(machine, listing + Listed(life.work))
    ensures |machine.finished| == |old(machine.finished)| + 1
    ensures var p := machine.finished[|old(machine.finished)|];
            && machine.finished == old(machine.finished) + [p]
            && (p.bootFailed || AllDid(p.rounds, life.work))
            && (forall s :: s in p.steps ==> s.resurrected <= Cleared(listing + Listed(life.work), {}))
            && (AllEndClean(old(machine.finished)) ==> AllSound(p.steps))
  {
    hide AllEndClean, AllSound, Up, Mortal, Down, D.Handle.Planned, Listed, Deleted, Cleared, Standard, AllDid;
    hide TurnsOf;
    var m := Boot(machine, plan, unicode, nodeIP, keepsLogs, logTTL, listing);
    if m != null {
      UpMachine(m, machine, [], listing);
      DoWork(m, life.work, listing);
      UpMortal(m, machine, life.work, listing + Listed(life.work));
    } else {
      StillWithin(machine, listing, Listed(life.work));
    }
    End(machine, life.last);
  }

  lemma UpMachine(m: Manager, machine: Machine, work: seq<Work>, listing: seq<Pod>)
    requires Up(m, machine, work, listing)
    ensures m.machine == machine
  {
  }

  lemma StillWithin(machine: Machine, listing: seq<Pod>, more: seq<Pod>)
    requires Within(machine, listing)
    ensures Within(machine, listing + more)
  {
    WithinMore(listing, more, machine.deletions, machine.resurrected, machine.deletions, machine.resurrected);
  }

  /** No key is listed live that was listed as being deleted before. */
  ghost predicate NoDeletionCleared(script: seq<Life>) {
    Cleared(Listing(script), {}) == {}
  }

  /**
   * A whole run from an empty machine, or one whose journal claims what runs. Ownership is journaled before every
   * start: at every step of every process whose predecessors ended with a clean journal, all that runs is named by the
   * process's own map, and, unless the last journal write failed or a deleted Pod came back, by a record on disk. If no
   * deletion is ever cleared, all that runs is on disk at every step before which no journal write has failed. Every
   * status is disciplined, told as meant, and put to a listed Pod in its own turn.
   */
  method Run(machine: Machine, plan: D.Handle?, unicode: Unicode, nodeIP: IPText, keepsLogs: bool, logTTL: int,
             script: seq<Life>)
    requires Standard(unicode) && Down(machine) && (plan != null ==> plan.Planned())
    requires machine.finished == [] && machine.deletions == {} && machine.resurrected == {} && machine.begun == {}
    modifies machine, if plan == null then {} else {plan.host}
    ensures Worked(machine.finished, script)
    ensures SoundRun(machine.finished)
    ensures NoDeletionCleared(script) ==> WriteAhead(machine.finished)
    ensures NoDeletionCleared(script) && machine.failedWrites == 0 ==> machine.running <= DiskNames(machine.disk)
    ensures AllTold(machine.reports) && AllAboutListed(machine.reports, Listing(script))
  {
    hide Down, SoundRun, Worked, Within, ResurrectedWithin, Listing, D.Handle.Planned, AllEndClean, AllSound, Cleared;
    NothingRun(machine, script);
    for i := 0 to |script|
      invariant Down(machine) && Within(machine, Listing(script[..i]))
      invariant Worked(machine.finished, script[..i]) && SoundRun(machine.finished)
      invariant ResurrectedWithin(machine.finished, Cleared(Listing(script[..i]), {}))
    {
      ghost var finished, keys := machine.finished, Cleared(Listing(script[..i]), {});
      ListingSnoc(script, i);
      LiveAndDie(machine, plan, unicode, nodeIP, keepsLogs, logTTL, script[i], Listing(script[..i]));
      ghost var p := machine.finished[|finished|];
      SoundRunMore(finished, p);
      WorkedMore(finished, script, i, p);
      ClearedAppend(Listing(script[..i]), Listed(script[i].work), {});
      ResurrectedMore(finished, p, keys, Cleared(Listing(script[..i + 1]), {}));
    }
    assert script[..|script|] == script;
    AtLast(machine, script);
  }

  lemma NothingRun(machine: Machine, script: seq<Life>)
    requires machine.finished == [] && machine.deletions == {} && machine.resurrected == {} && machine.begun == {}
    ensures Worked(machine.finished, script[..0]) && SoundRun(machine.finished)
    ensures Within(machine, Listing(script[..0]))
    ensures ResurrectedWithin(machine.finished, Cleared(Listing(script[..0]), {}))
  {
  }

  lemma AtLast(machine: Machine, script: seq<Life>)
    requires Down(machine) && Within(machine, Listing(script))
    requires ResurrectedWithin(machine.finished, Cleared(Listing(script), {}))
    ensures AllTold(machine.reports) && AllAboutListed(machine.reports, Listing(script))
    ensures NoDeletionCleared(script) ==> WriteAhead(machine.finished)
    ensures NoDeletionCleared(script) && machine.failedWrites == 0 ==> machine.running <= DiskNames(machine.disk)
  {
    hide TurnOf, AllSafe, AllTold, Recorded, DiskNames, Cleared, Listing, WriteAhead, ResurrectedWithin;
    if NoDeletionCleared(script) { RunsWriteAhead(machine.finished); }
  }
}
