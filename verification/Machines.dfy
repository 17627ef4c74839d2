/** The world the workload manager acts on: Macker's containers, the journal file, the clock, the Pod API. */
module Machines {
  import opened Text
  import opened AddressPlan
  import opened Journals
  import PodStatuses

  /** How a Macker command ended: an ignorable error says there is no such detached container. */
  datatype Outcome = Succeeded | Ignorable | Failed

  datatype Listing = ListingFailed | NotListed | Listed(running: bool)
  datatype Inspection = Unavailable | Undecodable | Inspected(running: bool, report: PodStatuses.Inspection)
  datatype RunResult = Started | ImageMissing | RunFailed
  datatype PutResult = Stored | PodGone | PutFailed

  datatype Policy = Unspecified | Always | OnFailure | Never | OtherPolicy(text: string)

  predicate EndsPods(policy: Policy) {
    policy == Never || policy == OnFailure
  }

  /** One Pod's turn in a pass: the key it is managed under, how it was listed, and under which policy. */
  datatype Turn = Turn(number: nat, key: string, live: bool, deleting: bool, policy: Policy,
                       pod: Option<PodStatuses.Pod>)

  const NO_TURN := Turn(0, "", false, false, Unspecified, None)

  /** What Macker said of a container, in which Pod's turn. */
  datatype Observation = Saw(container: string, running: bool, turn: Turn)

  /** The commands of a launch. */
  datatype Launch = Ran(container: string, result: RunResult) | Pulled(image: string, ok: bool)

  /** The part of a status that maclet decides. */
  datatype Update = Update(hostIP: IPText, ip: IPText, reason: PodStatuses.Cause, message: string, restartCount: Int32,
                           inspection: Option<PodStatuses.Inspection>)

  /**
   * One status update: for which workload, in which turn, at what time, what Macker had said by then, what had been
   * removed in the round, how it ended, and every PUT it took with its answer.
   */
  datatype StatusReport = StatusReport(container: string, phase: PodStatuses.Phase, update: Update, turn: Turn, at: int,
                                       observed: set<Observation>, removed: set<string>,
                                       result: PutResult, puts: seq<(PodStatuses.Pod, PodStatuses.PodStatus)>,
                                       answers: seq<PodStatuses.PutResult>)

  /** What an inspection reports, if there was one. */
  function ReportOf(r: Inspection): Option<PodStatuses.Inspection> {
    if r.Inspected? then Some(r.report) else None
  }

  function ExitCode(inspection: Option<PodStatuses.Inspection>): Option<int> {
    if inspection.Some? then inspection.value.exitCode else None
  }

  /** The terminal phase of an exited container: its exit code if known, else a guess from the policy. */
  ghost function ExitPhase(policy: Policy, exitCode: Option<int>): PodStatuses.Phase {
    if exitCode.Some? then (if exitCode.value == 0 then PodStatuses.Succeeded else PodStatuses.Failed)
    else if policy == OnFailure then PodStatuses.Failed
    else PodStatuses.Succeeded
  }

  /**
   * A live Pod ends, or runs, only after Macker reported its container exited, or running, in the Pod's own turn, and
   * it ends only as its policy has it. A Pod being deleted is told its end, after its container was removed.
   */
  ghost predicate Disciplined(r: StatusReport) {
    if r.turn.deleting then r.phase == PodStatuses.Failed && r.container in r.removed
    else
      && r.turn.live
      && (PodStatuses.Terminal(r.phase) ==>
            && Saw(r.container, false, r.turn) in r.observed
            && EndsPods(r.turn.policy)
            && r.phase == ExitPhase(r.turn.policy, ExitCode(r.update.inspection)))
      && (r.phase == PodStatuses.Running ==> Saw(r.container, true, r.turn) in r.observed)
  }

  /** The first PUT is on the Pod as it was listed, and every one, across conflicts, says what was to be reported. */
  ghost predicate Said(r: StatusReport) {
    && PodStatuses.AllSay(r.puts, r.update.hostIP, r.phase, r.update.ip, r.update.reason, r.update.message,
                          r.update.restartCount, r.update.inspection, r.at)
    && r.turn.pod == Some(r.puts[0].0)
    && |r.answers| == |r.puts| && exists lost :: PodStatuses.Retried(r.answers, lost, r.result.Stored?)
  }

  /** All but the PUTs. */
  ghost function Bare(r: StatusReport): StatusReport {
    r.(puts := [], answers := [])
  }

  ghost function ReportOfUpdate(container: string, phase: PodStatuses.Phase, update: Update, turn: Turn, at: int,
                        observed: set<Observation>, removed: set<string>, result: PutResult): StatusReport
  {
    StatusReport(container, phase, update, turn, at, observed, removed, result, [], [])
  }

  /** What a crash leaves: the detached containers and the journal. */
  datatype World = World(running: set<string>, disk: seq<Record>)

  /**
   * The world between two external steps. `memory` names what the manager's map claims; `strays` ran unclaimed when
   * its journal was loaded. `clean` says that the last journal write succeeded and that no Pod whose deletion had
   * begun was started since; `failedWrites` counts the failed writes and `resurrected` the keys of such Pods, both
   * since the first process.
   */
  datatype Snapshot = Snapshot(running: set<string>, disk: seq<Record>, memory: set<string>, strays: set<string>,
                               clean: bool, loaded: bool, failedWrites: nat, resurrected: set<string>)

  /** Ownership at one step. */
  ghost predicate Safe(s: Snapshot) {
    && s.running <= s.memory + s.strays
    && (s.clean ==> s.running <= DiskNames(s.disk) + s.strays)
    && (s.loaded && s.failedWrites == 0 && s.resurrected == {} ==> s.clean && s.strays == {})
    && Loadable(s.disk)
  }

  /** How a Pod's turn ended: its errors, whether it is managed, whether it was put off before, and the last report. */
  datatype TurnEnd = TurnEnd(turn: Turn, errors: nat, managed: bool, waiting: bool, last: Option<StatusReport>)

  /**
   * What a round did: a pass took turns and failed to write the journal so many times; a drain left these keys, met so
   * many setbacks, and found all addresses releasable or not.
   */
  datatype Round = Reconciled(turns: seq<TurnEnd>, failedWrites: nat)
                 | Drained(left: set<string>, setbacks: nat, releasable: bool)

  /** One process of the agent: its steps up to the last, its rounds, and whether loading the journal failed. */
  datatype Process = Process(steps: seq<Snapshot>, rounds: seq<Round>, bootFailed: bool)

  ghost predicate EndsClean(p: Process) {
    p.steps != [] ==> p.steps[|p.steps| - 1].clean
  }

  /** A step taken is one a crash can go back to. */
  ghost predicate Recorded(past: seq<World>, trace: seq<Snapshot>, strays: set<string>, loaded: bool,
                           resurrected: set<string>) {
    && |past| == |trace|
    && (forall i :: 0 <= i < |past| ==> past[i] == World(trace[i].running, trace[i].disk))
    && (forall s :: s in trace ==> s.strays == strays && s.loaded == loaded && s.resurrected <= resurrected)
  }

  ghost predicate AllSafe(trace: seq<Snapshot>) {
    forall s :: s in trace ==> Safe(s)
  }

  ghost predicate AllLoaded(trace: seq<Snapshot>) {
    forall s :: s in trace ==> s.loaded
  }

  ghost predicate AllFinished(finished: seq<Process>) {
    forall p :: p in finished ==> AllSafe(p.steps) && AllLoaded(p.steps)
  }

  ghost predicate AllTold(reports: seq<StatusReport>) {
    forall r :: r in reports ==> Disciplined(r) && Said(r)
  }

  /** Every report was made in a Pod's turn. */
  ghost predicate Ascribed(reports: seq<StatusReport>, turn: Turn, begun: set<Turn>) {
    && (forall r :: r in reports ==> r.turn in begun)
    && (turn.pod.Some? ==> turn in begun)
  }

  predicate Launched(launches: seq<Launch>, container: string) {
    Ran(container, Started) in launches
  }

  /** startMackerWorkload's commands: a missing image is pulled, and then the run command is given once more. */
  ghost predicate LaunchedAs(launches: seq<Launch>, container: string, image: string, ok: bool) {
    if |launches| == 1 then
      exists r :: launches == [Ran(container, r)] && (ok <==> r.Started?) && (r.ImageMissing? ==> image == "")
    else if |launches| == 2 then
      launches == [Ran(container, ImageMissing), Pulled(image, false)] && image != "" && !ok
    else
      exists r :: launches == [Ran(container, ImageMissing), Pulled(image, true), Ran(container, r)] && image != "" &&
                  (ok <==> r.Started?)
  }

  lemma RecordedMore(past: seq<World>, trace: seq<Snapshot>, s: Snapshot)
    requires Recorded(past, trace, s.strays, s.loaded, s.resurrected)
    ensures Recorded(past + [World(s.running, s.disk)], trace + [s], s.strays, s.loaded, s.resurrected)
  {
  }

  lemma RecordedGrows(past: seq<World>, trace: seq<Snapshot>, strays: set<string>, loaded: bool,
                      before: set<string>, after: set<string>)
    requires Recorded(past, trace, strays, loaded, before) && before <= after
    ensures Recorded(past, trace, strays, loaded, after)
  {
  }

  lemma SafeMore(trace: seq<Snapshot>, s: Snapshot)
    requires AllSafe(trace) && Safe(s)
    ensures AllSafe(trace + [s])
  {
  }

  ghost function Last(reports: seq<StatusReport>): StatusReport
    requires reports != []
  {
    reports[|reports| - 1]
  }

  lemma PutsImmaterial(r: StatusReport)
    requires Disciplined(ReportOfUpdate(r.container, r.phase, r.update, r.turn, r.at, r.observed, r.removed, Stored))
    ensures Disciplined(r)
  {
  }

  lemma AscribedNext(reports: seq<StatusReport>, turn: Turn, begun: set<Turn>, next: Turn)
    requires Ascribed(reports, turn, begun)
    ensures Ascribed(reports, next, begun + {next})
  {
  }

  lemma AscribedMore(reports: seq<StatusReport>, r: StatusReport, begun: set<Turn>)
    requires Ascribed(reports, r.turn, begun) && r.turn.pod.Some?
    ensures Ascribed(reports + [r], r.turn, begun)
  {
  }

  lemma ToldMore(reports: seq<StatusReport>, r: StatusReport)
    requires AllTold(reports) && Disciplined(r) && Said(r)
    ensures AllTold(reports + [r])
  {
  }

  /** How many of its steps a process got through that died after step `last`, if it took that many. */
  function Taken(total: nat, last: nat): (n: nat)
    ensures n <= total
  {
    if last < total then last + 1 else total
  }

  ghost function Ended(trace: seq<Snapshot>, last: nat, rounds: seq<Round>, bootFailed: bool): Process {
    Process(trace[..Taken(|trace|, last)], rounds, bootFailed)
  }

  lemma FinishedMore(finished: seq<Process>, past: seq<World>, trace: seq<Snapshot>, last: nat, strays: set<string>,
                     loaded: bool, resurrected: set<string>, rounds: seq<Round>, bootFailed: bool)
    requires AllFinished(finished) && AllSafe(trace) && Recorded(past, trace, strays, loaded, resurrected)
    requires |trace| > 0 ==> loaded
    ensures AllFinished(finished + [Ended(trace, last, rounds, bootFailed)])
    ensures |past| == |trace|
    ensures var n := Taken(|trace|, last);
            n > 0 ==> && past[n - 1] == World(trace[n - 1].running, trace[n - 1].disk)
                      && Safe(trace[n - 1]) && trace[n - 1].loaded
  {
    hide Safe;
    var n := Taken(|trace|, last);
    assert forall s :: s in trace[..n] ==> s in trace;
    if n > 0 { assert trace[n - 1] in trace; }
  }

  /** What a process that died leaves behind: the world after its last step, where less may run by now. */
  ghost predicate Left(p: Process, before: Snapshot, after: Snapshot) {
    var s := if p.steps == [] then before else p.steps[|p.steps| - 1];
    && (p.steps != [] ==> Safe(s) && s.loaded)
    && after.running <= s.running && after.disk == s.disk
    && after.failedWrites == s.failedWrites && after.resurrected == s.resurrected
  }

  lemma LeftAt(trace: seq<Snapshot>, last: nat, before: Snapshot, after: Snapshot, rounds: seq<Round>, bootFailed: bool)
    requires var n := Taken(|trace|, last); n > 0 ==> Safe(trace[n - 1]) && trace[n - 1].loaded
    requires var n := Taken(|trace|, last);
             var s := if n == 0 then before else trace[n - 1];
             && after.running <= s.running && after.disk == s.disk
             && after.failedWrites == s.failedWrites && after.resurrected == s.resurrected
    ensures Left(Ended(trace, last, rounds, bootFailed), before, after)
  {
    hide Safe;
    var n := Taken(|trace|, last);
    if n > 0 { assert trace[..n][n - 1] == trace[n - 1]; }
  }

  lemma NothingRecorded(past: seq<World>, trace: seq<Snapshot>, strays: set<string>, loaded: bool,
                        resurrected: set<string>)
    requires |past| == |trace| == 0
    ensures Recorded(past, trace, strays, loaded, resurrected) && AllSafe(trace)
  {
  }

  class Machine {
    /** Detached containers that run. */
    var running: set<string>
    var disk: seq<Record>
    var now: int
    /** NFS mounts and materialized volumes on the host. */
    var mounts: set<string>
    var volumes: set<string>
    /** Names Macker may still hold, running or not, and retained log files. */
    var present: set<string>
    var logFiles: set<string>
    /** The steps of this process, any of which a crash may follow. */
    var past: seq<World>
    ghost var trace: seq<Snapshot>
    ghost var finished: seq<Process>
    ghost var rounds: seq<Round>
    ghost var bootFailed: bool

    /** How this process stands to its journal; `base` is where the count of failed writes stood when it began. */
    ghost var strays: set<string>
    ghost var clean: bool
    ghost var loaded: bool
    ghost var unreadable: bool
    ghost var base: nat
    ghost var failedWrites: nat
    /** Keys ever listed as being deleted, and those of them started later. */
    ghost var deletions: set<string>
    ghost var resurrected: set<string>

    /** Stop, rm, umount and volume removals that failed. */
    ghost var refusals: nat

    /**
     * Otherwise: listings, pulls, runs, run arguments and PUTs that failed, inspections that could not be read, and
     * answers that a container started in the current turn does not run.
     */
    ghost var setbacks: nat

    /** Listings that failed and inspections that could not be read; answers that a container does not run. */
    ghost var unanswered: nat
    ghost var denials: nat
    /** What the last inspection told. */
    ghost var seen: Inspection

    ghost var turn: Turn
    ghost var begun: set<Turn>
    ghost var observed: set<Observation>
    ghost var reports: seq<StatusReport>
    /** In the current turn: what ps said first, containers it listed as running, and the commands of the launch. */
    ghost var first: Option<Listing>
    ghost var listed: set<string>
    ghost var launches: seq<Launch>
    /** In the current round: how turns ended; containers listed as not running, removed with success, and retired. */
    ghost var ended: seq<TurnEnd>
    ghost var exited: set<string>
    ghost var removed: set<string>
    ghost var retired: set<string>
    /** Where the count of failed writes stood when the round began. */
    ghost var opening: nat
    /** Run commands that succeeded, log files written, and logs that could not be read, written or removed. */
    ghost var starts: nat
    ghost var logs: nat
    ghost var missedLogs: nat

    constructor ()
      ensures running == {} && disk == [] && trace == [] && finished == [] && reports == []
      ensures failedWrites == 0 && deletions == {} && resurrected == {} && begun == {} && History()
    {
      running, disk, now, mounts, volumes, past := {}, [], 0, {}, {}, [];
      trace, finished, rounds, bootFailed := [], [], [], false;
      strays, clean, loaded, unreadable, base, failedWrites := {}, true, false, false, 0, 0;
      deletions, resurrected, turn, begun, observed, reports, listed := {}, {}, NO_TURN, {}, {}, [], {};
      exited, removed, retired, starts, logs, refusals, setbacks, ended := {}, {}, {}, 0, 0, 0, 0, [];
      first, unanswered, denials, seen := None, 0, 0, Unavailable;
      launches, opening, missedLogs, present, logFiles := [], 0, 0, {}, {};
      new;
      NothingRecorded(past, trace, strays, loaded, resurrected);
    }

    ghost function View(memory: set<string>): Snapshot
      reads this`running, this`disk, this`strays, this`clean, this`loaded, this`failedWrites, this`resurrected
    {
      Snapshot(running, disk, memory, strays, clean, loaded, failedWrites, resurrected)
    }

    /** At every step so far ownership was safe, and every status reported was disciplined and told as meant. */
    ghost predicate Steps()
      reads this`past, this`trace, this`finished, this`reports, this`strays, this`loaded, this`resurrected
      reads this`turn, this`begun
    {
      && Recorded(past, trace, strays, loaded, resurrected)
      && AllSafe(trace) && AllFinished(finished) && AllTold(reports) && Ascribed(reports, turn, begun)
    }

    /** And a process that took no step is as it began. */
    ghost predicate History()
      reads this`past, this`trace, this`finished, this`reports, this`turn, this`begun
      reads this`strays, this`clean, this`loaded, this`resurrected
    {
      Steps() && (loaded && trace == [] ==> clean)
    }

    /** And so it is now. */
    ghost predicate Good(memory: set<string>)
      reads this`running, this`disk, this`strays, this`clean, this`loaded, this`failedWrites, this`resurrected
      reads this`past, this`trace, this`finished, this`reports, this`turn, this`begun
    {
      Safe(View(memory)) && History()
    }

    lemma Parts()
      requires History()
      ensures Recorded(past, trace, strays, loaded, resurrected)
      ensures AllSafe(trace) && AllFinished(finished) && AllTold(reports) && Ascribed(reports, turn, begun)
      ensures |past| == |trace| && (loaded && trace == [] ==> clean)
    {
    }

    lemma Whole()
      requires Recorded(past, trace, strays, loaded, resurrected) && (loaded && trace == [] ==> clean)
      requires AllSafe(trace) && AllFinished(finished) && AllTold(reports) && Ascribed(reports, turn, begun)
      ensures History()
    {
    }

    /** What a process may find: without failed writes and resurrections, nothing unclaimed. */
    ghost predicate Founded()
      reads this`running, this`disk, this`failedWrites, this`resurrected
    {
      failedWrites == 0 && resurrected == {} ==> running <= DiskNames(disk)
    }

    // ---- Processes -------------------------------------------------------------------------

    /** A new process: nothing is known yet of what runs. */
    ghost method Begin(journaled: bool)
      requires History() && trace == [] && Loadable(disk)
      modifies this`strays, this`clean, this`loaded, this`unreadable, this`base, this`rounds, this`bootFailed
      ensures Good({}) && strays == running && clean == journaled && !loaded && !unreadable && base == failedWrites
      ensures rounds == [] && !bootFailed
    {
      hide Recorded, AllSafe, AllFinished, AllTold, Ascribed, Loadable, DiskNames, History;
      Parts();
      NothingRecorded(past, trace, running, false, resurrected);
      strays, clean, loaded, unreadable, base, rounds, bootFailed :=
        running, journaled, false, false, failedWrites, [], false;
      Whole();
    }

    /** It has loaded the journal: only what that does not claim is still a stray. */
    ghost method Adopt(memory: set<string>)
      requires Good({}) && trace == [] && clean && memory == DiskNames(disk) && Founded()
      modifies this`strays, this`loaded
      ensures strays == Unclaimed(running, disk) && loaded && Good(memory)
    {
      hide Recorded, AllSafe, AllFinished, AllTold, Ascribed, Loadable;
      Parts();
      NothingRecorded(past, trace, Unclaimed(running, disk), true, resurrected);
      strays, loaded := Unclaimed(running, disk), true;
    }

    /** The agent gives up when its journal cannot be read, or cannot be rewritten. */
    ghost method GiveUpBoot()
      requires unreadable || failedWrites > base
      modifies this`bootFailed
      ensures bootFailed
    {
      bootFailed := true;
    }

    /** The world after the first n steps, where less may run by now. */
    method Rewind(n: nat)
      requires n <= |past| && |past| == |trace|
      requires n > 0 ==> past[n - 1] == World(trace[n - 1].running, trace[n - 1].disk)
      modifies this`running, this`disk, this`now, this`failedWrites, this`resurrected
      ensures var s := if n == 0 then old(View({})) else trace[n - 1];
              running <= s.running && disk == s.disk && failedWrites == s.failedWrites && resurrected == s.resurrected
    {
      var ended: set<string>, later: int := *, *;
      if n > 0 {
        running, disk := past[n - 1].running, past[n - 1].disk;
        failedWrites, resurrected := trace[n - 1].failedWrites, trace[n - 1].resurrected;
      }
      running := running - ended;
      now := now + if later > 0 then later else 0;
    }

    /** The steps of a dead process are kept for the record. */
    method Bury(ghost dead: Process)
      requires AllFinished(finished + [dead]) && AllTold(reports) && Ascribed(reports, turn, begun)
      modifies this`past, this`trace, this`finished, this`loaded
      ensures History() && trace == [] && finished == old(finished) + [dead]
    {
      hide AllFinished, AllTold, Ascribed, AllSafe, Recorded;
      finished := finished + [dead];
      past, trace, loaded := [], [], false;
      NothingRecorded(past, trace, strays, false, resurrected);
    }

    /** The process dies after any of its steps, or before the first; containers may end before the next one starts. */
    method Die(last: nat)
      requires History() && (trace != [] ==> loaded)
      modifies this`running, this`disk, this`now, this`past, this`trace, this`finished
      modifies this`loaded, this`failedWrites, this`resurrected
      ensures History() && trace == [] && finished == old(finished) + [Ended(old(trace), last, rounds, bootFailed)]
      ensures Left(Ended(old(trace), last, rounds, bootFailed), old(View({})), View({}))
    {
      hide Recorded, AllSafe, AllFinished, AllTold, Ascribed, Safe, Left, Ended, History;
      ghost var before, steps := View({}), trace;
      Parts();
      FinishedMore(finished, past, trace, last, strays, loaded, resurrected, rounds, bootFailed);
      Rewind(Taken(|past|, last));
      Bury(Ended(steps, last, rounds, bootFailed));
      LeftAt(steps, last, before, View({}), rounds, bootFailed);
    }

    // ---- Time ------------------------------------------------------------------------------

    /** Time goes by, and any container may end by itself. */
    method Step(ghost memory: set<string>)
      requires Good(memory)
      modifies this`running, this`now, this`past, this`trace
      ensures Good(memory) && running <= old(running) && now >= old(now)
      ensures trace == old(trace) + [View(memory)]
    {
      var ended: set<string>, later: int := *, *;
      running := running - ended;
      now := now + if later > 0 then later else 0;
      hide Recorded, AllSafe, AllFinished, AllTold, Ascribed, Loadable;
      Append(memory);
    }

    method Append(ghost memory: set<string>)
      requires Safe(View(memory)) && Steps()
      modifies this`past, this`trace
      ensures Good(memory) && trace == old(trace) + [View(memory)]
    {
      hide Recorded, AllSafe, AllFinished, AllTold, Ascribed, Safe;
      RecordedMore(past, trace, View(memory));
      SafeMore(trace, View(memory));
      past := past + [World(running, disk)];
      trace := trace + [View(memory)];
    }

    method Sleep(duration: nat)
      modifies this`now
      ensures now >= old(now) + duration
    {
      var later: int := *;
      now := now + duration + if later > 0 then later else 0;
    }

    // ---- Macker ----------------------------------------------------------------------------

    /**
     * macker stop, and with force macker rm: after success or an ignorable error nothing of that name runs, and after
     * rm Macker holds nothing of it.
     */
    method Discard(name: string, force: bool, ghost memory: set<string>) returns (r: Outcome)
      requires Good(memory)
      modifies this`running, this`now, this`past, this`trace, this`refusals, this`present
      ensures Good(memory) && running <= old(running) && now >= old(now)
      ensures !r.Failed? ==> name !in running
      ensures present <= old(present) && (!r.Failed? && force ==> name !in present)
      ensures refusals == if r.Failed? then old(refusals) + 1 else old(refusals)
    {
      hide Recorded, AllSafe, AllFinished, AllTold, Ascribed, Loadable, DiskNames;
      r := *;
      if !r.Failed? { running := running - {name}; }
      if !r.Failed? && force { present := present - {name}; }
      refusals := if r.Failed? then refusals + 1 else refusals;
      Step(memory);
    }

    /** macker ps --all, looked up by name. */
    method Ps(name: string, ghost memory: set<string>) returns (r: Listing)
      requires Good(memory)
      modifies this`running, this`now, this`past, this`trace, this`observed, this`first, this`listed, this`exited
      modifies this`setbacks, this`unanswered, this`denials
      ensures unanswered == old(unanswered) + if r.ListingFailed? then 1 else 0
      ensures denials == old(denials) + if r == Listed(false) then 1 else 0
      ensures first == if old(first).None? then Some(r) else old(first)
      ensures Good(memory) && running <= old(running) && now >= old(now)
      ensures setbacks == if r.ListingFailed? || (Launched(launches, name) && r != Listed(true)) then old(setbacks) + 1
                          else old(setbacks)
      ensures r.NotListed? || r == Listed(false) ==> name !in running
      ensures r == Listed(true) ==> name in old(running)
      ensures observed == if r.Listed? then old(observed) + {Saw(name, r.running, turn)} else old(observed)
      ensures listed == if r == Listed(true) then old(listed) + {name} else old(listed)
      ensures exited == if r == Listed(false) then old(exited) + {name} else old(exited)
    {
      hide Good, Launched;
      r := List(name);
      Step(memory);
    }

    /** Its answer, and what is recorded of that. */
    method List(name: string) returns (r: Listing)
      modifies this`observed, this`first, this`listed, this`exited, this`setbacks, this`unanswered, this`denials
      ensures unanswered == old(unanswered) + if r.ListingFailed? then 1 else 0
      ensures denials == old(denials) + if r == Listed(false) then 1 else 0
      ensures first == if old(first).None? then Some(r) else old(first)
      ensures setbacks == if r.ListingFailed? || (Launched(launches, name) && r != Listed(true)) then old(setbacks) + 1
                          else old(setbacks)
      ensures r.NotListed? || r == Listed(false) ==> name !in running
      ensures r == Listed(true) ==> name in running
      ensures observed == if r.Listed? then old(observed) + {Saw(name, r.running, turn)} else old(observed)
      ensures listed == if r == Listed(true) then old(listed) + {name} else old(listed)
      ensures exited == if r == Listed(false) then old(exited) + {name} else old(exited)
    {
      hide Launched;
      var fails: bool, shown: bool := *, *;
      r := if fails then ListingFailed
           else if name in running then Listed(true) else if shown then Listed(false) else NotListed;
      first := if first.None? then Some(r) else first;
      if r.Listed? { observed := observed + {Saw(name, r.running, turn)}; }
      if r == Listed(true) { listed := listed + {name}; }
      if r == Listed(false) { exited, denials := exited + {name}, denials + 1; }
      if r.ListingFailed? { unanswered := unanswered + 1; }
      if r.ListingFailed? || (Launched(launches, name) && r != Listed(true)) { setbacks := setbacks + 1; }
    }

    /** macker inspect: the state of the native process, which may end before its launcher does. */
    method Inspect(name: string, ghost memory: set<string>) returns (r: Inspection)
      requires Good(memory)
      modifies this`running, this`now, this`past, this`trace, this`observed, this`setbacks
      modifies this`unanswered, this`denials, this`seen
      ensures Good(memory) && running <= old(running) && now >= old(now)
      ensures unanswered == old(unanswered) + if r.Undecodable? then 1 else 0
      ensures denials == old(denials) + if r.Inspected? && !r.running then 1 else 0
      ensures seen == r
      ensures observed == if r.Inspected? then old(observed) + {Saw(name, r.running, turn)} else old(observed)
      ensures setbacks == if r.Undecodable? || (r.Inspected? && Launched(launches, name) && !r.running)
                          then old(setbacks) + 1 else old(setbacks)
    {
      hide Good, Launched;
      r := *;
      if r.Inspected? { observed := observed + {Saw(name, r.running, turn)}; }
      if r.Inspected? && !r.running { denials := denials + 1; }
      if r.Undecodable? { unanswered := unanswered + 1; }
      seen := r;
      if r.Undecodable? || (r.Inspected? && Launched(launches, name) && !r.running) { setbacks := setbacks + 1; }
      Step(memory);
    }

    lemma MayRun(name: string, memory: set<string>)
      requires Good(memory) && name in memory && (clean ==> name in DiskNames(disk))
      ensures Safe(View(memory).(running := running + {name}))
    {
    }

    /** The command itself, which even failing may leave the container running. */
    method Launch(name: string, image: string) returns (r: RunResult)
      modifies this`running, this`present, this`starts, this`launches, this`setbacks
      ensures running == old(running) + {name} && present == old(present) + {name}
      ensures starts == if r.Started? then old(starts) + 1 else old(starts)
      ensures launches == old(launches) + [Ran(name, r)]
      ensures setbacks == if r.RunFailed? || (r.ImageMissing? && Pulled(image, true) in old(launches))
                          then old(setbacks) + 1 else old(setbacks)
    {
      r := *;
      running, present := running + {name}, present + {name};
      if r.Started? { starts := starts + 1; }
      if r.RunFailed? || (r.ImageMissing? && Pulled(image, true) in launches) { setbacks := setbacks + 1; }
      launches := launches + [Ran(name, r)];
    }

    /** macker run --detach: ownership has to be on disk before. */
    method Run(name: string, image: string, ghost memory: set<string>) returns (r: RunResult)
      requires Good(memory) && name in memory && (clean ==> name in DiskNames(disk))
      modifies this`running, this`present, this`now, this`past, this`trace, this`starts, this`launches
      modifies this`setbacks
      ensures Good(memory) && running <= old(running) + {name} && now >= old(now)
      ensures present == old(present) + {name}
      ensures starts == if r.Started? then old(starts) + 1 else old(starts)
      ensures launches == old(launches) + [Ran(name, r)]
      ensures setbacks == if r.RunFailed? || (r.ImageMissing? && Pulled(image, true) in old(launches))
                          then old(setbacks) + 1 else old(setbacks)
    {
      hide History, Safe;
      MayRun(name, memory);
      ghost var next := View(memory).(running := running + {name});
      r := Launch(name, image);
      assert View(memory) == next;
      Step(memory);
    }

    /** macker pull */
    method Pull(image: string) returns (ok: bool)
      modifies this`launches, this`setbacks
      ensures launches == old(launches) + [Pulled(image, ok)]
      ensures setbacks == if ok then old(setbacks) else old(setbacks) + 1
    {
      ok := *;
      launches := launches + [Pulled(image, ok)];
      if !ok { setbacks := setbacks + 1; }
    }

    /** Making the run arguments. */
    method Prepare() returns (ok: bool)
      modifies this`setbacks
      ensures setbacks == if ok then old(setbacks) else old(setbacks) + 1
    {
      ok := *;
      if !ok { setbacks := setbacks + 1; }
    }

    /** macker logs: only how it ends. */
    method Logs() returns (r: Outcome)
      modifies this`missedLogs
      ensures missedLogs == if r.Succeeded? then old(missedLogs) else old(missedLogs) + 1
    {
      r := *;
      if !r.Succeeded? { missedLogs := missedLogs + 1; }
    }

    // ---- Files -----------------------------------------------------------------------------

    /** writePrivateFile: the rename is atomic, but an error after it leaves the new file in place. */
    method WriteJournal(records: seq<Record>, ghost memory: set<string>) returns (ok: bool)
      requires Good(memory) && Loadable(records) && memory <= DiskNames(records)
      modifies this`disk, this`clean, this`failedWrites, this`past, this`trace
      ensures Good(memory)
      ensures clean == ok && failedWrites == if ok then old(failedWrites) else old(failedWrites) + 1
      ensures if ok then disk == records else disk == records || disk == old(disk)
    {
      hide Recorded, AllSafe, AllFinished, AllTold, Ascribed, Loadable;
      var installed: bool := *;
      ok := *;
      if ok || installed { disk := records; }
      clean := ok;
      failedWrites := if ok then failedWrites else failedWrites + 1;
      Append(memory);
    }

    method ReadJournal() returns (ok: bool, body: seq<Record>)
      modifies this`unreadable
      ensures ok ==> body == disk
      ensures !ok ==> unreadable
    {
      ok := *;
      body := if ok then disk else [];
      unreadable := unreadable || !ok;
    }

    method WriteLog(file: string) returns (r: Outcome)
      modifies this`logs, this`missedLogs, this`logFiles
      ensures logs == if r.Succeeded? then old(logs) + 1 else old(logs)
      ensures missedLogs == if r.Succeeded? then old(missedLogs) else old(missedLogs) + 1
      ensures logFiles == old(logFiles) + {file} || (!r.Succeeded? && logFiles == old(logFiles))
    {
      var applied: bool := *;
      r := *;
      if r.Succeeded? || applied { logFiles := logFiles + {file}; }
      if r.Succeeded? { logs := logs + 1; } else { missedLogs := missedLogs + 1; }
    }

    method RemoveLog(file: string)
      modifies this`missedLogs, this`logFiles
      ensures logFiles == old(logFiles) - {file} || (logFiles == old(logFiles) && missedLogs > old(missedLogs))
      ensures missedLogs >= old(missedLogs)
    {
      var fails: bool := *;
      if fails { missedLogs := missedLogs + 1; } else { logFiles := logFiles - {file}; }
    }

    /** umount, which may take effect although it fails; a mount that is missing anyway is no failure. */
    method Unmount(target: string) returns (r: Outcome)
      modifies this`mounts, this`refusals
      ensures mounts == old(mounts) - {target} || (r.Failed? && mounts == old(mounts))
      ensures refusals == if r.Failed? then old(refusals) + 1 else old(refusals)
    {
      var applied: bool := *;
      r := *;
      if !r.Failed? || applied { mounts := mounts - {target}; }
      refusals := if r.Failed? then refusals + 1 else refusals;
    }

    /** os.RemoveAll of a materialized volume. */
    method RemoveVolume(path: string) returns (r: Outcome)
      modifies this`volumes, this`refusals
      ensures volumes == old(volumes) - {path} || (r.Failed? && volumes == old(volumes))
      ensures refusals == if r.Failed? then old(refusals) + 1 else old(refusals)
    {
      var applied: bool := *;
      r := *;
      if !r.Failed? || applied { volumes := volumes - {path}; }
      refusals := if r.Failed? then refusals + 1 else refusals;
    }

    /** Mounts and volumes made for the run arguments. */
    method Materialize(targets: seq<string>, paths: seq<string>)
      modifies this`mounts, this`volumes
      ensures mounts == old(mounts) + (set t | t in targets) && volumes == old(volumes) + (set p | p in paths)
    {
      mounts := mounts + (set t | t in targets);
      volumes := volumes + (set p | p in paths);
    }

    // ---- The Pod API -----------------------------------------------------------------------

    /** updateStatus, with its conflicts; a Pod that is gone is told apart from any other error. */
    method Report(container: string, pod: PodStatuses.Pod, phase: PodStatuses.Phase, update: Update, running: bool,
                  ghost memory: set<string>) returns (r: PutResult)
      requires Good(memory) && running == (phase == PodStatuses.Running) && turn.pod == Some(pod)
      requires Disciplined(ReportOfUpdate(container, phase, update, turn, now, observed, removed, Stored))
      modifies this`reports, this`setbacks, this`running, this`now, this`past, this`trace
      ensures Good(memory) && this.running <= old(this.running) && now >= old(now)
      ensures setbacks == if r.Stored? then old(setbacks) else old(setbacks) + 1
      ensures old(reports) < reports && |reports| == |old(reports)| + 1
      ensures Said(Last(reports))
      ensures Bare(Last(reports)) == ReportOfUpdate(container, phase, update, turn, old(now), observed, removed, r)
    {
      hide PodStatuses.AllSay, Disciplined, Recorded, AllSafe, AllFinished, AllTold, Ascribed, Safe;
      var server := new PodStatuses.StatusServer();
      var stored := PodStatuses.UpdateStatus(server, pod, update.hostIP, phase, update.ip, update.reason,
                                             update.message, running, update.restartCount, update.inspection, now);
      var gone: bool := *;
      r := if stored.Some? then Stored else if gone then PodGone else PutFailed;
      if !r.Stored? { setbacks := setbacks + 1; }
      ghost var told := StatusReport(container, phase, update, turn, now, observed, removed, r, server.puts,
                                     server.answers);
      assert PodStatuses.Retried(told.answers, server.lost, told.result.Stored?);
      PutsImmaterial(told);
      ToldMore(reports, told);
      AscribedMore(reports, told, begun);
      reports := reports + [told];
      Step(memory);
    }

    // ---- What is only recorded -------------------------------------------------------------

    /**
     * Before a start: if the Pod comes back from a deletion the journal may not know of, it is live now but was listed
     * as being deleted before.
     */
    method Resurrect(key: string, ghost unjournaled: bool, ghost memory: set<string>)
      requires Good(memory) && (unjournaled ==> turn.live && turn.key == key && key in deletions)
      modifies this`clean, this`resurrected, this`past, this`trace
      ensures Good(memory) && clean == (old(clean) && !unjournaled)
      ensures resurrected == if unjournaled then old(resurrected) + {key} else old(resurrected)
    {
      hide Recorded, AllSafe, AllFinished, AllTold, Ascribed, Loadable, DiskNames;
      if unjournaled {
        RecordedGrows(past, trace, strays, loaded, resurrected, resurrected + {key});
        clean, resurrected := false, resurrected + {key};
      }
      assert Safe(View(memory));
      Append(memory);
    }

    ghost method BeginRound()
      modifies this`ended, this`exited, this`removed, this`retired, this`opening
      ensures ended == [] && exited == {} && removed == {} && retired == {} && opening == failedWrites
    {
      ended, exited, removed, retired, opening := [], {}, {}, {}, failedWrites;
    }

    /** A pass is over. */
    ghost method EndPass()
      requires opening <= failedWrites
      modifies this`rounds
      ensures rounds == old(rounds) + [Reconciled(ended, failedWrites - opening)]
    {
      rounds := rounds + [Reconciled(ended, failedWrites - opening)];
    }

    ghost method EndDrain(left: set<string>, setbacks: nat, releasable: bool)
      modifies this`rounds
      ensures rounds == old(rounds) + [Drained(left, setbacks, releasable)]
    {
      rounds := rounds + [Drained(left, setbacks, releasable)];
    }

    ghost method SetTurn(next: Turn)
      modifies this`turn, this`begun, this`first, this`listed, this`launches, this`deletions
      ensures turn == next && begun == old(begun) + {next} && listed == {} && launches == [] && first == None
      ensures deletions == if next.deleting then old(deletions) + {next.key} else old(deletions)
    {
      turn, begun, first, listed, launches := next, begun + {next}, None, {}, [];
      deletions := if next.deleting then deletions + {next.key} else deletions;
    }

    ghost method BeginPod(next: Turn, memory: set<string>)
      requires Good(memory) && next.number == turn.number + 1
      modifies this`turn, this`begun, this`first, this`listed, this`launches, this`deletions
      ensures Good(memory) && turn == next && begun == old(begun) + {next} && listed == {} && launches == []
      ensures first == None
      ensures deletions == if next.deleting then old(deletions) + {next.key} else old(deletions)
    {
      hide Recorded, AllSafe, AllFinished, AllTold, Ascribed, Safe, History;
      Parts();
      AscribedNext(reports, turn, begun, next);
      SetTurn(next);
      Whole();
    }

    ghost method EndPod(errors: nat, managed: bool, waiting: bool)
      modifies this`ended
      ensures ended == old(ended) +
                [TurnEnd(turn, errors, managed, waiting, if reports == [] then None else Some(Last(reports)))]
    {
      ended := ended + [TurnEnd(turn, errors, managed, waiting, if reports == [] then None else Some(Last(reports)))];
    }

    /** What was removed no longer runs. */
    ghost method MarkRemoved(container: string)
      requires container !in running
      modifies this`removed
      ensures removed == old(removed) + {container}
    {
      removed := removed + {container};
    }

    /** An exited container leaves without a removal only under a policy that ends its Pod. */
    ghost method MarkRetired(container: string, policy: Policy)
      requires container in exited && EndsPods(policy)
      modifies this`retired
      ensures retired == old(retired) + {container}
    {
      retired := retired + {container};
    }

    /** The manager's map may change as long as what runs stays named. */
    lemma StillGood(before: set<string>, after: set<string>)
      requires Good(before) && running <= after + strays
      ensures Good(after)
    {
    }
  }
}
