/** Process-tree accounting behind the kubelet resource metrics. */
module ResourceMetrics {

  const TWO_TO_64 := 0x1_0000_0000_0000_0000

  /** One line of ps: CPU time in hundredths of a second, resident memory in bytes. */
  datatype Process = Process(parent: int, cpu: nat, memory: nat)

  type ProcessTable = map<int, Process>

  function Cpu(table: ProcessTable): map<int, nat> {
    map pid | pid in table :: table[pid].cpu
  }

  function Memory(table: ProcessTable): map<int, nat> {
    map pid | pid in table :: table[pid].memory
  }

  // ---- The meaning: parent links and sums over a set of processes --------------------------

  /** The process k parent links above pid, if every link on the way is in the table. */
  ghost predicate IsAncestor(table: ProcessTable, root: int, pid: int, k: nat)
    decreases k
  {
    pid in table && if k == 0 then pid == root else IsAncestor(table, root, table[pid].parent, k - 1)
  }

  ghost predicate Reaches(table: ProcessTable, root: int, pid: int) {
    exists k: nat :: IsAncestor(table, root, pid, k)
  }

  ghost function Tree(table: ProcessTable, root: int): set<int> {
    set pid | pid in table && Reaches(table, root, pid)
  }

  lemma SomePid(s: set<int>)
    ensures s == {} || exists pid :: pid in s
  {
    if forall pid :: pid !in s { assert s == {}; }
  }

  /** The sum of the weights of a set, in any order. */
  ghost function Total(weight: map<int, nat>, s: set<int>): nat
    requires s <= weight.Keys
  {
    if s == {} then 0
    else
      SomePid(s);
      var pid :| pid in s;
      weight[pid] + Total(weight, s - {pid})
  }

  lemma {:induction false} TotalAdd(weight: map<int, nat>, s: set<int>, pid: int)
    requires s <= weight.Keys && pid in s
    ensures Total(weight, s) == weight[pid] + Total(weight, s - {pid})
  {
    var first :| first in s && Total(weight, s) == weight[first] + Total(weight, s - {first});
    if first != pid {
      TotalAdd(weight, s - {first}, pid);
      TotalAdd(weight, s - {pid}, first);
      assert s - {first} - {pid} == s - {pid} - {first};
    }
  }

  lemma {:induction false} TotalUnion(weight: map<int, nat>, s: set<int>, t: set<int>)
    requires s <= weight.Keys && t <= weight.Keys && s !! t
    ensures Total(weight, s + t) == Total(weight, s) + Total(weight, t)
  {
    if s == {} {
      assert s + t == t;
    } else {
      SomePid(s);
      var pid :| pid in s;
      TotalUnion(weight, s - {pid}, t);
      TotalAdd(weight, s, pid);
      TotalAdd(weight, s + t, pid);
      assert s + t - {pid} == s - {pid} + t;
    }
  }

  lemma TotalMonotone(weight: map<int, nat>, s: set<int>, t: set<int>)
    requires s <= t <= weight.Keys
    ensures Total(weight, s) <= Total(weight, t)
  {
    TotalUnion(weight, s, t - s);
    assert s + (t - s) == t;
  }

  // ---- The walk ----------------------------------------------------------------------------

  /** The map from a parent to its children, built in whatever order the table is iterated. */
  method ChildrenByParent(table: ProcessTable) returns (children: map<int, seq<int>>)
    ensures forall parent, pid ::
              parent in children && pid in children[parent] <==> pid in table && table[pid].parent == parent
  {
    children := map[];
    var remaining := table.Keys;
    while remaining != {}
      invariant remaining <= table.Keys
      invariant forall parent, pid ::
                  parent in children && pid in children[parent] <==>
                  pid in table && pid !in remaining && table[pid].parent == parent
      decreases remaining
    {
      SomePid(remaining);
      var pid :| pid in remaining;
      remaining := remaining - {pid};
      var parent := table[pid].parent;
      var siblings := if parent in children then children[parent] else [];
      children := children[parent := siblings + [pid]];
    }
  }

  /** The recursive visitor: the visited set and the two running sums its closure updates. */
  class Walk {
    const table: ProcessTable
    const children: map<int, seq<int>>
    const root: int
    var visited: set<int>
    var cpu: nat
    var memory: nat

    constructor (table: ProcessTable, children: map<int, seq<int>>, root: int)
      ensures this.table == table && this.children == children && this.root == root
      ensures visited == {} && cpu == 0 && memory == 0
    {
      this.table, this.children, this.root := table, children, root;
      visited, cpu, memory := {}, 0, 0;
    }

    ghost predicate Linked() {
      forall parent, pid ::
        parent in children && pid in children[parent] <==> pid in table && table[pid].parent == parent
    }

    /** The sums are exactly those of the visited set, all of it below the root. */
    ghost predicate Accounted()
      reads this
    {
      && Linked()
      && visited <= Tree(table, root)
      && cpu == Total(Cpu(table), visited)
      && memory == Total(Memory(table), visited) % TWO_TO_64
    }

    /** Every child of a visited process is visited, except below those still being walked. */
    ghost predicate ClosedExcept(open: set<int>)
      reads this
    {
      forall pid :: pid in table && table[pid].parent in visited - open ==> pid in visited
    }

    /** Counts one process that was not counted before. */
    method Enter(pid: int)
      requires Accounted() && pid in table && pid !in visited && Reaches(table, root, pid)
      modifies this
      ensures Accounted() && visited == old(visited) + {pid}
    {
      hide Linked, Total;
      TotalAdd(Cpu(table), visited + {pid}, pid);
      TotalAdd(Memory(table), visited + {pid}, pid);
      assert visited + {pid} - {pid} == visited;
      WrapAdd(Total(Memory(table), visited), table[pid].memory);
      visited := visited + {pid};
      cpu := cpu + table[pid].cpu;
      memory := (memory + table[pid].memory) % TWO_TO_64;
    }

    lemma WrapAdd(a: nat, b: nat)
      ensures (a % TWO_TO_64 + b) % TWO_TO_64 == (a + b) % TWO_TO_64
    {
      assert a == a / TWO_TO_64 * TWO_TO_64 + a % TWO_TO_64;
      assert (a + b) / TWO_TO_64 == a / TWO_TO_64 + (a % TWO_TO_64 + b) / TWO_TO_64;
    }

    function Below(pid: int): (below: seq<int>)
      ensures Linked() ==> forall child :: child in below <==> child in table && table[child].parent == pid
    {
      if pid in children then children[pid] else []
    }

    method Visit(pid: int, ghost open: set<int>)
      requires Accounted() && ClosedExcept(open)
      requires pid in table ==> Reaches(table, root, pid)
      modifies this
      ensures Accounted() && ClosedExcept(open)
      ensures old(visited) <= visited
      ensures pid in table ==> pid in visited
      decreases table.Keys - visited, 0
    {
      if pid in visited { return; }
      if pid !in table { return; }
      Enter(pid);
      var below := Below(pid);
      VisitAll(pid, below, open);
      forall child | child in table && table[child].parent in visited - open
        ensures child in visited
      {
        if table[child].parent == pid { assert child in below; }
      }
    }

    method VisitAll(pid: int, below: seq<int>, ghost open: set<int>)
      requires Accounted() && ClosedExcept(open + {pid}) && pid in visited
      requires forall child :: child in below ==> child in table && table[child].parent == pid
      modifies this
      ensures Accounted() && ClosedExcept(open + {pid})
      ensures old(visited) <= visited
      ensures forall child :: child in below ==> child in visited
      decreases table.Keys - visited, 1
    {
      for i := 0 to |below|
        invariant Accounted() && ClosedExcept(open + {pid})
        invariant old(visited) <= visited
        invariant forall j :: 0 <= j < i ==> below[j] in visited
      {
        assert below[i] in below;
        ChildReached(table, root, pid, below[i]);
        assert table.Keys - visited <= table.Keys - old(visited);
        Visit(below[i], open + {pid});
      }
    }
  }

  method ProcessTreeMetrics(table: ProcessTable, root: int) returns (cpu: nat, memory: nat, found: bool)
    ensures found <==> root in table
    ensures cpu == Total(Cpu(table), Tree(table, root))
    ensures memory == Total(Memory(table), Tree(table, root)) % TWO_TO_64
  {
    if root !in table {
      NothingReached(table, root);
      return 0, 0, false;
    }
    var children := ChildrenByParent(table);
    var walk := new Walk(table, children, root);
    assert IsAncestor(table, root, root, 0);
    walk.Visit(root, {});
    ClosedCovers(table, root, walk.visited);
    return walk.cpu, walk.memory, true;
  }

  lemma ChildReached(table: ProcessTable, root: int, parent: int, child: int)
    requires Reaches(table, root, parent)
    requires child in table && table[child].parent == parent
    ensures Reaches(table, root, child)
  {
    var k: nat :| IsAncestor(table, root, parent, k);
    assert IsAncestor(table, root, child, k + 1);
  }

  lemma {:induction false} AncestorInTable(table: ProcessTable, root: int, pid: int, k: nat)
    requires IsAncestor(table, root, pid, k)
    ensures root in table
    decreases k
  {
    if k > 0 { AncestorInTable(table, root, table[pid].parent, k - 1); }
  }

  lemma NothingReached(table: ProcessTable, root: int)
    requires root !in table
    ensures Tree(table, root) == {}
  {
    forall pid | pid in Tree(table, root) ensures false {
      var k: nat :| IsAncestor(table, root, pid, k);
      AncestorInTable(table, root, pid, k);
    }
  }

  lemma {:induction false} ClosedContains(table: ProcessTable, root: int, s: set<int>, pid: int, k: nat)
    requires root in s && IsAncestor(table, root, pid, k)
    requires forall p :: p in table && table[p].parent in s ==> p in s
    ensures pid in s
    decreases k
  {
    if k > 0 { ClosedContains(table, root, s, table[pid].parent, k - 1); }
  }

  /** A set below the root that holds it and is closed under children is the whole tree. */
  lemma ClosedCovers(table: ProcessTable, root: int, s: set<int>)
    requires root in s && s <= Tree(table, root)
    requires forall p :: p in table && table[p].parent in s ==> p in s
    ensures s == Tree(table, root)
  {
    forall pid | pid in Tree(table, root) ensures pid in s {
      var k: nat :| IsAncestor(table, root, pid, k);
      ClosedContains(table, root, s, pid, k);
    }
  }

  // ---- Trees do not double count -----------------------------------------------------------

  /** Of two ancestors of one process, the nearer one lies below the farther one. */
  lemma {:induction false} AncestorsNested(table: ProcessTable, a: int, b: int, pid: int, i: nat, j: nat)
    requires IsAncestor(table, a, pid, i) && IsAncestor(table, b, pid, j) && i <= j
    ensures IsAncestor(table, b, a, j - i)
    decreases i
  {
    if i > 0 { AncestorsNested(table, a, b, table[pid].parent, i - 1, j - 1); }
  }

  /** Two trees share a process exactly when one root lies below the other. */
  lemma TreesDisjoint(table: ProcessTable, a: int, b: int)
    requires a in table && b in table
    ensures Tree(table, a) !! Tree(table, b) <==> !Reaches(table, a, b) && !Reaches(table, b, a)
  {
    assert IsAncestor(table, a, a, 0) && IsAncestor(table, b, b, 0);
    assert a in Tree(table, a) && b in Tree(table, b);
    if pid :| pid in Tree(table, a) && pid in Tree(table, b) {
      var i: nat :| IsAncestor(table, a, pid, i);
      var j: nat :| IsAncestor(table, b, pid, j);
      if i <= j { AncestorsNested(table, a, b, pid, i, j); } else { AncestorsNested(table, b, a, pid, j, i); }
    }
  }

  ghost predicate Unrelated(table: ProcessTable, roots: seq<int>) {
    && (forall i :: 0 <= i < |roots| ==> roots[i] in table)
    && (forall i, j :: 0 <= i < |roots| && 0 <= j < |roots| && i != j ==> !Reaches(table, roots[i], roots[j]))
  }

  ghost function UsageOf(weight: map<int, nat>, table: ProcessTable, roots: seq<int>): nat
    requires weight.Keys == table.Keys
  {
    if roots == [] then 0
    else UsageOf(weight, table, roots[..|roots| - 1]) + Total(weight, Tree(table, roots[|roots| - 1]))
  }

  ghost function Forest(table: ProcessTable, roots: seq<int>): set<int> {
    set pid, i | 0 <= i < |roots| && pid in Tree(table, roots[i]) :: pid
  }

  lemma {:induction false} ForestUsage(weight: map<int, nat>, table: ProcessTable, roots: seq<int>)
    requires weight.Keys == table.Keys && Unrelated(table, roots)
    ensures Forest(table, roots) <= table.Keys
    ensures UsageOf(weight, table, roots) == Total(weight, Forest(table, roots))
  {
    if roots != [] {
      var n := |roots| - 1;
      var init := roots[..n];
      ForestUsage(weight, table, init);
      assert Forest(table, roots) == Forest(table, init) + Tree(table, roots[n]);
      forall pid | pid in Forest(table, init) ensures pid !in Tree(table, roots[n]) {
        var i :| 0 <= i < n && pid in Tree(table, init[i]);
        TreesDisjoint(table, roots[i], roots[n]);
      }
      TotalUnion(weight, Forest(table, init), Tree(table, roots[n]));
    }
  }

  /** Workloads none of which contains another are charged at most the node's own usage. */
  lemma WorkloadsWithinNode(weight: map<int, nat>, table: ProcessTable, roots: seq<int>)
    requires weight.Keys == table.Keys && Unrelated(table, roots)
    ensures UsageOf(weight, table, roots) <= Total(weight, table.Keys)
  {
    ForestUsage(weight, table, roots);
    TotalMonotone(weight, Forest(table, roots), table.Keys);
  }

  /** The node-wide CPU total of one snapshot. */
  method NodeCpu(table: ProcessTable) returns (cpu: nat)
    ensures cpu == Total(Cpu(table), table.Keys)
  {
    cpu := 0;
    var remaining := table.Keys;
    while remaining != {}
      invariant remaining <= table.Keys
      invariant cpu + Total(Cpu(table), remaining) == Total(Cpu(table), table.Keys)
      decreases remaining
    {
      SomePid(remaining);
      var pid :| pid in remaining;
      TotalAdd(Cpu(table), remaining, pid);
      remaining := remaining - {pid};
      cpu := cpu + table[pid].cpu;
    }
  }

  // ---- Counters ----------------------------------------------------------------------------

  /** One reading of a workload: its process-tree usage and the root it was read from. */
  datatype Reading = Reading(current: nat, rootPid: int)

  datatype CounterState = CounterState(initialized: bool, observed: nat, value: nat, rootPid: int)

  /** A Prometheus counter that must not fall when a workload restarts under a new root. */
  class MetricCounter {
    var initialized: bool
    var observed: nat
    var value: nat
    var rootPid: int
    ghost var readings: seq<Reading>

    constructor ()
      ensures Valid() && readings == []
    {
      initialized, observed, value, rootPid, readings := false, 0, 0, 0, [];
    }

    ghost function State(): CounterState
      reads this
    {
      CounterState(initialized, observed, value, rootPid)
    }

    /** The fields are those of the counter after all readings so far. */
    ghost predicate Valid()
      reads this
    {
      State() == After(readings)
    }

    /**
     * The counter charges a reading in full where the root changes, and elsewhere what it grew by. So it covers the
     * reading, never falls, and totals what every incarnation finally used.
     */
    method Update(current: nat, root: int) returns (v: nat)
      requires Valid()
      modifies this
      ensures Valid() && readings == old(readings) + [Reading(current, root)] && v == value
      ensures v == Charges(readings)
      ensures v >= old(value) && v >= current
      ensures GrowsWithinIncarnation(readings) ==> v == FinalReadings(readings)
    {
      ghost var before := readings;
      if !initialized {
        value := current;
        initialized := true;
      } else if rootPid != 0 && root != 0 && rootPid != root {
        value := value + current;
      } else if current >= observed {
        value := value + (current - observed);
      }
      observed := current;
      if root != 0 {
        rootPid := root;
      }
      readings := before + [Reading(current, root)];
      assert readings[..|before|] == before;
      assert Valid();
      CounterNeverFalls(readings, |before|);
      CounterCharges(readings);
      if GrowsWithinIncarnation(readings) { CounterIsTotalUsage(readings); }
      return value;
    }
  }

  ghost function Next(c: CounterState, r: Reading): CounterState {
    var value :=
      if !c.initialized then r.current
      else if c.rootPid != 0 && r.rootPid != 0 && c.rootPid != r.rootPid then c.value + r.current
      else if r.current >= c.observed then c.value + (r.current - c.observed)
      else c.value;
    CounterState(true, r.current, value, if r.rootPid != 0 then r.rootPid else c.rootPid)
  }

  ghost function After(readings: seq<Reading>): CounterState {
    if readings == [] then CounterState(false, 0, 0, 0)
    else Next(After(readings[..|readings| - 1]), readings[|readings| - 1])
  }

  // ---- What the counter charges ------------------------------------------------------------

  /** The reading names another root than the last one that was named; 0 names none. */
  ghost predicate RootChanged(readings: seq<Reading>, j: int) {
    exists i :: 0 <= i < j < |readings| && readings[i].rootPid != 0 && readings[j].rootPid != 0 &&
                readings[i].rootPid != readings[j].rootPid && Unnamed(readings, i + 1, j)
  }

  ghost predicate Unnamed(readings: seq<Reading>, i: int, j: int) {
    forall k :: 0 <= i <= k < j <= |readings| ==> readings[k].rootPid == 0
  }

  /** The first reading, and one of a new root, counts in full; any other for what it is above the one before. */
  ghost function Charge(readings: seq<Reading>, j: nat): nat
    requires j < |readings|
  {
    if j == 0 || RootChanged(readings, j) then readings[j].current
    else if readings[j].current > readings[j - 1].current then readings[j].current - readings[j - 1].current
    else 0
  }

  ghost function ChargesUpTo(readings: seq<Reading>, n: nat): nat
    requires n <= |readings|
  {
    if n == 0 then 0 else ChargesUpTo(readings, n - 1) + Charge(readings, n - 1)
  }

  ghost function Charges(readings: seq<Reading>): nat {
    ChargesUpTo(readings, |readings|)
  }

  lemma {:induction false} ChargesPrefix(readings: seq<Reading>, m: nat, n: nat)
    requires n <= m <= |readings|
    ensures ChargesUpTo(readings[..m], n) == ChargesUpTo(readings, n)
  {
    if n > 0 {
      var j := n - 1;
      ChargesPrefix(readings, m, j);
      assert forall i, k :: 0 <= i <= k <= j ==> (Unnamed(readings[..m], i, k) <==> Unnamed(readings, i, k));
      assert RootChanged(readings[..m], j) <==> RootChanged(readings, j);
    }
  }

  /** The root a counter remembers is the last one named. */
  lemma {:induction false} RootRemembered(readings: seq<Reading>)
    ensures var root, n := After(readings).rootPid, |readings|;
            if root == 0 then Unnamed(readings, 0, n)
            else exists i :: 0 <= i < n && readings[i].rootPid == root && Unnamed(readings, i + 1, n)
    ensures readings != [] ==>
              After(readings).initialized && After(readings).observed == readings[|readings| - 1].current
  {
    if readings != [] {
      var n := |readings| - 1;
      RootRemembered(readings[..n]);
      var root := After(readings[..n]).rootPid;
      if readings[n].rootPid != 0 {
        assert Unnamed(readings, n + 1, n + 1);
      } else if root != 0 {
        var i :| 0 <= i < n && readings[..n][i].rootPid == root && Unnamed(readings[..n], i + 1, n);
        forall k | i + 1 <= k < n + 1 ensures readings[k].rootPid == 0 {
          assert k < n ==> readings[..n][k] == readings[k];
        }
        assert readings[i].rootPid == root && Unnamed(readings, i + 1, n + 1);
      } else {
        forall k | 0 <= k < n + 1 ensures readings[k].rootPid == 0 { assert k < n ==> readings[..n][k] == readings[k]; }
      }
    }
  }

  /** A root is new exactly if it differs from the one remembered. */
  lemma RootChangedAt(readings: seq<Reading>, n: nat)
    requires n + 1 == |readings|
    ensures var root := After(readings[..n]).rootPid;
            RootChanged(readings, n) <==> root != 0 && readings[n].rootPid != 0 && root != readings[n].rootPid
  {
    var before, root := readings[..n], After(readings[..n]).rootPid;
    RootRemembered(before);
    assert forall i :: 0 <= i <= n ==> (Unnamed(before, i, n) <==> Unnamed(readings, i, n));
    if root != 0 {
      var i :| 0 <= i < n && before[i].rootPid == root && Unnamed(before, i + 1, n);
      assert forall j :: 0 <= j < n && readings[j].rootPid != 0 && Unnamed(readings, j + 1, n) ==> j == i;
      assert readings[i].rootPid == root && Unnamed(readings, i + 1, n);
    }
  }

  /** For all readings, the counter is the sum of the charges. */
  lemma {:induction false} CounterCharges(readings: seq<Reading>)
    ensures After(readings).value == Charges(readings)
  {
    if readings != [] {
      var n := |readings| - 1;
      CounterCharges(readings[..n]);
      ChargesPrefix(readings, n, n);
      RootRemembered(readings[..n]);
      RootChangedAt(readings, n);
    }
  }

  /** No two roots are named: the node-wide counter never names one. */
  ghost predicate OneRoot(readings: seq<Reading>, root: int) {
    forall i :: 0 <= i < |readings| ==> readings[i].rootPid in {0, root}
  }

  /** A counter of one root that only grows is its last reading, and a fall of the reading leaves it where it was. */
  lemma {:induction false} OneRootCounts(readings: seq<Reading>, root: int)
    requires OneRoot(readings, root)
    ensures (forall i :: 0 < i < |readings| ==> readings[i - 1].current <= readings[i].current) && readings != [] ==>
              Charges(readings) == readings[|readings| - 1].current
    ensures |readings| > 1 && readings[|readings| - 1].current <= readings[|readings| - 2].current ==>
              Charges(readings) == Charges(readings[..|readings| - 1])
  {
    if |readings| > 1 {
      var n := |readings| - 1;
      OneRootCounts(readings[..n], root);
      ChargesPrefix(readings, n, n);
      assert !RootChanged(readings, n);
      assert Charges(readings) == Charges(readings[..n]) + Charge(readings, n);
    } else if |readings| == 1 {
      assert ChargesUpTo(readings, 1) == ChargesUpTo(readings, 0) + Charge(readings, 0);
    }
  }

  /** Each incarnation's usage only grows, and every reading names its root. */
  ghost predicate GrowsWithinIncarnation(readings: seq<Reading>) {
    && (forall i :: 0 <= i < |readings| ==> readings[i].rootPid != 0)
    && (forall i :: 0 <= i < |readings| - 1 && readings[i].rootPid == readings[i + 1].rootPid
          ==> readings[i].current <= readings[i + 1].current)
  }

  /** The last reading of every incarnation, added up. */
  ghost function FinalReadings(readings: seq<Reading>): nat {
    if readings == [] then 0
    else
      (if |readings| == 1 || readings[0].rootPid != readings[1].rootPid then readings[0].current else 0)
      + FinalReadings(readings[1..])
  }

  lemma {:induction false} FinalReadingsSnoc(readings: seq<Reading>, r: Reading)
    requires readings != []
    ensures var last := readings[|readings| - 1];
            FinalReadings(readings + [r]) + (if last.rootPid == r.rootPid then last.current else 0)
              == FinalReadings(readings) + r.current
  {
    assert (readings + [r])[1..] == readings[1..] + [r];
    if |readings| > 1 {
      FinalReadingsSnoc(readings[1..], r);
      assert (readings + [r])[1] == readings[1];
    } else {
      assert readings[1..] == [] && FinalReadings([r]) == r.current;
    }
  }

  /** Over any number of restarts the counter is what each incarnation finally used, added up. */
  lemma {:induction false} CounterIsTotalUsage(readings: seq<Reading>)
    requires GrowsWithinIncarnation(readings)
    ensures After(readings).value == FinalReadings(readings)
    ensures readings != [] ==> After(readings).observed == readings[|readings| - 1].current &&
                               After(readings).rootPid == readings[|readings| - 1].rootPid
  {
    if readings != [] {
      var n := |readings| - 1;
      var init, r := readings[..n], readings[n];
      assert r.rootPid != 0;
      CounterIsTotalUsage(init);
      if n > 0 {
        var last := init[n - 1];
        assert last == readings[n - 1] && last.rootPid != 0;
        assert last.rootPid == r.rootPid ==> last.current <= r.current;
        FinalReadingsSnoc(init, r);
        assert init + [r] == readings;
      }
    }
  }

  /** Whatever is read, the counter never falls and never lags the last reading. */
  lemma {:induction false} CounterNeverFalls(readings: seq<Reading>, i: nat)
    requires i <= |readings|
    ensures After(readings[..i]).value <= After(readings).value
    ensures After(readings).observed <= After(readings).value
    decreases |readings|
  {
    if i < |readings| {
      var n := |readings| - 1;
      CounterNeverFalls(readings[..n], i);
      assert readings[..n][..i] == readings[..i];
    } else {
      assert readings[..i] == readings;
      if readings != [] { CounterNeverFalls(readings[..|readings| - 1], 0); }
    }
  }
}
