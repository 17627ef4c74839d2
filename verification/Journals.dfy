/** Managed workloads, their container names, and the ownership journal's records. */
module Journals {
  import opened Text
  import opened AddressPlan

  /** managedWorkload; a zero time is None. */
  datatype Workload = Workload(uid: string, namespace: string, name: string, podContainer: string, container: string,
                               ip: IPText, restartCount: Int32, hostNetwork: bool, retained: bool,
                               volumePaths: seq<string>, nfsMounts: seq<string>,
                               logFile: string, logExpiresAt: Option<int>, retryAfter: Option<int>)

  /** workloadJournalRecord: everything but the retry time. */
  datatype Record = Record(uid: string, namespace: string, name: string, podContainer: string, container: string,
                           ip: IPText, restartCount: Int32, hostNetwork: bool, retained: bool,
                           volumePaths: seq<string>, nfsMounts: seq<string>,
                           logFile: string, logExpiresAt: Option<int>)

  function ToRecord(w: Workload): Record {
    Record(w.uid, w.namespace, w.name, w.podContainer, w.container, w.ip, w.restartCount, w.hostNetwork, w.retained,
           w.volumePaths, w.nfsMounts, w.logFile, w.logExpiresAt)
  }

  function FromRecord(r: Record): Workload {
    Workload(r.uid, r.namespace, r.name, r.podContainer, r.container, r.ip, r.restartCount, r.hostNetwork, r.retained,
             r.volumePaths, r.nfsMounts, r.logFile, r.logExpiresAt, None)
  }

  /** A Go pointer map, keyed by UID. */
  type Workloads = map<string, Workload>

  // ---- Container names ---------------------------------------------------------------------

  const MAX_CONTAINER_NAME := 120

  predicate Plain(c: char) {
    LowerAlnum(c) || c == '-' || c == '_' || c == '.'
  }

  predicate Edge(c: char) {
    c == '-' || c == '.' || c == '_'
  }

  function Flatten(s: string): (r: string)
    ensures |r| == |s| && forall i :: 0 <= i < |s| ==> r[i] == if Plain(s[i]) then s[i] else '-'
  {
    seq(|s|, i requires 0 <= i < |s| => if Plain(s[i]) then s[i] else '-')
  }

  function Flat(u: Unicode, s: string): string {
    Flatten(Lower(u, s))
  }

  /** The trims and the cut. */
  function Settle(flat: string): string {
    var t := Trim(flat, Edge);
    if |t| > MAX_CONTAINER_NAME then TrimRight(t[..MAX_CONTAINER_NAME], Edge) else t
  }

  function PodPart(namespace: string, name: string): string {
    "maclet-" + namespace + "-" + name
  }

  function FullName(namespace: string, name: string, uid: string): string {
    PodPart(namespace, name) + if uid != "" then "-" + uid else ""
  }

  function ContainerName(u: Unicode, namespace: string, name: string, uid: string): string {
    Settle(Flat(u, FullName(namespace, name, uid)))
  }

  /** workloadContainerName: the character loop of the source, then the trims. */
  method WorkloadContainerName(u: Unicode, namespace: string, podName: string, uid: string) returns (name: string)
    ensures name == ContainerName(u, namespace, podName, uid)
  {
    name := "maclet-" + namespace + "-" + podName;
    if uid != "" { name := name + "-" + uid; }
    assert name == FullName(namespace, podName, uid);
    name := Lower(u, name);
    var built := "";
    for i := 0 to |name|
      invariant |built| == i && forall j :: 0 <= j < i ==> built[j] == if Plain(name[j]) then name[j] else '-'
    {
      built := built + if Plain(name[i]) then [name[i]] else "-";
    }
    assert built == Flatten(name);
    name := Trim(built, Edge);
    if |name| > MAX_CONTAINER_NAME {
      name := TrimRight(name[..MAX_CONTAINER_NAME], Edge);
    }
  }

  lemma {:induction false} TrimRightIs(s: string, k: nat)
    requires k <= |s| && (forall i :: k <= i < |s| ==> Edge(s[i])) && (k == 0 || !Edge(s[k - 1]))
    ensures TrimRight(s, Edge) == s[..k]
  {
    if k < |s| {
      TrimRightIs(s[..|s| - 1], k);
      assert s[..|s| - 1][..k] == s[..k];
    } else {
      assert s[..k] == s;
    }
  }

  /** Cutting before trimming or after it gives the same. */
  lemma CutThenTrim(flat: string, n: nat)
    requires n <= |flat|
    ensures var t := TrimRight(flat, Edge);
            (if |t| > n then TrimRight(t[..n], Edge) else t) == TrimRight(flat[..n], Edge)
  {
    hide TrimRight, Edge;
    var t := TrimRight(flat, Edge);
    if |t| > n {
      assert t[..n] == flat[..n];
    } else {
      TrimRightIs(flat[..n], |t|);
      assert flat[..n][..|t|] == t;
    }
  }

  lemma TrimLeftSame(flat: string)
    requires flat != "" && !Edge(flat[0])
    ensures TrimLeft(flat, Edge) == flat
  {
  }

  /** Settling a text without an edge in front. */
  lemma SettleCut(flat: string)
    requires flat != "" && !Edge(flat[0])
    ensures Settle(flat) == TrimRight(if |flat| > MAX_CONTAINER_NAME then flat[..MAX_CONTAINER_NAME] else flat, Edge)
  {
    hide TrimRight, TrimLeft, Edge;
    TrimLeftSame(flat);
    if |flat| > MAX_CONTAINER_NAME { CutThenTrim(flat, MAX_CONTAINER_NAME); }
  }

  ghost predicate PlainFrom(s: string) {
    && s != "" && s[0] == 'm' && !Edge(s[|s| - 1])
    && forall i :: 0 <= i < |s| ==> Plain(s[i])
  }

  lemma {:induction false} TrimmedPlain(s: string)
    requires s != "" && s[0] == 'm' && forall i :: 0 <= i < |s| ==> Plain(s[i])
    ensures PlainFrom(TrimRight(s, Edge))
  {
    if Edge(s[|s| - 1]) { TrimmedPlain(s[..|s| - 1]); }
  }

  lemma FlatPlain(u: Unicode, namespace: string, name: string, uid: string)
    requires Standard(u)
    ensures var flat := Flat(u, FullName(namespace, name, uid));
            flat != "" && flat[0] == 'm' && !Edge(flat[0]) && forall i :: 0 <= i < |flat| ==> Plain(flat[i])
  {
    var full := FullName(namespace, name, uid);
    assert full[0] == 'm' && LowerAlnum('m');
  }

  /** Every Pod gets a container name the loader accepts, however odd its namespace, name and UID. */
  lemma ContainerNameValid(u: Unicode, namespace: string, name: string, uid: string)
    requires Standard(u)
    ensures PlainFrom(ContainerName(u, namespace, name, uid))
    ensures |ContainerName(u, namespace, name, uid)| <= MAX_CONTAINER_NAME
  {
    hide Flat, Settle, FullName, PlainFrom;
    var flat := Flat(u, FullName(namespace, name, uid));
    FlatPlain(u, namespace, name, uid);
    SettleCut(flat);
    TrimmedPlain(if |flat| > MAX_CONTAINER_NAME then flat[..MAX_CONTAINER_NAME] else flat);
  }

  /** One character of a container name. */
  ghost function Character(u: Unicode, c: char): char {
    var l := u.lower(c);
    if 'a' <= l <= 'z' || '0' <= l <= '9' || l == '-' || l == '_' || l == '.' then l else '-'
  }

  /**
   * Character by character a container name is maclet, namespace, name and UID with hyphens between them. It goes as
   * far as these and the limit allow, but for separators at its end.
   */
  lemma ContainerNameReads(u: Unicode, namespace: string, name: string, uid: string)
    requires Standard(u)
    ensures var full := "maclet-" + namespace + "-" + name + if uid == "" then "" else "-" + uid;
            var c, limit := ContainerName(u, namespace, name, uid), if |full| < 120 then |full| else 120;
            && |c| <= limit && (forall i :: 0 <= i < |c| ==> c[i] == Character(u, full[i]))
            && (|c| > 0 ==> LowerAlnum(c[|c| - 1]))
            && forall i :: |c| <= i < limit ==> !LowerAlnum(Character(u, full[i]))
  {
    hide Settle, Flat, Character, FullName, Standard, LowerAlnum;
    var full := "maclet-" + namespace + "-" + name + if uid == "" then "" else "-" + uid;
    FullReads(namespace, name, uid);
    FlatPlain(u, namespace, name, uid);
    FlatReads(u, full);
    SettledReads(Flat(u, full));
  }

  lemma FullReads(namespace: string, name: string, uid: string)
    ensures FullName(namespace, name, uid) ==
              "maclet-" + namespace + "-" + name + if uid == "" then "" else "-" + uid
  {
  }

  /** What settling keeps: the beginning, up to the last letter or digit within the limit. */
  lemma SettledReads(flat: string)
    requires flat != "" && !Edge(flat[0]) && forall i :: 0 <= i < |flat| ==> Plain(flat[i])
    ensures var c, limit := Settle(flat), if |flat| < 120 then |flat| else 120;
            && |c| <= limit && (forall i :: 0 <= i < |c| ==> c[i] == flat[i])
            && (|c| > 0 ==> LowerAlnum(c[|c| - 1]))
            && forall i :: |c| <= i < limit ==> !LowerAlnum(flat[i])
  {
    hide Settle;
    SettleCut(flat);
  }

  lemma FlatReads(u: Unicode, s: string)
    ensures |Flat(u, s)| == |s| && forall i :: 0 <= i < |s| ==> Flat(u, s)[i] == Character(u, s[i])
  {
  }

  lemma FlatPrefix(u: Unicode, s: string, n: nat)
    requires n <= |s|
    ensures |Flat(u, s)| == |s| && Flat(u, s)[..n] == Flat(u, s[..n])
  {
  }

  lemma FullIs(namespace: string, name: string, uid: string)
    requires uid != ""
    ensures FullName(namespace, name, uid) == (PodPart(namespace, name) + "-") + uid
    ensures |PodPart(namespace, name)| == 8 + |namespace| + |name|
  {
  }

  /** Full names that are longer than a container name and agree where they are cut settle to one name. */
  lemma CutNamesCollide(u: Unicode, namespace: string, name: string, uid: string,
                        otherNamespace: string, otherName: string, otherUID: string)
    requires Standard(u)
    requires |FullName(namespace, name, uid)| >= MAX_CONTAINER_NAME
    requires |FullName(otherNamespace, otherName, otherUID)| >= MAX_CONTAINER_NAME
    requires FullName(namespace, name, uid)[..MAX_CONTAINER_NAME] ==
             FullName(otherNamespace, otherName, otherUID)[..MAX_CONTAINER_NAME]
    ensures ContainerName(u, namespace, name, uid) == ContainerName(u, otherNamespace, otherName, otherUID)
  {
    hide FullName;
    SettledCut(u, namespace, name, uid);
    SettledCut(u, otherNamespace, otherName, otherUID);
  }

  lemma SettledCut(u: Unicode, namespace: string, name: string, uid: string)
    requires Standard(u) && |FullName(namespace, name, uid)| >= MAX_CONTAINER_NAME
    ensures ContainerName(u, namespace, name, uid) ==
              TrimRight(Flat(u, FullName(namespace, name, uid)[..MAX_CONTAINER_NAME]), Edge)
  {
    hide Flat, Settle, FullName, Standard, TrimRight, Edge;
    var full := FullName(namespace, name, uid);
    FlatPlain(u, namespace, name, uid);
    FlatPrefix(u, full, MAX_CONTAINER_NAME);
    SettleCut(Flat(u, full));
    assert |full| == MAX_CONTAINER_NAME ==> full[..MAX_CONTAINER_NAME] == full;
  }

  /** Under a namespace and name that fill a container name, every UID gets the same one. */
  lemma LongNamesCollide(u: Unicode, namespace: string, name: string, uid: string, other: string)
    requires Standard(u) && uid != "" && other != "" && |namespace| + |name| >= MAX_CONTAINER_NAME - 9
    ensures ContainerName(u, namespace, name, uid) == ContainerName(u, namespace, name, other)
  {
    hide FullName, PodPart, Standard, ContainerName;
    var front := PodPart(namespace, name) + "-";
    FullIs(namespace, name, uid);
    FullIs(namespace, name, other);
    assert (front + uid)[..MAX_CONTAINER_NAME] == front[..MAX_CONTAINER_NAME] == (front + other)[..MAX_CONTAINER_NAME];
    CutNamesCollide(u, namespace, name, uid, namespace, name, other);
  }

  /** A UID as the API server makes them: lower-case letters, digits and hyphens, ending in no hyphen. */
  ghost predicate PlainUID(uid: string) {
    && uid != "" && LowerAlnum(uid[|uid| - 1])
    && forall i :: 0 <= i < |uid| ==> LowerAlnum(uid[i]) || uid[i] == '-'
  }

  lemma FlatSuffix(u: Unicode, prefix: string, uid: string)
    requires Standard(u) && PlainUID(uid)
    ensures Flat(u, prefix + uid) == Flat(u, prefix) + uid && |Flat(u, prefix)| == |prefix|
  {
    forall i | 0 <= i < |uid| ensures Flat(u, prefix + uid)[|prefix| + i] == uid[i] {
      assert (prefix + uid)[|prefix| + i] == uid[i];
    }
  }

  /** A name that fits is kept whole, and ends in its UID. */
  lemma FittingName(u: Unicode, namespace: string, name: string, uid: string)
    requires Standard(u) && PlainUID(uid) && |FullName(namespace, name, uid)| <= MAX_CONTAINER_NAME
    ensures ContainerName(u, namespace, name, uid) == Flat(u, PodPart(namespace, name) + "-") + uid
  {
    hide Flat, Settle, FullName, PodPart, Standard, TrimRight;
    var front := PodPart(namespace, name) + "-";
    var flat := Flat(u, FullName(namespace, name, uid));
    FullIs(namespace, name, uid);
    FlatPlain(u, namespace, name, uid);
    FlatSuffix(u, front, uid);
    SettleCut(flat);
    assert flat[|flat| - 1] == uid[|uid| - 1];
    TrimRightIs(flat, |flat|);
    assert flat[..|flat|] == flat;
  }

  /** Pods with different UIDs of one length share no container while their names fit. */
  lemma ContainerNamesDistinct(u: Unicode, namespace: string, name: string, uid: string,
                               otherNamespace: string, otherName: string, otherUID: string)
    requires Standard(u) && PlainUID(uid) && PlainUID(otherUID) && |uid| == |otherUID| && uid != otherUID
    requires |FullName(namespace, name, uid)| <= MAX_CONTAINER_NAME
    requires |FullName(otherNamespace, otherName, otherUID)| <= MAX_CONTAINER_NAME
    ensures ContainerName(u, namespace, name, uid) != ContainerName(u, otherNamespace, otherName, otherUID)
  {
    hide ContainerName, FullName, PodPart, Flat, Standard;
    FittingName(u, namespace, name, uid);
    FittingName(u, otherNamespace, otherName, otherUID);
    var c, d := ContainerName(u, namespace, name, uid), ContainerName(u, otherNamespace, otherName, otherUID);
    assert c[|c| - |uid|..] == uid && d[|d| - |otherUID|..] == otherUID;
  }

  /** n times 'a', and the same with another last character. */
  function Alike(n: nat, last: char): (r: string)
    requires n >= 1
    ensures |r| == n && r[n - 1] == last && forall i :: 0 <= i < n - 1 ==> r[i] == 'a'
  {
    seq(n, i => if i == n - 1 then last else 'a')
  }

  /**
   * Exactly when a namespace and name let all UIDs of length n have container names of their own: when namespace, name
   * and UID together fit. As soon as one more character is cut off, two UIDs differing there share a container.
   */
  lemma ContainerNamesDistinctExactly(u: Unicode, namespace: string, name: string, n: nat)
    requires Standard(u) && n >= 1
    ensures (forall uid, other :: PlainUID(uid) && PlainUID(other) && |uid| == n && |other| == n && uid != other ==>
               ContainerName(u, namespace, name, uid) != ContainerName(u, namespace, name, other)) <==>
            |PodPart(namespace, name)| + 1 + n <= MAX_CONTAINER_NAME
  {
    hide ContainerName, FullName, PodPart, Standard;
    if |PodPart(namespace, name)| + 1 + n <= MAX_CONTAINER_NAME {
      forall uid, other | PlainUID(uid) && PlainUID(other) && |uid| == n && |other| == n && uid != other
        ensures ContainerName(u, namespace, name, uid) != ContainerName(u, namespace, name, other)
      {
        FullIs(namespace, name, uid);
        FullIs(namespace, name, other);
        ContainerNamesDistinct(u, namespace, name, uid, namespace, name, other);
      }
    } else {
      var a, b := Alike(n, 'a'), Alike(n, 'b');
      var front := PodPart(namespace, name) + "-";
      FullIs(namespace, name, a);
      FullIs(namespace, name, b);
      assert (front + a)[..MAX_CONTAINER_NAME] == (front + b)[..MAX_CONTAINER_NAME];
      CutNamesCollide(u, namespace, name, a, namespace, name, b);
      assert PlainUID(a) && PlainUID(b) && a[n - 1] != b[n - 1];
    }
  }

  // ---- The two maps ------------------------------------------------------------------------

  ghost predicate Entry(w: Workload, uid: string, retained: bool) {
    w.uid == uid && uid != "" && w.container != "" && w.retained == retained
  }

  /** Every entry sits under its own UID, in the map its flag names. */
  ghost predicate Filed(m: Workloads, retained: bool) {
    forall uid :: uid in m ==> Entry(m[uid], uid, retained)
  }

  lemma FiledAt(m: Workloads, flag: bool, uid: string)
    requires Filed(m, flag) && uid in m
    ensures Entry(m[uid], uid, flag)
  {
  }

  lemma FiledPut(m: Workloads, flag: bool, w: Workload)
    requires Filed(m, flag) && Entry(w, w.uid, flag)
    ensures Filed(m[w.uid := w], flag)
  {
  }

  lemma FiledDrop(m: Workloads, flag: bool, uid: string)
    requires Filed(m, flag)
    ensures Filed(m - {uid}, flag)
  {
  }

  /** The container names of a map. */
  ghost function Names(m: Workloads): set<string> {
    set uid | uid in m :: m[uid].container
  }

  lemma NameOf(m: Workloads, uid: string)
    requires uid in m
    ensures m[uid].container in Names(m)
  {
  }

  lemma NamesSame(m: Workloads, uid: string, w: Workload)
    requires uid in m && m[uid].container == w.container
    ensures Names(m[uid := w]) == Names(m)
  {
    var n := m[uid := w];
    forall u | u in m ensures u in n && n[u].container == m[u].container {}
    forall x | x in Names(m) ensures x in Names(n) {
      var u :| u in m && m[u].container == x;
      assert n[u].container == x;
    }
  }

  lemma NamesAdd(m: Workloads, uid: string, w: Workload)
    requires uid !in m
    ensures Names(m[uid := w]) == Names(m) + {w.container}
  {
    var n := m[uid := w];
    forall x | x in Names(m) ensures x in Names(n) {
      var u :| u in m && m[u].container == x;
      assert n[u].container == x;
    }
    assert n[uid].container == w.container;
  }

  lemma NamesDrop(m: Workloads, uid: string)
    ensures Names(m - {uid}) <= Names(m)
    ensures Names(m) <= Names(m - {uid}) + if uid in m then {m[uid].container} else {}
  {
    var n := m - {uid};
    forall x | x in Names(m) && (uid in m ==> x != m[uid].container) ensures x in Names(n) {
      var u :| u in m && m[u].container == x;
      assert u in n && n[u].container == x;
    }
  }

  // ---- The journal on disk -----------------------------------------------------------------

  /** Ownership of this container by this UID is on disk. */
  ghost predicate OnDisk(disk: seq<Record>, uid: string, container: string) {
    exists r :: r in disk && !r.retained && r.uid == uid && r.container == container
  }

  /** The containers a journal claims. */
  ghost function DiskNames(disk: seq<Record>): set<string> {
    set r | r in disk && !r.retained :: r.container
  }

  /** What runs without the journal claiming it. */
  ghost function Unclaimed(running: set<string>, disk: seq<Record>): set<string> {
    running - DiskNames(disk)
  }

  /** A journal holds two maps: one record per entry, in any order. */
  ghost predicate Holds(disk: seq<Record>, workloads: Workloads, retained: Workloads) {
    && |disk| == |workloads| + |retained|
    && (forall uid :: uid in workloads ==> ToRecord(workloads[uid]) in disk)
    && (forall uid :: uid in retained ==> ToRecord(retained[uid]) in disk)
    && forall r :: r in disk ==>
         var m := if r.retained then retained else workloads;
         r.uid in m && r == ToRecord(m[r.uid])
  }

  /** What the loader accepts and loses nothing of: complete records, no key twice. */
  ghost predicate Loadable(disk: seq<Record>) {
    && AllComplete(disk)
    && forall r, s :: r in disk && s in disk && r.uid == s.uid && r.retained == s.retained ==> r == s
  }

  predicate Complete(r: Record) {
    r.uid != "" && r.container != ""
  }

  ghost predicate AllComplete(disk: seq<Record>) {
    forall r :: r in disk ==> Complete(r)
  }

  lemma HoldsInAnyOrder(disk: seq<Record>, sorted: seq<Record>, workloads: Workloads, retained: Workloads)
    requires Holds(disk, workloads, retained) && multiset(sorted) == multiset(disk)
    ensures Holds(sorted, workloads, retained)
  {
    hide ToRecord;
    assert |sorted| == |multiset(sorted)| == |multiset(disk)| == |disk|;
    forall r ensures r in sorted <==> r in disk {
      assert r in sorted <==> r in multiset(sorted);
    }
  }

  lemma HoldsLoadable(disk: seq<Record>, workloads: Workloads, retained: Workloads)
    requires Holds(disk, workloads, retained) && Filed(workloads, false) && Filed(retained, true)
    ensures Loadable(disk)
  {
  }

  lemma HoldsNames(disk: seq<Record>, workloads: Workloads, retained: Workloads)
    requires Holds(disk, workloads, retained) && Filed(workloads, false)
    ensures DiskNames(disk) == Names(workloads)
    ensures forall uid :: uid in workloads ==> OnDisk(disk, uid, workloads[uid].container)
  {
    forall uid | uid in workloads
      ensures OnDisk(disk, uid, workloads[uid].container) && workloads[uid].container in DiskNames(disk)
    {
      var r := ToRecord(workloads[uid]);
      assert r in disk && !r.retained && r.uid == uid && r.container == workloads[uid].container;
    }
    forall x | x in DiskNames(disk) ensures x in Names(workloads) {
      var r :| r in disk && !r.retained && r.container == x;
      assert workloads[r.uid].container == x;
    }
  }

  lemma OnDiskName(disk: seq<Record>, uid: string, container: string)
    requires OnDisk(disk, uid, container)
    ensures container in DiskNames(disk)
  {
  }

  // ---- Loading -----------------------------------------------------------------------------

  /** The map the loader fills, record by record. */
  function Loaded(disk: seq<Record>, retained: bool): Workloads {
    if disk == [] then map[]
    else
      var r, m := disk[|disk| - 1], Loaded(disk[..|disk| - 1], retained);
      if r.retained == retained then m[r.uid := FromRecord(r)] else m
  }

  /** A record of a loadable journal is loaded as it is. */
  lemma {:induction false} LoadedHas(disk: seq<Record>, retained: bool, r: Record)
    requires Loadable(disk) && r in disk && r.retained == retained
    ensures r.uid in Loaded(disk, retained) && Loaded(disk, retained)[r.uid] == FromRecord(r)
  {
    hide FromRecord;
    var n := |disk| - 1;
    var last := disk[n];
    assert disk == disk[..n] + [last];
    if last.uid != r.uid || last.retained != r.retained {
      LoadedHas(disk[..n], retained, r);
    }
  }

  /** Every entry comes from a record. */
  lemma {:induction false} LoadedFrom(disk: seq<Record>, retained: bool, uid: string)
    requires uid in Loaded(disk, retained)
    ensures exists r :: r in disk && r.retained == retained && r.uid == uid &&
                        Loaded(disk, retained)[uid] == FromRecord(r)
  {
    hide FromRecord;
    var n := |disk| - 1;
    var last := disk[n];
    assert last in disk;
    if !(last.retained == retained && last.uid == uid) {
      LoadedFrom(disk[..n], retained, uid);
    }
  }

  /** The retry time is not journaled. */
  ghost function Forgetful(m: Workloads): Workloads {
    map uid | uid in m :: m[uid].(retryAfter := None)
  }

  /** One of the two maps, loaded from a journal that holds both. */
  lemma OneMapBack(disk: seq<Record>, retained: bool, m: Workloads)
    requires Loadable(disk) && Filed(m, retained)
    requires forall uid :: uid in m ==> ToRecord(m[uid]) in disk
    requires forall r :: r in disk && r.retained == retained ==> r.uid in m && r == ToRecord(m[r.uid])
    ensures Loaded(disk, retained) == Forgetful(m)
  {
    hide Loaded, Loadable;
    var loaded := Loaded(disk, retained);
    forall uid | uid in m
      ensures uid in loaded && loaded[uid] == Forgetful(m)[uid]
    {
      LoadedHas(disk, retained, ToRecord(m[uid]));
    }
    forall uid | uid in loaded
      ensures uid in m
    {
      LoadedFrom(disk, retained, uid);
    }
  }

  /** Loading what was persisted gives both maps back, even with one UID in both. */
  lemma RoundTrip(disk: seq<Record>, workloads: Workloads, retained: Workloads)
    requires Holds(disk, workloads, retained) && Filed(workloads, false) && Filed(retained, true)
    ensures Loaded(disk, false) == Forgetful(workloads)
    ensures Loaded(disk, true) == Forgetful(retained)
  {
    hide ToRecord, Loaded, Forgetful, Loadable;
    HoldsLoadable(disk, workloads, retained);
    OneMapBack(disk, false, workloads);
    OneMapBack(disk, true, retained);
  }

  /** What a loader fills is filed. */
  lemma LoadedFiled(disk: seq<Record>, retained: bool)
    requires AllComplete(disk)
    ensures Filed(Loaded(disk, retained), retained)
  {
    hide Loaded;
    forall uid | uid in Loaded(disk, retained) ensures Entry(Loaded(disk, retained)[uid], uid, retained) {
      LoadedFrom(disk, retained, uid);
    }
  }

  /** A loaded map claims exactly what the journal claims. */
  lemma LoadedNames(disk: seq<Record>)
    requires Loadable(disk)
    ensures Names(Loaded(disk, false)) == DiskNames(disk)
    ensures forall uid :: uid in Loaded(disk, false) ==> OnDisk(disk, uid, Loaded(disk, false)[uid].container)
  {
    hide Loaded, Loadable;
    var m := Loaded(disk, false);
    forall x | x in DiskNames(disk) ensures x in Names(m) {
      var r :| r in disk && !r.retained && r.container == x;
      LoadedHas(disk, false, r);
      assert m[r.uid].container == x;
    }
    forall uid | uid in m ensures OnDisk(disk, uid, m[uid].container) && m[uid].container in DiskNames(disk) {
      LoadedFrom(disk, false, uid);
    }
  }

  // ---- Retained records --------------------------------------------------------------------

  predicate Expired(w: Workload, now: int) {
    w.logExpiresAt.Some? && w.logExpiresAt.value <= now
  }

  ghost function Unexpired(m: Workloads, now: int): Workloads {
    map uid | uid in m && (m[uid].logExpiresAt == None || now < m[uid].logExpiresAt.value) :: m[uid]
  }

  lemma UnexpiredFiled(m: Workloads, now: int)
    requires Filed(m, true)
    ensures Filed(Unexpired(m, now), true)
  {
  }
}
