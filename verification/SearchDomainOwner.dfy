/** Who owns the search list: maclet's reconcile, cleanup and leave against outside editors. */
module SearchDomainOwner {
  import opened Text
  import opened SearchDomains

  /** The names a stored list reads back as. */
  function Names(u: Unicode, stored: seq<string>, service: string): seq<string> {
    Parse(u, Listing(stored, service))
  }

  /** The part of a stored list that belongs to someone else. */
  function ForeignIn(u: Unicode, stored: seq<string>, service: string, managed: seq<string>): seq<string> {
    Pick(Normalize(u, Names(u, stored, service)), managed, false)
  }

  ghost predicate AllStable(u: Unicode, names: seq<string>) {
    forall i :: 0 <= i < |names| ==> Stable(u, names[i])
  }

  ghost predicate AllWritable(names: seq<string>) {
    forall i :: 0 <= i < |names| ==> Writable(names[i])
  }

  /** Every name of the list reads back as itself. */
  ghost predicate Settled(u: Unicode, stored: seq<string>, service: string) {
    AllStable(u, Names(u, stored, service))
  }

  /** A list maclet may manage: normal, stable, free of newlines. */
  ghost predicate Publishable(u: Unicode, domains: seq<string>) {
    Normal(domains) && AllStable(u, domains) && AllWritable(domains)
  }

  // ---- What writing a list does ------------------------------------------------------------

  lemma CleanWritable(u: Unicode, raw: string)
    requires Standard(u) && '\n' !in raw
    ensures Writable(Clean(u, raw))
  {
    var t := Trim(raw, u.space);
    hide Trim;
    var d := Clean(u, raw);
    forall i | 0 <= i < |d| ensures d[i] != '\n' && !('A' <= d[i] <= 'Z') {
      assert d[i] == u.lower(t[i]);
      if t[i] == '\n' { TrimMembers(raw, u.space, t[i]); }
    }
    assert NO_SEARCH_VALUE[0] == 'E';
    assert d != "" ==> d[0] != 'E';
  }

  lemma {:induction false} CandidateLines(u: Unicode, lines: seq<string>)
    requires forall i :: 0 <= i < |lines| ==> '\n' !in lines[i]
    ensures forall i :: 0 <= i < |Candidates(u, lines)| ==>
              '\n' !in Candidates(u, lines)[i] &&
              exists k :: 0 <= k < |lines| && Candidates(u, lines)[i] == Trim(lines[k], u.space)
  {
    hide Trim, Contains;
    if lines != [] {
      var n := |lines| - 1;
      CandidateLines(u, lines[..n]);
      var line := Trim(lines[n], u.space);
      if '\n' in line { TrimMembers(lines[n], u.space, '\n'); }
      forall i | 0 <= i < |Candidates(u, lines[..n])|
        ensures exists k :: 0 <= k < |lines| && Candidates(u, lines[..n])[i] == Trim(lines[k], u.space)
      {
        var k :| 0 <= k < n && Candidates(u, lines[..n])[i] == Trim(lines[..n][k], u.space);
        assert lines[k] == lines[..n][k];
      }
    }
  }

  /** What is read is normal and may be written back. */
  lemma NamesWritable(u: Unicode, stored: seq<string>, service: string)
    requires Standard(u)
    ensures Normal(Names(u, stored, service)) && AllWritable(Names(u, stored, service))
  {
    hide Clean, Candidates, Split, Standard, Listing, Dedup, Normal, Writable;
    var lines := Split(Listing(stored, service), '\n');
    var candidates := Candidates(u, lines);
    var names := Names(u, stored, service);
    forall i | 0 <= i < |lines| ensures '\n' !in lines[i] { assert lines[i] in lines; }
    CandidateLines(u, lines);
    NormalizeMembers(u, candidates);
    forall i | 0 <= i < |names| ensures Writable(names[i]) {
      assert names[i] in names;
      var k :| 0 <= k < |candidates| && names[i] == CleanAll(u, candidates)[k];
      CleanWritable(u, candidates[k]);
    }
  }

  /** Well-formed entries without newlines give a settled list. */
  lemma WellFormedSettles(u: Unicode, stored: seq<string>, service: string)
    requires Standard(u) && '\n' !in service
    requires forall i :: 0 <= i < |stored| ==> '\n' !in stored[i] && WellFormed(u, stored[i])
    ensures Settled(u, stored, service)
  {
    hide Clean, Candidates, Split, Standard, Join, Dedup, WellFormed, Stable, Trim;
    var candidates := Candidates(u, Split(Listing(stored, service), '\n'));
    if stored == [] {
      ReadBackEmpty(u, service);
    } else {
      JoinAppend(stored, "", '\n');
      assert Join(stored, '\n') + ['\n'] + "" == Listing(stored, service);
      SplitJoin(stored + [""], '\n');
      assert Split(Listing(stored, service), '\n') == stored + [""];
      CandidateLines(u, stored);
      TrimEmpty(u.space);
      CandidatesSnoc(u, stored, "");
      assert candidates == Candidates(u, stored) + [];
    }
    NormalizeMembers(u, candidates);
    var names := Names(u, stored, service);
    forall i | 0 <= i < |names| ensures Stable(u, names[i]) {
      assert names[i] in names;
      var k :| 0 <= k < |candidates| && names[i] == CleanAll(u, candidates)[k];
      assert candidates == Candidates(u, stored);
      var j :| 0 <= j < |stored| && candidates[k] == Trim(stored[j], u.space);
      CleanTrimmed(u, stored[j]);
      CleanStable(u, stored[j]);
    }
  }

  /** Well-formed requested names give a list maclet may manage. */
  lemma WellFormedPublishable(u: Unicode, requested: seq<string>)
    requires Standard(u)
    requires forall i :: 0 <= i < |requested| ==> '\n' !in requested[i] && WellFormed(u, requested[i])
    ensures Publishable(u, Normalize(u, requested))
  {
    hide Clean, Normal, WellFormed, Stable, Writable, Dedup, Standard;
    var names := Normalize(u, requested);
    NormalizeMembers(u, requested);
    forall i | 0 <= i < |names| ensures Stable(u, names[i]) && Writable(names[i]) {
      assert names[i] in names;
      var k :| 0 <= k < |requested| && names[i] == CleanAll(u, requested)[k];
      CleanStable(u, requested[k]);
      CleanWritable(u, requested[k]);
    }
  }

  /** A publishable list, once written, is what is read, and nothing in it is foreign to itself. */
  lemma WrittenReadsBack(u: Unicode, domains: seq<string>, service: string, managed: seq<string>)
    requires Standard(u) && '\n' !in service && Publishable(u, domains)
    ensures Names(u, StoredFrom(SearchDomainsArgs(domains)), service) == domains
    ensures ForeignIn(u, StoredFrom(SearchDomainsArgs(domains)), service, managed) == Pick(domains, managed, false)
  {
    hide Normalize, Stable, Writable, Parse, Listing, Pick, Standard;
    ReadBack(u, domains, service);
    NormalizeFixed(u, domains);
  }

  /** On a settled list the foreign part is publishable, and so survives being written back. */
  lemma ForeignPublishable(u: Unicode, stored: seq<string>, service: string, managed: seq<string>)
    requires Standard(u) && Settled(u, stored, service)
    ensures Normalize(u, Names(u, stored, service)) == Names(u, stored, service)
    ensures Publishable(u, ForeignIn(u, stored, service, managed))
    ensures Pick(ForeignIn(u, stored, service, managed), managed, false) == ForeignIn(u, stored, service, managed)
  {
    hide Names, Normalize, Pick, Stable, Writable, Normal, Standard;
    var names := Names(u, stored, service);
    NamesWritable(u, stored, service);
    NormalizeFixed(u, names);
    PickMembers(names, managed, false);
    var foreign := Pick(names, managed, false);
    forall i | 0 <= i < |foreign|
      ensures Stable(u, foreign[i]) && Writable(foreign[i]) && foreign[i] !in managed
    {
      assert foreign[i] in foreign;
      var k :| 0 <= k < |names| && names[k] == foreign[i];
    }
    PickAll(foreign, managed, false);
  }

  /** Nothing foreign is left in a list all of whose names are managed. */
  lemma ManagedHasNoForeign(managed: seq<string>)
    ensures Pick(managed, managed, false) == []
  {
    PickAll(managed, managed, true);
  }

  /** A foreign name survives being written back exactly if it is well formed as it was read. */
  lemma RewriteKeepsExactlyStable(u: Unicode, foreign: seq<string>, service: string, managed: seq<string>)
    requires Standard(u) && '\n' !in service && Normal(foreign) && AllWritable(foreign)
    requires forall i :: 0 <= i < |foreign| ==> foreign[i] !in managed
    ensures ForeignIn(u, StoredFrom(SearchDomainsArgs(foreign)), service, managed) == foreign
            <==> AllStable(u, foreign)
  {
    hide Normalize, Stable, Writable, Parse, Listing, Pick, Standard, Normal;
    ReadBack(u, foreign, service);
    var once := Normalize(u, foreign);
    var twice := Normalize(u, once);
    NormalizeFixed(u, foreign);
    PickAll(foreign, managed, false);
    PickShorter(twice, managed);
    NormalizeShorter(u, once);
    NormalizeShorter(u, foreign);
    if Pick(twice, managed, false) == foreign {
      assert twice == foreign && once == CleanAll(u, foreign) && twice == CleanAll(u, once);
      forall i | 0 <= i < |foreign| ensures Stable(u, foreign[i]) {
        assert CleanAll(u, once)[i] == foreign[i] && CleanAll(u, foreign)[i] == once[i];
        CleanedBack(u, foreign[i]);
      }
    }
  }

  lemma NormalizeShorter(u: Unicode, names: seq<string>)
    ensures |Normalize(u, names)| <= |names|
    ensures |Normalize(u, names)| == |names| ==> Normalize(u, names) == CleanAll(u, names)
  {
    DedupMembers(CleanAll(u, names));
  }

  lemma {:induction false} PickShorter(names: seq<string>, managed: seq<string>)
    ensures |Pick(names, managed, false)| <= |names|
    ensures |Pick(names, managed, false)| == |names| ==> Pick(names, managed, false) == names
  {
    if names != [] {
      var n := |names| - 1;
      PickShorter(names[..n], managed);
      assert names == names[..n] + [names[n]];
    }
  }

  /** Cleaning only removes characters or lower-cases them, so it cannot come back after a change. */
  lemma CleanedBack(u: Unicode, name: string)
    requires Standard(u) && Clean(u, Clean(u, name)) == name
    ensures Stable(u, name)
  {
    var t := Trim(name, u.space);
    var d := Clean(u, name);
    CleanLength(u, name);
    CleanLength(u, d);
    hide Trim, Clean;
    LowerTwice(u, name, Lower(u, name));
  }

  lemma CleanLength(u: Unicode, raw: string)
    ensures |Clean(u, raw)| <= |raw|
    ensures |Clean(u, raw)| == |raw| ==> Clean(u, raw) == Lower(u, raw)
  {
    var left := TrimLeft(raw, u.space);
    var t := TrimRight(left, u.space);
    hide TrimLeft, TrimRight;
    assert left == raw[|raw| - |left|..] && t == left[..|t|];
    if |t| == |raw| { assert left == raw && t == raw; }
  }

  // ---- The service and its editors ---------------------------------------------------------

  /** The network service as networksetup shows and sets it. */
  class NetworkService {
    const u: Unicode
    const name: string
    var stored: seq<string>
    /** Successful writes, those among them that reconcile made, and how often each was called. */
    ghost var writes: nat
    ghost var reconcileWrites: nat
    ghost var reconciles: nat
    ghost var cleanups: nat
    ghost var leaves: nat
    /** Lookups, reads and writes that failed. */
    ghost var failures: nat

    constructor (u: Unicode, name: string, stored: seq<string>)
      ensures this.u == u && this.name == name && this.stored == stored
      ensures writes == reconcileWrites == reconciles == cleanups == leaves == failures == 0
    {
      this.u, this.name, this.stored, writes, reconcileWrites := u, name, stored, 0, 0;
      reconciles, cleanups, leaves, failures := 0, 0, 0, 0;
    }

    ghost method BeginReconcile()
      modifies this`reconciles
      ensures reconciles == old(reconciles) + 1
    {
      reconciles := reconciles + 1;
    }

    ghost method BeginCleanup()
      modifies this`cleanups
      ensures cleanups == old(cleanups) + 1
    {
      cleanups := cleanups + 1;
    }

    ghost method BeginLeave()
      modifies this`leaves
      ensures leaves == old(leaves) + 1
    {
      leaves := leaves + 1;
    }

    /** The service that belongs to the network device. */
    method Lookup() returns (ok: bool)
      modifies this`failures
      ensures failures == if ok then old(failures) else old(failures) + 1
    {
      ok := *;
      failures := if ok then failures else failures + 1;
    }

    method Get() returns (r: Result<string>)
      modifies this`failures
      ensures r.Ok? ==> r.value == Listing(stored, name)
      ensures failures == if r.Ok? then old(failures) else old(failures) + 1
    {
      var fails: bool := *;
      r := if fails then Err else Ok(Listing(stored, name));
      failures := if fails then failures + 1 else failures;
    }

    /** A failing command may or may not have stored the list; only successes are counted. */
    method Set(args: seq<string>, ghost byReconcile: bool) returns (ok: bool)
      modifies this`stored, this`writes, this`reconcileWrites, this`failures
      ensures failures == if ok then old(failures) else old(failures) + 1
      ensures ok ==> stored == StoredFrom(args) && writes == old(writes) + 1
      ensures !ok ==> (stored == StoredFrom(args) || stored == old(stored)) && writes == old(writes)
      ensures reconcileWrites == old(reconcileWrites) + if byReconcile then writes - old(writes) else 0
    {
      var applied: bool := *;
      ok := *;
      if ok || applied { stored := StoredFrom(args); }
      failures := if ok then failures else failures + 1;
      if ok {
        writes := writes + 1;
        if byReconcile { reconcileWrites := reconcileWrites + 1; }
      }
    }

    /** DHCP, a VPN client or a person replaces the list. */
    method Edit(lines: seq<string>)
      modifies this`stored
      ensures stored == lines
    {
      stored := lines;
    }

    ghost function Foreign(managed: seq<string>): seq<string>
      reads this
    {
      ForeignIn(u, stored, name, managed)
    }
  }

  /** clusterDNSSearchDomains */
  class ClusterDNSSearchDomains {
    const u: Unicode
    const service: NetworkService
    const domains: seq<string>
    var resolved: bool
    var owned: bool
    var foreign: seq<string>
    var foreignLogged: bool
    var verified: bool

    constructor (service: NetworkService, requested: seq<string>)
      ensures this.u == service.u && this.service == service
      ensures domains == Normalize(service.u, if requested == [] then DEFAULT_SEARCH_DOMAINS else requested)
      ensures !owned && foreign == []
    {
      var managed := NormalizeSearchDomains(service.u, if requested == [] then DEFAULT_SEARCH_DOMAINS else requested);
      this.u, this.service, this.domains := service.u, service, managed;
      resolved, owned, foreign, foreignLogged, verified := false, false, [], false, false;
    }

    /** Nothing is ever remembered as foreign, and one table serves both objects. */
    ghost predicate Valid()
      reads this
    {
      foreign == [] && u == service.u
    }

    /** resolveService: the lookup by device may fail until it once succeeds. */
    method ResolveService() returns (ok: bool)
      modifies this`resolved, service`failures
      ensures (old(resolved) ==> ok) && (ok <==> resolved)
      ensures service.failures == if ok then old(service.failures) else old(service.failures) + 1
    {
      if resolved { return true; }
      ok := service.Lookup();
      resolved := ok;
    }

    method SearchDomains() returns (r: Result<seq<string>>)
      modifies service`failures
      ensures service.failures == if r.Ok? then old(service.failures) else old(service.failures) + 1
      ensures r.Ok? ==> r.value == Names(service.u, service.stored, service.name)
    {
      var output := service.Get();
      if output.Err? { return Err; }
      var parsed := ParseSearchDomains(service.u, output.value);
      return Ok(parsed);
    }

    /**
     * Each reconcile writes at most once: the foreign part when it lets go, its own list when nobody else is there. It
     * succeeds exactly if no command failed, and then either holds the service with its own list or leaves it to the
     * others.
     */
    method Reconcile() returns (ok: bool)
      requires Valid()
      modifies this`resolved, this`owned, this`foreign, this`foreignLogged, this`verified, service
      ensures Valid() && service.reconciles == old(service.reconciles) + 1
      ensures service.cleanups == old(service.cleanups) && service.leaves == old(service.leaves)
      ensures service.reconcileWrites - old(service.reconcileWrites) == service.writes - old(service.writes)
      ensures old(service.failures) <= service.failures && (ok <==> service.failures == old(service.failures))
      ensures ok && domains != [] ==>
                var f := old(service.Foreign(domains));
                if f != [] then !owned && (old(owned) ==> service.stored == StoredFrom(SearchDomainsArgs(f)))
                else owned && (|| service.stored == StoredFrom(SearchDomainsArgs(domains))
                               || old(Names(u, service.stored, service.name)) == domains)
      ensures var f := old(service.Foreign(domains));
              if service.writes == old(service.writes) then
                && owned == old(owned)
                && (service.stored == old(service.stored) ||
                    (f != [] && old(owned) && service.stored == StoredFrom(SearchDomainsArgs(f))) ||
                    (f == [] && service.stored == StoredFrom(SearchDomainsArgs(domains))))
              else
                && service.writes == old(service.writes) + 1
                && service.stored == StoredFrom(SearchDomainsArgs(if f != [] then f else domains))
                && owned == (f == []) && (f != [] ==> old(owned)) && domains != []
      ensures (!old(owned) && old(service.Foreign(domains)) != []) || domains == [] ==>
                service.stored == old(service.stored) && service.writes == old(service.writes)
      ensures old(owned) && old(service.Foreign(domains)) == [] &&
              old(Names(u, service.stored, service.name)) == domains ==>
                service.stored == old(service.stored) && service.writes == old(service.writes)
    {
      hide Names, Pick, Normalize, SearchDomainsArgs, StoredFrom;
      service.BeginReconcile();
      if |domains| == 0 { return true; }
      var found := ResolveService();
      if !found { return false; }
      var current := SearchDomains();
      if current.Err? { return false; }
      var _, others := SplitSearchDomains(u, current.value, domains);
      if |others| > 0 {
        if owned {
          var released := service.Set(SearchDomainsArgs(others), true);
          if !released { return false; }
          owned := false;
          foreign := [];
          return true;
        }
        foreignLogged := true;
        return true;
      }
      if owned && current.value == domains { return true; }
      var applied := service.Set(SearchDomainsArgs(domains), true);
      if !applied { return false; }
      owned := true;
      foreign := [];
      verified := *;
      return true;
    }

    /** cleanup: only an owned service is written, and only to drop maclet's own names. */
    method Cleanup() returns (ok: bool)
      requires Valid()
      modifies this`resolved, this`owned, this`foreign
      modifies service`stored, service`writes, service`reconcileWrites, service`failures, service`cleanups
      ensures Valid() && service.reconcileWrites == old(service.reconcileWrites)
      ensures service.cleanups == old(service.cleanups) + 1
      ensures !old(owned) ==> ok && service.stored == old(service.stored) && !owned
      ensures var f := Normalize(u, old(service.Foreign(domains)));
              service.stored == old(service.stored) || service.stored == StoredFrom(SearchDomainsArgs(f))
      ensures old(service.failures) <= service.failures && (ok <==> service.failures == old(service.failures))
      ensures ok ==> !owned
      ensures ok && old(owned) ==>
                service.stored == StoredFrom(SearchDomainsArgs(Normalize(u, old(service.Foreign(domains)))))
    {
      hide Names, Pick, Normalize, SearchDomainsArgs, StoredFrom;
      service.BeginCleanup();
      if !owned { return true; }
      var found := ResolveService();
      if !found { return false; }
      var current := SearchDomains();
      if current.Err? { return false; }
      var _, others := SplitSearchDomains(u, current.value, domains);
      assert foreign + others == others;
      var restored := NormalizeSearchDomains(u, foreign + others);
      var applied := service.Set(SearchDomainsArgs(restored), false);
      if !applied { return false; }
      owned := false;
      foreign := [];
      return true;
    }
  }

  /** Nothing is written if no managed name is there, and otherwise the foreign names are, if that does not fail. */
  ghost predicate LetGo(u: Unicode, service: string, before: seq<string>, after: seq<string>, managed: seq<string>,
                        ok: bool) {
    var f, ours := ForeignIn(u, before, service, managed), Pick(Normalize(u, Names(u, before, service)), managed, true);
    && (after == before || after == StoredFrom(SearchDomainsArgs(f)))
    && (ours == [] ==> after == before)
    && (ok && ours != [] ==> after == StoredFrom(SearchDomainsArgs(f)))
  }

  /** cleanupLeaveSearchDomains, with the list the join recorded if there is a record. */
  method CleanupLeaveSearchDomains(service: NetworkService, recorded: Option<seq<string>>) returns (ok: bool)
    modifies service`stored, service`writes, service`reconcileWrites, service`failures, service`leaves
    ensures service.reconcileWrites == old(service.reconcileWrites) && service.leaves == old(service.leaves) + 1
    ensures old(service.failures) <= service.failures && (ok <==> service.failures == old(service.failures))
    ensures LetGo(service.u, service.name, old(service.stored), service.stored, LeaveList(service.u, recorded), ok)
  {
    hide Parse, Listing, Pick, Normalize, SearchDomainsArgs, StoredFrom;
    var managed := NormalizeSearchDomains(service.u, DEFAULT_SEARCH_DOMAINS);
    if recorded.Some? && |recorded.value| > 0 {
      managed := NormalizeSearchDomains(service.u, recorded.value);
    }
    assert managed == LeaveList(service.u, recorded);
    hide LeaveList;
    ghost var before := service.stored;
    service.BeginLeave();
    var output := service.Get();
    if output.Err? { return false; }
    var current := ParseSearchDomains(service.u, output.value);
    var ours, foreign := SplitSearchDomains(service.u, current, managed);
    if |ours| == 0 { return true; }
    assert foreign == ForeignIn(service.u, before, service.name, managed);
    ok := service.Set(SearchDomainsArgs(foreign), false);
  }

  /** The names a leave takes away: those recorded by the join, or the default ones. */
  ghost function Taken(recorded: Option<seq<string>>): seq<string> {
    if recorded.Some? && recorded.value != [] then recorded.value else ["svc.cluster.local", "cluster.local"]
  }

  /** The service's names read back as themselves, and so do the recorded ones. */
  ghost predicate Leavable(u: Unicode, stored: seq<string>, service: string, recorded: Option<seq<string>>) {
    && Standard(u) && '\n' !in service && Settled(u, stored, service)
    && (recorded.Some? && recorded.value != [] ==> Publishable(u, recorded.value))
  }

  /** A leave without a failing command, where every name reads back as itself, takes exactly its names. */
  method LeaveService(service: NetworkService, recorded: Option<seq<string>>) returns (ok: bool)
    requires Leavable(service.u, service.stored, service.name, recorded)
    modifies service`stored, service`writes, service`reconcileWrites, service`failures, service`leaves
    ensures service.leaves == old(service.leaves) + 1 && service.reconcileWrites == old(service.reconcileWrites)
    ensures old(service.failures) <= service.failures && (ok <==> service.failures == old(service.failures))
    ensures ok ==> Names(service.u, service.stored, service.name) ==
                   Pick(old(Names(service.u, service.stored, service.name)), Taken(recorded), false)
  {
    hide Names, Pick, Normalize, StoredFrom, SearchDomainsArgs, Leavable, ForeignIn, LeaveList, Taken;
    LeaveTakes(service.u, service.stored, service.name, recorded);
    ok := CleanupLeaveSearchDomains(service, recorded);
  }

  /** A leave removes exactly its names, whether or not it has to write. */
  lemma LeaveTakes(u: Unicode, stored: seq<string>, service: string, recorded: Option<seq<string>>)
    requires Leavable(u, stored, service, recorded)
    ensures var managed, names := LeaveList(u, recorded), Names(u, stored, service);
            && managed == Taken(recorded)
            && (Pick(Normalize(u, names), managed, true) == [] ==> names == Pick(names, Taken(recorded), false))
            && Names(u, StoredFrom(SearchDomainsArgs(ForeignIn(u, stored, service, managed))), service) ==
               Pick(names, Taken(recorded), false)
  {
    hide Names, Normalize, Pick, Publishable, Settled, Standard;
    var managed, names := LeaveList(u, recorded), Names(u, stored, service);
    LiteralsPublishable(u);
    if recorded.Some? && recorded.value != [] {
      LeaveSameList(u, recorded.value);
    } else {
      LeaveSameList(u, DEFAULT_SEARCH_DOMAINS);
    }
    WriteKeepsForeign(u, stored, service, managed);
    ForeignPublishable(u, stored, service, managed);
    if Pick(names, managed, true) == [] { NonePicked(names, managed); }
  }

  lemma NonePicked(names: seq<string>, managed: seq<string>)
    requires Pick(names, managed, true) == []
    ensures Pick(names, managed, false) == names
  {
    PickMembers(names, managed, true);
    forall i | 0 <= i < |names| ensures names[i] !in managed { assert names[i] in names; }
    PickAll(names, managed, false);
  }

  function LeaveList(u: Unicode, recorded: Option<seq<string>>): seq<string> {
    if recorded.Some? && |recorded.value| > 0 then Normalize(u, recorded.value)
    else Normalize(u, DEFAULT_SEARCH_DOMAINS)
  }

  // ---- Whole runs --------------------------------------------------------------------------

  datatype Event = Heartbeat | Edit(lines: seq<string>) | Shutdown | Leave | Restart

  /** Events after which maclet may have to write again: everything but its own heartbeats. */
  function Disturbances(script: seq<Event>): nat {
    if script == [] then 0
    else Disturbances(script[..|script| - 1]) + if script[|script| - 1].Heartbeat? then 0 else 1
  }

  /** The list the last outside editor left, or the one found at the start. */
  function LastEdited(script: seq<Event>, found: seq<string>): seq<string> {
    if script == [] then found
    else if script[|script| - 1].Edit? then script[|script| - 1].lines
    else LastEdited(script[..|script| - 1], found)
  }

  /** How often each of the three was called. */
  datatype Calls = Calls(reconciles: nat, cleanups: nat, leaves: nat)

  ghost function CallsOf(service: NetworkService): Calls
    reads service`reconciles, service`cleanups, service`leaves
  {
    Calls(service.reconciles, service.cleanups, service.leaves)
  }

  ghost function Called(c: Calls, event: Event, domains: seq<string>): Calls {
    match event
    case Heartbeat => c.(reconciles := c.reconciles + 1)
    case Shutdown => c.(cleanups := c.cleanups + 1)
    case Leave => if domains == [] then c else c.(leaves := c.leaves + 1)
    case _ => c
  }

  /** Every heartbeat reconciles, every shutdown cleans up, and every leave with names to take takes them. */
  ghost function CalledAll(c: Calls, script: seq<Event>, domains: seq<string>): Calls {
    if script == [] then c
    else Called(CalledAll(c, script[..|script| - 1], domains), script[|script| - 1], domains)
  }

  /** maclet has nothing left to write: it owns exactly its list, or someone else is there. */
  ghost predicate Quiet(s: ClusterDNSSearchDomains)
    reads s, s.service
  {
    || s.domains == []
    || (s.owned && Names(s.u, s.service.stored, s.service.name) == s.domains && s.service.Foreign(s.domains) == [])
    || (!s.owned && s.service.Foreign(s.domains) != [])
  }

  /** What an event leaves if no command fails. */
  ghost predicate Obeyed(s: ClusterDNSSearchDomains, event: Event)
    reads s, s.service
  {
    match event
    case Heartbeat => Quiet(s)
    case Shutdown => !s.owned
    case Leave => s.domains != [] ==> Names(s.u, s.service.stored, s.service.name) == s.service.Foreign(s.domains)
    case Restart => !s.owned
    case Edit(lines) => s.service.stored == lines
  }

  /** What a run keeps: settled names, the editor's foreign list, and the write budget. */
  ghost predicate RunInvariant(s: ClusterDNSSearchDomains, foreign: seq<string>, budget: nat)
    reads s, s.service
  {
    && s.Valid() && '\n' !in s.service.name && Publishable(s.u, s.domains)
    && Settled(s.u, s.service.stored, s.service.name)
    && s.service.Foreign(s.domains) == foreign
    && s.service.reconcileWrites <= budget + (if Quiet(s) then 1 else 0)
  }

  /** Writing the foreign list or, when there is none, the managed one keeps the foreign list. */
  lemma WriteKeepsForeign(u: Unicode, stored: seq<string>, service: string, managed: seq<string>)
    requires Standard(u) && '\n' !in service && Publishable(u, managed) && Settled(u, stored, service)
    ensures var f := ForeignIn(u, stored, service, managed);
            && Normalize(u, f) == f
            && Names(u, StoredFrom(SearchDomainsArgs(f)), service) == f
            && ForeignIn(u, StoredFrom(SearchDomainsArgs(f)), service, managed) == f
            && Names(u, StoredFrom(SearchDomainsArgs(managed)), service) == managed
            && ForeignIn(u, StoredFrom(SearchDomainsArgs(managed)), service, managed) == []
            && Settled(u, StoredFrom(SearchDomainsArgs(f)), service)
            && Settled(u, StoredFrom(SearchDomainsArgs(managed)), service)
  {
    hide Names, ForeignIn, Normalize, Pick, Stable, Writable, Normal, Standard;
    var f := ForeignIn(u, stored, service, managed);
    ForeignPublishable(u, stored, service, managed);
    WrittenReadsBack(u, f, service, managed);
    WrittenReadsBack(u, managed, service, managed);
    ManagedHasNoForeign(managed);
    NormalizeFixed(u, f);
  }

  // ---- What cleanup restores ---------------------------------------------------------------

  /** What maclet's taking over and cleaning up leaves of a list: an owned service keeps its foreign part only. */
  ghost function CleanedUp(u: Unicode, stored: seq<string>, service: string, managed: seq<string>): seq<string> {
    if managed == [] || ForeignIn(u, stored, service, managed) != [] then stored
    else
      var held := StoredFrom(SearchDomainsArgs(managed));
      StoredFrom(SearchDomainsArgs(Normalize(u, ForeignIn(u, held, service, managed))))
  }

  /** What was there before is restored exactly if there was nothing, or something maclet stays off. */
  lemma RestoredExactly(u: Unicode, stored: seq<string>, service: string, managed: seq<string>)
    requires Standard(u) && '\n' !in service && Publishable(u, managed) && Settled(u, stored, service)
    ensures Names(u, CleanedUp(u, stored, service, managed), service) == Names(u, stored, service) <==>
              Names(u, stored, service) == [] || ForeignIn(u, stored, service, managed) != []
  {
    hide Names, Normalize, Pick, Publishable, Settled, Standard, ForeignIn;
    WriteKeepsForeign(u, stored, service, managed);
    if managed == [] { NothingManaged(u, stored, service); }
  }

  lemma NothingManaged(u: Unicode, stored: seq<string>, service: string)
    requires Standard(u) && Settled(u, stored, service)
    ensures ForeignIn(u, stored, service, []) == Names(u, stored, service)
  {
    hide Names, Normalize, Settled, Standard;
    ForeignPublishable(u, stored, service, []);
    PickAll(Names(u, stored, service), [], false);
  }

  lemma LiteralsPublishable(u: Unicode)
    requires Standard(u)
    ensures Publishable(u, DEFAULT_SEARCH_DOMAINS) && Publishable(u, ["cluster.local"])
  {
    hide Clean, Trim, Standard;
    CleanLiteral(u, "cluster.local");
    CleanLiteral(u, "svc.cluster.local");
  }

  /** A service that carried cluster.local before maclet came is left without it. */
  lemma CarriedNameIsLost(u: Unicode, service: string)
    requires Standard(u) && '\n' !in service
    ensures var stored := ["cluster.local"];
            && Names(u, stored, service) == stored
            && Names(u, CleanedUp(u, stored, service, DEFAULT_SEARCH_DOMAINS), service) == []
  {
    hide Names, Normalize, Standard, Stable, Writable, Normal;
    var stored := ["cluster.local"];
    LiteralsPublishable(u);
    WrittenReadsBack(u, stored, service, DEFAULT_SEARCH_DOMAINS);
    assert StoredFrom(SearchDomainsArgs(stored)) == stored;
    PickAll(stored, DEFAULT_SEARCH_DOMAINS, true);
    WriteKeepsForeign(u, stored, service, DEFAULT_SEARCH_DOMAINS);
  }

  /** A first heartbeat and then a shutdown, with no failing command, do just that. */
  method TakeOverAndCleanup(s: ClusterDNSSearchDomains)
    requires Standard(s.u) && s.Valid() && !s.owned && '\n' !in s.service.name
    requires Publishable(s.u, s.domains) && Settled(s.u, s.service.stored, s.service.name)
    modifies s, s.service
    ensures s.service.failures == old(s.service.failures) ==>
              Names(s.u, s.service.stored, s.service.name) ==
              Names(s.u, CleanedUp(s.u, old(s.service.stored), s.service.name, s.domains), s.service.name)
  {
    hide Names, ForeignIn, Normalize, Pick, Publishable, Settled, Standard;
    WriteKeepsForeign(s.u, s.service.stored, s.service.name, s.domains);
    var took := s.Reconcile();
    var cleaned := s.Cleanup();
  }

  method Beat(s: ClusterDNSSearchDomains, ghost foreign: seq<string>, ghost budget: nat)
    returns (ok: bool)
    requires Standard(s.u) && RunInvariant(s, foreign, budget)
    modifies s, s.service
    ensures RunInvariant(s, foreign, budget)
    ensures CallsOf(s.service) == Called(old(CallsOf(s.service)), Heartbeat, s.domains)
    ensures old(s.service.failures) <= s.service.failures && (ok <==> s.service.failures == old(s.service.failures))
    ensures ok ==> Quiet(s)
  {
    hide Names, ForeignIn, Normalize, Pick, Publishable, Settled, Standard;
    WriteKeepsForeign(s.u, s.service.stored, s.service.name, s.domains);
    ok := s.Reconcile();
  }

  method ShutDown(s: ClusterDNSSearchDomains, ghost foreign: seq<string>, ghost budget: nat)
    requires Standard(s.u) && RunInvariant(s, foreign, budget)
    modifies s, s.service
    ensures RunInvariant(s, foreign, budget + 1)
    ensures CallsOf(s.service) == Called(old(CallsOf(s.service)), Shutdown, s.domains)
    ensures old(s.service.failures) <= s.service.failures
    ensures s.service.failures == old(s.service.failures) ==>
              && !s.owned
              && Names(s.u, s.service.stored, s.service.name) ==
                 if old(s.owned) then foreign else old(Names(s.u, s.service.stored, s.service.name))
  {
    hide Names, ForeignIn, Normalize, Pick, Publishable, Settled, Standard;
    WriteKeepsForeign(s.u, s.service.stored, s.service.name, s.domains);
    var _ := s.Cleanup();
  }

  method LeaveNode(s: ClusterDNSSearchDomains, ghost foreign: seq<string>, ghost budget: nat)
    requires Standard(s.u) && RunInvariant(s, foreign, budget)
    modifies s.service
    ensures RunInvariant(s, foreign, budget + 1)
    ensures CallsOf(s.service) == Called(old(CallsOf(s.service)), Leave, s.domains)
    ensures old(s.service.failures) <= s.service.failures
    ensures s.service.failures == old(s.service.failures) && s.domains != [] ==>
              Names(s.u, s.service.stored, s.service.name) == foreign
  {
    hide Names, ForeignIn, Normalize, Pick, Publishable, Settled, Standard;
    WriteKeepsForeign(s.u, s.service.stored, s.service.name, s.domains);
    if s.domains != [] {
      LeaveSameList(s.u, s.domains);
      LeaveTakes(s.u, s.service.stored, s.service.name, Some(s.domains));
      ForeignPublishable(s.u, s.service.stored, s.service.name, s.domains);
      var _ := CleanupLeaveSearchDomains(s.service, Some(s.domains));
    }
  }

  /**
   * Over any run maclet keeps every foreign name in order and writes at most once per disturbance; and if no command
   * fails, each heartbeat leaves it either holding exactly its own list or off a service that others use.
   */
  method Run(service: NetworkService, requested: seq<string>, script: seq<Event>)
    returns (s: ClusterDNSSearchDomains)
    requires Standard(service.u) && '\n' !in service.name
    requires Publishable(service.u, Normalize(service.u, if requested == [] then DEFAULT_SEARCH_DOMAINS else requested))
    requires Settled(service.u, service.stored, service.name)
    requires forall i :: 0 <= i < |script| && script[i].Edit? ==> Settled(service.u, script[i].lines, service.name)
    modifies service
    ensures s.domains == Normalize(service.u, if requested == [] then DEFAULT_SEARCH_DOMAINS else requested)
    ensures CallsOf(service) == CalledAll(old(CallsOf(service)), script, s.domains)
    ensures service.reconcileWrites <= old(service.reconcileWrites) + 1 + Disturbances(script)
    ensures old(service.failures) <= service.failures && s.service == service
    ensures service.failures == old(service.failures) && script != [] ==> Obeyed(s, script[|script| - 1])
    ensures service.Foreign(s.domains) ==
              ForeignIn(service.u, LastEdited(script, old(service.stored)), service.name, s.domains)
  {
    hide Names, ForeignIn, Normalize, Pick, Publishable, Settled, Standard;
    s := new ClusterDNSSearchDomains(service, requested);
    ghost var start := service.reconcileWrites;
    for i := 0 to |script|
      invariant s.service == service && fresh(s)
      invariant s.domains == Normalize(service.u, if requested == [] then DEFAULT_SEARCH_DOMAINS else requested)
      invariant RunInvariant(s, ForeignIn(service.u, LastEdited(script[..i], old(service.stored)), service.name,
                                          s.domains), start + Disturbances(script[..i]))
      invariant old(service.failures) <= service.failures
      invariant CallsOf(service) == CalledAll(old(CallsOf(service)), script[..i], s.domains)
      invariant service.failures == old(service.failures) && i > 0 ==> Obeyed(s, script[i - 1])
    {
      assert script[..i + 1][..i] == script[..i];
      WriteKeepsForeign(s.u, service.stored, service.name, s.domains);
      ghost var foreign := service.Foreign(s.domains);
      match script[i] {
        case Heartbeat =>
          var _ := Beat(s, foreign, start + Disturbances(script[..i]));
        case Edit(lines) =>
          service.Edit(lines);
        case Shutdown =>
          ShutDown(s, foreign, start + Disturbances(script[..i]));
        case Leave =>
          LeaveNode(s, foreign, start + Disturbances(script[..i]));
        case Restart =>
          s := new ClusterDNSSearchDomains(service, requested);
      }
    }
    assert script[..|script|] == script;
  }

  /** The recorded list is the managed list. */
  lemma LeaveSameList(u: Unicode, domains: seq<string>)
    requires Publishable(u, domains) && domains != []
    ensures LeaveList(u, Some(domains)) == domains
  {
    hide Normalize, Stable, Normal, Writable;
    NormalizeFixed(u, domains);
  }
}
