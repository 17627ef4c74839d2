/** The Darwin side of the Pod network: gateways, routes, ARP entries and workload aliases. */
module DarwinNetwork {
  import opened Text
  import opened AddressPlan

  datatype Result<+T> = Ok(value: T) | Err

  /** A link-layer address text: six octets in canonical form, or something net.ParseMAC refuses. */
  datatype MacText = Mac(canonical: string) | BadMac

  datatype FlannelPeer = FlannelPeer(podCIDR: Cidr, publicIP: string, vtepMAC: MacText)
  datatype PeerGateway = PeerGateway(podCIDR: Cidr, gateway: Word, mac: string, publicIP: string)
  datatype ArpEntry = ArpEntry(ip: Word, mac: string)
  datatype Route = Route(network: Word, netmask: Word, gateway: Word)
  datatype JoinConfig = JoinConfig(vxlanRemote: string, clusterCIDR: Cidr, serviceCIDR: Cidr)

  /** Where a route leads: its destination block. */
  function Destination(r: Route): (Word, Word) {
    (r.network, r.netmask)
  }

  /** The interfaces, ARP entries and routes of the host as ifconfig, arp and route leave them; any command may fail. */
  class HostNetwork {
    var interfaces: set<string>
    var addresses: map<Word, string>
    /** MACs by interface scope and address, and gateways by destination. */
    var neighbours: map<(string, Word), string>
    var routes: map<(Word, Word), Word>
    /** Addresses whose last removal command failed, with or without taking effect. */
    ghost var refused: set<Word>
    /** Removal commands that failed. */
    ghost var refusals: nat
    /** Any other command that failed, and lookups that found an address on another interface than wanted. */
    ghost var setbacks: nat

    constructor (interfaces: set<string>, addresses: map<Word, string>)
      ensures this.interfaces == interfaces && this.addresses == addresses && refused == {}
    {
      this.interfaces, this.addresses, neighbours, routes := interfaces, addresses, map[], map[];
      refused, refusals, setbacks := {}, 0, 0;
    }

    /** interfaceForAddress: the interface holding an address, "" for none. */
    method InterfaceForAddress(a: Word, ghost wanted: string) returns (r: Result<string>)
      modifies this`setbacks
      ensures r.Ok? ==> r.value == if a in addresses then addresses[a] else ""
      ensures setbacks == if r.Err? || (r.value != "" && r.value != wanted) then old(setbacks) + 1 else old(setbacks)
    {
      var fails: bool := *;
      r := if fails then Err else Ok(if a in addresses then addresses[a] else "");
      if r.Err? || (r.value != "" && r.value != wanted) { setbacks := setbacks + 1; }
    }

    /** ifconfig alias: a failing command may still leave the alias behind. */
    method AddAlias(interface: string, a: Word) returns (ok: bool)
      modifies this`addresses, this`setbacks
      ensures ok ==> addresses == old(addresses)[a := interface]
      ensures !ok ==> addresses == old(addresses) || addresses == old(addresses)[a := interface]
      ensures setbacks == if ok then old(setbacks) else old(setbacks) + 1
    {
      var applied: bool := *;
      ok := *;
      if ok || applied { addresses := addresses[a := interface]; }
      if !ok { setbacks := setbacks + 1; }
    }

    /** ifconfig -alias: a failing command may have removed the alias all the same. */
    method RemoveAlias(a: Word) returns (ok: bool)
      modifies this`addresses, this`refused, this`refusals
      ensures addresses == old(addresses) - {a} || (!ok && addresses == old(addresses))
      ensures refused == if ok then old(refused) - {a} else old(refused) + {a}
      ensures refusals == if ok then old(refusals) else old(refusals) + 1
    {
      var applied: bool := *;
      ok := *;
      if ok || applied { addresses := addresses - {a}; }
      refused := if ok then refused - {a} else refused + {a};
      refusals := if ok then refusals else refusals + 1;
    }

    /** arp -S, scoped to an interface. */
    method SetARP(interface: string, entry: ArpEntry) returns (ok: bool)
      modifies this`neighbours, this`setbacks
      ensures || neighbours == old(neighbours)[(interface, entry.ip) := entry.mac]
              || (!ok && neighbours == old(neighbours))
      ensures setbacks == if ok then old(setbacks) else old(setbacks) + 1
    {
      var applied: bool := *;
      ok := *;
      if ok || applied { neighbours := neighbours[(interface, entry.ip) := entry.mac]; }
      if !ok { setbacks := setbacks + 1; }
    }

    /** arp -d */
    method DeleteARP(interface: string, a: Word) returns (ok: bool)
      modifies this`neighbours, this`refusals
      ensures neighbours == old(neighbours) - {(interface, a)} || (!ok && neighbours == old(neighbours))
      ensures refusals == if ok then old(refusals) else old(refusals) + 1
    {
      var applied: bool := *;
      ok := *;
      if ok || applied { neighbours := neighbours - {(interface, a)}; }
      if !ok { refusals := refusals + 1; }
    }

    /** route add */
    method AddRoute(r: Route) returns (ok: bool)
      modifies this`routes, this`setbacks
      ensures routes == old(routes)[Destination(r) := r.gateway] || (!ok && routes == old(routes))
      ensures setbacks == if ok then old(setbacks) else old(setbacks) + 1
    {
      var applied: bool := *;
      ok := *;
      if ok || applied { routes := routes[Destination(r) := r.gateway]; }
      if !ok { setbacks := setbacks + 1; }
    }

    /** route delete */
    method DeleteRoute(r: Route) returns (ok: bool)
      modifies this`routes, this`refusals
      ensures routes == old(routes) - {Destination(r)} || (!ok && routes == old(routes))
      ensures refusals == if ok then old(refusals) else old(refusals) + 1
    {
      var applied: bool := *;
      ok := *;
      if ok || applied { routes := routes - {Destination(r)}; }
      if !ok { refusals := refusals + 1; }
    }
  }

  // ---- Peers -------------------------------------------------------------------------------

  function WithRemote(peers: seq<FlannelPeer>, remote: string, wanted: bool): (r: seq<FlannelPeer>)
    ensures forall p :: p in r ==> (p.publicIP == remote) == wanted
  {
    if peers == [] then []
    else
      var last := peers[|peers| - 1];
      WithRemote(peers[..|peers| - 1], remote, wanted) + if (last.publicIP == remote) == wanted then [last] else []
  }

  /** The selected remote first, the others after it in discovery order. */
  function RemoteFirst(peers: seq<FlannelPeer>, remote: string): seq<FlannelPeer> {
    WithRemote(peers, remote, true) + WithRemote(peers, remote, false)
  }

  lemma {:induction false} RemoteFirstPermutes(peers: seq<FlannelPeer>, remote: string)
    ensures multiset(RemoteFirst(peers, remote)) == multiset(peers)
  {
    if peers != [] {
      var init, last := peers[..|peers| - 1], peers[|peers| - 1];
      RemoteFirstPermutes(init, remote);
      assert peers == init + [last];
      assert multiset(RemoteFirst(peers, remote)) == multiset(RemoteFirst(init, remote)) + multiset{last};
    }
  }

  /** Where the peers of one kind stood. */
  lemma {:induction false} InOrder(peers: seq<FlannelPeer>, remote: string, wanted: bool) returns (at: seq<nat>)
    ensures |at| == |WithRemote(peers, remote, wanted)|
    ensures forall k :: 0 <= k < |at| ==> at[k] < |peers| && peers[at[k]] == WithRemote(peers, remote, wanted)[k]
    ensures forall k, l :: 0 <= k < l < |at| ==> at[k] < at[l]
  {
    at := [];
    if peers != [] {
      var n := |peers| - 1;
      at := InOrder(peers[..n], remote, wanted);
      if (peers[n].publicIP == remote) == wanted { at := at + [n]; }
    }
  }

  /** The remote's entries come before the others, and within either kind the order of discovery is kept. */
  ghost predicate StableOrder(peers: seq<FlannelPeer>, ordered: seq<FlannelPeer>, remote: string, from: seq<nat>) {
    && |from| == |ordered| == |peers|
    && (forall k :: 0 <= k < |from| ==> from[k] < |peers| && ordered[k] == peers[from[k]])
    && forall k, l :: 0 <= k < l < |from| ==>
         if (ordered[k].publicIP == remote) == (ordered[l].publicIP == remote) then from[k] < from[l]
         else ordered[k].publicIP == remote
  }

  lemma RemoteFirstStable(peers: seq<FlannelPeer>, remote: string)
    ensures exists from :: StableOrder(peers, RemoteFirst(peers, remote), remote, from)
  {
    hide WithRemote;
    RemoteFirstLength(peers, remote);
    var first := InOrder(peers, remote, true);
    var others := InOrder(peers, remote, false);
    OfRemote(peers, remote, true);
    OfRemote(peers, remote, false);
    assert StableOrder(peers, RemoteFirst(peers, remote), remote, first + others);
  }

  lemma OfRemote(peers: seq<FlannelPeer>, remote: string, wanted: bool)
    ensures var picked := WithRemote(peers, remote, wanted);
            forall k :: 0 <= k < |picked| ==> (picked[k].publicIP == remote) == wanted
  {
    var picked := WithRemote(peers, remote, wanted);
    forall k | 0 <= k < |picked| ensures (picked[k].publicIP == remote) == wanted { assert picked[k] in picked; }
  }

  lemma RemoteFirstLength(peers: seq<FlannelPeer>, remote: string)
    ensures |RemoteFirst(peers, remote)| == |peers|
  {
    RemoteFirstPermutes(peers, remote);
    assert |multiset(RemoteFirst(peers, remote))| == |multiset(peers)|;
  }

  method OrderPeers(peers: seq<FlannelPeer>, remote: string) returns (ordered: seq<FlannelPeer>)
    ensures ordered == RemoteFirst(peers, remote)
  {
    ordered := [];
    for i := 0 to |peers|
      invariant ordered == WithRemote(peers[..i], remote, true)
    {
      assert peers[..i + 1][..i] == peers[..i];
      if peers[i].publicIP == remote { ordered := ordered + [peers[i]]; }
    }
    assert peers[..|peers|] == peers;
    for i := 0 to |peers|
      invariant ordered == WithRemote(peers, remote, true) + WithRemote(peers[..i], remote, false)
    {
      assert peers[..i + 1][..i] == peers[..i];
      if peers[i].publicIP != remote { ordered := ordered + [peers[i]]; }
    }
  }

  // ---- Aliases -----------------------------------------------------------------------------

  ghost predicate Distinct<T(!new)>(s: seq<T>) {
    forall i, j :: 0 <= i < j < |s| ==> s[i] != s[j]
  }

  /** The members of s that p keeps, in order. */
  ghost function Keep(s: seq<Word>, kept: set<Word>): seq<Word> {
    if s == [] then []
    else Keep(s[..|s| - 1], kept) + if s[|s| - 1] in kept then [s[|s| - 1]] else []
  }

  lemma {:induction false} KeepMembers(s: seq<Word>, kept: set<Word>)
    ensures forall a :: a in Keep(s, kept) <==> a in s && a in kept
    ensures Distinct(s) ==> Distinct(Keep(s, kept))
  {
    if s != [] {
      var n := |s| - 1;
      KeepMembers(s[..n], kept);
      assert s == s[..n] + [s[n]];
    }
  }

  lemma {:induction false} KeepAll(s: seq<Word>, kept: set<Word>)
    requires forall a :: a in s ==> a in kept
    ensures Keep(s, kept) == s
  {
    if s != [] {
      var n := |s| - 1;
      assert s == s[..n] + [s[n]];
      KeepAll(s[..n], kept);
    }
  }

  lemma {:induction false} KeepAppend(s: seq<Word>, t: seq<Word>, kept: set<Word>)
    ensures Keep(s + t, kept) == Keep(s, kept) + Keep(t, kept)
  {
    if t == [] {
      assert s + t == s;
    } else {
      var n := |t| - 1;
      KeepAppend(s, t[..n], kept);
      assert (s + t)[..|s + t| - 1] == s + t[..n];
    }
  }

  /** DarwinNetworkHandle: what maclet installed for one PodCIDR. */
  class Handle {
    const host: HostNetwork
    const interface: string
    const podCIDR: Cidr
    const gateway: Word
    const peerGateways: seq<PeerGateway>
    var gatewayMAC: string
    var arps: seq<ArpEntry>
    var routes: seq<Route>
    var aliases: seq<Word>

    constructor (host: HostNetwork, interface: string, podCIDR: Cidr, gateway: Word,
                 peerGateways: seq<PeerGateway>, gatewayMAC: string, arps: seq<ArpEntry>)
      requires interface != "" && PeerGatewayAddressForCIDR(podCIDR, 0) == Some(gateway)
      requires 1 <= |peerGateways| < TWO_TO_32
      requires forall i :: 0 <= i < |peerGateways| ==>
                 Some(peerGateways[i].gateway) == PeerGatewayAddressForCIDR(podCIDR, i)
      ensures Valid() && aliases == [] && routes == []
      ensures this.host == host && this.interface == interface && this.podCIDR == podCIDR
      ensures this.gateway == gateway && this.peerGateways == peerGateways
      ensures this.gatewayMAC == gatewayMAC && this.arps == arps
    {
      this.host, this.interface, this.podCIDR, this.gateway := host, interface, podCIDR, gateway;
      this.peerGateways, this.gatewayMAC, this.arps := peerGateways, gatewayMAC, arps;
      routes, aliases := [], [];
    }

    /** The gateways follow the plan; fixed when the handle is made. */
    ghost predicate Planned() {
      && interface != "" && podCIDR.V4? && podCIDR.prefix <= 30
      && PeerGatewayAddressForCIDR(podCIDR, 0) == Some(gateway)
      && 1 <= |peerGateways| < TWO_TO_32
      && (forall i :: 0 <= i < |peerGateways| ==>
            Some(peerGateways[i].gateway) == PeerGatewayAddressForCIDR(podCIDR, i))
    }

    /** Acceptable workload addresses of this handle. */
    ghost predicate Acceptable(a: Word) {
      Assignable(podCIDR, |peerGateways|, a)
    }

    /** The alias list: no duplicates, nothing reserved. */
    ghost predicate Valid()
      reads this
    {
      && Planned()
      && Distinct(aliases)
      && (forall a :: a in aliases ==> Acceptable(a))
    }

    /** Every listed alias is on this handle's bridge, unless a failing removal took it away. */
    ghost predicate Present()
      reads this, host
    {
      forall a :: a in aliases ==> (a in host.addresses && host.addresses[a] == interface) || a in host.refused
    }

    /** Every ARP entry of the handle is the host's. */
    ghost predicate Wired()
      reads this, host
    {
      forall e :: e in arps ==> (interface, e.ip) in host.neighbours && host.neighbours[(interface, e.ip)] == e.mac
    }

    function IsReservedWorkloadIP(ip: Word, networkIP: Word): bool {
      || ip == networkIP
      || Some(ip) == BridgeAddressForCIDR(podCIDR)
      || ip == gateway
      || exists i :: 0 <= i < |peerGateways| && ip == peerGateways[i].gateway
    }

    /** The method validateWorkloadAddress. */
    predicate ValidatesWorkloadAddress(ip: IPText) {
      ValidateWorkloadAddress(podCIDR, ip) && !IsReservedWorkloadIP(ParseV4(ip).value, Base(podCIDR))
    }

    /** The tests addWorkloadIP makes before it touches an interface, in its order. */
    predicate AddTests(ip: IPText) {
      && ParseV4(ip).Some?
      && podCIDR.V4?
      && Contains(podCIDR, ParseV4(ip).value)
      && !IsReservedWorkloadIP(ParseV4(ip).value, Base(podCIDR))
      && podCIDR.prefix <= 30
      && ParseV4(ip).value != AddedBroadcast(podCIDR)
    }

    lemma ReservedExact(a: Word)
      requires Planned() && Base(podCIDR) <= a < Base(podCIDR) + Size(podCIDR)
      ensures Acceptable(a) <==>
                !IsReservedWorkloadIP(a, Base(podCIDR)) && a != Base(podCIDR) + Size(podCIDR) - 1
    {
      hide PeerGatewayAddressForCIDR, BridgeAddressForCIDR, Base, Size;
      var c, n := podCIDR, |peerGateways|;
      BlockFits(c);
      PlanExact(c, 0);
      PlanExact(c, n - 1);
      forall i | 0 <= i < n
        ensures peerGateways[i].gateway == if i == 0 then Base(c) + 2 else Base(c) + Size(c) - 1 - i
      {
        PlanExact(c, i);
      }
      if Base(c) + Size(c) - n <= a < Base(c) + Size(c) - 1 {
        assert a == peerGateways[Base(c) + Size(c) - 1 - a].gateway;
      }
    }

    /** The validator and addWorkloadIP accept the same texts: those of acceptable addresses. */
    lemma TestsAgree(ip: IPText)
      requires Planned()
      ensures ValidatesWorkloadAddress(ip) <==> ParseV4(ip).Some? && Acceptable(ParseV4(ip).value)
      ensures AddTests(ip) <==> ValidatesWorkloadAddress(ip)
    {
      if ParseV4(ip).Some? {
        var a := ParseV4(ip).value;
        BlockFits(podCIDR);
        ContainsRange(podCIDR, a);
        ValidateExact(podCIDR, ip);
        AddedBroadcastExact(podCIDR);
        if Contains(podCIDR, a) { ReservedExact(a); }
      }
    }

    /** What the allocator hands out: the lowest acceptable address whose text is not in use. */
    ghost predicate Allocates(used: set<IPText>, a: Word) {
      && podCIDR.V4? && podCIDR.prefix >= 16 && Acceptable(a) && Dotted(a) !in used
      && forall b: Word :: Acceptable(b) && Dotted(b) !in used ==> a <= b
    }

    /** From /16 down the three address tests define one set; above it nothing is ever allocated. */
    lemma AddressTestsAgree(a: Word)
      requires Planned()
      ensures ValidatesWorkloadAddress(Dotted(a)) <==> AddTests(Dotted(a))
      ensures (exists used :: Allocates(used, a)) <==>
                podCIDR.prefix >= 16 && ValidatesWorkloadAddress(Dotted(a))
    {
      TestsAgree(Dotted(a));
      if podCIDR.prefix >= 16 && Acceptable(a) {
        var lower := set t | t in Dotteds(0, a);
        assert forall b: Word :: b < a ==> Dotted(b) in Dotteds(0, a);
        assert Allocates(lower, a);
      }
    }

    /** In use under this text, an address is given out again all the same. */
    ghost predicate Reissuable(t: IPText) {
      t.Mapped? && podCIDR.V4? && podCIDR.prefix >= 16 && Acceptable(t.value)
    }

    /** Texts in use are compared, not addresses: a text keeps its address from others exactly if not such a one. */
    lemma ReportedKeptExactly(t: IPText)
      requires Planned()
      ensures (forall used: set<IPText>, a: Word :: t in used && Allocates(used, a) ==> ParseV4(t) != Some(a)) <==>
              !Reissuable(t)
    {
      if Reissuable(t) {
        var a := t.value;
        var used := Dotteds(0, a) + {t};
        assert forall b: Word :: b < a ==> Dotted(b) in Dotteds(0, a);
        assert t in used && Allocates(used, a);
      }
    }

    /** The lowest acceptable address not in use, and an error exactly when there is none to give. */
    method FirstAvailableWorkloadIP(used: set<IPText>) returns (r: Result<Word>)
      requires Planned()
      ensures r.Ok? <==> podCIDR.prefix >= 16 && exists a: Word :: Acceptable(a) && Dotted(a) !in used
      ensures r.Ok? ==> Allocates(used, r.value)
      ensures podCIDR.prefix >= 16 && |used| < Capacity(podCIDR, |peerGateways|) ==> r.Ok?
    {
      hide PeerGatewayAddressForCIDR, BridgeAddressForCIDR, Masked, Pow2;
      var c := podCIDR;
      BlockFits(c);
      var broadcastOffset := BroadcastOffset(c);
      var offset := 3;
      while offset < broadcastOffset
        invariant 3 <= offset <= broadcastOffset
        invariant offset > 3 ==> c.prefix >= 16
        invariant forall a: Word :: Acceptable(a) && a < Base(c) + offset ==> Dotted(a) in used
      {
        var candidate := WorkloadIPForOffset(c, offset);
        if candidate.None? { return Err; }
        var a := candidate.value;
        ReservedExact(a);
        if Dotted(a) !in used && !IsReservedWorkloadIP(a, Base(c)) { return Ok(a); }
        offset := offset + 1;
      }
      if |used| < Capacity(c, |peerGateways|) { FreeByCounting(c, |peerGateways|, used); }
      return Err;
    }

    /** An address of another interface is not taken from it. */
    ghost predicate HeldElsewhere(a: Word, addresses: map<Word, string>) {
      a in addresses && addresses[a] != "" && addresses[a] != interface
    }

    /** addWorkloadIP: the alias list grows by the canonical address or not at all. */
    method AddWorkloadIP(ip: IPText) returns (ok: bool)
      requires Valid() && Present()
      modifies this`aliases, host`addresses, host`setbacks
      ensures Valid() && Present()
      ensures old(host.setbacks) <= host.setbacks && (!ok ==> !AddTests(ip) || host.setbacks > old(host.setbacks))
      ensures ok ==> AddTests(ip) && ParseV4(ip).value in aliases
      ensures aliases == old(aliases) ||
              (ok && ParseV4(ip).value !in old(aliases) && aliases == old(aliases) + [ParseV4(ip).value])
      ensures ok && ParseV4(ip).value in old(aliases) ==> aliases == old(aliases)
      ensures ParseV4(ip).Some? && HeldElsewhere(ParseV4(ip).value, old(host.addresses)) &&
              ParseV4(ip).value !in old(aliases) ==>
                !ok && host.addresses == old(host.addresses)
      ensures ok || host.addresses == old(host.addresses) || host.setbacks >= old(host.setbacks) + 2
      ensures forall a :: a in old(host.addresses) && (ip.Unset? || ip.Other? || a != ip.value)
                ==> a in host.addresses && host.addresses[a] == old(host.addresses)[a]
    {
      if !AddTests(ip) { return false; }
      TestsAgree(ip);
      var address := ParseV4(ip).value;
      if address in aliases { return true; }
      var holder := host.InterfaceForAddress(address, interface);
      if holder.Err? { return false; }
      if holder.value != "" {
        if holder.value != interface { return false; }
        assert address in host.addresses;
        aliases := aliases + [address];
        return true;
      }
      var added := host.AddAlias(interface, address);
      if !added {
        var after := host.InterfaceForAddress(address, interface);
        if after.Ok? && after.value == interface {
          aliases := aliases + [address];
          return true;
        }
        return false;
      }
      aliases := aliases + [address];
      return true;
    }

    /** removeWorkloadIP: drops the first listed occurrence once the interface has let it go. */
    method RemoveWorkloadIP(ip: IPText) returns (ok: bool)
      requires Distinct(aliases) && Present()
      modifies this`aliases, host`addresses, host`refused, host`refusals
      ensures Distinct(aliases) && Present() && forall a :: a in aliases ==> a in old(aliases)
      ensures old(host.refusals) <= host.refusals
      ensures ok <==> ParseV4(ip).Some? && host.refusals == old(host.refusals)
      ensures ok && ParseV4(ip).Some? ==> ParseV4(ip).value !in aliases
      ensures ParseV4(ip).Some? && ParseV4(ip).value in old(aliases) ==>
                var a := ParseV4(ip).value;
                && (host.addresses == old(host.addresses) - {a} || (!ok && host.addresses == old(host.addresses)))
                && host.refused == if ok then old(host.refused) - {a} else old(host.refused) + {a}
      ensures ok ==> forall k :: 0 <= k < |old(aliases)| && old(aliases)[k] == ParseV4(ip).value ==>
                aliases == old(aliases)[..k] + old(aliases)[k + 1..]
      ensures !ok ==> aliases == old(aliases)
      ensures ParseV4(ip).None? || ParseV4(ip).value !in old(aliases) ==>
                aliases == old(aliases) && host.addresses == old(host.addresses) && host.refused == old(host.refused)
    {
      if ParseV4(ip).None? { return false; }
      var address := ParseV4(ip).value;
      var index := -1;
      for i := 0 to |aliases|
        invariant index == -1 && address !in aliases[..i]
      {
        if aliases[i] == address {
          index := i;
          break;
        }
      }
      if index == -1 { return true; }
      ok := host.RemoveAlias(address);
      if !ok { return false; }
      aliases := aliases[..index] + aliases[index + 1..];
      return true;
    }

    /** setGatewayMAC: the entry of the shared gateway follows the remote's new address. */
    method SetGatewayMAC(mac: MacText) returns (ok: bool)
      requires Planned() && OneEntryEach(arps)
      modifies this`gatewayMAC, this`arps, host`neighbours, host`setbacks
      ensures ok ==> mac.Mac? && gatewayMAC == mac.canonical
      ensures ok <==> mac.Mac? && host.setbacks == old(host.setbacks)
      ensures ok && old(gatewayMAC) != mac.canonical ==>
                host.neighbours == old(host.neighbours)[(interface, gateway) := mac.canonical]
      ensures ok && old(gatewayMAC) == mac.canonical ==> host.neighbours == old(host.neighbours)
      ensures ok && old(Wired()) ==> Wired()
      ensures |arps| == |old(arps)|
      ensures forall i :: 0 <= i < |arps| ==>
                arps[i] == if ok && old(gatewayMAC) != mac.canonical && old(arps)[i].ip == gateway
                           then ArpEntry(gateway, mac.canonical) else old(arps)[i]
      ensures !ok ==> gatewayMAC == old(gatewayMAC)
    {
      if mac.BadMac? { return false; }
      if gatewayMAC == mac.canonical { return true; }
      ok := host.SetARP(interface, ArpEntry(gateway, mac.canonical));
      if !ok { return false; }
      for i := 0 to |arps|
        invariant arps == old(arps)
        invariant forall j :: 0 <= j < i ==> arps[j].ip != gateway
      {
        if arps[i].ip == gateway {
          arps := arps[i := arps[i].(mac := mac.canonical)];
          break;
        }
      }
      gatewayMAC := mac.canonical;
    }

    /** One round of that walk: the entry goes, or nothing changes. */
    method DropAlias(i: nat) returns (ok: bool)
      requires i < |aliases| && Distinct(aliases) && Present()
      modifies this`aliases, host`addresses, host`refused, host`refusals
      ensures Distinct(aliases) && Present()
      ensures ok ==> aliases == old(aliases)[..i] + old(aliases)[i + 1..]
      ensures host.refused == if ok then old(host.refused) - {old(aliases)[i]}
                              else old(host.refused) + {old(aliases)[i]}
      ensures host.addresses == old(host.addresses) - {old(aliases)[i]} ||
              (!ok && host.addresses == old(host.addresses))
      ensures !ok ==> aliases == old(aliases)
      ensures old(host.refusals) <= host.refusals && (ok <==> host.refusals == old(host.refusals))
    {
      hide ParseV4;
      ParsedDotted(aliases[i]);
      assert aliases[i] in aliases;
      ok := RemoveWorkloadIP(Dotted(aliases[i]));
    }

    /** The first loop of cleanup: the list is edited in place while it is walked backwards. */
    method RemoveAliases() returns (ok: bool)
      requires Distinct(aliases) && Present()
      modifies this`aliases, host`addresses, host`refused, host`refusals
      ensures Distinct(aliases) && Present()
      ensures aliases == Keep(old(aliases), host.refused)
      ensures ok ==> aliases == []
      ensures old(host.refusals) <= host.refusals && (ok <==> host.refusals == old(host.refusals))
      ensures forall a :: a in old(host.addresses) && a !in old(aliases) ==> a in host.addresses
    {
      ghost var before, kept := aliases, [];
      hide Keep, Distinct, Present;
      ok := true;
      KeepNothing(host.refused);
      var i := |aliases| - 1;
      while i >= 0
        invariant -1 <= i < |before|
        invariant Distinct(aliases) && Present()
        invariant aliases == before[..i + 1] + kept
        invariant kept == Keep(before[i + 1..], host.refused)
        invariant forall a :: a in old(host.addresses) && a !in before ==> a in host.addresses
        invariant ok ==> kept == []
        invariant old(host.refusals) <= host.refusals && (ok <==> host.refusals == old(host.refusals))
      {
        ghost var was := host.refused;
        assert before[i] in before;
        Walked(before, kept, i);
        var removed := DropAlias(i);
        KeepCons(before, i, was, host.refused);
        if !removed {
          ok := false;
          kept := [before[i]] + kept;
        }
        i := i - 1;
      }
      assert before[0..] == before && before[..0] == [];
    }

    /** The second loop: without an error none of the handle's routes is left, and no other route is touched. */
    method DeleteRoutes() returns (ok: bool)
      modifies host`routes, host`refusals
      ensures Trimmed(old(host.routes), host.routes, set r | r in routes :: Destination(r), ok)
      ensures old(host.refusals) <= host.refusals && (ok <==> host.refusals == old(host.refusals))
    {
      ghost var destinations := set r | r in routes :: Destination(r);
      ok := true;
      var i := |routes| - 1;
      while i >= 0
        invariant -1 <= i < |routes|
        invariant Trimmed(old(host.routes), host.routes, destinations, false)
        invariant old(host.refusals) <= host.refusals && (ok <==> host.refusals == old(host.refusals))
        invariant ok ==> forall j :: i < j < |routes| ==> Destination(routes[j]) !in host.routes
      {
        assert routes[i] in routes;
        var deleted := host.DeleteRoute(routes[i]);
        if !deleted { ok := false; }
        i := i - 1;
      }
    }

    /** The third: the same for the ARP entries. */
    method DeleteARPs() returns (ok: bool)
      modifies host`neighbours, host`refusals
      ensures Trimmed(old(host.neighbours), host.neighbours, set e | e in arps :: (interface, e.ip), ok)
      ensures old(host.refusals) <= host.refusals && (ok <==> host.refusals == old(host.refusals))
    {
      ghost var entries := set e | e in arps :: (interface, e.ip);
      ok := true;
      var i := |arps| - 1;
      while i >= 0
        invariant -1 <= i < |arps|
        invariant Trimmed(old(host.neighbours), host.neighbours, entries, false)
        invariant old(host.refusals) <= host.refusals && (ok <==> host.refusals == old(host.refusals))
        invariant ok ==> forall j :: i < j < |arps| ==> (interface, arps[j].ip) !in host.neighbours
      {
        assert arps[i] in arps;
        var deleted := host.DeleteARP(interface, arps[i].ip);
        if !deleted { ok := false; }
        i := i - 1;
      }
    }

    /**
     * cleanup: only the aliases whose removal failed stay listed, in order. Without an error all the handle installed
     * is gone, and in no case anything else.
     */
    method Cleanup() returns (ok: bool)
      requires Valid() && Present()
      modifies this`aliases, this`routes, this`arps, host`addresses, host`refused, host`refusals
      modifies host`routes, host`neighbours
      ensures Valid() && Present()
      ensures Trimmed(old(host.routes), host.routes, set r | r in old(routes) :: Destination(r),
                      ok && interface in host.interfaces)
      ensures Trimmed(old(host.neighbours), host.neighbours, set e | e in old(arps) :: (interface, e.ip),
                      ok && interface in host.interfaces)
      ensures old(host.refusals) <= host.refusals && (ok <==> host.refusals == old(host.refusals))
      ensures interface !in host.interfaces ==> ok && aliases == [] && routes == [] && arps == []
      ensures interface in host.interfaces ==> aliases == Keep(old(aliases), host.refused)
      ensures interface in host.interfaces ==> routes == old(routes) && arps == old(arps)
      ensures ok ==> aliases == []
      ensures forall a :: a in old(host.addresses) && a !in old(aliases) ==> a in host.addresses
    {
      if interface !in host.interfaces {
        aliases, routes, arps := [], [], [];
        return true;
      }
      ok := RemoveAliases();
      KeepMembers(old(aliases), host.refused);
      var unrouted := DeleteRoutes();
      var forgotten := DeleteARPs();
      ok := ok && unrouted && forgotten;
    }
  }

  /** At most the given keys left the map, all of them if that succeeded, and nothing else changed. */
  ghost predicate Trimmed<K(!new), V>(before: map<K, V>, after: map<K, V>, keys: set<K>, all: bool) {
    && (forall k :: k in after ==> k in before && after[k] == before[k])
    && (forall k :: k in before && k !in keys ==> k in after)
    && (all ==> forall k :: k in after ==> k !in keys)
  }

  lemma ParsedDotted(a: Word)
    ensures ParseV4(Dotted(a)) == Some(a)
  {
  }

  lemma Walked(before: seq<Word>, kept: seq<Word>, i: nat)
    requires i < |before|
    ensures var s := before[..i + 1] + kept;
            s[i] == before[i] && s[..i] + s[i + 1..] == before[..i] + kept
            && s == before[..i] + ([before[i]] + kept)
  {
  }

  lemma KeepNothing(kept: set<Word>)
    ensures Keep([], kept) == []
  {
  }

  /** One round of the backward walk: either the entry went, or it joins the kept tail. */
  lemma KeepCons(before: seq<Word>, i: nat, was: set<Word>, now: set<Word>)
    requires i < |before| && Distinct(before)
    requires now == was - {before[i]} || now == was + {before[i]}
    ensures Keep(before[i..], now) ==
              (if before[i] in now then [before[i]] else []) + Keep(before[i + 1..], was)
  {
    assert before[i..] == [before[i]] + before[i + 1..];
    KeepAppend([before[i]], before[i + 1..], now);
    SameKeep(before[i + 1..], was, now);
  }

  lemma {:induction false} SameKeep(s: seq<Word>, was: set<Word>, now: set<Word>)
    requires forall a :: a in s ==> (a in was <==> a in now)
    ensures Keep(s, was) == Keep(s, now)
  {
    if s != [] {
      var n := |s| - 1;
      assert s == s[..n] + [s[n]];
      SameKeep(s[..n], was, now);
    }
  }

  // ---- Building the handle -----------------------------------------------------------------

  function RouteVia(c: Cidr, gateway: Word): Route
    requires c.V4?
  {
    Route(Base(c), Netmask(c), gateway)
  }

  /** A route of a CIDR: it takes exactly the addresses of the block, and leads through this gateway. */
  ghost predicate RouteTo(r: Route, c: Cidr, gateway: Word)
    requires c.V4?
  {
    && r.gateway == gateway && r.network == Base(c)
    && forall a: Word :: Reaches(r.network, r.netmask, a) <==> Base(c) <= a < Base(c) + Size(c)
  }

  lemma ViaReaches(c: Cidr, gateway: Word)
    requires c.V4?
    ensures RouteTo(RouteVia(c, gateway), c, gateway)
  {
    hide Reaches, Base, Size, Netmask;
    forall a: Word ensures Reaches(Base(c), Netmask(c), a) <==> Base(c) <= a < Base(c) + Size(c) { RouteReaches(c, a); }
  }

  ghost predicate DistinctPodCIDRs(gateways: seq<PeerGateway>) {
    forall i, j :: 0 <= i < j < |gateways| ==> gateways[i].podCIDR != gateways[j].podCIDR
  }

  /** No address has two ARP entries. */
  ghost predicate OneEntryEach(arps: seq<ArpEntry>) {
    forall i, j :: 0 <= i < j < |arps| ==> arps[i].ip != arps[j].ip
  }

  /** One synthetic gateway and ARP entry per peer, in order. */
  ghost predicate GatewaysFor(c: Cidr, peers: seq<FlannelPeer>, gateways: seq<PeerGateway>, arps: seq<ArpEntry>) {
    && |gateways| == |peers| == |arps| < TWO_TO_32
    && DistinctPodCIDRs(gateways)
    && forall i :: 0 <= i < |peers| ==>
         && peers[i].vtepMAC.Mac?
         && Some(gateways[i].gateway) == PeerGatewayAddressForCIDR(c, i)
         && gateways[i] == PeerGateway(peers[i].podCIDR, gateways[i].gateway,
                                       peers[i].vtepMAC.canonical, peers[i].publicIP)
         && arps[i] == ArpEntry(gateways[i].gateway, gateways[i].mac)
  }

  ghost predicate RoutesFor(cfg: JoinConfig, gateway: Word, peers: seq<FlannelPeer>,
                            gateways: seq<PeerGateway>, routes: seq<Route>)
    requires |gateways| >= |peers|
  {
    && |routes| == 2 + |peers|
    && cfg.clusterCIDR.V4? && RouteBy(routes[0], cfg.clusterCIDR, gateway)
    && cfg.serviceCIDR.V4? && RouteBy(routes[1], cfg.serviceCIDR, gateway)
    && forall i :: 0 <= i < |peers| ==>
         peers[i].podCIDR.V4? && RouteBy(routes[2 + i], peers[i].podCIDR, gateways[i].gateway)
  }

  /** The route that is added, and what it takes. */
  ghost predicate RouteBy(r: Route, c: Cidr, gateway: Word)
    requires c.V4?
  {
    r == RouteVia(c, gateway) && RouteTo(r, c, gateway)
  }

  /** What a setup needs of its configuration and the discovered peers, in the order it takes them. */
  ghost predicate Plannable(cfg: JoinConfig, c: Cidr, mac: MacText, ordered: seq<FlannelPeer>) {
    && c.V4? && c.prefix <= 30 && mac.Mac? && cfg.clusterCIDR.V4? && cfg.serviceCIDR.V4?
    && (ordered != [] ==> ordered[0].publicIP == cfg.vxlanRemote)
    && Addressable(c, ordered) && AllV4(ordered)
  }

  ghost predicate Addressable(c: Cidr, peers: seq<FlannelPeer>)
    requires c.V4?
  {
    && |peers| <= Size(c) - 3 && (forall i :: 0 <= i < |peers| ==> peers[i].vtepMAC.Mac?)
    && forall i, j :: 0 <= i < j < |peers| ==> peers[i].podCIDR != peers[j].podCIDR
  }

  ghost predicate AllV4(peers: seq<FlannelPeer>) {
    forall i :: 0 <= i < |peers| ==> peers[i].podCIDR.V4?
  }

  /** addGateway, once per peer: a repeated gateway or PodCIDR is refused. */
  method AddGateways(c: Cidr, peers: seq<FlannelPeer>)
    returns (ok: bool, gateways: seq<PeerGateway>, arps: seq<ArpEntry>)
    requires c.V4? && c.prefix <= 30
    ensures ok ==> GatewaysFor(c, peers, gateways, arps) && OneEntryEach(arps)
    ensures ok <==> Addressable(c, peers)
  {
    hide PeerGatewayAddressForCIDR, Size;
    ok, gateways, arps := true, [], [];
    BlockFits(c);
    for i := 0 to |peers|
      invariant GatewaysFor(c, peers[..i], gateways, arps) && OneEntryEach(arps)
      invariant i <= Size(c) - 3
    {
      var peer := peers[i];
      if peer.vtepMAC.BadMac? { return false, gateways, arps; }
      var address := PeerGatewayAddressForCIDR(c, i);
      PlanExact(c, i);
      if address.None? { return false, gateways, arps; }
      for j := 0 to |gateways|
        invariant forall k :: 0 <= k < j ==>
                    gateways[k].podCIDR != peer.podCIDR && gateways[k].gateway != address.value
      {
        GatewaysDistinct(c, j, i);
        if gateways[j].gateway == address.value || gateways[j].podCIDR == peer.podCIDR {
          return false, gateways, arps;
        }
      }
      assert peers[..i + 1] == peers[..i] + [peer];
      gateways := gateways + [PeerGateway(peer.podCIDR, address.value, peer.vtepMAC.canonical, peer.publicIP)];
      arps := arps + [ArpEntry(address.value, peer.vtepMAC.canonical)];
    }
    assert peers[..|peers|] == peers;
  }

  /** The gateway of a PodCIDR: the first listed one, which is the only one. */
  method GatewayFor(gateways: seq<PeerGateway>, podCIDR: Cidr, ghost at: nat) returns (via: Word)
    requires DistinctPodCIDRs(gateways) && at < |gateways| && gateways[at].podCIDR == podCIDR
    ensures via == gateways[at].gateway
  {
    via := 0;
    for j := 0 to |gateways|
      invariant j <= at
    {
      if gateways[j].podCIDR == podCIDR { return gateways[j].gateway; }
    }
  }

  method PlanRoutes(cfg: JoinConfig, gateway: Word, peers: seq<FlannelPeer>, gateways: seq<PeerGateway>)
    returns (ok: bool, routes: seq<Route>)
    requires |gateways| >= |peers| && DistinctPodCIDRs(gateways)
    requires forall i :: 0 <= i < |peers| ==> gateways[i].podCIDR == peers[i].podCIDR
    ensures ok ==> RoutesFor(cfg, gateway, peers, gateways, routes)
    ensures ok <==> cfg.clusterCIDR.V4? && cfg.serviceCIDR.V4? && AllV4(peers)
  {
    hide DistinctPodCIDRs, RouteVia, RouteTo;
    ok, routes := true, [];
    if !cfg.clusterCIDR.V4? || !cfg.serviceCIDR.V4? { return false, []; }
    ViaReaches(cfg.clusterCIDR, gateway);
    ViaReaches(cfg.serviceCIDR, gateway);
    routes := [RouteVia(cfg.clusterCIDR, gateway), RouteVia(cfg.serviceCIDR, gateway)];
    for i := 0 to |peers|
      invariant RoutesFor(cfg, gateway, peers[..i], gateways, routes)
    {
      if !peers[i].podCIDR.V4? { return false, routes; }
      var via := GatewayFor(gateways, peers[i].podCIDR, i);
      ViaReaches(peers[i].podCIDR, via);
      routes := routes + [RouteVia(peers[i].podCIDR, via)];
    }
    assert peers[..|peers|] == peers;
  }

  /** The ARP table after the entries were set in order, and the routing table after the routes were added. */
  ghost function Neighboured(table: map<(string, Word), string>, interface: string, arps: seq<ArpEntry>)
    : map<(string, Word), string>
  {
    if arps == [] then table
    else
      var last := arps[|arps| - 1];
      Neighboured(table, interface, arps[..|arps| - 1])[(interface, last.ip) := last.mac]
  }

  ghost function Routed(table: map<(Word, Word), Word>, routes: seq<Route>): map<(Word, Word), Word> {
    if routes == [] then table
    else
      var last := routes[|routes| - 1];
      Routed(table, routes[..|routes| - 1])[Destination(last) := last.gateway]
  }

  /** Entries with addresses of their own are all in force, and no other entry is touched. */
  lemma {:induction false} NeighbouredAll(table: map<(string, Word), string>, interface: string, arps: seq<ArpEntry>)
    requires OneEntryEach(arps)
    ensures var after := Neighboured(table, interface, arps);
            && (forall e :: e in arps ==> (interface, e.ip) in after && after[(interface, e.ip)] == e.mac)
            && (forall k :: k in table && (forall e :: e in arps ==> k != (interface, e.ip)) ==>
                  k in after && after[k] == table[k])
  {
    if arps != [] {
      var n := |arps| - 1;
      NeighbouredAll(table, interface, arps[..n]);
      assert arps == arps[..n] + [arps[n]];
    }
  }

  /** Two routes to one destination go through one gateway. */
  ghost predicate Unambiguous(routes: seq<Route>) {
    forall r, s :: r in routes && s in routes && Destination(r) == Destination(s) ==> r.gateway == s.gateway
  }

  lemma {:induction false} RoutedSome(table: map<(Word, Word), Word>, routes: seq<Route>)
    ensures var after := Routed(table, routes);
            && (forall r :: r in routes ==> Destination(r) in after)
            && (forall d :: d in after && (exists r :: r in routes && Destination(r) == d) ==>
                  exists r :: r in routes && Destination(r) == d && after[d] == r.gateway)
            && (forall d :: d in table && (forall r :: r in routes ==> Destination(r) != d) ==>
                  d in after && after[d] == table[d])
  {
    if routes != [] {
      var n := |routes| - 1;
      var init, last := routes[..n], routes[n];
      RoutedSome(table, init);
      assert routes == init + [last];
      var before, after := Routed(table, init), Routed(table, routes);
      forall d | d in after && exists r :: r in routes && Destination(r) == d
        ensures exists r :: r in routes && Destination(r) == d && after[d] == r.gateway
      {
        if d == Destination(last) {
          assert last in routes;
        } else {
          var r :| r in routes && Destination(r) == d;
          assert r in init;
          var s :| s in init && Destination(s) == d && before[d] == s.gateway;
          assert s in routes;
        }
      }
    }
  }

  /** Adding routes puts all of them in force exactly if no two contradict each other. */
  lemma RoutesInForceExactly(table: map<(Word, Word), Word>, routes: seq<Route>)
    ensures forall r :: r in routes ==> Destination(r) in Routed(table, routes)
    ensures (forall r :: r in routes ==> Routed(table, routes)[Destination(r)] == r.gateway) <==> Unambiguous(routes)
  {
    RoutedSome(table, routes);
    if Unambiguous(routes) {
      forall r | r in routes ensures Routed(table, routes)[Destination(r)] == r.gateway {
        var s :| s in routes && Destination(s) == Destination(r) &&
                 Routed(table, routes)[Destination(r)] == s.gateway;
      }
    }
  }

  /** What a failed setup leaves of its routes: the first n are gone, and only the one it failed at may stay. */
  ghost predicate RoutesUndone(before: map<(Word, Word), Word>, after: map<(Word, Word), Word>, routes: seq<Route>,
                               n: int, deleted: bool) {
    && 0 <= n <= |routes|
    && (forall d :: (forall i :: 0 <= i <= n && i < |routes| ==> Destination(routes[i]) != d) ==>
          (d in after <==> d in before) && (d in before ==> after[d] == before[d]))
    && (deleted ==>
          forall i :: 0 <= i < n && (n < |routes| ==> Destination(routes[i]) != Destination(routes[n])) ==>
            Destination(routes[i]) !in after)
  }

  /** And of its ARP entries. */
  ghost predicate ARPsUndone(before: map<(string, Word), string>, after: map<(string, Word), string>,
                             interface: string, arps: seq<ArpEntry>, deleted: bool) {
    && (forall k :: (forall e :: e in arps ==> (interface, e.ip) != k) ==>
          (k in after <==> k in before) && (k in before ==> after[k] == before[k]))
    && (deleted ==> forall e :: e in arps ==> (interface, e.ip) !in after)
  }

  lemma {:induction false} RoutedElse(table: map<(Word, Word), Word>, routes: seq<Route>, d: (Word, Word))
    requires forall i :: 0 <= i < |routes| ==> Destination(routes[i]) != d
    ensures d in Routed(table, routes) <==> d in table
    ensures d in table ==> Routed(table, routes)[d] == table[d]
  {
    if routes != [] { RoutedElse(table, routes[..|routes| - 1], d); }
  }

  /** Nothing of a failed setup is elsewhere than at the routes it tried. */
  lemma RouteElse(start: map<(Word, Word), Word>, tried: map<(Word, Word), Word>, after: map<(Word, Word), Word>,
                  routes: seq<Route>, n: nat, destinations: set<(Word, Word)>, deleted: bool, d: (Word, Word))
    requires n < |routes|
    requires var before := Routed(start, routes[..n]);
             tried == before || tried == before[Destination(routes[n]) := routes[n].gateway]
    requires destinations == set r | r in routes[..n] :: Destination(r)
    requires Trimmed(tried, after, destinations, deleted)
    requires forall i :: 0 <= i <= n ==> Destination(routes[i]) != d
    ensures (d in after <==> d in start) && (d in start ==> after[d] == start[d])
  {
    RoutedElse(start, routes[..n], d);
    hide Destination, Routed;
    assert d !in destinations;
  }

  lemma RouteFailed(start: map<(Word, Word), Word>, before: map<(Word, Word), Word>, tried: map<(Word, Word), Word>,
                    after: map<(Word, Word), Word>, routes: seq<Route>, n: nat, deleted: bool)
    requires n < |routes| && before == Routed(start, routes[..n])
    requires tried == before || tried == before[Destination(routes[n]) := routes[n].gateway]
    requires Trimmed(tried, after, set r | r in routes[..n] :: Destination(r), deleted)
    ensures RoutesUndone(start, after, routes, n, deleted)
  {
    var destinations := set r | r in routes[..n] :: Destination(r);
    hide Destination, Routed;
    forall i | 0 <= i < n ensures Destination(routes[i]) in destinations { assert routes[..n][i] in routes[..n]; }
    forall d | forall i :: 0 <= i <= n && i < |routes| ==> Destination(routes[i]) != d
      ensures (d in after <==> d in start) && (d in start ==> after[d] == start[d])
    {
      RouteElse(start, tried, after, routes, n, destinations, deleted, d);
    }
  }

  lemma NoRouteTried(table: map<(Word, Word), Word>, after: map<(Word, Word), Word>, routes: seq<Route>, deleted: bool)
    requires Trimmed(table, after, {}, deleted)
    ensures RoutesUndone(table, after, routes, 0, deleted)
  {
  }

  lemma ARPsFailed(start: map<(string, Word), string>, before: map<(string, Word), string>,
                   tried: map<(string, Word), string>, after: map<(string, Word), string>, interface: string,
                   arps: seq<ArpEntry>, n: nat, deleted: bool)
    requires n <= |arps| && OneEntryEach(arps) && before == Neighboured(start, interface, arps[..n])
    requires tried == before || (n < |arps| && tried == before[(interface, arps[n].ip) := arps[n].mac])
    requires Trimmed(tried, after, set e | e in arps :: (interface, e.ip), deleted)
    ensures ARPsUndone(start, after, interface, arps, deleted)
  {
    NeighbouredAll(start, interface, arps[..n]);
    hide Neighboured;
    forall k | forall e :: e in arps ==> (interface, e.ip) != k
      ensures (k in after <==> k in start) && (k in start ==> after[k] == start[k])
    {
      assert forall e :: e in arps[..n] ==> e in arps;
      if n < |arps| { assert arps[n] in arps; }
      NeighbouredOnly(start, interface, arps[..n], k);
    }
  }

  lemma {:induction false} NeighbouredOnly(table: map<(string, Word), string>, interface: string, arps: seq<ArpEntry>,
                                           k: (string, Word))
    requires forall e :: e in arps ==> (interface, e.ip) != k
    ensures k in Neighboured(table, interface, arps) <==> k in table
  {
    if arps != [] {
      var n := |arps| - 1;
      assert arps[n] in arps;
      NeighbouredOnly(table, interface, arps[..n], k);
    }
  }

  /** The arp and route commands of setupDarwinNetwork; the first failure undoes the rest. */
  method Install(handle: Handle, routes: seq<Route>) returns (ok: bool)
    requires handle.Valid() && handle.aliases == [] && handle.routes == [] && OneEntryEach(handle.arps)
    modifies handle`aliases, handle`routes, handle`arps
    modifies handle.host`addresses, handle.host`refused, handle.host`refusals, handle.host`routes
    modifies handle.host`neighbours, handle.host`setbacks
    ensures old(handle.host.setbacks) <= handle.host.setbacks
    ensures ok <==> handle.host.setbacks == old(handle.host.setbacks)
    ensures !ok && handle.interface in handle.host.interfaces ==>
              var gone := handle.host.refusals == old(handle.host.refusals);
              && ARPsUndone(old(handle.host.neighbours), handle.host.neighbours, handle.interface, old(handle.arps),
                            gone)
              && exists n :: RoutesUndone(old(handle.host.routes), handle.host.routes, routes, n, gone)
    ensures ok ==> handle.Valid() && handle.aliases == [] && handle.routes == routes
    ensures ok ==> handle.arps == old(handle.arps) && handle.host.addresses == old(handle.host.addresses)
    ensures ok ==> handle.host.neighbours == Neighboured(old(handle.host.neighbours), handle.interface, handle.arps)
    ensures ok ==> handle.Wired()
    ensures ok ==> handle.host.routes == Routed(old(handle.host.routes), routes)
  {
    hide Trimmed, Handle.Wired, OneEntryEach, RoutesUndone, ARPsUndone, Neighboured, Routed;
    ghost var neighbours, table, arps := handle.host.neighbours, handle.host.routes, handle.arps;
    NothingTabled(neighbours, table, handle.interface);
    for i := 0 to |handle.arps|
      invariant handle.Valid() && handle.aliases == [] && handle.routes == []
      invariant handle.arps == old(handle.arps) && handle.host.addresses == old(handle.host.addresses)
      invariant handle.host.neighbours == Neighboured(neighbours, handle.interface, handle.arps[..i])
      invariant handle.host.routes == table
      invariant handle.host.setbacks == old(handle.host.setbacks) && handle.host.refusals == old(handle.host.refusals)
    {
      NeighbouredSnoc(neighbours, handle.interface, arps, i);
      var installed := handle.host.SetARP(handle.interface, handle.arps[i]);
      if !installed {
        ghost var tried := handle.host.neighbours;
        var gone := handle.Cleanup();
        if handle.interface in handle.host.interfaces {
          ARPsFailed(neighbours, Neighboured(neighbours, handle.interface, arps[..i]), tried, handle.host.neighbours,
                     handle.interface, arps, i, gone);
          NoRoutes();
          NoRouteTried(table, handle.host.routes, routes, gone);
        }
        return false;
      }
    }
    assert handle.arps[..|handle.arps|] == handle.arps;
    for i := 0 to |routes|
      invariant handle.Valid() && handle.aliases == [] && handle.routes == routes[..i]
      invariant handle.arps == old(handle.arps) && handle.host.addresses == old(handle.host.addresses)
      invariant handle.host.neighbours == Neighboured(neighbours, handle.interface, handle.arps)
      invariant handle.host.routes == Routed(table, routes[..i])
      invariant handle.host.setbacks == old(handle.host.setbacks) && handle.host.refusals == old(handle.host.refusals)
    {
      RoutedSnoc(table, routes, i);
      var installed := handle.host.AddRoute(routes[i]);
      if !installed {
        ghost var tried := handle.host.routes;
        var gone := handle.Cleanup();
        if handle.interface in handle.host.interfaces {
          ghost var all := Neighboured(neighbours, handle.interface, arps);
          ARPsFailed(neighbours, all, all, handle.host.neighbours, handle.interface, arps, |arps|, gone);
          RouteFailed(table, Routed(table, routes[..i]), tried, handle.host.routes, routes, i, gone);
        }
        return false;
      }
      handle.routes := handle.routes + [routes[i]];
    }
    assert routes[..|routes|] == routes;
    AllWired(handle, neighbours);
    return true;
  }

  lemma NothingTabled(neighbours: map<(string, Word), string>, table: map<(Word, Word), Word>, interface: string)
    ensures Neighboured(neighbours, interface, []) == neighbours && Routed(table, []) == table
  {
  }

  lemma NoRoutes()
    ensures (set r: Route | r in [] :: Destination(r)) == {}
  {
  }

  lemma NeighbouredSnoc(table: map<(string, Word), string>, interface: string, arps: seq<ArpEntry>, i: nat)
    requires i < |arps|
    ensures Neighboured(table, interface, arps[..i + 1]) ==
              Neighboured(table, interface, arps[..i])[(interface, arps[i].ip) := arps[i].mac]
  {
    assert arps[..i + 1][..i] == arps[..i];
  }

  lemma RoutedSnoc(table: map<(Word, Word), Word>, routes: seq<Route>, i: nat)
    requires i < |routes|
    ensures Routed(table, routes[..i + 1]) == Routed(table, routes[..i])[Destination(routes[i]) := routes[i].gateway]
  {
    assert routes[..i + 1][..i] == routes[..i];
  }

  lemma AllWired(handle: Handle, before: map<(string, Word), string>)
    requires OneEntryEach(handle.arps)
    requires handle.host.neighbours == Neighboured(before, handle.interface, handle.arps)
    ensures handle.Wired()
  {
    NeighbouredAll(before, handle.interface, handle.arps);
  }

  /** The gateways by peer, or without discovered peers the one shared gateway. */
  method PlanGateways(c: Cidr, gateway: Word, mac: string, remote: string, ordered: seq<FlannelPeer>)
    returns (ok: bool, gateways: seq<PeerGateway>, arps: seq<ArpEntry>)
    requires c.V4? && c.prefix <= 30 && PeerGatewayAddressForCIDR(c, 0) == Some(gateway)
    ensures ok <==> Addressable(c, ordered)
    ensures ok && ordered != [] ==> GatewaysFor(c, ordered, gateways, arps)
    ensures ok && ordered == [] ==>
              gateways == [PeerGateway(Malformed, gateway, mac, remote)] && arps == [ArpEntry(gateway, mac)]
    ensures ok ==> 1 <= |gateways| < TWO_TO_32 && |gateways| >= |ordered| && DistinctPodCIDRs(gateways)
    ensures ok ==> OneEntryEach(arps)
    ensures ok ==> forall i :: 0 <= i < |gateways| ==> Some(gateways[i].gateway) == PeerGatewayAddressForCIDR(c, i)
    ensures ok ==> forall i :: 0 <= i < |ordered| ==> gateways[i].podCIDR == ordered[i].podCIDR
  {
    hide PeerGatewayAddressForCIDR, Size;
    BlockFits(c);
    ok := true;
    gateways := [PeerGateway(Malformed, gateway, mac, remote)];
    arps := [ArpEntry(gateway, mac)];
    if |ordered| > 0 {
      ok, gateways, arps := AddGateways(c, ordered);
    }
  }

  /** A handle with these entries, and its commands. */
  method MakeHandle(host: HostNetwork, bridgeName: string, c: Cidr, gateway: Word, gateways: seq<PeerGateway>,
                    mac: string, arps: seq<ArpEntry>, routes: seq<Route>) returns (r: Result<Handle>)
    requires bridgeName != "" && PeerGatewayAddressForCIDR(c, 0) == Some(gateway) && 1 <= |gateways| < TWO_TO_32
    requires forall i :: 0 <= i < |gateways| ==> Some(gateways[i].gateway) == PeerGatewayAddressForCIDR(c, i)
    requires OneEntryEach(arps)
    modifies host`addresses, host`refused, host`refusals, host`routes, host`neighbours, host`setbacks
    ensures old(host.setbacks) <= host.setbacks && (r.Ok? <==> host.setbacks == old(host.setbacks))
    ensures r.Err? && bridgeName in host.interfaces ==>
              var gone := host.refusals == old(host.refusals);
              && ARPsUndone(old(host.neighbours), host.neighbours, bridgeName, arps, gone)
              && exists n :: RoutesUndone(old(host.routes), host.routes, routes, n, gone)
    ensures r.Ok? ==> fresh(r.value) && r.value.Valid() && r.value.Present() && r.value.Wired()
    ensures r.Ok? ==>
              var h := r.value;
              && h.host == host && h.interface == bridgeName && h.podCIDR == c && h.gateway == gateway
              && h.peerGateways == gateways && h.gatewayMAC == mac && h.arps == arps && h.routes == routes
              && h.aliases == []
    ensures r.Ok? ==>
              && host.neighbours == Neighboured(old(host.neighbours), bridgeName, arps)
              && host.routes == Routed(old(host.routes), routes)
  {
    hide PeerGatewayAddressForCIDR, Neighboured, Routed, Handle.Wired, OneEntryEach, Handle.Valid, RoutesUndone;
    hide ARPsUndone;
    var handle := new Handle(host, bridgeName, c, gateway, gateways, mac, arps);
    var installed := Install(handle, routes);
    r := if installed then Ok(handle) else Err;
  }

  /** The gateways, entries and routes of a setup: by peer, or without discovered peers the one shared gateway. */
  ghost predicate Planned(cfg: JoinConfig, c: Cidr, mac: MacText, ordered: seq<FlannelPeer>, gateways: seq<PeerGateway>,
                          arps: seq<ArpEntry>, routes: seq<Route>) {
    && c.V4? && mac.Mac? && PeerGatewayAddressForCIDR(c, 0).Some?
    && |gateways| >= |ordered| && OneEntryEach(arps)
    && var gateway := PeerGatewayAddressForCIDR(c, 0).value;
       && RoutesFor(cfg, gateway, ordered, gateways, routes)
       && if ordered == [] then
            gateways == [PeerGateway(Malformed, gateway, mac.canonical, cfg.vxlanRemote)] &&
            arps == [ArpEntry(gateway, mac.canonical)]
          else
            ordered[0].publicIP == cfg.vxlanRemote && GatewaysFor(c, ordered, gateways, arps)
  }

  /** setupDarwinNetwork */
  method SetupDarwinNetwork(cfg: JoinConfig, host: HostNetwork, bridgeName: string, bridgeCIDR: Cidr,
                            peers: seq<FlannelPeer>, gatewayMAC: MacText) returns (r: Result<Handle>)
    requires bridgeName != ""
    modifies host`addresses, host`refused, host`refusals, host`routes, host`neighbours, host`setbacks
    ensures old(host.setbacks) <= host.setbacks
    ensures r.Ok? <==> Plannable(cfg, bridgeCIDR, gatewayMAC, RemoteFirst(peers, cfg.vxlanRemote)) &&
                       host.setbacks == old(host.setbacks)
    ensures r.Err? && host.setbacks == old(host.setbacks) ==>
              host.routes == old(host.routes) && host.neighbours == old(host.neighbours)
    ensures r.Err? && bridgeName in host.interfaces && host.setbacks > old(host.setbacks) ==>
              var gone := host.refusals == old(host.refusals);
              exists gateways, arps, routes, n ::
                && Planned(cfg, bridgeCIDR, gatewayMAC, RemoteFirst(peers, cfg.vxlanRemote), gateways, arps, routes)
                && ARPsUndone(old(host.neighbours), host.neighbours, bridgeName, arps, gone)
                && RoutesUndone(old(host.routes), host.routes, routes, n, gone)
    ensures r.Ok? ==> fresh(r.value) && r.value.Valid() && r.value.Present()
    ensures r.Ok? ==>
              && host.neighbours == Neighboured(old(host.neighbours), bridgeName, r.value.arps) && r.value.Wired()
              && host.routes == Routed(old(host.routes), r.value.routes)
    ensures r.Ok? ==> r.value.host == host && r.value.interface == bridgeName && r.value.podCIDR == bridgeCIDR
    ensures r.Ok? ==> gatewayMAC == Mac(r.value.gatewayMAC) && r.value.aliases == []
    ensures r.Ok? ==> Planned(cfg, bridgeCIDR, gatewayMAC, RemoteFirst(peers, cfg.vxlanRemote), r.value.peerGateways,
                              r.value.arps, r.value.routes)
  {
    var gateway := PeerGatewayAddressForCIDR(bridgeCIDR, 0);
    if gateway.None? || gatewayMAC.BadMac? { return Err; }
    assert bridgeCIDR.V4? && bridgeCIDR.prefix <= 30;
    hide PeerGatewayAddressForCIDR, RemoteFirst, RoutesFor, GatewaysFor, DistinctPodCIDRs, Distinct, Neighboured;
    hide Routed, Handle.Wired, OneEntryEach, Handle.Valid, Handle.Present, RoutesUndone, ARPsUndone, Addressable;
    hide AllV4;
    var ordered := OrderPeers(peers, cfg.vxlanRemote);
    RemoteFirstLength(peers, cfg.vxlanRemote);
    if |ordered| > 0 && ordered[0].publicIP != cfg.vxlanRemote { return Err; }
    var ready, gateways, arps :=
      PlanGateways(bridgeCIDR, gateway.value, gatewayMAC.canonical, cfg.vxlanRemote, ordered);
    if !ready { return Err; }
    var planned, routes := PlanRoutes(cfg, gateway.value, ordered, gateways);
    if !planned { return Err; }
    r := MakeHandle(host, bridgeName, bridgeCIDR, gateway.value, gateways, gatewayMAC.canonical, arps, routes);
    assert Planned(cfg, bridgeCIDR, gatewayMAC, ordered, gateways, arps, routes);
    hide Planned;
  }

  /** What a successful setup means for a peer: its route, its gateway, and the one MAC behind it. */
  lemma PeerRoutingConsistent(cfg: JoinConfig, c: Cidr, peers: seq<FlannelPeer>,
                              gateways: seq<PeerGateway>, arps: seq<ArpEntry>, routes: seq<Route>)
    requires var ordered := RemoteFirst(peers, cfg.vxlanRemote);
             && peers != [] && c.V4?
             && GatewaysFor(c, ordered, gateways, arps)
             && ordered[0].publicIP == cfg.vxlanRemote
             && RoutesFor(cfg, gateways[0].gateway, ordered, gateways, routes)
    ensures multiset(RemoteFirst(peers, cfg.vxlanRemote)) == multiset(peers)
    ensures forall i :: 0 <= i < |gateways| ==>
              && Base(c) + 2 <= gateways[i].gateway < Base(c) + Size(c) - 1
              && routes[2 + i].gateway == gateways[i].gateway
    ensures forall i, j :: 0 <= i < |gateways| && 0 <= j < |arps| && arps[j].ip == gateways[i].gateway ==>
              i == j && Mac(arps[j].mac) == RemoteFirst(peers, cfg.vxlanRemote)[i].vtepMAC
    ensures routes[0].gateway == routes[1].gateway == routes[2].gateway
    ensures RemoteFirst(peers, cfg.vxlanRemote)[0].publicIP == cfg.vxlanRemote
  {
    hide PeerGatewayAddressForCIDR, RemoteFirst;
    var ordered := RemoteFirst(peers, cfg.vxlanRemote);
    RemoteFirstPermutes(peers, cfg.vxlanRemote);
    RemoteFirstLength(peers, cfg.vxlanRemote);
    forall i, j | 0 <= i < |gateways| && 0 <= j < |gateways|
      ensures Base(c) + 2 <= gateways[i].gateway < Base(c) + Size(c) - 1
      ensures i != j ==> gateways[i].gateway != gateways[j].gateway
    {
      GatewaysDistinct(c, i, j);
    }
  }

  function Block(c: Cidr): (Word, Word)
    requires c.V4?
  {
    (Base(c), Netmask(c))
  }

  ghost predicate SameBlock(c: Cidr, d: Cidr)
    requires c.V4? && d.V4?
  {
    Base(c) == Base(d) && Size(c) == Size(d)
  }

  lemma BlockTells(c: Cidr, d: Cidr)
    requires c.V4? && d.V4?
    ensures Block(c) == Block(d) <==> SameBlock(c, d)
  {
    hide Base, Netmask, Size;
    NetmaskTells(c, d);
  }

  /** The table has an entry for the addresses of this CIDR, and no others, which leads through this gateway. */
  ghost predicate InForce(table: map<(Word, Word), Word>, c: Cidr, gateway: Word)
    requires c.V4?
  {
    var d := Block(c);
    && d in table && table[d] == gateway
    && forall a: Word :: Reaches(d.0, d.1, a) <==> Base(c) <= a < Base(c) + Size(c)
  }

  lemma InForceBy(table: map<(Word, Word), Word>, c: Cidr, gateway: Word)
    requires c.V4?
    ensures InForce(table, c, gateway) <==> Block(c) in table && table[Block(c)] == gateway
  {
    hide Reaches;
    ViaReaches(c, gateway);
  }

  /** No two peers have one block, and none but the remote has that of the cluster or the services. */
  ghost predicate OwnBlocks(cfg: JoinConfig, ordered: seq<FlannelPeer>)
    requires cfg.clusterCIDR.V4? && cfg.serviceCIDR.V4? && forall p :: p in ordered ==> p.podCIDR.V4?
  {
    && (forall i, j :: 0 <= i < j < |ordered| ==> !SameBlock(ordered[i].podCIDR, ordered[j].podCIDR))
    && (forall i :: 0 < i < |ordered| ==>
          !SameBlock(ordered[i].podCIDR, cfg.clusterCIDR) && !SameBlock(ordered[i].podCIDR, cfg.serviceCIDR))
  }

  /** The host sends each peer's Pods through that peer's gateway, cluster and service traffic through the remote's. */
  ghost predicate RoutedByPeer(cfg: JoinConfig, ordered: seq<FlannelPeer>, gateways: seq<PeerGateway>,
                               table: map<(Word, Word), Word>)
    requires cfg.clusterCIDR.V4? && cfg.serviceCIDR.V4? && forall p :: p in ordered ==> p.podCIDR.V4?
    requires 0 < |ordered| == |gateways|
  {
    && (forall i :: 0 <= i < |ordered| ==> InForce(table, ordered[i].podCIDR, gateways[i].gateway))
    && InForce(table, cfg.clusterCIDR, gateways[0].gateway)
    && InForce(table, cfg.serviceCIDR, gateways[0].gateway)
  }

  lemma PlannedRoutes(cfg: JoinConfig, ordered: seq<FlannelPeer>, gateways: seq<PeerGateway>, routes: seq<Route>)
    requires 0 < |ordered| == |gateways| && RoutesFor(cfg, gateways[0].gateway, ordered, gateways, routes)
    requires forall i, j :: 0 <= i < j < |gateways| ==> gateways[i].gateway != gateways[j].gateway
    ensures forall p :: p in ordered ==> p.podCIDR.V4?
    ensures Unambiguous(routes) <==> OwnBlocks(cfg, ordered)
  {
    hide Base, Netmask, RouteTo, SameBlock;
    forall p | p in ordered ensures p.podCIDR.V4? {
      var i :| 0 <= i < |ordered| && ordered[i] == p;
    }
    forall i, j | 0 <= i < |ordered| && 0 <= j < |ordered|
      ensures Block(ordered[i].podCIDR) == Block(ordered[j].podCIDR) <==>
              SameBlock(ordered[i].podCIDR, ordered[j].podCIDR)
      ensures Block(ordered[i].podCIDR) == Block(cfg.clusterCIDR) <==> SameBlock(ordered[i].podCIDR, cfg.clusterCIDR)
      ensures Block(ordered[i].podCIDR) == Block(cfg.serviceCIDR) <==> SameBlock(ordered[i].podCIDR, cfg.serviceCIDR)
    {
      BlockTells(ordered[i].podCIDR, ordered[j].podCIDR);
      BlockTells(ordered[i].podCIDR, cfg.clusterCIDR);
      BlockTells(ordered[i].podCIDR, cfg.serviceCIDR);
    }
    if Unambiguous(routes) {
      forall i | 0 <= i < |ordered|
        ensures routes[2 + i] in routes && Destination(routes[2 + i]) == Block(ordered[i].podCIDR)
      {
      }
      assert routes[0] in routes && routes[1] in routes;
    }
    if OwnBlocks(cfg, ordered) {
      forall k, l | 0 <= k < |routes| && 0 <= l < |routes| && Destination(routes[k]) == Destination(routes[l])
        ensures routes[k].gateway == routes[l].gateway
      {
        if k >= 2 { assert Destination(routes[k]) == Block(ordered[k - 2].podCIDR); }
        if l >= 2 { assert Destination(routes[l]) == Block(ordered[l - 2].podCIDR); }
      }
    }
  }

  lemma TableByPeer(cfg: JoinConfig, ordered: seq<FlannelPeer>, gateways: seq<PeerGateway>, routes: seq<Route>,
                    table: map<(Word, Word), Word>)
    requires 0 < |ordered| == |gateways| && RoutesFor(cfg, gateways[0].gateway, ordered, gateways, routes)
    requires forall p :: p in ordered ==> p.podCIDR.V4?
    requires forall r :: r in routes ==> Destination(r) in table
    ensures RoutedByPeer(cfg, ordered, gateways, table) <==>
            forall r :: r in routes ==> table[Destination(r)] == r.gateway
  {
    hide Base, Netmask, RouteTo, InForce;
    forall i | 0 <= i < |ordered|
      ensures routes[2 + i] in routes && Destination(routes[2 + i]) == Block(ordered[i].podCIDR)
      ensures InForce(table, ordered[i].podCIDR, gateways[i].gateway) <==>
              table[Block(ordered[i].podCIDR)] == gateways[i].gateway
    {
      InForceBy(table, ordered[i].podCIDR, gateways[i].gateway);
    }
    InForceBy(table, cfg.clusterCIDR, gateways[0].gateway);
    InForceBy(table, cfg.serviceCIDR, gateways[0].gateway);
    assert routes[0] in routes && routes[1] in routes;
    if RoutedByPeer(cfg, ordered, gateways, table) {
      forall r | r in routes ensures table[Destination(r)] == r.gateway {
        var k :| 0 <= k < |routes| && routes[k] == r;
        if k >= 2 { assert Destination(r) == Block(ordered[k - 2].podCIDR); }
      }
    }
  }

  /**
   * After a successful setup the host reaches each peer's gateway at that peer's MAC. Its routing table is the planned
   * one exactly if the blocks do not collide: of two routes to one block the later one counts, if adding it succeeds.
   */
  lemma PeerRoutingInForce(cfg: JoinConfig, c: Cidr, peers: seq<FlannelPeer>, gateways: seq<PeerGateway>,
                           arps: seq<ArpEntry>, routes: seq<Route>, interface: string,
                           neighbours: map<(string, Word), string>, table: map<(Word, Word), Word>)
    requires var ordered := RemoteFirst(peers, cfg.vxlanRemote);
             && peers != [] && c.V4?
             && GatewaysFor(c, ordered, gateways, arps) && OneEntryEach(arps)
             && ordered[0].publicIP == cfg.vxlanRemote
             && RoutesFor(cfg, gateways[0].gateway, ordered, gateways, routes)
    ensures var ordered, after := RemoteFirst(peers, cfg.vxlanRemote), Neighboured(neighbours, interface, arps);
            forall i :: 0 <= i < |ordered| ==>
              && (interface, gateways[i].gateway) in after
              && Mac(after[(interface, gateways[i].gateway)]) == ordered[i].vtepMAC
    ensures var ordered := RemoteFirst(peers, cfg.vxlanRemote);
            && (forall p :: p in ordered ==> p.podCIDR.V4?)
            && (RoutedByPeer(cfg, ordered, gateways, Routed(table, routes)) <==> OwnBlocks(cfg, ordered))
  {
    hide PeerGatewayAddressForCIDR, RemoteFirst, RoutesFor, OwnBlocks, RoutedByPeer, Unambiguous, Routed, Neighboured;
    var ordered := RemoteFirst(peers, cfg.vxlanRemote);
    RemoteFirstLength(peers, cfg.vxlanRemote);
    NeighbouredAll(neighbours, interface, arps);
    forall i, j | 0 <= i < j < |gateways| ensures gateways[i].gateway != gateways[j].gateway {
      GatewaysDistinct(c, i, j);
    }
    forall i | 0 <= i < |ordered| ensures arps[i] in arps {}
    PlannedRoutes(cfg, ordered, gateways, routes);
    RoutesInForceExactly(table, routes);
    TableByPeer(cfg, ordered, gateways, routes, Routed(table, routes));
  }
}
