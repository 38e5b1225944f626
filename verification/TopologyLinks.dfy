/** What snapshots say about WAN uplinks, VPN peers and tunnels (internal/api/handlers_topology_extend.go), as one
    list of calls, and the layer-3 edges those calls build. */
module TopologyLinks {
  import opened Text
  import opened Topology

  // ---------- snapshots ----------

  datatype Lldp = Lldp(localIfIndex: int, localPort: string, remoteSysName: string, remotePortDescr: string,
                       remotePortId: string, remoteSysDescr: string, remoteCaps: nat)

  datatype Cdp = Cdp(localIfIndex: int, remoteSysName: string, remotePortId: string, remotePlatform: string,
                     remoteAddress: string, remoteVersion: string, remoteCaps: nat)

  datatype Ifc = Ifc(index: int, name: string, kind: string, operUp: bool, inBps: Option<nat>, outBps: Option<nat>,
                     speedBps: nat)

  datatype MerakiNeighbor = MerakiNeighbor(summary: string, portId: string, protocol: string)

  /** lldp and cdp are the lengths of the port's raw LLDP and CDP fields. */
  datatype MerakiPort = MerakiPort(portId: string, neighbor: string, lldp: nat, cdp: nat, status: string, enabled: bool,
                                   inBps: Option<nat>, outBps: Option<nat>)

  datatype Uplink = Uplink(iface: string, status: string)
  datatype Peer = Peer(name: string, publicIp: string, reachability: string)
  datatype Vpn = Vpn(merakiPeers: seq<Peer>, thirdParty: seq<Peer>)

  /** Unusable: no snapshot, or one that does not parse. */
  datatype Snapshot =
    | Unusable
    | Snmp(interfaces: seq<Ifc>, lldp: seq<Lldp>, cdp: seq<Cdp>)
    | Meraki(neighbors: seq<MerakiNeighbor>, ports: seq<MerakiPort>, uplinks: seq<Uplink>, vpn: Option<Vpn>)

  datatype App = App(id: Uuid, name: string, sysName: Option<string>, mgmtIp: string, status: string, tags: seq<string>,
                     snapshot: Snapshot)

  // ---------- uplinks, peers and tunnels ----------

  function Fallback(a: string, b: string): string { if a != "" then a else b }

  function UplinkUp(status: string): bool {
    var s := ToLower(TrimSpace(status));
    if s in {"active", "ready", "connected", "online", "up"} then true
    else if s in {"failed", "not connected", "offline", "down", "disabled"} then false
    else s != "" && !Contains(s, "fail") && !Contains(s, "down")
  }

  predicate Reachable(reachability: string) { EqualFold(TrimSpace(reachability), "reachable") }

  function WanKind(iface: string): LinkKind { LinkKind(3, "uplink", "wan", iface) }

  function VpnKind(protocol: string): LinkKind { LinkKind(3, ToLower(protocol), "vpn", "") }

  function WanEdge(local: Uuid, fromPort: string, operUp: bool, kind: LinkKind): Edge {
    Edge(local, INTERNET, fromPort, "", "uplink", operUp, kind, None, None, None)
  }

  const TUNNEL := "wan:snmp-tunnel"

  function PeerFamily(thirdParty: bool): string { if thirdParty then "vpn:3p:" else "vpn:meraki:" }

  lemma NotL2(prefix: string, rest: string)
    requires prefix in {"wan:", "vpn:3p:", "vpn:meraki:"}
    ensures prefix + rest != L2
  {
    assert (prefix + rest)[0] == prefix[0] && L2[0] == 'l';
  }

  function PeerName(p: Peer, thirdParty: bool): string {
    if thirdParty && TrimSpace(p.name) == "" then TrimSpace(p.publicIp) else TrimSpace(p.name)
  }

  function PeerIp(p: Peer, thirdParty: bool): string { if thirdParty then p.publicIp else "" }

  /** The name of the first tunnel interface that is up. */
  function FirstTunnel(ifcs: seq<Ifc>): Option<string> {
    if ifcs == [] then None
    else if EqualFold(ifcs[0].kind, "tunnel") && ifcs[0].operUp then Some(ifcs[0].name)
    else FirstTunnel(ifcs[1..])
  }

  function PeerPrefix(thirdParty: bool): string { if thirdParty then "foreign:vpn3p:" else "foreign:vpn:" }

  function PeerForeignId(name: string, publicIp: string, thirdParty: bool): string {
    var clean := ToLower(TrimSpace(name));
    PeerPrefix(thirdParty) + if clean == "" then ToLower(publicIp) else clean
  }

  predicate SoftMatch(k: string, clean: string) { k != "" && (Contains(k, clean) || Contains(clean, k)) }

  /** Where a VPN peer leads: the appliance of that exact name, else any appliance whose name contains it or is
      contained in it, else a foreign node. */
  predicate PeerResolves(index: SysIndex, name: string, publicIp: string, thirdParty: bool, id: string) {
    var clean := ToLower(TrimSpace(name));
    if clean in index then id == index[clean]
    else if exists k :: k in index && SoftMatch(k, clean)
    then exists k :: k in index && SoftMatch(k, clean) && id == index[k]
    else id == PeerForeignId(name, publicIp, thirdParty)
  }

  // ---------- calls ----------

  /** One layer-3 link that a snapshot names; a peer comes with the node it leads to. */
  datatype Call =
    | Wan(local: Uuid, iface: string, up: bool)
    | ToPeer(local: Uuid, remote: string, name: string, thirdParty: bool, up: bool)
    | Tunnel(local: Uuid, name: string)

  function CallKey(c: Call): EdgeKey {
    match c
    case Wan(local, iface, _) => Key(local, INTERNET, "wan:" + ToLower(iface))
    case ToPeer(local, remote, name, thirdParty, _) => Key(local, remote, PeerFamily(thirdParty) + ToLower(name))
    case Tunnel(local, _) => Key(local, INTERNET, TUNNEL)
  }

  lemma CallNotL2(c: Call)
    ensures CallKey(c).family != L2
  {
    match c
    case Wan(_, iface, _) => NotL2("wan:", ToLower(iface));
    case ToPeer(_, _, name, thirdParty, _) => NotL2(PeerFamily(thirdParty), ToLower(name));
    case Tunnel(_, _) =>
  }

  function VpnProtocol(thirdParty: bool): string { if thirdParty then "third-party-vpn" else "meraki-autovpn" }

  function VpnEdge(local: Uuid, remote: string, name: string, protocol: string, up: bool): Edge {
    Edge(local, remote, name, "", protocol, up, VpnKind(protocol), None, None, None)
  }

  /** An uplink replaces what is there, a peer can only bring it up, a tunnel leaves it as it is. */
  function MeetCall(e: Option<Edge>, c: Call): Edge {
    match c
    case Wan(local, iface, up) => WanEdge(local, iface, up, WanKind(iface))
    case ToPeer(local, remote, name, thirdParty, up) =>
      if e.Some? then e.value.(operUp := e.value.operUp || up)
      else VpnEdge(local, remote, name, VpnProtocol(thirdParty), up)
    case Tunnel(local, name) =>
      if e.Some? then e.value else WanEdge(local, name, true, WanKind(Fallback(name, "tunnel")))
  }

  /** The calls that land on a key, in order. */
  function CallsAt(calls: seq<Call>, k: EdgeKey): seq<Call> {
    if calls == [] then []
    else CallsAt(calls[..|calls| - 1], k) + if CallKey(calls[|calls| - 1]) == k then [calls[|calls| - 1]] else []
  }

  function EdgeOfCalls(cs: seq<Call>): Option<Edge> {
    if cs == [] then None else Some(MeetCall(EdgeOfCalls(cs[..|cs| - 1]), cs[|cs| - 1]))
  }

  function LinkFor(calls: seq<Call>, k: EdgeKey): Option<Edge> { EdgeOfCalls(CallsAt(calls, k)) }

  ghost predicate L3Is(edges: map<EdgeKey, Edge>, calls: seq<Call>) {
    forall k: EdgeKey :: k.family != L2 ==> Lookup(edges, k) == LinkFor(calls, k)
  }

  lemma CallAppended(calls: seq<Call>, c: Call, k: EdgeKey)
    ensures LinkFor(calls + [c], k)
         == if CallKey(c) == k then Some(MeetCall(LinkFor(calls, k), c)) else LinkFor(calls, k)
  {
    var before := CallsAt(calls, k);
    assert (calls + [c])[..|calls|] == calls;
    assert (before + [c])[..|before|] == before && before + [] == before;
  }

  lemma CallPut(edges: map<EdgeKey, Edge>, calls: seq<Call>, c: Call)
    requires L3Is(edges, calls)
    ensures L3Is(edges[CallKey(c) := MeetCall(Lookup(edges, CallKey(c)), c)], calls + [c])
  {
    CallNotL2(c);
    var edges' := edges[CallKey(c) := MeetCall(Lookup(edges, CallKey(c)), c)];
    forall k: EdgeKey | k.family != L2 ensures Lookup(edges', k) == LinkFor(calls + [c], k) {
      assert Lookup(edges, k) == LinkFor(calls, k);
      CallAppended(calls, c, k);
    }
  }

  lemma {:induction false} CallsAtMembers(calls: seq<Call>, k: EdgeKey)
    ensures forall c :: c in CallsAt(calls, k) <==> c in calls && CallKey(c) == k
  {
    if calls != [] {
      CallsAtMembers(calls[..|calls| - 1], k);
      assert calls == calls[..|calls| - 1] + [calls[|calls| - 1]];
    }
  }

  // ---------- the calls of the snapshots ----------

  function UplinkCall(local: Uuid, u: Uplink): seq<Call> {
    var iface := TrimSpace(u.iface);
    if iface == "" then [] else [Wan(local, iface, UplinkUp(u.status))]
  }

  function UplinkCalls(local: Uuid, us: seq<Uplink>): seq<Call> {
    if us == [] then [] else UplinkCalls(local, us[..|us| - 1]) + UplinkCall(local, us[|us| - 1])
  }

  /** id is where the peer leads; a peer that is the appliance itself gives no edge. */
  function PeerCall(local: Uuid, p: Peer, thirdParty: bool, id: string): seq<Call> {
    var name := PeerName(p, thirdParty);
    if name == "" || id == local then [] else [ToPeer(local, id, name, thirdParty, Reachable(p.reachability))]
  }

  function PeerCalls(local: Uuid, ps: seq<Peer>, thirdParty: bool, ids: seq<string>): seq<Call> {
    if ps == [] || |ids| != |ps| then []
    else
      var n := |ps| - 1;
      PeerCalls(local, ps[..n], thirdParty, ids[..n]) + PeerCall(local, ps[n], thirdParty, ids[n])
  }

  function TunnelCalls(local: Uuid, ifcs: seq<Ifc>): seq<Call> {
    if FirstTunnel(ifcs).None? then [] else [Tunnel(local, FirstTunnel(ifcs).value)]
  }

  /** Where the peers of a snapshot lead. */
  datatype Route = Route(meraki: seq<string>, thirdParty: seq<string>)

  ghost predicate PeersResolve(index: SysIndex, ps: seq<Peer>, thirdParty: bool, ids: seq<string>) {
    |ids| == |ps|
    && forall i :: 0 <= i < |ps| && PeerName(ps[i], thirdParty) != "" ==>
         PeerResolves(index, PeerName(ps[i], thirdParty), PeerIp(ps[i], thirdParty), thirdParty, ids[i])
  }

  ghost predicate RouteOk(index: SysIndex, s: Snapshot, r: Route) {
    s.Meraki? && s.vpn.Some? ==>
      PeersResolve(index, s.vpn.value.merakiPeers, false, r.meraki)
      && PeersResolve(index, s.vpn.value.thirdParty, true, r.thirdParty)
  }

  function VpnCalls(local: Uuid, vpn: Option<Vpn>, r: Route): seq<Call> {
    if vpn.None? then []
    else
      var v := vpn.value;
      PeerCalls(local, v.merakiPeers, false, r.meraki) + PeerCalls(local, v.thirdParty, true, r.thirdParty)
  }

  function CallsOfSnapshot(local: Uuid, s: Snapshot, r: Route): seq<Call> {
    match s
    case Unusable => []
    case Snmp(ifcs, _, _) => TunnelCalls(local, ifcs)
    case Meraki(_, _, uplinks, vpn) => UplinkCalls(local, uplinks) + VpnCalls(local, vpn, r)
  }

  ghost predicate RoutesOk(index: SysIndex, apps: seq<App>, routes: seq<Route>) {
    |routes| == |apps| && forall i :: 0 <= i < |apps| ==> RouteOk(index, apps[i].snapshot, routes[i])
  }

  function Joined<T>(parts: seq<seq<T>>): seq<T> {
    if parts == [] then [] else Joined(parts[..|parts| - 1]) + parts[|parts| - 1]
  }

  function CallLists(apps: seq<App>, routes: seq<Route>): seq<seq<Call>>
    requires |routes| == |apps|
  {
    seq(|apps|, i requires 0 <= i < |apps| => CallsOfSnapshot(apps[i].id, apps[i].snapshot, routes[i]))
  }

  /** Every call, in the order the handler makes them. */
  function CallsOf(apps: seq<App>, routes: seq<Route>): seq<Call>
    requires |routes| == |apps|
  {
    Joined(CallLists(apps, routes))
  }

  lemma {:induction false} JoinedMember<T>(parts: seq<seq<T>>, i: nat, x: T)
    requires i < |parts| && x in parts[i]
    ensures x in Joined(parts)
  {
    if i < |parts| - 1 { JoinedMember(parts[..|parts| - 1], i, x); }
  }

  lemma {:induction false} JoinedFrom<T>(parts: seq<seq<T>>, x: T) returns (i: nat)
    requires x in Joined(parts)
    ensures i < |parts| && x in parts[i]
  {
    var n := |parts| - 1;
    if x in parts[n] { i := n; } else { i := JoinedFrom(parts[..n], x); }
  }

  lemma JoinedAppend<T>(parts: seq<seq<T>>, part: seq<T>)
    ensures Joined(parts + [part]) == Joined(parts) + part
  {
    assert (parts + [part])[..|parts|] == parts;
  }

  // ---------- calls are what the snapshots name ----------

  ghost predicate NamesUplink(us: seq<Uplink>, iface: string, up: bool) {
    exists u :: u in us && iface != "" && iface == TrimSpace(u.iface) && up == UplinkUp(u.status)
  }

  ghost predicate NamesPeer(index: SysIndex, ps: seq<Peer>, thirdParty: bool, remote: string, name: string, up: bool) {
    exists p :: p in ps && name != "" && name == PeerName(p, thirdParty) && up == Reachable(p.reachability)
                && PeerResolves(index, name, PeerIp(p, thirdParty), thirdParty, remote)
  }

  /** The appliance's snapshot names this link, in this state. */
  ghost predicate Names(index: SysIndex, app: App, c: Call) {
    c.local == app.id
    && match c
       case Wan(_, iface, up) => app.snapshot.Meraki? && NamesUplink(app.snapshot.uplinks, iface, up)
       case ToPeer(local, remote, name, thirdParty, up) =>
         app.snapshot.Meraki? && app.snapshot.vpn.Some? && remote != local
         && NamesPeer(index, if thirdParty then app.snapshot.vpn.value.thirdParty
                      else app.snapshot.vpn.value.merakiPeers,
                      thirdParty, remote, name, up)
       case Tunnel(_, name) => app.snapshot.Snmp? && FirstTunnel(app.snapshot.interfaces) == Some(name)
  }

  lemma {:induction false} UplinkCallsAre(local: Uuid, us: seq<Uplink>)
    ensures forall c :: c in UplinkCalls(local, us) <==> c.Wan? && c.local == local && NamesUplink(us, c.iface, c.up)
  {
    if us != [] {
      var front, u := us[..|us| - 1], us[|us| - 1];
      UplinkCallsAre(local, front);
      assert us == front + [u];
      forall iface, up
        ensures NamesUplink(us, iface, up) <==>
                NamesUplink(front, iface, up)
                || (iface != "" && iface == TrimSpace(u.iface) && up == UplinkUp(u.status))
      {
        assert u in us;
      }
    }
  }

  lemma {:induction false} PeerCallsNamed(index: SysIndex, local: Uuid, ps: seq<Peer>, thirdParty: bool,
                                          ids: seq<string>)
    requires PeersResolve(index, ps, thirdParty, ids)
    ensures forall c :: c in PeerCalls(local, ps, thirdParty, ids) ==>
              c.ToPeer? && c.local == local && c.thirdParty == thirdParty && c.remote != local
              && NamesPeer(index, ps, thirdParty, c.remote, c.name, c.up)
  {
    if ps != [] {
      var n := |ps| - 1;
      PeerCallsNamed(index, local, ps[..n], thirdParty, ids[..n]);
      assert ps == ps[..n] + [ps[n]];
      forall remote, name, up | NamesPeer(index, ps[..n], thirdParty, remote, name, up)
        ensures NamesPeer(index, ps, thirdParty, remote, name, up)
      {
        var p :| p in ps[..n] && name != "" && name == PeerName(p, thirdParty) && up == Reachable(p.reachability)
                 && PeerResolves(index, name, PeerIp(p, thirdParty), thirdParty, remote);
        assert p in ps;
      }
      assert ps[n] in ps;
    }
  }

  /** A named peer has its call, unless it leads to the appliance itself. */
  ghost predicate PeerCalled(calls: seq<Call>, index: SysIndex, local: Uuid, p: Peer, thirdParty: bool, id: string) {
    var name := PeerName(p, thirdParty);
    PeerResolves(index, name, PeerIp(p, thirdParty), thirdParty, id)
    && (id == local || ToPeer(local, id, name, thirdParty, Reachable(p.reachability)) in calls)
  }

  ghost predicate PeersCalled(calls: seq<Call>, index: SysIndex, local: Uuid, ps: seq<Peer>, thirdParty: bool) {
    forall p :: p in ps && PeerName(p, thirdParty) != "" ==>
      exists id :: PeerCalled(calls, index, local, p, thirdParty, id)
  }

  lemma {:induction false} PeerCallMade(local: Uuid, ps: seq<Peer>, thirdParty: bool, ids: seq<string>, i: nat, c: Call)
    requires |ids| == |ps| && i < |ps| && c in PeerCall(local, ps[i], thirdParty, ids[i])
    ensures c in PeerCalls(local, ps, thirdParty, ids)
  {
    var n := |ps| - 1;
    if i < n {
      assert ps[..n][i] == ps[i] && ids[..n][i] == ids[i];
      PeerCallMade(local, ps[..n], thirdParty, ids[..n], i, c);
    }
  }

  lemma EveryPeerCalled(calls: seq<Call>, index: SysIndex, local: Uuid, ps: seq<Peer>, thirdParty: bool,
                        ids: seq<string>)
    requires PeersResolve(index, ps, thirdParty, ids)
    requires forall c :: c in PeerCalls(local, ps, thirdParty, ids) ==> c in calls
    ensures PeersCalled(calls, index, local, ps, thirdParty)
  {
    forall p | p in ps && PeerName(p, thirdParty) != ""
      ensures exists id :: PeerCalled(calls, index, local, p, thirdParty, id)
    {
      var i :| 0 <= i < |ps| && ps[i] == p;
      forall c | c in PeerCall(local, p, thirdParty, ids[i]) ensures c in calls {
        PeerCallMade(local, ps, thirdParty, ids, i, c);
      }
      assert PeerCalled(calls, index, local, p, thirdParty, ids[i]);
    }
  }

  /** Every uplink, peer and tunnel that the appliance's snapshot names has its call. */
  ghost predicate AllCalled(calls: seq<Call>, index: SysIndex, app: App) {
    match app.snapshot
    case Unusable => true
    case Snmp(ifcs, _, _) => FirstTunnel(ifcs).Some? ==> Tunnel(app.id, FirstTunnel(ifcs).value) in calls
    case Meraki(_, _, uplinks, vpn) =>
      && (forall iface, up :: NamesUplink(uplinks, iface, up) ==> Wan(app.id, iface, up) in calls)
      && (vpn.Some? ==> PeersCalled(calls, index, app.id, vpn.value.merakiPeers, false)
                        && PeersCalled(calls, index, app.id, vpn.value.thirdParty, true))
  }

  lemma SnapshotNames(index: SysIndex, app: App, r: Route)
    requires RouteOk(index, app.snapshot, r)
    ensures forall c :: c in CallsOfSnapshot(app.id, app.snapshot, r) ==> Names(index, app, c)
  {
    if app.snapshot.Meraki? {
      UplinkCallsAre(app.id, app.snapshot.uplinks);
      if app.snapshot.vpn.Some? {
        PeerCallsNamed(index, app.id, app.snapshot.vpn.value.merakiPeers, false, r.meraki);
        PeerCallsNamed(index, app.id, app.snapshot.vpn.value.thirdParty, true, r.thirdParty);
      }
    }
  }

  lemma SnapshotCalled(calls: seq<Call>, index: SysIndex, app: App, r: Route)
    requires RouteOk(index, app.snapshot, r)
    requires forall c :: c in CallsOfSnapshot(app.id, app.snapshot, r) ==> c in calls
    ensures AllCalled(calls, index, app)
  {
    if app.snapshot.Meraki? {
      UplinkCallsAre(app.id, app.snapshot.uplinks);
      if app.snapshot.vpn.Some? {
        EveryPeerCalled(calls, index, app.id, app.snapshot.vpn.value.merakiPeers, false, r.meraki);
        EveryPeerCalled(calls, index, app.id, app.snapshot.vpn.value.thirdParty, true, r.thirdParty);
      }
    }
  }

  lemma CallIsMade(apps: seq<App>, routes: seq<Route>, i: nat, c: Call)
    requires |routes| == |apps| && i < |apps| && c in CallsOfSnapshot(apps[i].id, apps[i].snapshot, routes[i])
    ensures c in CallsOf(apps, routes)
  {
    JoinedMember(CallLists(apps, routes), i, c);
  }

  lemma CallMadeBy(apps: seq<App>, routes: seq<Route>, c: Call) returns (i: nat)
    requires |routes| == |apps| && c in CallsOf(apps, routes)
    ensures i < |apps| && c in CallsOfSnapshot(apps[i].id, apps[i].snapshot, routes[i])
  {
    i := JoinedFrom(CallLists(apps, routes), c);
  }

  /** The calls are exactly what the snapshots name. */
  lemma CallsAreNamed(index: SysIndex, apps: seq<App>, routes: seq<Route>)
    requires RoutesOk(index, apps, routes)
    ensures forall c :: c in CallsOf(apps, routes) ==> exists i :: 0 <= i < |apps| && Names(index, apps[i], c)
    ensures forall a :: a in apps ==> AllCalled(CallsOf(apps, routes), index, a)
  {
    forall c | c in CallsOf(apps, routes) ensures exists i :: 0 <= i < |apps| && Names(index, apps[i], c) {
      var i := CallMadeBy(apps, routes, c);
      SnapshotNames(index, apps[i], routes[i]);
    }
    forall a | a in apps ensures AllCalled(CallsOf(apps, routes), index, a) {
      var i :| 0 <= i < |apps| && apps[i] == a;
      forall c | c in CallsOfSnapshot(a.id, a.snapshot, routes[i]) ensures c in CallsOf(apps, routes) {
        CallIsMade(apps, routes, i, c);
      }
      SnapshotCalled(CallsOf(apps, routes), index, a, routes[i]);
    }
  }

  // ---------- the state of a link ----------

  lemma {:induction false} WanIsLast(cs: seq<Call>)
    requires cs != [] && cs[|cs| - 1].Wan?
    ensures var c := cs[|cs| - 1]; EdgeOfCalls(cs) == Some(WanEdge(c.local, c.iface, c.up, WanKind(c.iface)))
  {
  }

  lemma LastCall(cs: seq<Call>)
    requires cs != []
    ensures forall c :: c in cs <==> c in cs[..|cs| - 1] || c == cs[|cs| - 1]
  {
    assert cs == cs[..|cs| - 1] + [cs[|cs| - 1]];
  }

  lemma {:induction false} TunnelIsFirst(cs: seq<Call>)
    requires cs != [] && forall c :: c in cs ==> c.Tunnel?
    ensures var c := cs[0];
            EdgeOfCalls(cs) == Some(WanEdge(c.local, c.name, true, WanKind(Fallback(c.name, "tunnel"))))
  {
    LastCall(cs);
    assert cs[|cs| - 1] in cs;
    if |cs| > 1 { TunnelIsFirst(cs[..|cs| - 1]); } else { assert cs[..|cs| - 1] == []; }
  }

  ghost predicate SomePeerUp(cs: seq<Call>) { exists c :: c in cs && c.ToPeer? && c.up }

  lemma {:induction false} PeerIsJoin(cs: seq<Call>)
    requires cs != [] && forall c :: c in cs ==> c.ToPeer?
    ensures var c := cs[0];
            EdgeOfCalls(cs) == Some(VpnEdge(c.local, c.remote, c.name, VpnProtocol(c.thirdParty), SomePeerUp(cs)))
  {
    var front, last := cs[..|cs| - 1], cs[|cs| - 1];
    LastCall(cs);
    assert SomePeerUp(cs) <==> SomePeerUp(front) || last.up;
    if |cs| > 1 { PeerIsJoin(front); } else { assert front == []; }
  }

  /** The key of a peer is no uplink's or tunnel's. */
  lemma PeerKeyIsPeers(c: Call, d: Call)
    requires CallKey(c) == CallKey(d) && c.ToPeer?
    ensures d.ToPeer?
  {
    assert CallKey(c).family[0] == 'v';
  }

  lemma SameLocal(c: Call, d: Call)
    requires CallKey(c) == CallKey(d) && !c.ToPeer? && !d.ToPeer?
    ensures c.local == d.local
  {
    NotUuid(INTERNET);
    KeyIsPair(c.local, INTERNET, CallKey(c).family, d.local, INTERNET, CallKey(d).family);
  }

  /** What the response shows for a call: an uplink's edge is that of the last uplink of the appliance with this
      interface name, a tunnel's edge is up, and a peer's edge is up exactly when one of the calls on its key is. */
  ghost predicate LinkShows(calls: seq<Call>, c: Call) {
    var cs, e := CallsAt(calls, CallKey(c)), LinkFor(calls, CallKey(c));
    && c in cs && e.Some?
    && match c
       case Wan(_, _, _) =>
         var d := cs[|cs| - 1];
         d.Wan? && d.local == c.local && e.value == WanEdge(d.local, d.iface, d.up, WanKind(d.iface))
       case ToPeer(_, _, _, _, _) =>
         cs[0].ToPeer?
         && e.value == VpnEdge(cs[0].local, cs[0].remote, cs[0].name, VpnProtocol(cs[0].thirdParty), SomePeerUp(cs))
       case Tunnel(local, name) => e.value == WanEdge(local, name, true, WanKind(Fallback(name, "tunnel")))
  }

  /** Calls of one appliance are of one snapshot: uplinks and tunnels do not meet on a key. */
  lemma OneSnapshot(index: SysIndex, apps: seq<App>, routes: seq<Route>, c: Call, d: Call)
    requires RoutesOk(index, apps, routes) && forall i, j :: 0 <= i < j < |apps| ==> apps[i].id != apps[j].id
    requires c in CallsOf(apps, routes) && d in CallsOf(apps, routes)
    requires CallKey(c) == CallKey(d) && !c.ToPeer?
    ensures d.local == c.local && (d.Wan? <==> c.Wan?) && (d.Tunnel? <==> c.Tunnel?) && (c.Tunnel? ==> d == c)
  {
    if d.ToPeer? { PeerKeyIsPeers(d, c); }
    SameLocal(c, d);
    CallsAreNamed(index, apps, routes);
    var i :| 0 <= i < |apps| && Names(index, apps[i], c);
    var j :| 0 <= j < |apps| && Names(index, apps[j], d);
    assert i == j;
  }

  lemma LinkState(index: SysIndex, apps: seq<App>, routes: seq<Route>, c: Call)
    requires RoutesOk(index, apps, routes) && forall i, j :: 0 <= i < j < |apps| ==> apps[i].id != apps[j].id
    requires c in CallsOf(apps, routes)
    ensures LinkShows(CallsOf(apps, routes), c)
  {
    var calls := CallsOf(apps, routes);
    var cs := CallsAt(calls, CallKey(c));
    CallsAtMembers(calls, CallKey(c));
    assert cs[0] in cs && cs[|cs| - 1] in cs;
    match c
    case Wan(_, _, _) =>
      OneSnapshot(index, apps, routes, c, cs[|cs| - 1]);
      WanIsLast(cs);
    case ToPeer(_, _, _, _, _) =>
      forall d | d in cs ensures d.ToPeer? { PeerKeyIsPeers(c, d); }
      PeerIsJoin(cs);
    case Tunnel(_, _) =>
      forall d | d in cs ensures d == c { OneSnapshot(index, apps, routes, c, d); }
      TunnelIsFirst(cs);
  }
}
