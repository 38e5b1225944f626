/** The passes of handleTopology and the edge producers of handlers_topology_extend.go: they share one map of edges
    and one map of foreign nodes, which they update in place. */
module TopologyBuilder {
  import opened Text
  import opened Topology
  import opened TopologyLinks
  import opened InsertionSort

  // ---------- the reports of a snapshot ----------

  function PortOf(ifcs: seq<Ifc>, index: int): Ifc {
    if ifcs == [] then Ifc(0, "", "", false, None, None, 0)
    else if ifcs[|ifcs| - 1].index == index then ifcs[|ifcs| - 1]
    else PortOf(ifcs[..|ifcs| - 1], index)
  }

  predicate HasBit(caps: nat, bit: nat)
    requires bit > 0
  {
    (caps / bit) % 2 == 1
  }

  predicate IsLldpPhone(n: Lldp) {
    HasBit(n.remoteCaps, 0x20) || LooksLikePhone(n.remoteSysName + " " + n.remoteSysDescr)
  }

  predicate IsCdpPhone(n: Cdp) {
    HasBit(n.remoteCaps, 0x80) || LooksLikePhone(n.remotePlatform + " " + n.remoteSysName + " " + n.remoteVersion)
  }

  function LldpReport(local: Uuid, ifcs: seq<Ifc>, n: Lldp): Report {
    var p := PortOf(ifcs, n.localIfIndex);
    Report(local, Fallback(n.localPort, p.name), p.operUp, p.inBps, p.outBps, p.speedBps, n.remoteSysName,
           Fallback(n.remotePortDescr, n.remotePortId), if IsLldpPhone(n) then n.remoteSysDescr + " ip phone"
             else n.remoteSysDescr,
           "", "lldp")
  }

  function CdpReport(local: Uuid, ifcs: seq<Ifc>, n: Cdp): Report {
    var p := PortOf(ifcs, n.localIfIndex);
    Report(local, p.name, p.operUp, p.inBps, p.outBps, p.speedBps, n.remoteSysName, n.remotePortId,
           if IsCdpPhone(n) then n.remotePlatform + " ip phone" else n.remotePlatform, n.remoteAddress, "cdp")
  }

  function LldpReports(local: Uuid, ifcs: seq<Ifc>, ns: seq<Lldp>): seq<Report> {
    seq(|ns|, i requires 0 <= i < |ns| => LldpReport(local, ifcs, ns[i]))
  }

  function CdpReports(local: Uuid, ifcs: seq<Ifc>, ns: seq<Cdp>): seq<Report> {
    seq(|ns|, i requires 0 <= i < |ns| => CdpReport(local, ifcs, ns[i]))
  }

  const SEPARATORS: seq<string> := [" \U{2014} ", " - ", " | "]

  function CutAtFirst(s: string, seps: seq<string>): string {
    if seps == [] then s
    else if Index(s, seps[0]) > 0 then TrimSpace(s[..Index(s, seps[0])])
    else CutAtFirst(s, seps[1..])
  }

  function NeighborRemote(summary: string): string {
    var s := TrimSpace(summary);
    if s == "" then "" else CutAtFirst(s, SEPARATORS)
  }

  function Platform(remote: string, text: string): string {
    if LooksLikePhone(remote + " " + text) then text + " ip phone" else text
  }

  /** A neighbor row or port that names a remote, with the key under which repeats are skipped. */
  datatype Candidate = Candidate(key: string, report: Report)

  function CandidateKey(protocol: string, port: string, remote: string): string {
    protocol + "|" + port + "|" + ToLower(remote)
  }

  function NeighborCandidate(local: Uuid, n: MerakiNeighbor): Option<Candidate> {
    var remote := NeighborRemote(n.summary);
    if remote == "" then None
    else
      var protocol := if ToLower(n.protocol) != "cdp" then "lldp" else "cdp";
      Some(Candidate(CandidateKey(protocol, n.portId, remote),
                     Report(local, n.portId, true, None, None, 0, remote, "", Platform(remote, n.summary), "",
                            protocol)))
  }

  function PortCandidate(local: Uuid, p: MerakiPort): Option<Candidate> {
    var remote := NeighborRemote(p.neighbor);
    if p.neighbor == "" || remote == "" then None
    else
      var protocol := if p.lldp == 0 && p.cdp > 0 then "cdp" else "lldp";
      Some(Candidate(CandidateKey(protocol, p.portId, remote),
                     Report(local, p.portId, EqualFold(p.status, "Connected") || p.enabled, p.inBps, p.outBps, 0,
                            remote, "",
                            Platform(remote, p.neighbor), "", protocol)))
  }

  function NeighborCandidates(local: Uuid, ns: seq<MerakiNeighbor>): (cs: seq<Option<Candidate>>)
    ensures |cs| == |ns|
  {
    seq(|ns|, i requires 0 <= i < |ns| => NeighborCandidate(local, ns[i]))
  }

  function PortCandidates(local: Uuid, ps: seq<MerakiPort>): (cs: seq<Option<Candidate>>)
    ensures |cs| == |ps|
  {
    seq(|ps|, i requires 0 <= i < |ps| => PortCandidate(local, ps[i]))
  }

  /** Keys seen and reports made after a list of candidates: the first of each key is reported. */
  function Distinct(cs: seq<Option<Candidate>>): (set<string>, seq<Report>) {
    if cs == [] then ({}, [])
    else
      var (seen, rs) := Distinct(cs[..|cs| - 1]);
      var c := cs[|cs| - 1];
      if c.None? || c.value.key in seen then (seen, rs) else (seen + {c.value.key}, rs + [c.value.report])
  }

  lemma DistinctStep(cs: seq<Option<Candidate>>, i: nat)
    requires i < |cs|
    ensures var (seen, rs), c := Distinct(cs[..i]), cs[i];
            Distinct(cs[..i + 1])
            == if c.None? || c.value.key in seen then (seen, rs) else (seen + {c.value.key}, rs + [c.value.report])
  {
    assert cs[..i + 1][..i] == cs[..i];
  }

  function ReportsOfSnapshot(local: Uuid, s: Snapshot): seq<Report> {
    match s
    case Unusable => []
    case Snmp(ifcs, lldp, cdp) =>
      LldpReports(local, ifcs, lldp) + CdpReports(local, ifcs, cdp)
    case Meraki(ns, ps, _, _) => Distinct(NeighborCandidates(local, ns) + PortCandidates(local, ps)).1
  }

  /** Every call of addEdge, in the order the handler makes them. */
  function ReportsOf(apps: seq<App>): seq<Report> {
    if apps == [] then []
    else
      var last := apps[|apps| - 1];
      ReportsOf(apps[..|apps| - 1]) + ReportsOfSnapshot(last.id, last.snapshot)
  }

  lemma ReportsStep(apps: seq<App>, i: nat, start: seq<Report>, before: seq<Report>, after: seq<Report>)
    requires i < |apps| && before == start + ReportsOf(apps[..i])
    requires after == before + ReportsOfSnapshot(apps[i].id, apps[i].snapshot)
    ensures after == start + ReportsOf(apps[..i + 1])
  {
    assert apps[..i + 1][..i] == apps[..i];
    Regroup(start, ReportsOf(apps[..i]), ReportsOfSnapshot(apps[i].id, apps[i].snapshot));
  }

  lemma Regroup<X>(a: seq<X>, b: seq<X>, c: seq<X>)
    ensures (a + b) + c == a + (b + c)
  {
  }

  lemma {:induction false} DistinctProtocols(cs: seq<Option<Candidate>>, local: Uuid)
    requires forall c :: c in cs && c.Some? ==>
               c.value.report.local == local && (c.value.report.protocol == "lldp" || c.value.report.protocol == "cdp")
    ensures Protocols(Distinct(cs).1) && forall r :: r in Distinct(cs).1 ==> r.local == local
  {
    if cs != [] {
      DistinctProtocols(cs[..|cs| - 1], local);
      assert cs[|cs| - 1] in cs;
    }
  }

  lemma CandidateProtocols(local: Uuid, ns: seq<MerakiNeighbor>, ps: seq<MerakiPort>)
    ensures forall c :: c in NeighborCandidates(local, ns) + PortCandidates(local, ps) && c.Some? ==>
              c.value.report.local == local && (c.value.report.protocol == "lldp" || c.value.report.protocol == "cdp")
  {
  }

  lemma SnapshotProtocols(local: Uuid, s: Snapshot)
    ensures Protocols(ReportsOfSnapshot(local, s)) && forall r :: r in ReportsOfSnapshot(local, s) ==> r.local == local
  {
    if s.Meraki? {
      CandidateProtocols(local, s.neighbors, s.ports);
      DistinctProtocols(NeighborCandidates(local, s.neighbors) + PortCandidates(local, s.ports), local);
    }
  }

  lemma {:induction false} ReportProtocols(apps: seq<App>)
    ensures Protocols(ReportsOf(apps))
  {
    if apps != [] {
      ReportProtocols(apps[..|apps| - 1]);
      SnapshotProtocols(apps[|apps| - 1].id, apps[|apps| - 1].snapshot);
    }
  }

  // ---------- WAN, VPN and tunnel edges ----------

  const CLOUD := Node(INTERNET, "cloud", "Internet", "Internet", "", "", "up", [])

  function WithCloud(foreign: map<string, Node>): map<string, Node> {
    if INTERNET in foreign then foreign else foreign[INTERNET := CLOUD]
  }

  /** The graph with the Internet node and this edge to it. */
  function Uplinked(g: Graph, family: string, e: Edge): Graph {
    Graph(g.edges[Key(e.from, INTERNET, family) := e], WithCloud(g.foreign))
  }

  function UplinkPut(g: Graph, local: Uuid, iface: string, up: bool): Graph {
    Uplinked(g, "wan:" + ToLower(iface), WanEdge(local, iface, up, WanKind(iface)))
  }

  function TunnelPut(g: Graph, local: Uuid, name: string): Graph {
    if Key(local, INTERNET, TUNNEL) in g.edges then g
    else Uplinked(g, TUNNEL, WanEdge(local, name, true, WanKind(Fallback(name, "tunnel"))))
  }

  function Tunnelled(g: Graph, local: Uuid, ifcs: seq<Ifc>): Graph {
    if FirstTunnel(ifcs).None? then g else TunnelPut(g, local, FirstTunnel(ifcs).value)
  }

  lemma CloudIsThere(g: Graph, local: Uuid, family: string, managed: set<Uuid>)
    requires GraphOk(g, managed) && Key(local, INTERNET, family) in g.edges
    ensures INTERNET in g.foreign
  {
    var k := Key(local, INTERNET, family);
    NotUuid(INTERNET);
    assert EdgeOk(k, g.edges[k], g.foreign, managed);
    SameEnd(k, g.edges[k], local, INTERNET, family);
  }

  function PeerNode(id: string, name: string, publicIp: string): Node {
    var text := if name == "" then publicIp else name;
    Node(id, "foreign", text, text, "", publicIp, "unknown", [])
  }

  /** The foreign map after resolving a peer to id. */
  function PeerForeign(foreign: map<string, Node>, name: string, publicIp: string, id: string): map<string, Node> {
    if IsUuidText(id) || id in foreign then foreign else foreign[id := PeerNode(id, name, publicIp)]
  }

  /** putVPNEdge: no edge from a node to itself; a repeated peer can only bring the edge up. */
  function VpnEdges(edges: map<EdgeKey, Edge>, local: Uuid, remote: string, fromPort: string, protocol: string,
                    family: string, operUp: bool): map<EdgeKey, Edge>
  {
    var k := Key(local, remote, family);
    if local == remote then edges
    else if k in edges then edges[k := edges[k].(operUp := edges[k].operUp || operUp)]
    else edges[k := VpnEdge(local, remote, fromPort, protocol, operUp)]
  }

  function PeerEdges(edges: map<EdgeKey, Edge>, c: Call): map<EdgeKey, Edge>
    requires c.ToPeer?
  {
    VpnEdges(edges, c.local, c.remote, c.name, VpnProtocol(c.thirdParty), PeerFamily(c.thirdParty) + ToLower(c.name),
             c.up)
  }

  lemma UplinkKeeps(g: Graph, local: Uuid, family: string, fromPort: string, operUp: bool, kind: LinkKind,
                    managed: set<Uuid>)
    requires GraphOk(g, managed) && local in managed
    requires kind.layer == 3 && family != L2
    ensures GraphOk(Uplinked(g, family, WanEdge(local, fromPort, operUp, kind)), managed)
  {
    var k := Key(local, INTERNET, family);
    NotUuid(INTERNET);
    if k in g.edges {
      assert EdgeOk(k, g.edges[k], g.foreign, managed);
      SameEnd(k, g.edges[k], local, INTERNET, family);
    }
    PutKeeps(g, k, WanEdge(local, fromPort, operUp, kind), WithCloud(g.foreign), managed);
  }

  /** A foreign peer id is not a UUID and not the Internet. */
  lemma PeerIdForeign(name: string, publicIp: string, thirdParty: bool)
    ensures var id := PeerForeignId(name, publicIp, thirdParty); !IsUuidText(id) && id != INTERNET
  {
    var id := PeerForeignId(name, publicIp, thirdParty);
    assert id[..8] == "foreign:";
    NotUuid(id);
    assert id[0] == 'f' && INTERNET[0] == 'c';
  }

  lemma VpnKeeps(g: Graph, local: Uuid, remote: string, foreign: map<string, Node>, fromPort: string, protocol: string,
                 family: string, operUp: bool, managed: set<Uuid>)
    requires GraphOk(g, managed) && local in managed && family != L2
    requires remote in managed || remote in foreign
    requires g.foreign.Keys <= foreign.Keys
    requires forall id :: id in foreign ==>
               ForeignOk(id, foreign[id]) && (id in g.foreign || (id == remote && local != remote))
    ensures GraphOk(Graph(VpnEdges(g.edges, local, remote, fromPort, protocol, family, operUp), foreign), managed)
  {
    if local == remote {
      assert forall id :: id in foreign ==> id in g.foreign && Incident(g.edges, id);
      assert forall k :: k in g.edges ==> EdgeOk(k, g.edges[k], g.foreign, managed);
    } else {
      var k := Key(local, remote, family);
      var e := VpnEdges(g.edges, local, remote, fromPort, protocol, family, operUp)[k];
      if k in g.edges {
        assert EdgeOk(k, g.edges[k], g.foreign, managed);
        if !IsUuidText(remote) { SameEnd(k, g.edges[k], local, remote, family); }
      }
      PutKeeps(g, k, e, foreign, managed);
    }
  }

  lemma OtherFamilyKeepsL2(edges: map<EdgeKey, Edge>, k: EdgeKey, e: Edge, index: SysIndex, rs: seq<Report>)
    requires L2Is(edges, index, rs) && k.family != L2
    ensures L2Is(edges[k := e], index, rs)
  {
    forall j: EdgeKey | j.family == L2 ensures Lookup(edges[k := e], j) == EdgeFor(index, rs, j) {
      assert Lookup(edges, j) == EdgeFor(index, rs, j);
    }
  }

  /** addEdge leaves the layer-3 links alone. */
  lemma ReportKeepsL3(index: SysIndex, g: Graph, r: Report, calls: seq<Call>)
    requires L3Is(g.edges, calls)
    ensures L3Is(Reported(index, g, r).edges, calls)
  {
    forall k: EdgeKey | k.family != L2 ensures Lookup(Reported(index, g, r).edges, k) == LinkFor(calls, k) {
      assert Lookup(g.edges, k) == LinkFor(calls, k);
    }
  }

  lemma UplinkCallsStep(local: Uuid, us: seq<Uplink>, i: nat, start: seq<Call>, before: seq<Call>, after: seq<Call>)
    requires i < |us| && before == start + UplinkCalls(local, us[..i]) && after == before + UplinkCall(local, us[i])
    ensures after == start + UplinkCalls(local, us[..i + 1])
  {
    assert us[..i + 1][..i] == us[..i];
    Regroup(start, UplinkCalls(local, us[..i]), UplinkCall(local, us[i]));
  }

  /** One more peer of a list. */
  lemma PeerCallsStep(local: Uuid, ps: seq<Peer>, thirdParty: bool, ids: seq<string>, i: nat, id: string,
                      start: seq<Call>, before: seq<Call>, after: seq<Call>)
    requires i < |ps| && |ids| == i && before == start + PeerCalls(local, ps[..i], thirdParty, ids)
    requires after == before + PeerCall(local, ps[i], thirdParty, id)
    ensures after == start + PeerCalls(local, ps[..i + 1], thirdParty, ids + [id])
  {
    assert ps[..i + 1][..i] == ps[..i] && (ids + [id])[..i] == ids;
    Regroup(start, PeerCalls(local, ps[..i], thirdParty, ids), PeerCall(local, ps[i], thirdParty, id));
  }

  lemma PeersResolveStep(index: SysIndex, ps: seq<Peer>, thirdParty: bool, ids: seq<string>, i: nat, id: string)
    requires i < |ps| && PeersResolve(index, ps[..i], thirdParty, ids)
    requires var name := PeerName(ps[i], thirdParty);
             name != "" ==> PeerResolves(index, name, PeerIp(ps[i], thirdParty), thirdParty, id)
    ensures PeersResolve(index, ps[..i + 1], thirdParty, ids + [id])
  {
  }

  lemma RoutesStep(index: SysIndex, apps: seq<App>, routes: seq<Route>, i: nat, route: Route)
    requires i < |apps| && RoutesOk(index, apps[..i], routes) && RouteOk(index, apps[i].snapshot, route)
    ensures RoutesOk(index, apps[..i + 1], routes + [route])
  {
    forall j | 0 <= j <= i ensures RouteOk(index, apps[..i + 1][j].snapshot, (routes + [route])[j]) {
      if j < i { assert RouteOk(index, apps[..i][j].snapshot, routes[j]); }
    }
  }

  lemma CallsStep(apps: seq<App>, routes: seq<Route>, i: nat, route: Route, start: seq<Call>, before: seq<Call>,
                  after: seq<Call>)
    requires i < |apps| && |routes| == i && before == start + CallsOf(apps[..i], routes)
    requires after == before + CallsOfSnapshot(apps[i].id, apps[i].snapshot, route)
    ensures after == start + CallsOf(apps[..i + 1], routes + [route])
  {
    var made := CallsOfSnapshot(apps[i].id, apps[i].snapshot, route);
    assert CallLists(apps[..i + 1], routes + [route]) == CallLists(apps[..i], routes) + [made];
    JoinedAppend(CallLists(apps[..i], routes), made);
    Regroup(start, CallsOf(apps[..i], routes), made);
  }

  // ---------- graphs and where they come from ----------

  /** A well-formed graph whose neighbor links are those of the reports and whose other links are those of the calls. */
  ghost predicate Built(g: Graph, index: SysIndex, managed: set<Uuid>, reports: seq<Report>, calls: seq<Call>) {
    GraphOk(g, managed) && IndexOk(index, managed) && L2Is(g.edges, index, reports) && L3Is(g.edges, calls)
  }

  lemma UplinkBuilt(g: Graph, index: SysIndex, managed: set<Uuid>, reports: seq<Report>, calls: seq<Call>, local: Uuid,
                    iface: string, up: bool)
    requires Built(g, index, managed, reports, calls) && local in managed
    ensures Built(UplinkPut(g, local, iface, up), index, managed, reports, calls + [Wan(local, iface, up)])
  {
    var c := Wan(local, iface, up);
    CallNotL2(c);
    CallPut(g.edges, calls, c);
    UplinkKeeps(g, local, "wan:" + ToLower(iface), iface, up, WanKind(iface), managed);
    OtherFamilyKeepsL2(g.edges, CallKey(c), WanEdge(local, iface, up, WanKind(iface)), index, reports);
  }

  lemma TunnelLinks(g: Graph, index: SysIndex, reports: seq<Report>, calls: seq<Call>, local: Uuid, name: string)
    requires L2Is(g.edges, index, reports) && L3Is(g.edges, calls)
    ensures L2Is(TunnelPut(g, local, name).edges, index, reports)
    ensures L3Is(TunnelPut(g, local, name).edges, calls + [Tunnel(local, name)])
  {
    var c, e := Tunnel(local, name), WanEdge(local, name, true, WanKind(Fallback(name, "tunnel")));
    CallPut(g.edges, calls, c);
    if CallKey(c) in g.edges {
      assert g.edges[CallKey(c) := g.edges[CallKey(c)]] == g.edges;
    } else {
      OtherFamilyKeepsL2(g.edges, CallKey(c), e, index, reports);
    }
  }

  lemma TunnelBuilt(g: Graph, index: SysIndex, managed: set<Uuid>, reports: seq<Report>, calls: seq<Call>, local: Uuid,
                    name: string)
    requires Built(g, index, managed, reports, calls) && local in managed
    ensures Built(TunnelPut(g, local, name), index, managed, reports, calls + [Tunnel(local, name)])
  {
    TunnelLinks(g, index, reports, calls, local, name);
    if Key(local, INTERNET, TUNNEL) !in g.edges {
      UplinkKeeps(g, local, TUNNEL, name, true, WanKind(Fallback(name, "tunnel")), managed);
    }
  }

  lemma PeerEdgesMeet(edges: map<EdgeKey, Edge>, c: Call)
    requires c.ToPeer? && c.local != c.remote
    ensures PeerEdges(edges, c) == edges[CallKey(c) := MeetCall(Lookup(edges, CallKey(c)), c)]
  {
  }

  lemma PeerLinks(edges: map<EdgeKey, Edge>, index: SysIndex, reports: seq<Report>, calls: seq<Call>, c: Call)
    requires L2Is(edges, index, reports) && L3Is(edges, calls) && c.ToPeer? && c.local != c.remote
    ensures L2Is(PeerEdges(edges, c), index, reports) && L3Is(PeerEdges(edges, c), calls + [c])
  {
    CallNotL2(c);
    PeerEdgesMeet(edges, c);
    CallPut(edges, calls, c);
    OtherFamilyKeepsL2(edges, CallKey(c), MeetCall(Lookup(edges, CallKey(c)), c), index, reports);
  }

  /** A peer that leads elsewhere, with the foreign map after it is resolved. */
  lemma PeerBuilt(g: Graph, foreign: map<string, Node>, index: SysIndex, managed: set<Uuid>, reports: seq<Report>,
                  calls: seq<Call>, c: Call)
    requires Built(g, index, managed, reports, calls) && c.ToPeer? && c.local in managed && c.local != c.remote
    requires c.remote in managed || c.remote in foreign
    requires g.foreign.Keys <= foreign.Keys
    requires forall id :: id in foreign ==> ForeignOk(id, foreign[id]) && (id in g.foreign || id == c.remote)
    ensures Built(Graph(PeerEdges(g.edges, c), foreign), index, managed, reports, calls + [c])
  {
    NotL2(PeerFamily(c.thirdParty), ToLower(c.name));
    PeerLinks(g.edges, index, reports, calls, c);
    VpnKeeps(g, c.local, c.remote, foreign, c.name, VpnProtocol(c.thirdParty),
             PeerFamily(c.thirdParty) + ToLower(c.name),
             c.up, managed);
  }

  lemma SelfBuilt(g: Graph, foreign: map<string, Node>, index: SysIndex, managed: set<Uuid>, reports: seq<Report>,
                  calls: seq<Call>)
    requires Built(g, index, managed, reports, calls) && foreign == g.foreign
    ensures Built(Graph(g.edges, foreign), index, managed, reports, calls)
  {
  }

  // ---------- the builder ----------

  class Builder {
    const index: SysIndex
    const managed: set<Uuid>
    var edges: map<EdgeKey, Edge>
    var foreign: map<string, Node>
    /** The calls of addEdge so far. */
    ghost var reports: seq<Report>
    /** The layer-3 links named so far. */
    ghost var calls: seq<Call>

    ghost function View(): Graph
      reads this
    {
      Graph(edges, foreign)
    }

    ghost predicate Valid()
      reads this
    {
      Built(View(), index, managed, reports, calls)
    }

    constructor (index: SysIndex, managed: set<Uuid>)
      requires IndexOk(index, managed)
      ensures Valid() && reports == [] && calls == [] && this.index == index && this.managed == managed
    {
      this.index, this.managed, edges, foreign, reports, calls := index, managed, map[], map[], [], [];
    }

    method AddEdge(r: Report)
      requires Valid() && r.local in managed && (r.protocol == "lldp" || r.protocol == "cdp")
      modifies this
      ensures Valid() && reports == old(reports) + [r] && calls == old(calls)
      ensures View() == Reported(index, old(View()), r)
    {
      ReportKeepsL3(index, View(), r, calls);
      ReportedKeeps(index, View(), r, managed);
      ReportedL2(index, View(), reports, r);
      PutReport(r);
      reports := reports + [r];
    }

    method PutReport(r: Report)
      modifies `edges, `foreign
      ensures View() == Reported(index, old(View()), r)
    {
      var sys := TrimSpace(r.remoteSys);
      if sys == "" && r.remoteAddr == "" {
        return;
      }
      var remote: string;
      var clean := CleanName(sys);
      if clean in index {
        remote := index[clean];
      } else {
        var key := clean;
        if key == "" {
          key := ToLower(r.remoteAddr);
        }
        remote := "foreign:" + key;
      }
      var k := Key(r.local, remote, L2);
      if k in edges {
        var merged := MergeInto(edges[k], r, remote);
        edges := edges[k := merged];
        return;
      }
      edges := edges[k := NewEdge(r, remote)];
      if HasPrefix(remote, "foreign:") {
        PutForeign(r, remote);
      }
    }

    /** The field updates on an edge that is already there. */
    static method MergeInto(existing: Edge, r: Report, remote: string) returns (e: Edge)
      ensures e == MergedEdge(existing, r, remote)
    {
      e := existing;
      if e.protocol != r.protocol && (e.protocol == "lldp" || e.protocol == "cdp" || e.protocol == "both") {
        e := e.(protocol := "both", kind := Layer2Kind("both", r.localPort));
      }
      if e.fromPort == "" && r.local == e.from {
        e := e.(fromPort := r.localPort);
      }
      if e.toPort == "" && remote == e.to {
        e := e.(toPort := r.remotePort);
      }
      if r.operUp {
        e := e.(operUp := true);
      }
      e := MergeUtil(e, r.inBps, r.outBps, r.speedBps);
    }

    /** A new foreign node, or a phone tag on one that is there. */
    method PutForeign(r: Report, remote: string)
      modifies `foreign
      ensures foreign == old(foreign)[remote := ForeignNode(old(foreign), r, remote)]
    {
      var phone := PhoneReport(r);
      if remote in foreign {
        if phone && "phone" !in foreign[remote].tags {
          foreign := foreign[remote := foreign[remote].(tags := foreign[remote].tags + ["phone"])];
        }
      } else {
        var sys := TrimSpace(r.remoteSys);
        var n := Node(remote, "foreign", sys, sys, r.remotePlatform, r.remoteAddr, "unknown", []);
        if phone {
          n := n.(tags := ["phone"]);
        }
        foreign := foreign[remote := n];
      }
    }

    method EnsureInternetCloud()
      modifies `foreign
      ensures foreign == WithCloud(old(foreign))
    {
      if INTERNET in foreign {
        return;
      }
      foreign := foreign[INTERNET := CLOUD];
    }

    /** The edge of an uplink, and the Internet node if it is missing. */
    method AddUplink(local: Uuid, iface: string, up: bool)
      requires Valid() && local in managed
      modifies this
      ensures Valid() && reports == old(reports) && calls == old(calls) + [Wan(local, iface, up)]
      ensures View() == UplinkPut(old(View()), local, iface, up)
    {
      UplinkBuilt(View(), index, managed, reports, calls, local, iface, up);
      PutUplink(local, iface, up);
      calls := calls + [Wan(local, iface, up)];
    }

    method PutUplink(local: Uuid, iface: string, up: bool)
      modifies `edges, `foreign
      ensures View() == UplinkPut(old(View()), local, iface, up)
    {
      EnsureInternetCloud();
      var family := "wan:" + ToLower(iface);
      edges := edges[Key(local, INTERNET, family) := WanEdge(local, iface, up, WanKind(iface))];
    }

    /** The search over the index; its order is arbitrary. */
    method SoftPeer(clean: string) returns (found: Option<string>)
      ensures found.None? ==> !exists k :: k in index && SoftMatch(k, clean)
      ensures found.Some? ==> exists k :: k in index && SoftMatch(k, clean) && found.value == index[k]
    {
      var todo := index.Keys;
      while todo != {}
        invariant todo <= index.Keys
        invariant forall k :: k in index && k !in todo ==> !SoftMatch(k, clean)
        decreases |todo|
      {
        var k :| k in todo;
        if k != "" && (Contains(k, clean) || Contains(clean, k)) {
          return Some(index[k]);
        }
        todo := todo - {k};
      }
      return None;
    }

    method ResolvePeer(name: string, publicIp: string, thirdParty: bool) returns (id: string)
      requires IndexOk(index, managed)
      modifies `foreign
      ensures PeerResolves(index, name, publicIp, thirdParty, id)
      ensures foreign == PeerForeign(old(foreign), name, publicIp, id)
      ensures id in managed || (!IsUuidText(id) && id != INTERNET)
    {
      var clean := ToLower(TrimSpace(name));
      if clean in index {
        return index[clean];
      }
      var soft := SoftPeer(clean);
      if soft.Some? {
        return soft.value;
      }
      var key := clean;
      if key == "" {
        key := ToLower(publicIp);
      }
      PeerIdForeign(name, publicIp, thirdParty);
      id := PeerPrefix(thirdParty) + key;
      if id !in foreign {
        foreign := foreign[id := PeerNode(id, name, publicIp)];
      }
    }

    /** One VPN peer: resolve it, then put the edge. */
    method AddPeer(local: Uuid, name: string, publicIp: string, thirdParty: bool, up: bool) returns (id: string)
      requires Valid() && local in managed
      modifies this
      ensures Valid() && reports == old(reports)
      ensures PeerResolves(index, name, publicIp, thirdParty, id)
      ensures View() == Graph(VpnEdges(old(edges), local, id, name, VpnProtocol(thirdParty),
                                       PeerFamily(thirdParty) + ToLower(name), up),
                              PeerForeign(old(foreign), name, publicIp, id))
      ensures calls == old(calls) + if id == local then [] else [ToPeer(local, id, name, thirdParty, up)]
    {
      id := ResolvePeer(name, publicIp, thirdParty);
      if local != id {
        ghost var c := ToPeer(local, id, name, thirdParty, up);
        PeerBuilt(old(View()), foreign, index, managed, reports, calls, c);
        calls := calls + [c];
      } else {
        SelfBuilt(old(View()), foreign, index, managed, reports, calls);
      }
      PutVpnEdge(local, id, name, VpnProtocol(thirdParty), PeerFamily(thirdParty) + ToLower(name), up);
    }

    method PutVpnEdge(local: Uuid, remote: string, fromPort: string, protocol: string, family: string, operUp: bool)
      modifies `edges
      ensures edges == VpnEdges(old(edges), local, remote, fromPort, protocol, family, operUp)
    {
      if local == remote {
        return;
      }
      var k := Key(local, remote, family);
      if k in edges {
        if operUp {
          edges := edges[k := edges[k].(operUp := true)];
        }
        return;
      }
      edges := edges[k := VpnEdge(local, remote, fromPort, protocol, operUp)];
    }

    method AddTunnelStub(local: Uuid, ifcs: seq<Ifc>)
      requires Valid() && local in managed
      modifies this
      ensures Valid() && reports == old(reports) && calls == old(calls) + TunnelCalls(local, ifcs)
      ensures View() == Tunnelled(old(View()), local, ifcs)
    {
      var i := 0;
      while i < |ifcs| && (!EqualFold(ifcs[i].kind, "tunnel") || !ifcs[i].operUp)
        invariant i <= |ifcs|
        invariant FirstTunnel(ifcs) == FirstTunnel(ifcs[i..])
      {
        i := i + 1;
      }
      if i == |ifcs| {
        return;
      }
      PutTunnel(local, ifcs[i].name);
    }

    method PutTunnel(local: Uuid, name: string)
      requires Valid() && local in managed
      modifies this
      ensures Valid() && reports == old(reports) && calls == old(calls) + [Tunnel(local, name)]
      ensures View() == TunnelPut(old(View()), local, name)
    {
      TunnelBuilt(View(), index, managed, reports, calls, local, name);
      StubTunnel(local, name);
      calls := calls + [Tunnel(local, name)];
    }

    method StubTunnel(local: Uuid, name: string)
      requires GraphOk(View(), managed)
      modifies `edges, `foreign
      ensures View() == TunnelPut(old(View()), local, name)
    {
      var k := Key(local, INTERNET, TUNNEL);
      EnsureInternetCloud();
      if k in edges {
        CloudIsThere(old(View()), local, TUNNEL, managed);
        return;
      }
      edges := edges[k := WanEdge(local, name, true, WanKind(Fallback(name, "tunnel")))];
    }

    method AddUplinks(local: Uuid, uplinks: seq<Uplink>)
      requires Valid() && local in managed
      modifies this
      ensures Valid() && reports == old(reports) && calls == old(calls) + UplinkCalls(local, uplinks)
    {
      for i := 0 to |uplinks|
        invariant Valid() && reports == old(reports) && calls == old(calls) + UplinkCalls(local, uplinks[..i])
      {
        ghost var before := calls;
        AddNamedUplink(local, uplinks[i]);
        UplinkCallsStep(local, uplinks, i, old(calls), before, calls);
      }
      assert uplinks[..|uplinks|] == uplinks;
    }

    method AddNamedUplink(local: Uuid, u: Uplink)
      requires Valid() && local in managed
      modifies this
      ensures Valid() && reports == old(reports) && calls == old(calls) + UplinkCall(local, u)
    {
      var iface := TrimSpace(u.iface);
      if iface != "" {
        AddUplink(local, iface, UplinkUp(u.status));
      }
    }

    /** ids are the nodes the peers lead to. */
    method AddPeers(local: Uuid, peers: seq<Peer>, thirdParty: bool) returns (ghost ids: seq<string>)
      requires Valid() && local in managed
      modifies this
      ensures Valid() && reports == old(reports)
      ensures PeersResolve(index, peers, thirdParty, ids)
      ensures calls == old(calls) + PeerCalls(local, peers, thirdParty, ids)
    {
      ids := [];
      for i := 0 to |peers|
        invariant Valid() && reports == old(reports)
        invariant PeersResolve(index, peers[..i], thirdParty, ids)
        invariant calls == old(calls) + PeerCalls(local, peers[..i], thirdParty, ids)
      {
        ghost var before, id := calls, "";
        id := AddNamedPeer(local, peers[i], thirdParty);
        PeersResolveStep(index, peers, thirdParty, ids, i, id);
        PeerCallsStep(local, peers, thirdParty, ids, i, id, old(calls), before, calls);
        ids := ids + [id];
      }
      assert peers[..|peers|] == peers;
    }

    method AddNamedPeer(local: Uuid, p: Peer, thirdParty: bool) returns (ghost id: string)
      requires Valid() && local in managed
      modifies this
      ensures Valid() && reports == old(reports)
      ensures PeerName(p, thirdParty) != "" ==>
                PeerResolves(index, PeerName(p, thirdParty), PeerIp(p, thirdParty), thirdParty, id)
      ensures calls == old(calls) + PeerCall(local, p, thirdParty, id)
    {
      var name := TrimSpace(p.name);
      if thirdParty && name == "" {
        name := TrimSpace(p.publicIp);
      }
      id := "";
      if name == "" {
        return;
      }
      id := AddPeer(local, name, PeerIp(p, thirdParty), thirdParty, Reachable(p.reachability));
    }

    /** A repeated key is skipped. */
    method AddCandidate(c: Option<Candidate>, seen: set<string>) returns (after: set<string>)
      requires Valid()
      requires c.Some? ==> c.value.report.local in managed
      requires c.Some? ==> c.value.report.protocol == "lldp" || c.value.report.protocol == "cdp"
      modifies this
      ensures Valid() && calls == old(calls)
      ensures if c.None? || c.value.key in seen then after == seen && reports == old(reports)
              else after == seen + {c.value.key} && reports == old(reports) + [c.value.report]
    {
      after := seen;
      if c.None? || c.value.key in seen {
        return;
      }
      after := seen + {c.value.key};
      AddEdge(c.value.report);
    }

    method AddCandidates(local: Uuid, cs: seq<Option<Candidate>>)
      requires Valid() && local in managed
      requires forall c :: c in cs && c.Some? ==>
                 c.value.report.local == local
                 && (c.value.report.protocol == "lldp" || c.value.report.protocol == "cdp")
      modifies this
      ensures Valid() && reports == old(reports) + Distinct(cs).1 && calls == old(calls)
    {
      var seen: set<string> := {};
      for i := 0 to |cs|
        invariant Valid() && calls == old(calls)
        invariant seen == Distinct(cs[..i]).0
        invariant reports == old(reports) + Distinct(cs[..i]).1
      {
        assert cs[i] in cs;
        DistinctStep(cs, i);
        seen := AddCandidate(cs[i], seen);
      }
      assert cs[..|cs|] == cs;
    }

    method AddReport(r: Report)
      requires Valid() && r.local in managed && (r.protocol == "lldp" || r.protocol == "cdp")
      modifies this
      ensures Valid() && reports == old(reports) + [r] && calls == old(calls)
    {
      AddEdge(r);
    }

    method AddReports(local: Uuid, rs: seq<Report>)
      requires Valid() && local in managed
      requires forall r :: r in rs ==> r.local == local && (r.protocol == "lldp" || r.protocol == "cdp")
      modifies this
      ensures Valid() && reports == old(reports) + rs && calls == old(calls)
    {
      for i := 0 to |rs|
        invariant Valid() && reports == old(reports) + rs[..i] && calls == old(calls)
      {
        AddReport(rs[i]);
      }
    }

    method AddVpn(local: Uuid, vpn: Option<Vpn>) returns (ghost route: Route)
      requires Valid() && local in managed
      modifies this
      ensures Valid() && reports == old(reports) && calls == old(calls) + VpnCalls(local, vpn, route)
      ensures vpn.Some? ==> PeersResolve(index, vpn.value.merakiPeers, false, route.meraki)
                            && PeersResolve(index, vpn.value.thirdParty, true, route.thirdParty)
    {
      route := Route([], []);
      if vpn.None? {
        return;
      }
      ghost var ids, others;
      ids := AddPeers(local, vpn.value.merakiPeers, false);
      others := AddPeers(local, vpn.value.thirdParty, true);
      route := Route(ids, others);
    }

    method AddMeraki(local: Uuid, s: Snapshot) returns (ghost route: Route)
      requires Valid() && local in managed && s.Meraki?
      modifies this
      ensures Valid() && reports == old(reports) + ReportsOfSnapshot(local, s)
      ensures RouteOk(index, s, route) && calls == old(calls) + CallsOfSnapshot(local, s, route)
    {
      CandidateProtocols(local, s.neighbors, s.ports);
      AddCandidates(local, NeighborCandidates(local, s.neighbors) + PortCandidates(local, s.ports));
      AddUplinks(local, s.uplinks);
      route := AddVpn(local, s.vpn);
      Regroup(old(calls), UplinkCalls(local, s.uplinks), VpnCalls(local, s.vpn, route));
    }

    method AddSnmp(local: Uuid, s: Snapshot)
      requires Valid() && local in managed && s.Snmp?
      modifies this
      ensures Valid() && reports == old(reports) + ReportsOfSnapshot(local, s)
      ensures calls == old(calls) + TunnelCalls(local, s.interfaces)
    {
      AddNeighbors(local, s);
      AddTunnelStub(local, s.interfaces);
    }

    method AddNeighbors(local: Uuid, s: Snapshot)
      requires Valid() && local in managed && s.Snmp?
      modifies this
      ensures Valid() && reports == old(reports) + ReportsOfSnapshot(local, s) && calls == old(calls)
    {
      SnapshotProtocols(local, s);
      AddReports(local, LldpReports(local, s.interfaces, s.lldp));
      AddReports(local, CdpReports(local, s.interfaces, s.cdp));
      Regroup(old(reports), LldpReports(local, s.interfaces, s.lldp), CdpReports(local, s.interfaces, s.cdp));
    }

    method AddApp(app: App) returns (ghost route: Route)
      requires Valid() && app.id in managed
      modifies this
      ensures Valid() && reports == old(reports) + ReportsOfSnapshot(app.id, app.snapshot)
      ensures RouteOk(index, app.snapshot, route)
      ensures calls == old(calls) + CallsOfSnapshot(app.id, app.snapshot, route)
    {
      route := Route([], []);
      if app.snapshot.Meraki? {
        route := AddMeraki(app.id, app.snapshot);
      } else if app.snapshot.Snmp? {
        AddSnmp(app.id, app.snapshot);
      }
    }

    method AddApps(apps: seq<App>) returns (ghost routes: seq<Route>)
      requires Valid() && forall a :: a in apps ==> a.id in managed
      modifies this
      ensures Valid() && reports == old(reports) + ReportsOf(apps)
      ensures RoutesOk(index, apps, routes) && calls == old(calls) + CallsOf(apps, routes)
    {
      routes := [];
      for i := 0 to |apps|
        invariant Valid() && reports == old(reports) + ReportsOf(apps[..i])
        invariant RoutesOk(index, apps[..i], routes) && calls == old(calls) + CallsOf(apps[..i], routes)
      {
        ghost var before, made := reports, calls;
        ghost var route;
        route := AddApp(apps[i]);
        ReportsStep(apps, i, old(reports), before, reports);
        RoutesStep(index, apps, routes, i, route);
        CallsStep(apps, routes, i, route, old(calls), made, calls);
        routes := routes + [route];
      }
      assert apps[..|apps|] == apps;
    }
  }

  // ---------- the response ----------

  function AppNode(a: App): Node {
    var title := if a.sysName.Some? && a.sysName.value != "" then a.sysName.value else a.name;
    Node(a.id, "appliance", title, a.name, "", a.mgmtIp,
         a.status, a.tags)
  }

  function Ids(apps: seq<App>): (ids: set<Uuid>)
    ensures forall id :: id in ids <==> exists i :: 0 <= i < |apps| && apps[i].id == id
  {
    set i | 0 <= i < |apps| :: apps[i].id
  }

  /** Lower-case system names and display names; later rows win. */
  function IndexOf(apps: seq<App>): SysIndex {
    if apps == [] then map[]
    else
      var a := apps[|apps| - 1];
      var before := IndexOf(apps[..|apps| - 1]);
      var hasSysName := a.sysName.Some? && a.sysName.value != "";
      var named := if hasSysName then before[ToLower(a.sysName.value) := a.id] else before;
      named[ToLower(a.name) := a.id]
  }

  lemma {:induction false} IndexOfOk(apps: seq<App>)
    ensures IndexOk(IndexOf(apps), Ids(apps))
  {
    if apps != [] {
      IndexOfOk(apps[..|apps| - 1]);
      assert apps[|apps| - 1].id in Ids(apps);
      forall id | id in Ids(apps[..|apps| - 1]) ensures id in Ids(apps) {
        var i :| 0 <= i < |apps| - 1 && apps[..|apps| - 1][i].id == id;
        assert apps[i].id == id;
      }
    }
  }

  method BuildIndex(apps: seq<App>) returns (index: SysIndex)
    ensures index == IndexOf(apps)
  {
    index := map[];
    for i := 0 to |apps|
      invariant index == IndexOf(apps[..i])
    {
      assert apps[..i + 1][..i] == apps[..i];
      var a := apps[i];
      if a.sysName.Some? && a.sysName.value != "" {
        index := index[ToLower(a.sysName.value) := a.id];
      }
      index := index[ToLower(a.name) := a.id];
    }
    assert apps[..|apps|] == apps;
  }

  predicate NoRepeats<X(==)>(xs: seq<X>) { forall i, j :: 0 <= i < j < |xs| ==> xs[i] != xs[j] }

  /** values lists the map's values, in some order of its keys. */
  ghost predicate Lists<K(!new), V>(m: map<K, V>, keys: seq<K>, values: seq<V>) {
    && |keys| == |values| && NoRepeats(keys)
    && (forall k :: k in keys <==> k in m)
    && (forall i :: 0 <= i < |keys| ==> keys[i] in m && values[i] == m[keys[i]])
  }

  /** Ranging over a map: every entry once, in arbitrary order. */
  method ListValues<K(==,!new), V(==)>(m: map<K, V>) returns (keys: seq<K>, values: seq<V>)
    ensures Lists(m, keys, values)
  {
    keys, values := [], [];
    var todo := m.Keys;
    while todo != {}
      invariant todo <= m.Keys
      invariant |keys| == |values| && NoRepeats(keys)
      invariant forall k :: k in keys <==> k in m && k !in todo
      invariant forall i :: 0 <= i < |keys| ==> keys[i] in m && values[i] == m[keys[i]]
      decreases |todo|
    {
      var k :| k in todo;
      keys, values := keys + [k], values + [m[k]];
      todo := todo - {k};
    }
  }

  ghost predicate HasNode(nodes: seq<Node>, id: string) { exists n :: n in nodes && n.id == id }

  /** Node ids are unique and every endpoint is one of them; every foreign or cloud node has an edge to it; there is at
      most one L2 edge per unordered pair; a utilization lies in (0, 100]. */
  ghost predicate WellFormed(nodes: seq<Node>, edges: seq<Edge>) {
    && Apart(SameId, nodes)
    && (forall e :: e in edges ==> HasNode(nodes, e.from) && HasNode(nodes, e.to) && Percent(e.utilization))
    && (forall n :: n in nodes && n.kind != "appliance" ==> exists e :: e in edges && e.to == n.id)
    && Apart(SameL2Link, edges)
  }

  predicate SameId(n: Node, m: Node) { n.id == m.id }

  predicate SameL2Link(e: Edge, f: Edge) { e.kind.layer == 2 && f.kind.layer == 2 && SamePair(e, f) }

  predicate SamePair(e: Edge, f: Edge) { (e.from == f.from && e.to == f.to) || (e.from == f.to && e.to == f.from) }

  /** The L2 edges of the response are those the reports build, and they are the join of their reports. */
  ghost predicate L2Response(edges: seq<Edge>, index: SysIndex, rs: seq<Report>) {
    && (forall e :: e in edges && e.kind.layer == 2 ==>
          EdgeFor(index, rs, Key(e.from, e.to, L2)) == Some(e)
          && e.protocol == Join(Landings(index, rs, Key(e.from, e.to, L2)))
          && (e.operUp <==> SomeUp(Landings(index, rs, Key(e.from, e.to, L2)))))
    && (forall r :: r in rs && RemoteId(index, r).Some? ==>
          exists e :: e in edges && e.kind.layer == 2
            && Key(e.from, e.to, L2) == Key(r.local, RemoteId(index, r).value, L2))
  }

  ghost predicate Shown(edges: seq<Edge>, calls: seq<Call>, c: Call) {
    exists e :: e in edges && LinkFor(calls, CallKey(c)) == Some(e)
  }

  /** The other edges are the links of the calls: every call has its edge, and every edge has its call. */
  ghost predicate L3Response(edges: seq<Edge>, calls: seq<Call>) {
    && (forall c :: c in calls ==> Shown(edges, calls, c))
    && (forall e :: e in edges && e.kind.layer != 2 ==> exists c :: c in calls && LinkFor(calls, CallKey(c)) == Some(e))
  }

  /** Appliance nodes followed by the foreign ones. */
  ghost predicate NodesOf(apps: seq<App>, g: Graph, ids: seq<string>, nodes: seq<Node>) {
    exists foreign: seq<Node> :: Lists(g.foreign, ids, foreign) && |nodes| == |apps| + |foreign|
      && nodes[|apps|..] == foreign
      && forall i :: 0 <= i < |apps| ==> nodes[i] == AppNode(apps[i])
  }

  lemma UniqueIds(apps: seq<App>, g: Graph, ids: seq<string>, nodes: seq<Node>)
    requires GraphOk(g, Ids(apps)) && NodesOf(apps, g, ids, nodes)
    requires forall i, j :: 0 <= i < j < |apps| ==> apps[i].id != apps[j].id
    ensures forall i, j :: 0 <= i < j < |nodes| ==> nodes[i].id != nodes[j].id
  {
    var n := |apps|;
    forall i, j | 0 <= i < j < |nodes| ensures nodes[i].id != nodes[j].id {
      if j >= n {
        assert nodes[j] == nodes[n..][j - n];
        assert ForeignOk(ids[j - n], g.foreign[ids[j - n]]);
        if i >= n {
          assert nodes[i] == nodes[n..][i - n];
          assert ForeignOk(ids[i - n], g.foreign[ids[i - n]]);
        }
      }
    }
  }

  lemma NodeForApp(apps: seq<App>, g: Graph, ids: seq<string>, nodes: seq<Node>, i: nat)
    requires NodesOf(apps, g, ids, nodes) && i < |apps|
    ensures HasNode(nodes, apps[i].id)
  {
    assert nodes[i] == AppNode(apps[i]);
  }

  lemma NodeForForeign(apps: seq<App>, g: Graph, ids: seq<string>, nodes: seq<Node>, id: string)
    requires GraphOk(g, Ids(apps)) && NodesOf(apps, g, ids, nodes) && id in g.foreign
    ensures HasNode(nodes, id)
  {
    assert id in ids;
    var i :| 0 <= i < |ids| && ids[i] == id;
    assert ForeignOk(id, g.foreign[id]);
    assert nodes[|apps| + i] == nodes[|apps|..][i];
    assert nodes[|apps| + i].id == id;
  }

  lemma NodeFor(apps: seq<App>, g: Graph, ids: seq<string>, nodes: seq<Node>, id: string)
    requires GraphOk(g, Ids(apps)) && NodesOf(apps, g, ids, nodes)
    requires id in Ids(apps) || id in g.foreign
    ensures HasNode(nodes, id)
  {
    if id in Ids(apps) {
      var i :| 0 <= i < |apps| && apps[i].id == id;
      NodeForApp(apps, g, ids, nodes, i);
    } else {
      NodeForForeign(apps, g, ids, nodes, id);
    }
  }

  lemma ForeignHasEdge(apps: seq<App>, g: Graph, ids: seq<string>, nodes: seq<Node>, keys: seq<EdgeKey>,
                       edges: seq<Edge>, n: Node)
    requires GraphOk(g, Ids(apps)) && NodesOf(apps, g, ids, nodes) && Lists(g.edges, keys, edges)
    requires n in nodes && n.kind != "appliance"
    ensures exists e :: e in edges && e.to == n.id
  {
    var i :| 0 <= i < |nodes| && nodes[i] == n;
    assert i >= |apps|;
    assert nodes[i] == nodes[|apps|..][i - |apps|];
    var id := ids[i - |apps|];
    assert ForeignOk(id, g.foreign[id]) && Incident(g.edges, id);
    var k :| k in g.edges && g.edges[k].to == id;
    var j :| 0 <= j < |keys| && keys[j] == k;
    assert edges[j].to == n.id;
  }

  lemma OneL2PerPair(g: Graph, managed: set<Uuid>, keys: seq<EdgeKey>, edges: seq<Edge>, i: nat, j: nat)
    requires GraphOk(g, managed) && Lists(g.edges, keys, edges) && i < j < |edges|
    requires edges[i].kind.layer == 2 && edges[j].kind.layer == 2
    ensures !SamePair(edges[i], edges[j])
  {
    assert EdgeOk(keys[i], edges[i], g.foreign, managed) && EdgeOk(keys[j], edges[j], g.foreign, managed);
    KeyIsPair(edges[i].from, edges[i].to, L2, edges[j].from, edges[j].to, L2);
  }

  lemma EndsAreNodes(apps: seq<App>, g: Graph, ids: seq<string>, nodes: seq<Node>, keys: seq<EdgeKey>,
                     edges: seq<Edge>, e: Edge)
    requires GraphOk(g, Ids(apps)) && NodesOf(apps, g, ids, nodes) && Lists(g.edges, keys, edges) && e in edges
    ensures HasNode(nodes, e.from) && HasNode(nodes, e.to) && Percent(e.utilization)
  {
    var j :| 0 <= j < |edges| && edges[j] == e;
    assert EdgeOk(keys[j], e, g.foreign, Ids(apps));
    NodeFor(apps, g, ids, nodes, e.from);
    NodeFor(apps, g, ids, nodes, e.to);
  }

  lemma ResponseWellFormed(apps: seq<App>, g: Graph, ids: seq<string>, nodes: seq<Node>, keys: seq<EdgeKey>,
                           edges: seq<Edge>)
    requires GraphOk(g, Ids(apps)) && NodesOf(apps, g, ids, nodes) && Lists(g.edges, keys, edges)
    requires forall i, j :: 0 <= i < j < |apps| ==> apps[i].id != apps[j].id
    ensures WellFormed(nodes, edges)
  {
    UniqueIds(apps, g, ids, nodes);
    forall e | e in edges ensures HasNode(nodes, e.from) && HasNode(nodes, e.to) && Percent(e.utilization) {
      EndsAreNodes(apps, g, ids, nodes, keys, edges, e);
    }
    forall n | n in nodes && n.kind != "appliance" ensures exists e :: e in edges && e.to == n.id {
      ForeignHasEdge(apps, g, ids, nodes, keys, edges, n);
    }
    forall i, j | 0 <= i < j < |edges| ensures !SameL2Link(edges[i], edges[j]) {
      if edges[i].kind.layer == 2 && edges[j].kind.layer == 2 { OneL2PerPair(g, Ids(apps), keys, edges, i, j); }
    }
  }

  lemma ResponseL2(g: Graph, managed: set<Uuid>, index: SysIndex, rs: seq<Report>, keys: seq<EdgeKey>, edges: seq<Edge>)
    requires GraphOk(g, managed) && L2Is(g.edges, index, rs) && Lists(g.edges, keys, edges) && Protocols(rs)
    ensures L2Response(edges, index, rs)
  {
    forall e | e in edges && e.kind.layer == 2
      ensures EdgeFor(index, rs, Key(e.from, e.to, L2)) == Some(e)
      ensures e.protocol == Join(Landings(index, rs, Key(e.from, e.to, L2)))
      ensures e.operUp <==> SomeUp(Landings(index, rs, Key(e.from, e.to, L2)))
    {
      var j :| 0 <= j < |edges| && edges[j] == e;
      assert EdgeOk(keys[j], e, g.foreign, managed);
      assert Lookup(g.edges, keys[j]) == EdgeFor(index, rs, keys[j]);
      EdgeIsJoin(index, rs, keys[j]);
    }
    forall r | r in rs && RemoteId(index, r).Some?
      ensures exists e ::
                e in edges && e.kind.layer == 2 && Key(e.from, e.to, L2) == Key(r.local, RemoteId(index, r).value, L2)
    {
      var k := Key(r.local, RemoteId(index, r).value, L2);
      EdgeIsJoin(index, rs, k);
      assert Lookup(g.edges, k) == EdgeFor(index, rs, k);
      assert EdgeOk(k, g.edges[k], g.foreign, managed);
      var j :| 0 <= j < |keys| && keys[j] == k;
      assert edges[j] == g.edges[k];
    }
  }

  lemma ResponseL3(g: Graph, managed: set<Uuid>, calls: seq<Call>, keys: seq<EdgeKey>, edges: seq<Edge>)
    requires GraphOk(g, managed) && L3Is(g.edges, calls) && Lists(g.edges, keys, edges)
    ensures L3Response(edges, calls)
  {
    forall c | c in calls ensures Shown(edges, calls, c) {
      var k := CallKey(c);
      CallNotL2(c);
      CallsAtMembers(calls, k);
      assert CallsAt(calls, k) != [] && Lookup(g.edges, k) == LinkFor(calls, k);
      var j :| 0 <= j < |keys| && keys[j] == k;
      assert edges[j] in edges;
    }
    forall e | e in edges && e.kind.layer != 2 ensures exists c :: c in calls && LinkFor(calls, CallKey(c)) == Some(e) {
      var j :| 0 <= j < |edges| && edges[j] == e;
      assert EdgeOk(keys[j], e, g.foreign, managed);
      assert Lookup(g.edges, keys[j]) == LinkFor(calls, keys[j]);
      CallsAtMembers(calls, keys[j]);
      var c := CallsAt(calls, keys[j])[0];
      assert c in CallsAt(calls, keys[j]);
    }
  }

  /** The graph of all snapshots, and the reports and calls it comes from. */
  method BuildGraph(apps: seq<App>, index: SysIndex) returns (g: Graph, ghost routes: seq<Route>)
    requires index == IndexOf(apps)
    ensures GraphOk(g, Ids(apps)) && L2Is(g.edges, index, ReportsOf(apps))
    ensures RoutesOk(index, apps, routes) && L3Is(g.edges, CallsOf(apps, routes))
  {
    IndexOfOk(apps);
    var b := new Builder(index, Ids(apps));
    forall a | a in apps ensures a.id in Ids(apps) {
      var i :| 0 <= i < |apps| && apps[i] == a;
      assert apps[i].id == a.id;
    }
    routes := b.AddApps(apps);
    assert [] + ReportsOf(apps) == ReportsOf(apps) && [] + CallsOf(apps, routes) == CallsOf(apps, routes);
    g := Graph(b.edges, b.foreign);
  }

  method ListNodes(apps: seq<App>, g: Graph) returns (nodes: seq<Node>, ghost ids: seq<string>)
    ensures NodesOf(apps, g, ids, nodes)
    ensures forall a :: a in apps ==> AppNode(a) in nodes
  {
    nodes := [];
    for i := 0 to |apps|
      invariant |nodes| == i && forall j :: 0 <= j < i ==> nodes[j] == AppNode(apps[j])
    {
      nodes := nodes + [AppNode(apps[i])];
    }
    var listed, foreign := ListValues(g.foreign);
    ids := listed;
    nodes := nodes + foreign;
    assert nodes[|apps|..] == foreign;
    forall a | a in apps ensures AppNode(a) in nodes {
      var i :| 0 <= i < |apps| && apps[i] == a;
      assert nodes[i] == AppNode(a);
    }
  }

  // ---------- the final sorts ----------

  predicate NodeBefore(n: Node, m: Node) { Less(n.id, m.id) }

  predicate EdgeBefore(e: Edge, f: Edge) { if e.from != f.from then Less(e.from, f.from) else Less(e.to, f.to) }

  lemma NodeOrder()
    ensures StrictWeak(NodeBefore)
  {
    forall n: Node, m: Node ensures NodeBefore(n, m) ==> !NodeBefore(m, n) { LessIsStrictTotal(n.id, m.id); }
    forall n: Node, m: Node, o: Node ensures NodeBefore(n, o) ==> NodeBefore(n, m) || NodeBefore(m, o) {
      LessSplits(n.id, m.id, o.id);
    }
  }

  lemma EdgeOrder()
    ensures StrictWeak(EdgeBefore)
  {
    forall e: Edge, f: Edge ensures EdgeBefore(e, f) ==> !EdgeBefore(f, e) {
      LessIsStrictTotal(e.from, f.from);
      LessIsStrictTotal(e.to, f.to);
    }
    forall e: Edge, f: Edge, g: Edge ensures EdgeBefore(e, g) ==> EdgeBefore(e, f) || EdgeBefore(f, g) {
      LessSplits(e.from, f.from, g.from);
      LessIsStrictTotal(e.from, f.from);
      LessSplits(e.to, f.to, g.to);
    }
  }

  lemma SortedResponse(nodes: seq<Node>, edges: seq<Edge>, nodes': seq<Node>, edges': seq<Edge>, index: SysIndex,
                       rs: seq<Report>, calls: seq<Call>)
    requires WellFormed(nodes, edges) && L2Response(edges, index, rs) && L3Response(edges, calls)
    requires multiset(nodes') == multiset(nodes) && multiset(edges') == multiset(edges)
    ensures WellFormed(nodes', edges') && L2Response(edges', index, rs) && L3Response(edges', calls)
    ensures forall n :: n in nodes' <==> n in nodes
  {
    SameMembers(nodes, nodes');
    SameMembers(edges, edges');
    ApartPermuted(SameId, nodes, nodes');
    ApartPermuted(SameL2Link, edges, edges');
    SameEdges(nodes, edges, nodes', edges');
    SameL2(edges, edges', index, rs);
    SameL3(edges, edges', calls);
  }

  lemma SameEdges(nodes: seq<Node>, edges: seq<Edge>, nodes': seq<Node>, edges': seq<Edge>)
    requires (forall n :: n in nodes' <==> n in nodes) && (forall e :: e in edges' <==> e in edges)
    requires WellFormed(nodes, edges) && Apart(SameId, nodes') && Apart(SameL2Link, edges')
    ensures WellFormed(nodes', edges')
  {
    forall e | e in edges' ensures HasNode(nodes', e.from) && HasNode(nodes', e.to) && Percent(e.utilization) {
      assert HasNode(nodes, e.from) && HasNode(nodes, e.to);
    }
    forall n | n in nodes' && n.kind != "appliance" ensures exists e :: e in edges' && e.to == n.id {
      var e :| e in edges && e.to == n.id;
      assert e in edges';
    }
  }

  lemma SameL2(edges: seq<Edge>, edges': seq<Edge>, index: SysIndex, rs: seq<Report>)
    requires (forall e :: e in edges' <==> e in edges) && L2Response(edges, index, rs)
    ensures L2Response(edges', index, rs)
  {
  }

  lemma SameL3(edges: seq<Edge>, edges': seq<Edge>, calls: seq<Call>)
    requires (forall e :: e in edges' <==> e in edges) && L3Response(edges, calls)
    ensures L3Response(edges', calls)
  {
    forall c | c in calls ensures Shown(edges', calls, c) {
      assert Shown(edges, calls, c);
      var e :| e in edges && LinkFor(calls, CallKey(c)) == Some(e);
      assert e in edges';
    }
  }

  /** Sorted by id, and the ids are unique: the order of the nodes is fixed. */
  lemma NodesAscend(nodes: seq<Node>)
    requires Apart(SameId, nodes) && InOrder(NodeBefore, nodes)
    ensures forall i, j :: 0 <= i < j < |nodes| ==> Less(nodes[i].id, nodes[j].id)
  {
    forall i, j | 0 <= i < j < |nodes| ensures Less(nodes[i].id, nodes[j].id) {
      assert !SameId(nodes[i], nodes[j]) && !NodeBefore(nodes[j], nodes[i]);
      LessIsStrictTotal(nodes[i].id, nodes[j].id);
    }
  }

  /** The lists before sorting: the maps' entries in arbitrary order. */
  method ListAll(apps: seq<App>) returns (nodes: seq<Node>, edges: seq<Edge>, ghost routes: seq<Route>)
    requires forall i, j :: 0 <= i < j < |apps| ==> apps[i].id != apps[j].id
    ensures WellFormed(nodes, edges) && L2Response(edges, IndexOf(apps), ReportsOf(apps))
    ensures RoutesOk(IndexOf(apps), apps, routes) && L3Response(edges, CallsOf(apps, routes))
    ensures forall a :: a in apps ==> AppNode(a) in nodes
  {
    var index := BuildIndex(apps);
    var g: Graph;
    g, routes := BuildGraph(apps, index);
    ghost var ids;
    nodes, ids := ListNodes(apps, g);
    var keys: seq<EdgeKey>;
    keys, edges := ListValues(g.edges);
    ResponseWellFormed(apps, g, ids, nodes, keys, edges);
    ReportProtocols(apps);
    ResponseL2(g, Ids(apps), index, ReportsOf(apps), keys, edges);
    ResponseL3(g, Ids(apps), CallsOf(apps, routes), keys, edges);
  }

  /** handleTopology, from the rows to the sorted lists of nodes and edges. Row ids are a primary key; routes says where
      the VPN peers lead. */
  method Build(apps: seq<App>) returns (nodes: seq<Node>, edges: seq<Edge>, ghost routes: seq<Route>)
    requires forall i, j :: 0 <= i < j < |apps| ==> apps[i].id != apps[j].id
    ensures WellFormed(nodes, edges)
    ensures forall a :: a in apps ==> AppNode(a) in nodes
    ensures L2Response(edges, IndexOf(apps), ReportsOf(apps))
    ensures RoutesOk(IndexOf(apps), apps, routes) && L3Response(edges, CallsOf(apps, routes))
    ensures forall i, j :: 0 <= i < j < |nodes| ==> Less(nodes[i].id, nodes[j].id)
    ensures InOrder(EdgeBefore, edges)
  {
    nodes, edges, routes := ListAll(apps);
    ghost var nodes0, edges0 := nodes, edges;
    NodeOrder();
    EdgeOrder();
    nodes := SortSlice(nodes, NodeBefore);
    edges := SortSlice(edges, EdgeBefore);
    SortedResponse(nodes0, edges0, nodes, edges, IndexOf(apps), ReportsOf(apps), CallsOf(apps, routes));
    NodesAscend(nodes);
  }

  // ---------- the layer-3 edges and what the snapshots name ----------

  /** The response has the edge of this call, in the state LinkShows says. */
  ghost predicate Linked(edges: seq<Edge>, calls: seq<Call>, c: Call) {
    c in calls && LinkShows(calls, c) && LinkFor(calls, CallKey(c)).value in edges
  }

  /** In the response every uplink, named peer and tunnel of every snapshot has its edge, unless a peer is the appliance
      itself, and every edge that is not a neighbor link comes from one of them. */
  lemma ResponseLinks(index: SysIndex, apps: seq<App>, routes: seq<Route>, edges: seq<Edge>)
    requires RoutesOk(index, apps, routes) && L3Response(edges, CallsOf(apps, routes))
    requires forall i, j :: 0 <= i < j < |apps| ==> apps[i].id != apps[j].id
    ensures forall c :: c in CallsOf(apps, routes) ==> Linked(edges, CallsOf(apps, routes), c)
    ensures forall a :: a in apps ==> AllCalled(CallsOf(apps, routes), index, a)
    ensures forall e :: e in edges && e.kind.layer != 2 ==>
              exists i, c :: 0 <= i < |apps| && Names(index, apps[i], c) && Linked(edges, CallsOf(apps, routes), c)
                             && LinkFor(CallsOf(apps, routes), CallKey(c)) == Some(e)
  {
    var calls := CallsOf(apps, routes);
    CallsAreNamed(index, apps, routes);
    forall c | c in calls ensures Linked(edges, calls, c) {
      LinkState(index, apps, routes, c);
      assert Shown(edges, calls, c);
    }
    forall e | e in edges && e.kind.layer != 2
      ensures exists i, c :: 0 <= i < |apps| && Names(index, apps[i], c) && Linked(edges, calls, c)
                             && LinkFor(calls, CallKey(c)) == Some(e)
    {
      var c :| c in calls && LinkFor(calls, CallKey(c)) == Some(e);
      var i :| 0 <= i < |apps| && Names(index, apps[i], c);
    }
  }
}
