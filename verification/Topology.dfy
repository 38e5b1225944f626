/** The topology graph as values (internal/api/handlers_topology.go, handlers_topology_extend.go): ids, edge keys,
    neighbor reports and how they merge, and what makes a graph well formed. */
module Topology {
  import opened Text

  datatype Node = Node(id: string, kind: string, name: string, labelText: string, platform: string, mgmtIp: string,
                       status: string, tags: seq<string>)

  /** The linkKind object; iface is its "interface" entry, "" where it has none. */
  datatype LinkKind = LinkKind(layer: nat, protocol: string, medium: string, iface: string)

  datatype Edge = Edge(from: string, to: string, fromPort: string, toPort: string, protocol: string, operUp: bool,
                       kind: LinkKind, inBps: Option<nat>, outBps: Option<nat>, utilization: Option<real>)

  datatype EdgeKey = EdgeKey(a: string, b: string, family: string)

  datatype Graph = Graph(edges: map<EdgeKey, Edge>, foreign: map<string, Node>)

  const INTERNET := "cloud:internet"
  const L2 := "l2"

  type SysIndex = map<string, string>

  /** One call of addEdge: what an appliance says about a neighbor. */
  datatype Report = Report(local: Uuid, localPort: string, operUp: bool, inBps: Option<nat>, outBps: Option<nat>,
                           speedBps: nat, remoteSys: string, remotePort: string, remotePlatform: string,
                           remoteAddr: string, protocol: string)

  // ---------- keys ----------

  function Key(x: string, y: string, family: string): EdgeKey {
    if Less(y, x) then EdgeKey(y, x, family) else EdgeKey(x, y, family)
  }

  /** The key names the unordered pair. */
  lemma KeyIsPair(x: string, y: string, f: string, x': string, y': string, f': string)
    ensures Key(x, y, f) == Key(x', y', f') <==> f == f' && ((x == x' && y == y') || (x == y' && y == x'))
  {
    LessIsStrictTotal(x, y);
    LessIsStrictTotal(x', y');
  }

  lemma NotUuid(s: string)
    requires HasPrefix(s, "foreign:") || s == INTERNET
    ensures !IsUuidText(s)
  {
    if HasPrefix(s, "foreign:") {
      assert s[..8][1] == 'o';
    }
  }

  // ---------- L2 edges ----------

  const WIRELESS_PREFIXES: seq<string> := ["dot11radio", "wlan", "ath"]
  const WIRELESS_WORDS: seq<string> := ["wireless", "wifi"]

  predicate IsWireless(name: string) {
    var low := ToLower(name);
    name != "" && ((exists p :: p in WIRELESS_PREFIXES && HasPrefix(low, p))
                   || (exists w :: w in WIRELESS_WORDS && Contains(low, w)))
  }

  function Layer2Kind(protocol: string, localPort: string): LinkKind {
    var p := ToLower(protocol);
    LinkKind(2, if p == "both" then "lldp_cdp" else p, if IsWireless(localPort) then "wireless" else "wired", "")
  }

  const PHONE_WORDS: seq<string> :=
    ["ip phone", "ip-phone", "voip phone", "polycom", "yealink", "grandstream", "snom", "cp-7", "cp-8", "cp-9",
     "cisco dx"]

  predicate LooksLikePhone(s: string) { exists w :: w in PHONE_WORDS && Contains(ToLower(s), w) }

  /** The name by which a neighbor is looked up: lower case, cut at the first "(" that is not at the start. */
  function CleanName(remoteSys: string): string {
    var clean := ToLower(remoteSys);
    var i := Index(clean, "(");
    if i > 0 then TrimSpace(clean[..i]) else clean
  }

  /** The node a report points to; None if the report names nothing. */
  function RemoteId(index: SysIndex, r: Report): Option<string> {
    var sys := TrimSpace(r.remoteSys);
    if sys == "" && r.remoteAddr == "" then None
    else
      var clean := CleanName(sys);
      if clean in index then Some(index[clean])
      else Some("foreign:" + if clean == "" then ToLower(r.remoteAddr) else clean)
  }

  /** mergeEdgeUtil: rates replace older ones; with a known speed and traffic, the utilization in percent. */
  function MergeUtil(e: Edge, inBps: Option<nat>, outBps: Option<nat>, speedBps: nat): Edge {
    var f := e.(inBps := if inBps.Some? then inBps else e.inBps, outBps := if outBps.Some? then outBps else e.outBps);
    var i := if inBps.Some? then inBps.value else 0;
    var o := if outBps.Some? then outBps.value else 0;
    var most := if o > i then o else i;
    if speedBps == 0 || most == 0 then f
    else
      var pct := most as real / speedBps as real * 100.0;
      f.(utilization := Some(if pct > 100.0 then 100.0 else pct))
  }

  predicate Percent(u: Option<real>) { u.Some? ==> 0.0 < u.value <= 100.0 }

  lemma UtilizationIsPercent(e: Edge, inBps: Option<nat>, outBps: Option<nat>, speedBps: nat)
    requires Percent(e.utilization)
    ensures Percent(MergeUtil(e, inBps, outBps, speedBps).utilization)
  {
    var i := if inBps.Some? then inBps.value else 0;
    var o := if outBps.Some? then outBps.value else 0;
    var most := if o > i then o else i;
    if speedBps != 0 && most != 0 { PositiveQuotient(most as real, speedBps as real); }
  }

  lemma PositiveQuotient(x: real, y: real)
    requires x > 0.0 && y > 0.0
    ensures x / y * 100.0 > 0.0
  {
    assert x / y * y == x;
  }

  function NewEdge(r: Report, remote: string): Edge {
    MergeUtil(Edge(r.local, remote, r.localPort, r.remotePort, r.protocol, r.operUp,
                   Layer2Kind(r.protocol, r.localPort),
                   None, None, None),
              r.inBps, r.outBps, r.speedBps)
  }

  predicate L2Protocol(p: string) { p == "lldp" || p == "cdp" || p == "both" }

  /** Another report of a link that is already there. */
  function MergedEdge(e: Edge, r: Report, remote: string): Edge {
    var upgrade := e.protocol != r.protocol && L2Protocol(e.protocol);
    var f := e.(protocol := if upgrade then "both" else e.protocol,
                kind := if upgrade then Layer2Kind("both", r.localPort) else e.kind,
                fromPort := if e.fromPort == "" && r.local == e.from then r.localPort else e.fromPort,
                toPort := if e.toPort == "" && remote == e.to then r.remotePort else e.toPort,
                operUp := e.operUp || r.operUp);
    MergeUtil(f, r.inBps, r.outBps, r.speedBps)
  }

  function PhoneReport(r: Report): bool {
    LooksLikePhone(TrimSpace(r.remoteSys) + " " + r.remotePlatform + " " + r.remoteAddr)
  }

  /** The foreign node after a report that created an edge to it. */
  function ForeignNode(foreign: map<string, Node>, r: Report, remote: string): Node {
    var sys := TrimSpace(r.remoteSys);
    if remote !in foreign then
      Node(remote, "foreign", sys, sys, r.remotePlatform, r.remoteAddr, "unknown",
           if PhoneReport(r) then ["phone"] else [])
    else if PhoneReport(r) && "phone" !in foreign[remote].tags then
      foreign[remote].(tags := foreign[remote].tags + ["phone"])
    else foreign[remote]
  }

  /** The graph after one addEdge. */
  function Reported(index: SysIndex, g: Graph, r: Report): Graph {
    if RemoteId(index, r).None? then g
    else
      var remote := RemoteId(index, r).value;
      var k := Key(r.local, remote, L2);
      if k in g.edges then g.(edges := g.edges[k := MergedEdge(g.edges[k], r, remote)])
      else Graph(g.edges[k := NewEdge(r, remote)],
                 if HasPrefix(remote, "foreign:") then g.foreign[remote := ForeignNode(g.foreign, r, remote)]
                 else g.foreign)
  }

  // ---------- well-formed graphs ----------

  ghost predicate Incident(edges: map<EdgeKey, Edge>, id: string) { exists k :: k in edges && edges[k].to == id }

  ghost predicate EdgeOk(k: EdgeKey, e: Edge, foreign: map<string, Node>, managed: set<Uuid>) {
    && k == Key(e.from, e.to, k.family)
    && e.from in managed
    && (e.to in managed || e.to in foreign)
    && (e.kind.layer == 2 <==> k.family == L2)
    && (k.family == L2 ==> L2Protocol(e.protocol))
    && Percent(e.utilization)
  }

  predicate ForeignOk(id: string, n: Node) {
    n.id == id && !IsUuidText(id) && (n.kind == "cloud" <==> id == INTERNET)
      && (n.kind == "cloud" || n.kind == "foreign")
  }

  /** Keys are the ordered endpoint pairs; edges start at a managed appliance and end at a managed appliance or at a
      node of the foreign map; every foreign or cloud node has an edge to it. */
  ghost predicate GraphOk(g: Graph, managed: set<Uuid>) {
    && (forall k :: k in g.edges ==> EdgeOk(k, g.edges[k], g.foreign, managed))
    && (forall id :: id in g.foreign ==> ForeignOk(id, g.foreign[id]) && Incident(g.edges, id))
  }

  /** Putting an edge that runs to `to`, together with a node for `to` if it is not managed, keeps a graph well
      formed. */
  lemma PutKeeps(g: Graph, k: EdgeKey, e: Edge, foreign: map<string, Node>, managed: set<Uuid>)
    requires GraphOk(g, managed)
    requires EdgeOk(k, e, foreign, managed)
    requires k in g.edges ==> e.to == g.edges[k].to
    requires forall id :: id in foreign ==> ForeignOk(id, foreign[id]) && (id in g.foreign || id == e.to)
    requires g.foreign.Keys <= foreign.Keys
    ensures GraphOk(Graph(g.edges[k := e], foreign), managed)
  {
    var edges := g.edges[k := e];
    forall j | j in edges ensures EdgeOk(j, edges[j], foreign, managed) {
      if j != k { assert EdgeOk(j, g.edges[j], g.foreign, managed); }
    }
    forall id | id in foreign ensures Incident(edges, id) {
      if id == e.to {
        assert edges[k].to == id;
      } else {
        assert Incident(g.edges, id);
        var j :| j in g.edges && g.edges[j].to == id;
        assert edges[j].to == id;
      }
    }
  }

  /** Two edges under one key that both start at a managed appliance end at the same node, unless both ends are
      managed. */
  lemma SameEnd(k: EdgeKey, e: Edge, from: Uuid, to: string, family: string)
    requires k == Key(e.from, e.to, k.family) && k == Key(from, to, family)
    requires IsUuidText(e.from) && !IsUuidText(to)
    ensures e.to == to && e.from == from
  {
    KeyIsPair(e.from, e.to, k.family, from, to, family);
  }

  ghost predicate IndexOk(index: SysIndex, managed: set<Uuid>) {
    forall name :: name in index ==> IsUuidText(index[name]) && index[name] in managed
  }

  lemma MergedOk(index: SysIndex, g: Graph, r: Report, remote: string, managed: set<Uuid>)
    requires GraphOk(g, managed) && Key(r.local, remote, L2) in g.edges
    requires r.protocol == "lldp" || r.protocol == "cdp"
    ensures var k := Key(r.local, remote, L2); EdgeOk(k, MergedEdge(g.edges[k], r, remote), g.foreign, managed)
  {
    var k := Key(r.local, remote, L2);
    assert EdgeOk(k, g.edges[k], g.foreign, managed);
    var e := g.edges[k];
    var f := MergedEdge(e, r, remote).(utilization := e.utilization, inBps := e.inBps, outBps := e.outBps);
    UtilizationIsPercent(f, r.inBps, r.outBps, r.speedBps);
  }

  lemma NewOk(index: SysIndex, r: Report, remote: string, foreign: map<string, Node>, managed: set<Uuid>)
    requires r.local in managed && (remote in managed || remote in foreign)
    requires r.protocol == "lldp" || r.protocol == "cdp"
    ensures EdgeOk(Key(r.local, remote, L2), NewEdge(r, remote), foreign, managed)
  {
    UtilizationIsPercent(Edge(r.local, remote, r.localPort, r.remotePort, r.protocol, r.operUp,
                              Layer2Kind(r.protocol, r.localPort), None, None, None), r.inBps, r.outBps, r.speedBps);
  }

  lemma RemoteIsNode(index: SysIndex, r: Report, managed: set<Uuid>)
    requires IndexOk(index, managed) && RemoteId(index, r).Some?
    ensures var remote := RemoteId(index, r).value;
            if HasPrefix(remote, "foreign:") then !IsUuidText(remote) && remote != INTERNET else remote in managed
  {
    var remote := RemoteId(index, r).value;
    var clean := CleanName(TrimSpace(r.remoteSys));
    if clean in index {
      if HasPrefix(remote, "foreign:") { NotUuid(remote); }
    } else {
      assert remote[..8] == "foreign:" && remote[0] == 'f';
      NotUuid(remote);
    }
    if HasPrefix(remote, "foreign:") { assert remote[0] == "foreign:"[0] && INTERNET[0] == 'c'; }
  }

  /** addEdge on a link that is there, and on a new one. */
  lemma MergeKeeps(index: SysIndex, g: Graph, r: Report, remote: string, managed: set<Uuid>)
    requires GraphOk(g, managed) && Key(r.local, remote, L2) in g.edges
    requires r.protocol == "lldp" || r.protocol == "cdp"
    ensures var k := Key(r.local, remote, L2);
            GraphOk(Graph(g.edges[k := MergedEdge(g.edges[k], r, remote)], g.foreign), managed)
  {
    var k := Key(r.local, remote, L2);
    MergedOk(index, g, r, remote, managed);
    PutKeeps(g, k, MergedEdge(g.edges[k], r, remote), g.foreign, managed);
  }

  lemma NewKeeps(index: SysIndex, g: Graph, r: Report, remote: string, foreign: map<string, Node>, managed: set<Uuid>)
    requires GraphOk(g, managed) && Key(r.local, remote, L2) !in g.edges && r.local in managed
    requires r.protocol == "lldp" || r.protocol == "cdp"
    requires if HasPrefix(remote, "foreign:") then
               !IsUuidText(remote) && remote != INTERNET
                 && foreign == g.foreign[remote := ForeignNode(g.foreign, r, remote)]
             else remote in managed && foreign == g.foreign
    ensures GraphOk(Graph(g.edges[Key(r.local, remote, L2) := NewEdge(r, remote)], foreign), managed)
  {
    NewOk(index, r, remote, foreign, managed);
    assert NewEdge(r, remote).to == remote;
    PutKeeps(g, Key(r.local, remote, L2), NewEdge(r, remote), foreign, managed);
  }

  lemma ReportedKeeps(index: SysIndex, g: Graph, r: Report, managed: set<Uuid>)
    requires GraphOk(g, managed) && IndexOk(index, managed) && r.local in managed
    requires r.protocol == "lldp" || r.protocol == "cdp"
    ensures GraphOk(Reported(index, g, r), managed)
  {
    if RemoteId(index, r).Some? {
      var remote := RemoteId(index, r).value;
      RemoteIsNode(index, r, managed);
      if Key(r.local, remote, L2) in g.edges {
        MergeKeeps(index, g, r, remote, managed);
      } else {
        NewKeeps(index, g, r, remote, Reported(index, g, r).foreign, managed);
      }
    }
  }

  // ---------- an L2 edge is the join of its reports ----------

  /** A report and the node it points to. */
  datatype Landing = Landing(report: Report, remote: string)

  /** The reports that land on a key, in order. */
  function Landings(index: SysIndex, rs: seq<Report>, k: EdgeKey): seq<Landing> {
    if rs == [] then [] else Landings(index, rs[..|rs| - 1], k) + LandingOf(index, rs[|rs| - 1], k)
  }

  function LandingOf(index: SysIndex, r: Report, k: EdgeKey): seq<Landing> {
    var remote := RemoteId(index, r);
    if remote.Some? && Key(r.local, remote.value, L2) == k then [Landing(r, remote.value)] else []
  }

  function MeetLanding(e: Option<Edge>, l: Landing): Edge {
    if e.None? then NewEdge(l.report, l.remote) else MergedEdge(e.value, l.report, l.remote)
  }

  /** The edge those reports build. */
  function EdgeOf(ls: seq<Landing>): Option<Edge> {
    if ls == [] then None else Some(MeetLanding(EdgeOf(ls[..|ls| - 1]), ls[|ls| - 1]))
  }

  function EdgeFor(index: SysIndex, rs: seq<Report>, k: EdgeKey): Option<Edge> { EdgeOf(Landings(index, rs, k)) }

  function Lookup(edges: map<EdgeKey, Edge>, k: EdgeKey): Option<Edge> { if k in edges then Some(edges[k]) else None }

  ghost predicate L2Is(edges: map<EdgeKey, Edge>, index: SysIndex, rs: seq<Report>) {
    forall k: EdgeKey :: k.family == L2 ==> Lookup(edges, k) == EdgeFor(index, rs, k)
  }

  lemma ReportedLookup(index: SysIndex, g: Graph, r: Report, k: EdgeKey)
    requires k.family == L2
    ensures var e, ls := Lookup(g.edges, k), LandingOf(index, r, k);
            Lookup(Reported(index, g, r).edges, k) == if ls == [] then e else Some(MeetLanding(e, ls[0]))
  {
  }

  lemma EdgeOfAppend(ls: seq<Landing>, more: seq<Landing>)
    requires |more| <= 1
    ensures EdgeOf(ls + more) == if more == [] then EdgeOf(ls) else Some(MeetLanding(EdgeOf(ls), more[0]))
  {
    if more == [] {
      assert ls + more == ls;
    } else {
      assert (ls + more)[..|ls|] == ls;
    }
  }

  lemma ReportedAt(index: SysIndex, g: Graph, rs: seq<Report>, r: Report, k: EdgeKey)
    requires k.family == L2 && Lookup(g.edges, k) == EdgeFor(index, rs, k)
    ensures Lookup(Reported(index, g, r).edges, k) == EdgeFor(index, rs + [r], k)
  {
    assert (rs + [r])[..|rs|] == rs;
    ReportedLookup(index, g, r, k);
    EdgeOfAppend(Landings(index, rs, k), LandingOf(index, r, k));
  }

  lemma ReportedL2(index: SysIndex, g: Graph, rs: seq<Report>, r: Report)
    requires L2Is(g.edges, index, rs)
    ensures L2Is(Reported(index, g, r).edges, index, rs + [r])
  {
    forall k: EdgeKey | k.family == L2
      ensures Lookup(Reported(index, g, r).edges, k) == EdgeFor(index, rs + [r], k)
    {
      ReportedAt(index, g, rs, r, k);
    }
  }

  ghost predicate SomeWith(ls: seq<Landing>, protocol: string) { exists l :: l in ls && l.report.protocol == protocol }

  ghost predicate SomeUp(ls: seq<Landing>) { exists l :: l in ls && l.report.operUp }

  predicate Protocols(rs: seq<Report>) { forall r :: r in rs ==> r.protocol == "lldp" || r.protocol == "cdp" }

  /** "lldp" if only LLDP reported the link, "cdp" if only CDP did, otherwise "both". */
  ghost function Join(ls: seq<Landing>): string { JoinName(SomeWith(ls, "lldp"), SomeWith(ls, "cdp")) }

  function JoinName(lldp: bool, cdp: bool): string { if !cdp then "lldp" else if !lldp then "cdp" else "both" }

  lemma JoinStep(p: string, q: string, lldp: bool, cdp: bool)
    requires (lldp || cdp) && p == JoinName(lldp, cdp) && (q == "lldp" || q == "cdp")
    ensures L2Protocol(p)
    ensures (if p != q then "both" else p) == JoinName(lldp || q == "lldp", cdp || q == "cdp")
  {
  }

  lemma MeetProtocol(e: Option<Edge>, l: Landing)
    ensures MeetLanding(e, l).operUp <==> (e.Some? && e.value.operUp) || l.report.operUp
    ensures MeetLanding(e, l).protocol
         == if e.None? then l.report.protocol
            else if e.value.protocol != l.report.protocol && L2Protocol(e.value.protocol) then "both"
            else e.value.protocol
  {
  }

  lemma LastLanding(ls: seq<Landing>)
    requires ls != []
    ensures var before, last := ls[..|ls| - 1], ls[|ls| - 1].report;
            && (SomeUp(ls) <==> SomeUp(before) || last.operUp)
            && (forall p :: SomeWith(ls, p) <==> SomeWith(before, p) || last.protocol == p)
  {
    assert ls == ls[..|ls| - 1] + [ls[|ls| - 1]];
  }

  lemma {:induction false} LandingsJoin(ls: seq<Landing>)
    requires forall l :: l in ls ==> l.report.protocol == "lldp" || l.report.protocol == "cdp"
    requires ls != []
    ensures EdgeOf(ls).value.protocol == Join(ls) && (EdgeOf(ls).value.operUp <==> SomeUp(ls))
  {
    var before, last := ls[..|ls| - 1], ls[|ls| - 1];
    LastLanding(ls);
    MeetProtocol(EdgeOf(before), last);
    if before != [] {
      LandingsJoin(before);
      assert before[0] in before;
      JoinStep(Join(before), last.report.protocol, SomeWith(before, "lldp"), SomeWith(before, "cdp"));
    }
  }

  lemma LandingOfIff(index: SysIndex, r: Report, k: EdgeKey, l: Landing)
    ensures l in LandingOf(index, r, k) <==>
              l.report == r && RemoteId(index, r) == Some(l.remote) && Key(r.local, l.remote, L2) == k
  {
  }

  lemma {:induction false} LandingIff(index: SysIndex, rs: seq<Report>, k: EdgeKey, l: Landing)
    ensures l in Landings(index, rs, k) <==> l.report in rs && l in LandingOf(index, l.report, k)
  {
    if rs != [] {
      LandingIff(index, rs[..|rs| - 1], k, l);
      LandingOfIff(index, rs[|rs| - 1], k, l);
      assert rs == rs[..|rs| - 1] + [rs[|rs| - 1]];
    }
  }

  /** Whatever the order of the reports, the edge is there iff some report lands on the key; its protocol is then the
      join of the landing reports and it is up iff one of them says so. */
  lemma EdgeIsJoin(index: SysIndex, rs: seq<Report>, k: EdgeKey)
    requires Protocols(rs)
    ensures var e, ls := EdgeFor(index, rs, k), Landings(index, rs, k);
            && (e.Some? <==>
                exists r :: r in rs && RemoteId(index, r).Some? && Key(r.local, RemoteId(index, r).value, L2) == k)
            && (e.Some? ==> e.value.protocol == Join(ls) && (e.value.operUp <==> SomeUp(ls)))
  {
    var ls := Landings(index, rs, k);
    forall l | l in ls
      ensures l.report in rs && RemoteId(index, l.report) == Some(l.remote) && Key(l.report.local, l.remote, L2) == k
    {
      LandingIff(index, rs, k, l);
      LandingOfIff(index, l.report, k, l);
    }
    if ls == [] {
      forall r | r in rs && RemoteId(index, r).Some? ensures Key(r.local, RemoteId(index, r).value, L2) != k {
        LandingIff(index, rs, k, Landing(r, RemoteId(index, r).value));
        LandingOfIff(index, r, k, Landing(r, RemoteId(index, r).value));
      }
    } else {
      assert ls[0] in ls;
      LandingsJoin(ls);
    }
  }

  /** The first local port that is not empty among the reports made from a node. */
  function FirstLocalPort(ls: seq<Landing>, node: string): string {
    if ls == [] then ""
    else
      var before, last := FirstLocalPort(ls[..|ls| - 1], node), ls[|ls| - 1];
      if before == "" && last.report.local == node then last.report.localPort else before
  }

  /** The first remote port that is not empty among the reports made about a node. */
  function FirstRemotePort(ls: seq<Landing>, node: string): string {
    if ls == [] then ""
    else
      var before, last := FirstRemotePort(ls[..|ls| - 1], node), ls[|ls| - 1];
      if before == "" && last.remote == node then last.report.remotePort else before
  }

  lemma MeetPorts(e: Edge, l: Landing)
    ensures var f := MeetLanding(Some(e), l);
            && f.from == e.from && f.to == e.to
            && f.fromPort == (if e.fromPort == "" && l.report.local == e.from then l.report.localPort else e.fromPort)
            && f.toPort == (if e.toPort == "" && l.remote == e.to then l.report.remotePort else e.toPort)
  {
  }

  /** An edge runs the way its first report says; each end carries the first port named for it. */
  lemma {:induction false} EdgeEnds(ls: seq<Landing>)
    requires ls != []
    ensures var e := EdgeOf(ls).value;
            && e.from == ls[0].report.local && e.to == ls[0].remote
            && e.fromPort == FirstLocalPort(ls, e.from) && e.toPort == FirstRemotePort(ls, e.to)
  {
    var before := ls[..|ls| - 1];
    if before != [] {
      EdgeEnds(before);
      MeetPorts(EdgeOf(before).value, ls[|ls| - 1]);
    }
  }

  /** Two report sequences with the same reports, in any order and multiplicity, agree on every link's presence,
      protocol and state. */
  lemma OrderDoesNotMatter(index: SysIndex, rs: seq<Report>, qs: seq<Report>, k: EdgeKey)
    requires Protocols(rs) && Protocols(qs)
    requires forall r :: r in rs <==> r in qs
    ensures var e, f := EdgeFor(index, rs, k), EdgeFor(index, qs, k);
            && (e.Some? <==> f.Some?)
            && (e.Some? ==> e.value.protocol == f.value.protocol && e.value.operUp == f.value.operUp)
  {
    EdgeIsJoin(index, rs, k);
    EdgeIsJoin(index, qs, k);
    forall l ensures l in Landings(index, rs, k) <==> l in Landings(index, qs, k) {
      LandingIff(index, rs, k, l);
      LandingIff(index, qs, k, l);
    }
  }
}
