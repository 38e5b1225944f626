/** The per-host network graph: the aggregation loop of handleAgentNetworkGraph and its three sorts
    (internal/api/handlers_agent_telemetry.go). */
module HostGraph {
  import opened Text
  import opened InsertionSort

  datatype Conversation = Conversation(direction: string, remoteIp: string, remoteHost: string, remotePort: int,
                                       pid: int, process: string, count: int)

  datatype PeerKey = PeerKey(ip: string, direction: string)
  datatype Proc = Proc(name: string, pid: int, count: int)

  /** One node of the graph, without its location. */
  datatype Peer = Peer(ip: string, host: string, direction: string, processes: seq<Proc>, total: int, ports: seq<int>)

  predicate Kept(c: Conversation) { c.remoteIp != "" }

  function KeyOf(c: Conversation): PeerKey { PeerKey(c.remoteIp, c.direction) }

  // ---------- orders ----------

  /** Most connections first. */
  predicate ProcBefore(p: Proc, q: Proc) { p.count > q.count }

  /** Most connections first, then by address. */
  predicate PeerBefore(p: Peer, q: Peer) { if p.total != q.total then p.total > q.total else Less(p.ip, q.ip) }

  lemma OrdersAreStrictWeak()
    ensures StrictWeak(ProcBefore) && StrictWeak(PeerBefore) && StrictWeak(Less)
  {
    forall s: string, t: string ensures Less(s, t) ==> !Less(t, s) { LessIsStrictTotal(s, t); }
    forall s: string, t: string, u: string ensures Less(s, u) ==> Less(s, t) || Less(t, u) { LessSplits(s, t, u); }
    assert StrictWeak(Less);
    forall p, q ensures PeerBefore(p, q) ==> !PeerBefore(q, p) { LessIsStrictTotal(p.ip, q.ip); }
    forall p, q, r ensures PeerBefore(p, r) ==> PeerBefore(p, q) || PeerBefore(q, r) { LessSplits(p.ip, q.ip, r.ip); }
  }

  lemma PeerOrderIsStrictWeak()
    ensures StrictWeak(PeerBefore)
  {
    OrdersAreStrictWeak();
  }

  // ---------- one conversation ----------

  predicate IsProc(p: Proc, name: string, pid: int) { p.name == name && p.pid == pid }

  /** The count goes to the process's entry, or to a new one at the end. */
  function Merged(ps: seq<Proc>, name: string, pid: int, count: int): seq<Proc> {
    if ps == [] then [Proc(name, pid, count)]
    else if IsProc(ps[0], name, pid) then [ps[0].(count := ps[0].count + count)] + ps[1..]
    else [ps[0]] + Merged(ps[1..], name, pid, count)
  }

  function WithPort(ports: seq<int>, port: int): seq<int> {
    if port > 0 && port !in ports then ports + [port] else ports
  }

  function NewPeer(c: Conversation): Peer { Peer(c.remoteIp, c.remoteHost, c.direction, [], 0, []) }

  function Joined(p: Peer, c: Conversation): Peer {
    p.(processes := Merged(p.processes, c.process, c.pid, c.count), total := p.total + c.count,
       ports := WithPort(p.ports, c.remotePort))
  }

  /** The peer under a key after a list of conversations. */
  function PeerOf(cs: seq<Conversation>, key: PeerKey): Option<Peer> {
    if cs == [] then None
    else
      var before, c := PeerOf(cs[..|cs| - 1], key), cs[|cs| - 1];
      if !Kept(c) || KeyOf(c) != key then before
      else Some(Joined(if before.Some? then before.value else NewPeer(c), c))
  }

  function Names(cs: seq<Conversation>): set<string> {
    set c | c in cs && Kept(c) && c.process != "" :: c.process
  }

  lemma MergedFound(ps: seq<Proc>, name: string, pid: int, count: int, i: nat)
    requires i < |ps| && IsProc(ps[i], name, pid) && forall k :: 0 <= k < i ==> !IsProc(ps[k], name, pid)
    ensures Merged(ps, name, pid, count) == ps[i := ps[i].(count := ps[i].count + count)]
  {
    if i > 0 { MergedFound(ps[1..], name, pid, count, i - 1); }
  }

  lemma MergedNew(ps: seq<Proc>, name: string, pid: int, count: int)
    requires forall k :: 0 <= k < |ps| ==> !IsProc(ps[k], name, pid)
    ensures Merged(ps, name, pid, count) == ps + [Proc(name, pid, count)]
  {
    if ps != [] { MergedNew(ps[1..], name, pid, count); }
  }

  function SortedPeer(p: Peer): Peer { p.(processes := Sorted(ProcBefore, p.processes)) }

  /** netPeer: updated in place while the conversations are read. */
  class NetPeer {
    const ip: string
    const host: string
    const direction: string
    var processes: seq<Proc>
    var total: int
    var ports: seq<int>

    ghost function View(): Peer
      reads this
    {
      Peer(ip, host, direction, processes, total, ports)
    }

    constructor (c: Conversation)
      ensures View() == NewPeer(c)
    {
      ip, host, direction, processes, total, ports := c.remoteIp, c.remoteHost, c.direction, [], 0, [];
    }

    method Add(c: Conversation)
      modifies this
      ensures View() == Joined(old(View()), c)
    {
      AddProcess(c.process, c.pid, c.count);
      total := total + c.count;
      if c.remotePort > 0 {
        var seen := false;
        for i := 0 to |ports|
          invariant seen <==> c.remotePort in ports[..i]
        {
          if ports[i] == c.remotePort {
            seen := true;
            break;
          }
        }
        if !seen {
          ports := ports + [c.remotePort];
        }
      }
    }

    method AddProcess(name: string, pid: int, count: int)
      modifies `processes
      ensures processes == Merged(old(processes), name, pid, count)
    {
      for i := 0 to |processes|
        invariant processes == old(processes)
        invariant forall k :: 0 <= k < i ==> !IsProc(processes[k], name, pid)
      {
        if processes[i].name == name && processes[i].pid == pid {
          MergedFound(processes, name, pid, count, i);
          processes := processes[i := processes[i].(count := processes[i].count + count)];
          return;
        }
      }
      MergedNew(processes, name, pid, count);
      processes := processes + [Proc(name, pid, count)];
    }

    /** Sorts the processes in place, most active first, and copies the peer out. */
    method Finish() returns (p: Peer)
      modifies `processes
      ensures p == View() == SortedPeer(old(View()))
    {
      processes := SortSeq(processes, ProcBefore);
      p := Peer(ip, host, direction, processes, total, ports);
    }
  }

  // ---------- the aggregation ----------

  ghost predicate Holds(peers: map<PeerKey, NetPeer>, cs: seq<Conversation>)
    reads peers.Values
  {
    forall k :: PeerOf(cs, k) == if k in peers then Some(peers[k].View()) else None
  }

  ghost predicate OwnObjects(peers: map<PeerKey, NetPeer>) {
    forall j, k :: j in peers && k in peers && peers[j] == peers[k] ==> j == k
  }

  /** Get or create the peer object, and add the conversation to it. */
  method CountConversation(ghost cs: seq<Conversation>, peers: map<PeerKey, NetPeer>, c: Conversation)
    returns (peers': map<PeerKey, NetPeer>)
    requires cs != [] && cs[|cs| - 1] == c && Kept(c) && OwnObjects(peers) && Holds(peers, cs[..|cs| - 1])
    modifies peers.Values
    ensures OwnObjects(peers') && Holds(peers', cs)
    ensures forall k :: k in peers' ==> fresh(peers'[k]) || (k in peers && peers'[k] == peers[k])
  {
    peers' := peers;
    var key := KeyOf(c);
    assert PeerOf(cs[..|cs| - 1], key) == if key in peers then Some(peers[key].View()) else None;
    if key !in peers {
      var p := new NetPeer(c);
      peers' := peers[key := p];
    }
    peers'[key].Add(c);
    forall k ensures PeerOf(cs, k) == if k in peers' then Some(peers'[k].View()) else None {
    }
  }

  /** The loop over the conversations: one peer object per address and direction. */
  method Aggregate(cs: seq<Conversation>) returns (peers: map<PeerKey, NetPeer>, procs: set<string>)
    ensures (forall k :: k in peers ==> fresh(peers[k])) && OwnObjects(peers)
    ensures Holds(peers, cs)
    ensures procs == Names(cs)
  {
    peers, procs := map[], {};
    for i := 0 to |cs|
      invariant (forall k :: k in peers ==> fresh(peers[k])) && OwnObjects(peers)
      invariant Holds(peers, cs[..i])
      invariant procs == Names(cs[..i])
    {
      var c := cs[i];
      assert cs[..i + 1][..i] == cs[..i];
      NamesStep(cs, i);
      if c.remoteIp == "" {
        assert Holds(peers, cs[..i + 1]);
        continue;
      }
      peers := CountConversation(cs[..i + 1], peers, c);
      if c.process != "" {
        procs := procs + {c.process};
      }
    }
    assert cs[..|cs|] == cs;
  }

  lemma NamesStep(cs: seq<Conversation>, i: nat)
    requires i < |cs|
    ensures Names(cs[..i + 1]) == Names(cs[..i]) + if Kept(cs[i]) && cs[i].process != "" then {cs[i].process} else {}
  {
    assert cs[..i + 1] == cs[..i] + [cs[i]];
  }

  // ---------- the response ----------

  /** keys names every peer once. */
  ghost predicate KeysOf(cs: seq<Conversation>, keys: seq<PeerKey>) {
    && (forall i, j :: 0 <= i < j < |keys| ==> keys[i] != keys[j])
    && (forall k :: k in keys <==> PeerOf(cs, k).Some?)
  }

  function PeersAt(cs: seq<Conversation>, keys: seq<PeerKey>): (ps: seq<Peer>)
    requires forall k :: k in keys ==> PeerOf(cs, k).Some?
    ensures |ps| == |keys|
  {
    seq(|keys|, i requires 0 <= i < |keys| => SortedPeer(PeerOf(cs, keys[i]).value))
  }

  function PeerList(cs: seq<Conversation>, keys: seq<PeerKey>): seq<Peer>
    requires forall k :: k in keys ==> PeerOf(cs, k).Some?
  {
    Sorted(PeerBefore, PeersAt(cs, keys))
  }

  /** The peers in some order of the map, then sorted; the names, sorted. */
  ghost predicate Response(cs: seq<Conversation>, keys: seq<PeerKey>, peers: seq<Peer>, procs: seq<string>) {
    && KeysOf(cs, keys)
    && peers == PeerList(cs, keys)
    && InOrder(Less, procs)
    && (forall i, j :: 0 <= i < j < |procs| ==> procs[i] != procs[j])
    && (forall name :: name in procs <==> name in Names(cs))
  }

  method NetworkGraph(cs: seq<Conversation>) returns (peers: seq<Peer>, procs: seq<string>)
    ensures exists keys :: Response(cs, keys, peers, procs)
    ensures InOrder(PeerBefore, peers) && Sum(PeerTotal, peers) == KeptTotal(cs)
  {
    var nodes, names := Aggregate(cs);
    ghost var keys;
    peers, keys := ListPeers(cs, nodes);
    peers := SortSeq(peers, PeerBefore);
    procs := ListNames(names);
    ghost var listed := procs;
    procs := SortSeq(procs, Less);
    OrdersAreStrictWeak();
    SortIsStable(Less, listed);
    SortedMembers(Less, listed);
    assert Response(cs, keys, peers, procs);
    ResponseOrdered(cs, keys, peers, procs);
    TotalsConserved(cs, keys, peers, procs);
  }

  lemma SortedMembers<T(!new)>(less: (T, T) -> bool, s: seq<T>)
    requires StrictWeak(less)
    ensures forall x :: x in Sorted(less, s) <==> x in s
    ensures (forall i, j :: 0 <= i < j < |s| ==> s[i] != s[j]) ==>
              forall i, j :: 0 <= i < j < |s| ==> Sorted(less, s)[i] != Sorted(less, s)[j]
  {
    var r := Sorted(less, s);
    SortedMultiset(less, s);
    forall x ensures x in r <==> x in s { assert x in r <==> x in multiset(r); }
    if forall i, j :: 0 <= i < j < |s| ==> s[i] != s[j] {
      forall i, j | 0 <= i < j < |r| ensures r[i] != r[j] {
        CountsOnce(s, r[i]);
        if r[i] == r[j] { CountsTwice(r, i, j); }
      }
    }
  }

  lemma {:induction false} CountsOnce<T>(s: seq<T>, x: T)
    requires forall i, j :: 0 <= i < j < |s| ==> s[i] != s[j]
    ensures multiset(s)[x] <= 1
  {
    if s != [] {
      CountsOnce(s[..|s| - 1], x);
      assert s == s[..|s| - 1] + [s[|s| - 1]];
      if x == s[|s| - 1] { assert x !in s[..|s| - 1]; }
    }
  }

  method ListNames(names: set<string>) returns (r: seq<string>)
    ensures forall i, j :: 0 <= i < j < |r| ==> r[i] != r[j]
    ensures forall n :: n in r <==> n in names
  {
    r := [];
    var todo := names;
    while todo != {}
      invariant todo <= names
      invariant forall i, j :: 0 <= i < j < |r| ==> r[i] != r[j]
      invariant forall n :: n in r <==> n in names && n !in todo
      decreases |todo|
    {
      var n :| n in todo;
      r := r + [n];
      todo := todo - {n};
    }
  }

  /** out lists the peers of the keys done, each once. */
  ghost predicate Listed(cs: seq<Conversation>, done: set<PeerKey>, keys: seq<PeerKey>, out: seq<Peer>) {
    && (forall i, j :: 0 <= i < j < |keys| ==> keys[i] != keys[j])
    && (forall k :: k in keys <==> k in done)
    && (forall k :: k in keys ==> PeerOf(cs, k).Some?)
    && out == PeersAt(cs, keys)
  }

  lemma ListOneMore(cs: seq<Conversation>, all: set<PeerKey>, todo: set<PeerKey>, keys: seq<PeerKey>, out: seq<Peer>,
                    k: PeerKey)
    requires Listed(cs, all - todo, keys, out) && k in todo && todo <= all && PeerOf(cs, k).Some?
    ensures Listed(cs, all - (todo - {k}), keys + [k], out + [SortedPeer(PeerOf(cs, k).value)])
  {
    assert all - (todo - {k}) == all - todo + {k};
  }

  ghost predicate Untouched(cs: seq<Conversation>, nodes: map<PeerKey, NetPeer>, todo: set<PeerKey>)
    reads nodes.Values
  {
    forall k :: k in todo && k in nodes ==> PeerOf(cs, k) == Some(nodes[k].View())
  }

  method FinishAt(ghost cs: seq<Conversation>, nodes: map<PeerKey, NetPeer>, ghost todo: set<PeerKey>, k: PeerKey)
    returns (p: Peer)
    requires OwnObjects(nodes) && Untouched(cs, nodes, todo) && k in todo && k in nodes
    modifies nodes[k]
    ensures Untouched(cs, nodes, todo - {k})
    ensures PeerOf(cs, k).Some? && p == SortedPeer(PeerOf(cs, k).value)
  {
    p := nodes[k].Finish();
    assert forall j :: j in nodes && j != k ==> nodes[j] != nodes[k];
  }

  /** Ranging over the map: each peer's processes are sorted in place, then the peer is copied out. */
  method ListPeers(cs: seq<Conversation>, nodes: map<PeerKey, NetPeer>)
    returns (out: seq<Peer>, ghost keys: seq<PeerKey>)
    requires Holds(nodes, cs) && OwnObjects(nodes)
    modifies nodes.Values
    ensures KeysOf(cs, keys) && out == PeersAt(cs, keys)
  {
    assert forall k :: PeerOf(cs, k).Some? <==> k in nodes;
    out, keys := [], [];
    var todo := nodes.Keys;
    while todo != {}
      invariant todo <= nodes.Keys
      invariant Untouched(cs, nodes, todo)
      invariant Listed(cs, nodes.Keys - todo, keys, out)
      decreases |todo|
    {
      var k :| k in todo;
      var p := FinishAt(cs, nodes, todo, k);
      ListOneMore(cs, nodes.Keys, todo, keys, out, k);
      out, keys, todo := out + [p], keys + [k], todo - {k};
    }
  }

  // ---------- conservation ----------

  function CountFor(c: Conversation, key: PeerKey): int { if Kept(c) && KeyOf(c) == key then c.count else 0 }

  function TotalFor(cs: seq<Conversation>, key: PeerKey): int {
    if cs == [] then 0 else TotalFor(cs[..|cs| - 1], key) + CountFor(cs[|cs| - 1], key)
  }

  /** The counts of one process's conversations with one peer. */
  function ProcTotal(cs: seq<Conversation>, key: PeerKey, name: string, pid: int): int {
    if cs == [] then 0
    else
      var c := cs[|cs| - 1];
      ProcTotal(cs[..|cs| - 1], key, name, pid) + if c.process == name && c.pid == pid then CountFor(c, key) else 0
  }

  function KeptTotal(cs: seq<Conversation>): int {
    if cs == [] then 0
    else KeptTotal(cs[..|cs| - 1]) + if Kept(cs[|cs| - 1]) then cs[|cs| - 1].count else 0
  }

  function ProcCount(p: Proc): int { p.count }
  function PeerTotal(p: Peer): int { p.total }

  predicate DistinctProcs(ps: seq<Proc>) {
    forall i, j :: 0 <= i < j < |ps| ==> !IsProc(ps[j], ps[i].name, ps[i].pid)
  }

  lemma FindProc(ps: seq<Proc>, name: string, pid: int) returns (i: nat)
    ensures i <= |ps| && (i < |ps| ==> IsProc(ps[i], name, pid)) && forall k :: 0 <= k < i ==> !IsProc(ps[k], name, pid)
  {
    i := 0;
    while i < |ps| && !IsProc(ps[i], name, pid)
      invariant i <= |ps| && forall k :: 0 <= k < i ==> !IsProc(ps[k], name, pid)
    {
      i := i + 1;
    }
  }

  lemma {:induction false} SumUpdate(ps: seq<Proc>, i: nat, p: Proc)
    requires i < |ps|
    ensures Sum(ProcCount, ps[i := p]) == Sum(ProcCount, ps) - ps[i].count + p.count
  {
    var n := |ps| - 1;
    if i < n {
      SumUpdate(ps[..n], i, p);
      assert ps[i := p][..n] == ps[..n][i := p];
    } else {
      assert ps[i := p][..n] == ps[..n];
    }
  }

  lemma MergedKeeps(ps: seq<Proc>, name: string, pid: int, count: int)
    requires DistinctProcs(ps)
    ensures DistinctProcs(Merged(ps, name, pid, count))
    ensures Sum(ProcCount, Merged(ps, name, pid, count)) == Sum(ProcCount, ps) + count
  {
    var i := FindProc(ps, name, pid);
    if i < |ps| {
      MergedFound(ps, name, pid, count, i);
      SumUpdate(ps, i, ps[i].(count := ps[i].count + count));
    } else {
      MergedNew(ps, name, pid, count);
      assert (ps + [Proc(name, pid, count)])[..|ps|] == ps;
    }
  }

  /** A peer's total is the sum over its conversations and equals the sum of its process counts; each process is listed
      once. */
  lemma {:induction false} PeerTotals(cs: seq<Conversation>, key: PeerKey)
    ensures PeerOf(cs, key).Some? ==>
              var p := PeerOf(cs, key).value;
              p.total == TotalFor(cs, key) && Sum(ProcCount, p.processes) == p.total && DistinctProcs(p.processes)
    ensures PeerOf(cs, key).None? ==> TotalFor(cs, key) == 0
  {
    if cs != [] {
      var before, c := cs[..|cs| - 1], cs[|cs| - 1];
      PeerTotals(before, key);
      if Kept(c) && KeyOf(c) == key {
        var p := if PeerOf(before, key).Some? then PeerOf(before, key).value else NewPeer(c);
        MergedKeeps(p.processes, c.process, c.pid, c.count);
      }
    }
  }

  /** Every listed count is the total of that process's conversations. */
  ghost predicate ProcsExact(ps: seq<Proc>, cs: seq<Conversation>, key: PeerKey) {
    && (forall i :: 0 <= i < |ps| ==> ps[i].count == ProcTotal(cs, key, ps[i].name, ps[i].pid))
    && (forall name, pid :: (forall i :: 0 <= i < |ps| ==> !IsProc(ps[i], name, pid)) ==>
        ProcTotal(cs, key, name, pid) == 0)
  }

  lemma MergedExact(ps: seq<Proc>, cs: seq<Conversation>, key: PeerKey)
    requires cs != [] && DistinctProcs(ps)
    requires var c := cs[|cs| - 1]; Kept(c) && KeyOf(c) == key
    requires ProcsExact(ps, cs[..|cs| - 1], key)
    ensures ProcsExact(Merged(ps, cs[|cs| - 1].process, cs[|cs| - 1].pid, cs[|cs| - 1].count), cs, key)
  {
    var c := cs[|cs| - 1];
    var qs := Merged(ps, c.process, c.pid, c.count);
    var i := FindProc(ps, c.process, c.pid);
    if i < |ps| {
      MergedFound(ps, c.process, c.pid, c.count, i);
      assert forall k :: 0 <= k < |ps| ==> (IsProc(ps[k], c.process, c.pid) <==> k == i);
      forall name, pid | forall k :: 0 <= k < |qs| ==> !IsProc(qs[k], name, pid)
        ensures ProcTotal(cs, key, name, pid) == 0
      {
        assert !IsProc(qs[i], name, pid);
        assert forall k :: 0 <= k < |ps| ==> IsProc(ps[k], name, pid) == IsProc(qs[k], name, pid);
      }
    } else {
      MergedNew(ps, c.process, c.pid, c.count);
      assert ProcTotal(cs[..|cs| - 1], key, c.process, c.pid) == 0;
      forall name, pid | forall k :: 0 <= k < |qs| ==> !IsProc(qs[k], name, pid)
        ensures ProcTotal(cs, key, name, pid) == 0
      {
        assert !IsProc(qs[|ps|], name, pid);
        assert forall k :: 0 <= k < |ps| ==> !IsProc(ps[k], name, pid) by {
          assert forall k :: 0 <= k < |ps| ==> qs[k] == ps[k];
        }
      }
    }
  }

  lemma {:induction false} NoConversation(cs: seq<Conversation>, key: PeerKey, name: string, pid: int)
    requires PeerOf(cs, key).None?
    ensures ProcTotal(cs, key, name, pid) == 0
  {
    if cs != [] { NoConversation(cs[..|cs| - 1], key, name, pid); }
  }

  /** The process list of a peer is exact: each entry is the total of that process's conversations with the peer, and a
      process that is not listed has none. */
  lemma {:induction false} ProcessesExact(cs: seq<Conversation>, key: PeerKey)
    ensures PeerOf(cs, key).Some? ==> ProcsExact(PeerOf(cs, key).value.processes, cs, key)
  {
    if cs != [] {
      var before, c := cs[..|cs| - 1], cs[|cs| - 1];
      ProcessesExact(before, key);
      PeerTotals(before, key);
      if Kept(c) && KeyOf(c) == key {
        if PeerOf(before, key).None? {
          forall name, pid ensures ProcTotal(before, key, name, pid) == 0 { NoConversation(before, key, name, pid); }
        }
        var p := if PeerOf(before, key).Some? then PeerOf(before, key).value else NewPeer(c);
        MergedExact(p.processes, cs, key);
      } else if PeerOf(cs, key).Some? {
        forall name, pid ensures ProcTotal(cs, key, name, pid) == ProcTotal(before, key, name, pid) { }
      }
    }
  }

  function SumOver(keys: seq<PeerKey>, cs: seq<Conversation>): int {
    if keys == [] then 0 else SumOver(keys[..|keys| - 1], cs) + TotalFor(cs, keys[|keys| - 1])
  }

  lemma {:induction false} SumOverStep(keys: seq<PeerKey>, cs: seq<Conversation>)
    requires cs != [] && forall i, j :: 0 <= i < j < |keys| ==> keys[i] != keys[j]
    ensures var c := cs[|cs| - 1];
            SumOver(keys, cs) == SumOver(keys, cs[..|cs| - 1]) + if Kept(c) && KeyOf(c) in keys then c.count else 0
  {
    if keys != [] {
      SumOverStep(keys[..|keys| - 1], cs);
      assert keys == keys[..|keys| - 1] + [keys[|keys| - 1]];
    }
  }

  lemma {:induction false} SumOverNothing(keys: seq<PeerKey>)
    ensures SumOver(keys, []) == 0
  {
    if keys != [] { SumOverNothing(keys[..|keys| - 1]); }
  }

  lemma {:induction false} SumOverAll(keys: seq<PeerKey>, cs: seq<Conversation>)
    requires forall i, j :: 0 <= i < j < |keys| ==> keys[i] != keys[j]
    requires forall c :: c in cs && Kept(c) ==> KeyOf(c) in keys
    ensures SumOver(keys, cs) == KeptTotal(cs)
  {
    if cs == [] {
      SumOverNothing(keys);
    } else {
      assert forall c :: c in cs[..|cs| - 1] ==> c in cs;
      assert cs[|cs| - 1] in cs;
      SumOverAll(keys, cs[..|cs| - 1]);
      SumOverStep(keys, cs);
    }
  }

  lemma {:induction false} PeersAtTotal(cs: seq<Conversation>, keys: seq<PeerKey>)
    requires forall k :: k in keys ==> PeerOf(cs, k).Some?
    ensures Sum(PeerTotal, PeersAt(cs, keys)) == SumOver(keys, cs)
  {
    if keys != [] {
      var n := |keys| - 1;
      assert forall k :: k in keys[..n] ==> k in keys;
      PeersAtTotal(cs, keys[..n]);
      assert PeersAt(cs, keys)[..n] == PeersAt(cs, keys[..n]);
      assert keys[n] in keys;
      PeerTotals(cs, keys[n]);
    }
  }

  lemma {:induction false} KeptHasPeer(cs: seq<Conversation>, c: Conversation)
    requires c in cs && Kept(c)
    ensures PeerOf(cs, KeyOf(c)).Some?
  {
    if c != cs[|cs| - 1] {
      assert cs == cs[..|cs| - 1] + [cs[|cs| - 1]];
      KeptHasPeer(cs[..|cs| - 1], c);
    }
  }

  /** The totals of all peers in the response add up to the counts of all conversations with a remote address. */
  lemma TotalsConserved(cs: seq<Conversation>, keys: seq<PeerKey>, peers: seq<Peer>, procs: seq<string>)
    requires Response(cs, keys, peers, procs)
    ensures Sum(PeerTotal, peers) == KeptTotal(cs)
  {
    SortedSum(PeerBefore, PeerTotal, PeersAt(cs, keys));
    PeersAtTotal(cs, keys);
    forall c | c in cs && Kept(c) ensures KeyOf(c) in keys { KeptHasPeer(cs, c); }
    SumOverAll(keys, cs);
  }

  /** One listed peer. */
  lemma PeerFinished(cs: seq<Conversation>, key: PeerKey)
    requires PeerOf(cs, key).Some?
    ensures var p := SortedPeer(PeerOf(cs, key).value);
            InOrder(ProcBefore, p.processes) && Sum(ProcCount, p.processes) == p.total
  {
    var q := PeerOf(cs, key).value;
    PeerTotals(cs, key);
    OrdersAreStrictWeak();
    SortedSum(ProcBefore, ProcCount, q.processes);
    SortedInOrder(ProcBefore, q.processes);
  }

  /** The peers are in order and their processes are in order, and each peer's total is the sum of its process
      counts. */
  lemma ResponseOrdered(cs: seq<Conversation>, keys: seq<PeerKey>, peers: seq<Peer>, procs: seq<string>)
    requires Response(cs, keys, peers, procs)
    ensures InOrder(PeerBefore, peers) && |peers| == |keys|
    ensures forall p :: p in peers ==> InOrder(ProcBefore, p.processes) && Sum(ProcCount, p.processes) == p.total
  {
    OrdersAreStrictWeak();
    SortedInOrder(PeerBefore, PeersAt(cs, keys));
    SortedMembers(PeerBefore, PeersAt(cs, keys));
    forall p | p in peers ensures InOrder(ProcBefore, p.processes) && Sum(ProcCount, p.processes) == p.total {
      var i :| 0 <= i < |keys| && PeersAt(cs, keys)[i] == p;
      assert keys[i] in keys;
      PeerFinished(cs, keys[i]);
    }
  }

  // ---------- ports ----------

  ghost predicate UsesPort(cs: seq<Conversation>, key: PeerKey, port: int) {
    exists c :: c in cs && Kept(c) && KeyOf(c) == key && c.remotePort == port
  }

  /** The ports of a peer are the positive remote ports of its conversations, each once. */
  lemma {:induction false} PortsExact(cs: seq<Conversation>, key: PeerKey)
    ensures PeerOf(cs, key).Some? ==>
              var ports := PeerOf(cs, key).value.ports;
              && (forall i, j :: 0 <= i < j < |ports| ==> ports[i] != ports[j])
              && (forall port :: port in ports <==> port > 0 && UsesPort(cs, key, port))
    ensures PeerOf(cs, key).None? ==> forall port :: !UsesPort(cs, key, port)
  {
    if cs != [] {
      var before, c := cs[..|cs| - 1], cs[|cs| - 1];
      PortsExact(before, key);
      assert cs == before + [c];
      assert forall port :: UsesPort(cs, key, port) <==>
               UsesPort(before, key, port) || (Kept(c) && KeyOf(c) == key && c.remotePort == port);
    }
  }

  // ---------- is the order stable? ----------

  /** Both directions of one address, with equally many connections. */
  ghost predicate SameRank(cs: seq<Conversation>, j: PeerKey, k: PeerKey) {
    j != k && j.ip == k.ip && PeerOf(cs, j).Some? && PeerOf(cs, k).Some?
    && PeerOf(cs, j).value.total == PeerOf(cs, k).value.total
  }

  lemma {:induction false} PeerHasKey(cs: seq<Conversation>, key: PeerKey)
    requires PeerOf(cs, key).Some?
    ensures PeerOf(cs, key).value.ip == key.ip && PeerOf(cs, key).value.direction == key.direction
  {
    if PeerOf(cs[..|cs| - 1], key).Some? { PeerHasKey(cs[..|cs| - 1], key); }
  }

  function KeySet(cs: seq<Conversation>): set<PeerKey> { set c | c in cs && Kept(c) :: KeyOf(c) }

  lemma {:induction false} PeerHasConversation(cs: seq<Conversation>, key: PeerKey)
    requires PeerOf(cs, key).Some?
    ensures key in KeySet(cs)
  {
    var before := cs[..|cs| - 1];
    assert cs == before + [cs[|cs| - 1]];
    if PeerOf(before, key).Some? { PeerHasConversation(before, key); }
  }

  lemma PeersAreKeys(cs: seq<Conversation>)
    ensures forall k :: PeerOf(cs, k).Some? <==> k in KeySet(cs)
  {
    forall k ensures PeerOf(cs, k).Some? <==> k in KeySet(cs) {
      if PeerOf(cs, k).Some? { PeerHasConversation(cs, k); }
      if k in KeySet(cs) {
        var c :| c in cs && Kept(c) && KeyOf(c) == k;
        KeptHasPeer(cs, c);
      }
    }
  }

  lemma {:induction false} SomeOrder(ks: set<PeerKey>) returns (s: seq<PeerKey>)
    ensures (forall i, j :: 0 <= i < j < |s| ==> s[i] != s[j]) && forall k :: k in s <==> k in ks
    decreases |ks|
  {
    if ks == {} {
      s := [];
    } else {
      var k :| k in ks;
      var rest := SomeOrder(ks - {k});
      s := [k] + rest;
    }
  }

  /** Different keys have different peers, and peers tie only when their keys rank the same. */
  lemma PeersDiffer(cs: seq<Conversation>, j: PeerKey, k: PeerKey)
    requires PeerOf(cs, j).Some? && PeerOf(cs, k).Some? && j != k
    ensures var p, q := SortedPeer(PeerOf(cs, j).value), SortedPeer(PeerOf(cs, k).value);
            p != q && (Tied(PeerBefore, p, q) <==> SameRank(cs, j, k))
  {
    PeerHasKey(cs, j);
    PeerHasKey(cs, k);
    LessIsStrictTotal(j.ip, k.ip);
  }

  lemma ListedOnce(cs: seq<Conversation>, keys: seq<PeerKey>)
    requires KeysOf(cs, keys)
    ensures forall i, j :: 0 <= i < j < |keys| ==> PeersAt(cs, keys)[i] != PeersAt(cs, keys)[j]
  {
    forall i, j | 0 <= i < j < |keys| ensures PeersAt(cs, keys)[i] != PeersAt(cs, keys)[j] {
      assert keys[i] in keys && keys[j] in keys;
      PeersDiffer(cs, keys[i], keys[j]);
    }
  }

  lemma SamePeers(cs: seq<Conversation>, keys: seq<PeerKey>, keys': seq<PeerKey>)
    requires KeysOf(cs, keys) && KeysOf(cs, keys')
    ensures forall p :: p in PeersAt(cs, keys) ==> p in PeersAt(cs, keys')
  {
    forall p | p in PeersAt(cs, keys) ensures p in PeersAt(cs, keys') {
      var i :| 0 <= i < |keys| && PeersAt(cs, keys)[i] == p;
      assert keys[i] in keys && keys[i] in keys';
      var j :| 0 <= j < |keys'| && keys'[j] == keys[i];
      assert PeersAt(cs, keys')[j] == p;
    }
  }

  lemma ListIsUnique(cs: seq<Conversation>, keys: seq<PeerKey>, keys': seq<PeerKey>)
    requires KeysOf(cs, keys) && KeysOf(cs, keys') && forall j, k :: !SameRank(cs, j, k)
    ensures PeerList(cs, keys) == PeerList(cs, keys')
  {
    var s, s' := PeersAt(cs, keys), PeersAt(cs, keys');
    OrdersAreStrictWeak();
    SortedInOrder(PeerBefore, s);
    SortedInOrder(PeerBefore, s');
    ListedOnce(cs, keys);
    ListedOnce(cs, keys');
    SamePeers(cs, keys, keys');
    SamePeers(cs, keys', keys);
    SortedMembers(PeerBefore, s);
    SortedMembers(PeerBefore, s');
    NoTies(cs, keys);
    OrderIsUnique(PeerBefore, PeerList(cs, keys), PeerList(cs, keys'));
  }

  lemma NoTies(cs: seq<Conversation>, keys: seq<PeerKey>)
    requires KeysOf(cs, keys) && forall j, k :: !SameRank(cs, j, k)
    ensures forall p, q :: p in PeersAt(cs, keys) && q in PeersAt(cs, keys) && p != q ==> !Tied(PeerBefore, p, q)
  {
    var s := PeersAt(cs, keys);
    forall p, q | p in s && q in s && p != q ensures !Tied(PeerBefore, p, q) {
      var i :| 0 <= i < |keys| && s[i] == p;
      var j :| 0 <= j < |keys| && s[j] == q;
      assert keys[i] in keys && keys[j] in keys;
      PeersDiffer(cs, keys[i], keys[j]);
    }
  }

  lemma PeersAtHead(cs: seq<Conversation>, key: PeerKey, rest: seq<PeerKey>)
    requires PeerOf(cs, key).Some? && forall l :: l in rest ==> PeerOf(cs, l).Some?
    ensures PeersAt(cs, [key] + rest) == [SortedPeer(PeerOf(cs, key).value)] + PeersAt(cs, rest)
  {
  }

  /** Peers that rank the same come out in the order in which the map is walked. */
  lemma WalkDecides(cs: seq<Conversation>, j: PeerKey, k: PeerKey, rest: seq<PeerKey>)
    requires SameRank(cs, j, k) && forall l :: l in rest ==> PeerOf(cs, l).Some?
    ensures PeerList(cs, [j] + ([k] + rest)) != PeerList(cs, [k] + ([j] + rest))
  {
    PeersAtHead(cs, k, rest);
    PeersAtHead(cs, j, [k] + rest);
    PeersAtHead(cs, j, rest);
    PeersAtHead(cs, k, [j] + rest);
    PeersDiffer(cs, j, k);
    PeerOrderIsStrictWeak();
    TiedStay(PeerBefore, SortedPeer(PeerOf(cs, j).value), SortedPeer(PeerOf(cs, k).value), PeersAt(cs, rest));
  }

  lemma WithTwoFirst(cs: seq<Conversation>, j: PeerKey, k: PeerKey, rest: seq<PeerKey>)
    requires (forall l :: PeerOf(cs, l).Some? <==> l in KeySet(cs)) && j != k && j in KeySet(cs) && k in KeySet(cs)
    requires forall i, l :: 0 <= i < l < |rest| ==> rest[i] != rest[l]
    requires forall l :: l in rest <==> l in KeySet(cs) - {j, k}
    ensures KeysOf(cs, [j] + ([k] + rest))
  {
    var keys := [j] + ([k] + rest);
    assert forall l :: l in keys <==> l == j || l == k || l in rest;
    assert forall i :: 2 <= i < |keys| ==> keys[i] in rest;
  }

  lemma TwoLists(cs: seq<Conversation>, j: PeerKey, k: PeerKey) returns (keys: seq<PeerKey>, keys': seq<PeerKey>)
    requires SameRank(cs, j, k)
    ensures KeysOf(cs, keys) && KeysOf(cs, keys') && PeerList(cs, keys) != PeerList(cs, keys')
  {
    PeersAreKeys(cs);
    var rest := SomeOrder(KeySet(cs) - {j, k});
    keys, keys' := [j] + ([k] + rest), [k] + ([j] + rest);
    WithTwoFirst(cs, j, k, rest);
    WithTwoFirst(cs, k, j, rest);
    WalkDecides(cs, j, k, rest);
  }

  /** The peer list depends on the conversations alone, and not on the order in which the map is walked, if and only if
      no address has equally many connections in two directions. */
  lemma PeerOrderStableIff(cs: seq<Conversation>)
    ensures (forall keys, keys' :: KeysOf(cs, keys) && KeysOf(cs, keys') ==> PeerList(cs, keys) == PeerList(cs, keys'))
            <==> (forall j, k :: !SameRank(cs, j, k))
  {
    if j, k :| SameRank(cs, j, k) {
      var keys, keys' := TwoLists(cs, j, k);
    } else {
      forall keys, keys' | KeysOf(cs, keys) && KeysOf(cs, keys') ensures PeerList(cs, keys) == PeerList(cs, keys') {
        ListIsUnique(cs, keys, keys');
      }
    }
  }

  /** One connection out to an address and one in from it are enough. */
  lemma BothDirectionsTie(out: Conversation, back: Conversation)
    requires Kept(out) && back.remoteIp == out.remoteIp && back.direction != out.direction && back.count == out.count
    ensures SameRank([out, back], KeyOf(out), KeyOf(back))
  {
    assert [out, back][..1] == [out] && [out][..0] == [];
    assert PeerOf([out], KeyOf(out)) == Some(Joined(NewPeer(out), out)) && PeerOf([out], KeyOf(back)) == None;
    assert PeerOf([out, back], KeyOf(back)) == Some(Joined(NewPeer(back), back));
    assert PeerOf([out, back], KeyOf(out)) == PeerOf([out], KeyOf(out));
  }

  /** The process names are always in the same order. */
  lemma NamesStable(cs: seq<Conversation>, keys: seq<PeerKey>, peers: seq<Peer>, procs: seq<string>,
                    keys': seq<PeerKey>, peers': seq<Peer>, procs': seq<string>)
    requires Response(cs, keys, peers, procs) && Response(cs, keys', peers', procs')
    ensures procs == procs'
  {
    forall x, y | x in procs && y in procs && x != y ensures !Tied(Less, x, y) { LessIsStrictTotal(x, y); }
    OrderIsUnique(Less, procs, procs');
  }
}
