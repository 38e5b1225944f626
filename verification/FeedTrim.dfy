/** The trim of the passive SNMP change feed (internal/api/handlers_passive_snmp.go), which orders by time only: what it
    keeps over every run, and exactly which entries are safe from it. */
module FeedTrim {
  import opened Text
  import opened PassiveSnmp
  import opened PassiveHistory

  const FEED_LIMIT: nat := 500

  function Positions(from: nat, to: nat): (r: set<nat>)
    ensures forall x: nat :: (x in r) <==> (from <= x < to)
    ensures |r| == if from >= to then 0 else to - from
    decreases if from >= to then 0 else to - from
  {
    if from >= to then {} else {from} + Positions(from + 1, to)
  }

  /** What a trim chooses from: the rows still stored and those the merge has just written, as positions in everything
      ever written. */
  function Candidates(before: World, kept: set<nat>, after: World): set<nat> {
    kept + Positions(|before.feed|, |after.feed|)
  }

  /** The trim keeps the newest 500; rows of one transaction have one time, so which of them go is the database's
      choice. */
  ghost predicate TrimStep(before: World, kept: set<nat>, after: World, kept': set<nat>) {
    var candidates := Candidates(before, kept, after);
    && kept' <= candidates
    && |kept'| == (if |candidates| < FEED_LIMIT then |candidates| else FEED_LIMIT)
    && (forall x, y :: x in candidates - kept' && y in kept' && x < |after.feed| && y < |after.feed| ==>
          after.feed[x].time <= after.feed[y].time)
  }

  ghost predicate IsTrimmedRun(ws: seq<World>, bs: seq<Batch>, ks: seq<set<nat>>) {
    && IsRun(ws, bs) && |ks| == |ws| && ks[0] == {}
    && (forall i :: 0 <= i < |bs| ==> TrimStep(ws[i], ks[i], ws[i + 1], ks[i + 1]))
    && InTimeOrder(bs)
  }

  /** The clock does not go back from one merge to the next; two merges may have the same NOW(). */
  predicate InTimeOrder(bs: seq<Batch>) { forall i, j :: 0 <= i < j < |bs| ==> bs[i].now <= bs[j].now }

  predicate InFeed(feed: seq<Event>, kept: set<nat>) {
    forall x :: x in kept ==> x < |feed|
  }

  /** Nothing dropped is newer than anything kept. */
  predicate KeepsNewest(feed: seq<Event>, kept: set<nat>) {
    forall x, y :: 0 <= x < |feed| && x !in kept && y in kept && y < |feed| ==> feed[x].time <= feed[y].time
  }

  /** Fewer than 500 entries are stored only while nothing has been dropped. */
  predicate FullOrAll(feed: seq<Event>, kept: set<nat>) {
    |kept| <= FEED_LIMIT && (|kept| == FEED_LIMIT || forall x: nat :: x < |feed| ==> x in kept)
  }

  /** No address occurs twice. */
  predicate DistinctIps(es: seq<Event>) { forall i, j :: 0 <= i < j < |es| ==> es[i].ip != es[j].ip }

  predicate TimesUpTo(feed: seq<Event>, now: int) {
    forall i :: 0 <= i < |feed| ==> feed[i].time <= now
  }

  lemma {:induction false} OfMembers(es: seq<Event>, i: nat)
    requires i < |es|
    ensures es[i] in Of(es, es[i].ip)
  {
    if i < |es| - 1 { OfMembers(es[..|es| - 1], i); }
  }

  lemma {:induction false} OfTwo(es: seq<Event>, i: nat, j: nat)
    requires i < j < |es| && es[i].ip == es[j].ip
    ensures |Of(es, es[i].ip)| >= 2
  {
    if j < |es| - 1 {
      OfTwo(es[..|es| - 1], i, j);
    } else {
      OfMembers(es[..|es| - 1], i);
    }
  }

  /** What one merge appends: at most one event per address, all at the merge's time. */
  lemma NewEvents(inv: Inventory, b: Batch, inv': Inventory, es: seq<Event>)
    requires Merged(inv, b, inv', es)
    ensures DistinctIps(es) && forall i :: 0 <= i < |es| ==> es[i].time == b.now
  {
    forall i | 0 <= i < |es| ensures es[i].time == b.now {
      OfMembers(es, i);
      assert Of(es, es[i].ip) == MergeEvents(es[i].ip, Lookup(inv, es[i].ip), EntryOf(b, es[i].ip),
                                             EffectiveRetireAfter(b.retireAfter), b.now);
    }
    forall i, j | 0 <= i < j < |es| ensures es[i].ip != es[j].ip {
      var ip := es[i].ip;
      assert Of(es, ip) == MergeEvents(ip, Lookup(inv, ip), EntryOf(b, ip), EffectiveRetireAfter(b.retireAfter), b.now);
      if es[j].ip == ip {
        OfTwo(es, i, j);
        assert false;
      }
    }
  }

  lemma {:induction false} FeedTimes(ws: seq<World>, bs: seq<Batch>, n: nat, m: nat)
    requires IsRun(ws, bs) && InTimeOrder(bs) && n <= m + 1 <= |bs|
    ensures TimesUpTo(ws[n].feed, bs[m].now)
  {
    if n > 0 {
      FeedTimes(ws, bs, n - 1, m);
      assert Step(ws[n - 1], bs[n - 1], ws[n]);
      var es :| ws[n].feed == ws[n - 1].feed + es && Merged(ws[n - 1].inv, bs[n - 1], ws[n].inv, es);
      NewEvents(ws[n - 1].inv, bs[n - 1], ws[n].inv, es);
    }
  }

  lemma SmallerSet(a: set<nat>, b: set<nat>)
    requires a <= b
    ensures |a| <= |b| && (|a| == |b| ==> a == b)
  {
    assert b == a + (b - a);
  }

  lemma TrimStepKeeps(w: World, b: Batch, w': World, kept: set<nat>, kept': set<nat>)
    requires Step(w, b, w') && TrimStep(w, kept, w', kept')
    requires TimesUpTo(w.feed, b.now) && InFeed(w.feed, kept) && KeepsNewest(w.feed, kept) && FullOrAll(w.feed, kept)
    ensures InFeed(w'.feed, kept') && KeepsNewest(w'.feed, kept') && FullOrAll(w'.feed, kept')
  {
    var es :| w'.feed == w.feed + es && Merged(w.inv, b, w'.inv, es);
    NewEvents(w.inv, b, w'.inv, es);
    KeepsNewestStep(w.feed, es, b.now, kept, kept');
    SmallerSet(kept', Candidates(w, kept, w'));
    SmallerSet(kept, Candidates(w, kept, w'));
  }

  /** After every run with trimming nothing dropped is newer than anything kept, and all 500 places are used before
      anything is dropped. */
  lemma {:induction false} TrimKeepsNewest(ws: seq<World>, bs: seq<Batch>, ks: seq<set<nat>>, n: nat)
    requires IsTrimmedRun(ws, bs, ks) && n <= |bs|
    ensures InFeed(ws[n].feed, ks[n]) && KeepsNewest(ws[n].feed, ks[n]) && FullOrAll(ws[n].feed, ks[n])
  {
    if n > 0 {
      TrimKeepsNewest(ws, bs, ks, n - 1);
      FeedTimes(ws, bs, n - 1, n - 1);
      TrimStepKeeps(ws[n - 1], bs[n - 1], ws[n], ks[n - 1], ks[n]);
    }
  }

  lemma KeepsNewestStep(feed: seq<Event>, es: seq<Event>, now: int, kept: set<nat>, kept': set<nat>)
    requires InFeed(feed, kept) && KeepsNewest(feed, kept)
    requires TimesUpTo(feed, now)
    requires forall i :: 0 <= i < |es| ==> es[i].time == now
    requires var all := feed + es;
             var candidates := kept + Positions(|feed|, |all|);
             kept' <= candidates
             && forall x, y :: x in candidates - kept' && y in kept' && x < |all| && y < |all| ==>
               all[x].time <= all[y].time
    ensures InFeed(feed + es, kept') && KeepsNewest(feed + es, kept')
  {
    var all := feed + es;
    forall x, y | 0 <= x < |all| && x !in kept' && y in kept' && y < |all| ensures all[x].time <= all[y].time {
      if x < |feed| && x !in kept {
        if y < |feed| {
          assert feed[x].time <= feed[y].time;
        } else {
          assert all[y] == es[y - |feed|];
        }
      }
    }
  }

  lemma {:induction false} OfLast(es: seq<Event>, m: nat)
    requires m < |es| && forall i :: m < i < |es| ==> es[i].ip != es[m].ip
    ensures LastStatus(Of(es, es[m].ip)) == Some(StatusAfter(es[m].kind))
  {
    if m < |es| - 1 { OfLast(es[..|es| - 1], m); }
  }

  /** y is a stored position, m the latest event of the same address. */
  ghost predicate LatestOf(feed: seq<Event>, kept: set<nat>, y: nat, m: nat) {
    y in kept && y <= m < |feed| && feed[m].ip == feed[y].ip
    && forall i :: m < i < |feed| ==> feed[i].ip != feed[m].ip
  }

  /** An address that still has an event in the stored feed has its latest one there, and that one tells the row's
      status, unless the two were written at the same time: the trim orders by time only. */
  lemma TrimKeepsLatest(ws: seq<World>, bs: seq<Batch>, ks: seq<set<nat>>, y: nat, m: nat)
    requires IsTrimmedRun(ws, bs, ks) && LatestOf(ws[|bs|].feed, ks[|bs|], y, m)
    ensures var feed := ws[|bs|].feed;
            && (feed[y].time < feed[m].time || y == m ==> m in ks[|bs|])
            && feed[m].ip in ws[|bs|].inv && ws[|bs|].inv[feed[m].ip].status == StatusAfter(feed[m].kind)
  {
    var feed := ws[|bs|].feed;
    TrimKeepsNewest(ws, bs, ks, |bs|);
    OfLast(feed, m);
    FeedStatus(ws, bs, feed[m].ip);
  }

  lemma {:induction false} SameIpLater(ws: seq<World>, bs: seq<Batch>, n: nat, y: nat, m: nat)
    requires IsRun(ws, bs) && n <= |bs| && forall i, j :: 0 <= i < j < |bs| ==> bs[i].now < bs[j].now
    requires y < m < |ws[n].feed| && ws[n].feed[y].ip == ws[n].feed[m].ip
    ensures ws[n].feed[y].time < ws[n].feed[m].time
  {
    if n > 0 {
      assert Step(ws[n - 1], bs[n - 1], ws[n]);
      var past := ws[n - 1].feed;
      var es: seq<Event> :| ws[n].feed == past + es && Merged(ws[n - 1].inv, bs[n - 1], ws[n].inv, es);
      NewEvents(ws[n - 1].inv, bs[n - 1], ws[n].inv, es);
      if m < |past| {
        SameIpLater(ws, bs, n - 1, y, m);
      } else if y < |past| {
        if n > 1 { FeedTimes(ws, bs, n - 1, n - 2); }
      }
    }
  }

  /** When no two merges have the same time, an address that still has an event always has its latest one. */
  lemma DistinctTimesKeepLatest(ws: seq<World>, bs: seq<Batch>, ks: seq<set<nat>>, y: nat, m: nat)
    requires IsTrimmedRun(ws, bs, ks) && LatestOf(ws[|bs|].feed, ks[|bs|], y, m)
    requires forall i, j :: 0 <= i < j < |bs| ==> bs[i].now < bs[j].now
    ensures m in ks[|bs|]
  {
    TrimKeepsLatest(ws, bs, ks, y, m);
    if y < m { SameIpLater(ws, bs, |bs|, y, m); }
  }

  // ---------- which entries are safe ----------

  /** The entries among c that are as new as the one at m. */
  ghost function AsNew(feed: seq<Event>, c: set<nat>, m: nat): (r: set<nat>)
    requires m < |feed|
    ensures r <= c
  {
    set x | x in c && x < |feed| && feed[x].time >= feed[m].time
  }

  lemma {:induction false} Newest(feed: seq<Event>, c: set<nat>) returns (y: nat)
    requires InFeed(feed, c) && c != {}
    ensures y in c && forall x :: x in c ==> feed[x].time <= feed[y].time
    decreases |c|
  {
    var first :| first in c;
    y := first;
    if c != {first} {
      var z := Newest(feed, c - {first});
      y := if feed[z].time > feed[first].time then z else first;
      forall x | x in c ensures feed[x].time <= feed[y].time {
        if x != first { assert x in c - {first}; }
      }
    }
  }

  /** n newest entries of c. */
  ghost predicate IsNewest(feed: seq<Event>, c: set<nat>, n: nat, k: set<nat>)
    requires InFeed(feed, c)
  {
    k <= c && |k| == n && forall x, y :: x in c - k && y in k ==> feed[x].time <= feed[y].time
  }

  lemma {:induction false} SomeNewest(feed: seq<Event>, c: set<nat>, n: nat) returns (k: set<nat>)
    requires InFeed(feed, c) && n <= |c|
    ensures IsNewest(feed, c, n, k)
    decreases n
  {
    if n == 0 {
      k := {};
    } else {
      var y := Newest(feed, c);
      var rest := SomeNewest(feed, c - {y}, n - 1);
      k := rest + {y};
    }
  }

  /** With more than 500 candidates as new as m there are 500 newest ones without m. */
  lemma NewestWithout(feed: seq<Event>, c: set<nat>, m: nat) returns (k: set<nat>)
    requires InFeed(feed, c) && m in c && |AsNew(feed, c, m)| > FEED_LIMIT
    ensures m !in k && IsNewest(feed, c, FEED_LIMIT, k)
  {
    var others := AsNew(feed, c, m) - {m};
    SmallerSet(others, c - {m});
    k := SomeNewest(feed, c - {m}, FEED_LIMIT);
    forall y | y in k ensures feed[m].time <= feed[y].time {
      if feed[y].time < feed[m].time {
        SmallerSet(others + {y}, k);
      }
    }
  }

  lemma SomeTrim(before: World, kept: set<nat>, after: World) returns (kept': set<nat>)
    requires InFeed(before.feed, kept) && |before.feed| <= |after.feed|
    ensures TrimStep(before, kept, after, kept')
  {
    var c := Candidates(before, kept, after);
    kept' := SomeNewest(after.feed, c, if |c| < FEED_LIMIT then |c| else FEED_LIMIT);
  }

  lemma LosingTrim(before: World, kept: set<nat>, after: World, m: nat) returns (kept': set<nat>)
    requires InFeed(before.feed, kept) && |before.feed| <= |after.feed| && m in Candidates(before, kept, after)
    requires |AsNew(after.feed, Candidates(before, kept, after), m)| > FEED_LIMIT
    ensures TrimStep(before, kept, after, kept') && m !in kept'
  {
    var c := Candidates(before, kept, after);
    SmallerSet(AsNew(after.feed, c, m), c);
    kept' := NewestWithout(after.feed, c, m);
  }

  lemma SafeInTrim(before: World, kept: set<nat>, after: World, kept': set<nat>, m: nat)
    requires InFeed(before.feed, kept) && |before.feed| <= |after.feed| && m in Candidates(before, kept, after)
    requires |AsNew(after.feed, Candidates(before, kept, after), m)| <= FEED_LIMIT
             && TrimStep(before, kept, after, kept')
    ensures m in kept'
  {
    var c := Candidates(before, kept, after);
    if m !in kept' {
      SmallerSet(kept' + {m}, c);
      SmallerSet(kept' + {m}, AsNew(after.feed, c, m));
    }
  }

  /** One trim: a candidate is safe, whatever the database picks among equal times, if and only if at most 500
      candidates are as new as it. */
  lemma SafeInTrimIff(before: World, kept: set<nat>, after: World, m: nat)
    requires InFeed(before.feed, kept) && |before.feed| <= |after.feed| && m in Candidates(before, kept, after)
    ensures (forall kept' :: TrimStep(before, kept, after, kept') ==> m in kept')
            <==> |AsNew(after.feed, Candidates(before, kept, after), m)| <= FEED_LIMIT
  {
    if |AsNew(after.feed, Candidates(before, kept, after), m)| > FEED_LIMIT {
      var kept' := LosingTrim(before, kept, after, m);
    } else {
      forall kept' | TrimStep(before, kept, after, kept') ensures m in kept' {
        SafeInTrim(before, kept, after, kept', m);
      }
    }
  }

  // ---------- which entries are safe over a run ----------

  /** Everything ever written that is as new as m. */
  ghost function AllAsNew(feed: seq<Event>, m: nat): set<nat>
    requires m < |feed|
  {
    AsNew(feed, Positions(0, |feed|), m)
  }

  /** The trims of the first n merges. */
  ghost predicate TrimmedTo(ws: seq<World>, bs: seq<Batch>, ks: seq<set<nat>>, n: nat)
    requires n <= |bs| && |ws| == |bs| + 1
  {
    && |ks| == n + 1 && ks[0] == {}
    && forall i :: 0 <= i < n ==> TrimStep(ws[i], ks[i], ws[i + 1], ks[i + 1])
  }

  lemma TrimmedToInFeed(ws: seq<World>, bs: seq<Batch>, ks: seq<set<nat>>, n: nat)
    requires IsRun(ws, bs) && InTimeOrder(bs) && n <= |bs| && TrimmedTo(ws, bs, ks, n)
    ensures InFeed(ws[n].feed, ks[n]) && KeepsNewest(ws[n].feed, ks[n]) && FullOrAll(ws[n].feed, ks[n])
  {
    assert IsTrimmedRun(ws[..n + 1], bs[..n], ks);
    TrimKeepsNewest(ws[..n + 1], bs[..n], ks, n);
  }

  lemma OneMoreTrim(ws: seq<World>, bs: seq<Batch>, ks: seq<set<nat>>, n: nat, kept': set<nat>)
    requires n < |bs| && |ws| == |bs| + 1 && TrimmedTo(ws, bs, ks, n) && TrimStep(ws[n], ks[n], ws[n + 1], kept')
    ensures TrimmedTo(ws, bs, ks + [kept'], n + 1)
  {
  }

  lemma FeedGrows(ws: seq<World>, bs: seq<Batch>, n: nat)
    requires IsRun(ws, bs) && n < |bs|
    ensures ws[n].feed <= ws[n + 1].feed
  {
    assert Step(ws[n], bs[n], ws[n + 1]);
  }

  lemma {:induction false} SomeTrims(ws: seq<World>, bs: seq<Batch>, n: nat) returns (ks: seq<set<nat>>)
    requires IsRun(ws, bs) && InTimeOrder(bs) && n <= |bs|
    ensures TrimmedTo(ws, bs, ks, n)
  {
    if n == 0 {
      ks := [{}];
    } else {
      ks := SomeTrims(ws, bs, n - 1);
      TrimmedToInFeed(ws, bs, ks, n - 1);
      FeedGrows(ws, bs, n - 1);
      var kept' := SomeTrim(ws[n - 1], ks[n - 1], ws[n]);
      OneMoreTrim(ws, bs, ks, n - 1, kept');
      ks := ks + [kept'];
    }
  }

  /** If an entry as new as m is no longer stored, the 500 that are stored are all as new as m. */
  lemma DroppedMeansFull(feed: seq<Event>, kept: set<nat>, x: nat, m: nat)
    requires InFeed(feed, kept) && KeepsNewest(feed, kept) && FullOrAll(feed, kept)
    requires x < |feed| && m < |feed| && x !in kept && feed[x].time >= feed[m].time
    ensures |kept| == FEED_LIMIT && kept + {x} <= AllAsNew(feed, m) && |AllAsNew(feed, m)| > FEED_LIMIT
  {
    SmallerSet(kept + {x}, AllAsNew(feed, m));
  }

  /** All that is as new as time is still stored. */
  predicate StoresFrom(feed: seq<Event>, kept: set<nat>, time: int) {
    forall x: nat :: x < |feed| && feed[x].time >= time ==> x in kept
  }

  lemma StoredSoFar(feed: seq<Event>, kept: set<nat>, m: nat)
    requires InFeed(feed, kept) && KeepsNewest(feed, kept) && FullOrAll(feed, kept)
    requires m < |feed| && |AllAsNew(feed, m)| <= FEED_LIMIT
    ensures StoresFrom(feed, kept, feed[m].time)
  {
    forall x: nat | x < |feed| && feed[x].time >= feed[m].time ensures x in kept {
      if x !in kept { DroppedMeansFull(feed, kept, x, m); }
    }
  }

  lemma AllCandidatesAsNew(before: World, kept: set<nat>, after: World, m: nat)
    requires before.feed <= after.feed && m < |after.feed| && StoresFrom(before.feed, kept, after.feed[m].time)
    ensures AllAsNew(after.feed, m) <= AsNew(after.feed, Candidates(before, kept, after), m)
    ensures |AllAsNew(after.feed, m)| <= |AsNew(after.feed, Candidates(before, kept, after), m)|
  {
    SmallerSet(AllAsNew(after.feed, m), AsNew(after.feed, Candidates(before, kept, after), m));
  }

  /** If something as new as the newly written m is no longer stored, the 500 that are stored are as new as m. */
  lemma FullAndNew(before: World, kept: set<nat>, after: World, x: nat, m: nat)
    requires InFeed(before.feed, kept) && KeepsNewest(before.feed, kept) && FullOrAll(before.feed, kept)
    requires before.feed <= after.feed && |before.feed| <= m < |after.feed|
    requires x < |before.feed| && x !in kept && before.feed[x].time >= after.feed[m].time
    ensures |AsNew(after.feed, Candidates(before, kept, after), m)| > FEED_LIMIT
  {
    var c := Candidates(before, kept, after);
    forall y | y in kept ensures after.feed[y].time >= after.feed[m].time {
      assert before.feed[x].time <= before.feed[y].time;
    }
    SmallerSet(kept + {m}, AsNew(after.feed, c, m));
  }

  /** When m first has more than 500 entries as new as itself, so it has among the candidates. */
  lemma CandidatesAsNew(before: World, kept: set<nat>, after: World, m: nat)
    requires InFeed(before.feed, kept) && KeepsNewest(before.feed, kept) && FullOrAll(before.feed, kept)
    requires before.feed <= after.feed && m < |after.feed| && |AllAsNew(after.feed, m)| > FEED_LIMIT
    requires m < |before.feed| ==> |AllAsNew(before.feed, m)| <= FEED_LIMIT
    ensures m in Candidates(before, kept, after)
    ensures |AsNew(after.feed, Candidates(before, kept, after), m)| > FEED_LIMIT
  {
    if m < |before.feed| {
      StoredSoFar(before.feed, kept, m);
      AllCandidatesAsNew(before, kept, after, m);
    } else if x: nat :| x < |before.feed| && before.feed[x].time >= after.feed[m].time && x !in kept {
      FullAndNew(before, kept, after, x, m);
    } else {
      AllCandidatesAsNew(before, kept, after, m);
    }
  }

  /** The merge at which m first has too many entries as new as itself. */
  lemma LosingStep(ws: seq<World>, bs: seq<Batch>, ks: seq<set<nat>>, n: nat, m: nat) returns (kept': set<nat>)
    requires IsRun(ws, bs) && InTimeOrder(bs) && n < |bs| && TrimmedTo(ws, bs, ks, n)
    requires m < |ws[n + 1].feed| && |AllAsNew(ws[n + 1].feed, m)| > FEED_LIMIT
    requires m < |ws[n].feed| ==> |AllAsNew(ws[n].feed, m)| <= FEED_LIMIT
    ensures TrimStep(ws[n], ks[n], ws[n + 1], kept') && m !in kept'
  {
    var w, w' := ws[n], ws[n + 1];
    TrimmedToInFeed(ws, bs, ks, n);
    FeedGrows(ws, bs, n);
    CandidatesAsNew(w, ks[n], w', m);
    kept' := LosingTrim(w, ks[n], w', m);
  }

  lemma {:induction false} LosingTrims(ws: seq<World>, bs: seq<Batch>, n: nat, m: nat) returns (ks: seq<set<nat>>)
    requires IsRun(ws, bs) && InTimeOrder(bs) && n <= |bs|
    requires m < |ws[n].feed| && |AllAsNew(ws[n].feed, m)| > FEED_LIMIT
    ensures TrimmedTo(ws, bs, ks, n) && m !in ks[n]
  {
    FeedGrows(ws, bs, n - 1);
    var kept': set<nat>;
    if m < |ws[n - 1].feed| && |AllAsNew(ws[n - 1].feed, m)| > FEED_LIMIT {
      ks := LosingTrims(ws, bs, n - 1, m);
      TrimmedToInFeed(ws, bs, ks, n - 1);
      kept' := SomeTrim(ws[n - 1], ks[n - 1], ws[n]);
    } else {
      ks := SomeTrims(ws, bs, n - 1);
      kept' := LosingStep(ws, bs, ks, n - 1, m);
    }
    OneMoreTrim(ws, bs, ks, n - 1, kept');
    ks := ks + [kept'];
  }

  /** Over every run: an entry is still stored at the end, whatever the database picked among equal times, if and only
      if at most 500 entries ever written are as new as it. */
  lemma SafeInRunIff(ws: seq<World>, bs: seq<Batch>, m: nat)
    requires IsRun(ws, bs) && InTimeOrder(bs) && m < |ws[|bs|].feed|
    ensures (forall ks :: IsTrimmedRun(ws, bs, ks) ==> m in ks[|bs|]) <==> |AllAsNew(ws[|bs|].feed, m)| <= FEED_LIMIT
  {
    if |AllAsNew(ws[|bs|].feed, m)| > FEED_LIMIT {
      var ks := LosingTrims(ws, bs, |bs|, m);
      assert IsTrimmedRun(ws, bs, ks);
    } else {
      forall ks | IsTrimmedRun(ws, bs, ks) ensures m in ks[|bs|] {
        TrimKeepsNewest(ws, bs, ks, |bs|);
        if m !in ks[|bs|] { DroppedMeansFull(ws[|bs|].feed, ks[|bs|], m, m); }
      }
    }
  }

  // ---------- the first capture of a large site ----------

  const BARE := Device(None, None, None, None, None, None, None)

  const FIRST_ROW := Row(BARE, Active, 0, 0, 0)

  function AddAll(ips: seq<Ip>): Batch { Batch(map ip | ip in ips :: BARE, 3, 0) }

  function AddedEvent(ip: Ip): Event { Event(ip, Added, 0, None, Some(BARE)) }

  function AddedEvents(ips: seq<Ip>): (es: seq<Event>)
    ensures |es| == |ips| && forall i :: 0 <= i < |ips| ==> es[i] == AddedEvent(ips[i])
  {
    seq(|ips|, i requires 0 <= i < |ips| => AddedEvent(ips[i]))
  }

  function AfterAdd(ips: seq<Ip>): World { World(map ip | ip in ips :: FIRST_ROW, AddedEvents(ips)) }

  predicate Different(ips: seq<Ip>) { forall i, j :: 0 <= i < j < |ips| ==> ips[i] != ips[j] }

  lemma {:induction false} AddedOf(ips: seq<Ip>, ip: Ip)
    requires Different(ips)
    ensures Of(AddedEvents(ips), ip) == if ip in ips then [AddedEvent(ip)] else []
  {
    if ips != [] {
      var n := |ips| - 1;
      assert ips == ips[..n] + [ips[n]];
      assert AddedEvents(ips)[..n] == AddedEvents(ips[..n]);
      AddedOf(ips[..n], ip);
    }
  }

  lemma BareIsAdded(ip: Ip)
    ensures MergeRow(None, Some(BARE), 3, 0) == Some(FIRST_ROW) && MergeRow(None, None, 3, 0) == None
    ensures MergeEvents(ip, None, Some(BARE), 3, 0) == [AddedEvent(ip)] && MergeEvents(ip, None, None, 3, 0) == []
  {
  }

  lemma AddMerged(ips: seq<Ip>)
    requires Different(ips)
    ensures Merged(map[], AddAll(ips), AfterAdd(ips).inv, AddedEvents(ips))
  {
    var b, inv := AddAll(ips), AfterAdd(ips).inv;
    forall ip
      ensures Lookup(inv, ip) == MergeRow(None, EntryOf(b, ip), 3, 0)
      ensures Of(AddedEvents(ips), ip) == MergeEvents(ip, None, EntryOf(b, ip), 3, 0)
    {
      AddedOf(ips, ip);
      BareIsAdded(ip);
    }
  }

  lemma AddStep(ips: seq<Ip>)
    requires Different(ips)
    ensures Step(EMPTY, AddAll(ips), AfterAdd(ips))
  {
    AddMerged(ips);
    assert AfterAdd(ips).feed == EMPTY.feed + AddedEvents(ips);
  }

  lemma CaptureIsRun(ips: seq<Ip>, m: nat)
    requires Different(ips) && FEED_LIMIT < |ips| && m < |ips|
    ensures IsRun([EMPTY, AfterAdd(ips)], [AddAll(ips)]) && |AllAsNew(AfterAdd(ips).feed, m)| > FEED_LIMIT
  {
    AddStep(ips);
    assert AllAsNew(AfterAdd(ips).feed, m) == Positions(0, |ips|);
  }

  /** A site whose first capture has more than 500 devices may lose the only entry of any of them in that merge. */
  lemma FirstCaptureLosesEntry(ips: seq<Ip>, m: nat) returns (ks: seq<set<nat>>)
    requires Different(ips) && FEED_LIMIT < |ips| && m < |ips|
    ensures IsTrimmedRun([EMPTY, AfterAdd(ips)], [AddAll(ips)], ks) && ips[m] in AfterAdd(ips).inv
    ensures forall x :: x in ks[1] ==> x < |ips| && AfterAdd(ips).feed[x].ip != ips[m]
  {
    CaptureIsRun(ips, m);
    var ws, bs := [EMPTY, AfterAdd(ips)], [AddAll(ips)];
    ks := LosingTrims(ws, bs, 1, m);
    TrimKeepsNewest(ws, bs, ks, 1);
    OnlyEntryGone(ips, ks[1], m);
  }

  lemma OnlyEntryGone(ips: seq<Ip>, kept: set<nat>, m: nat)
    requires Different(ips) && m < |ips| && m !in kept && InFeed(AfterAdd(ips).feed, kept)
    ensures ips[m] in AfterAdd(ips).inv && forall x :: x in kept ==> x < |ips| && AfterAdd(ips).feed[x].ip != ips[m]
  {
    forall x | x in kept ensures x < |ips| && AfterAdd(ips).feed[x].ip != ips[m] {
      assert AfterAdd(ips).feed[x] == AddedEvent(ips[x]) && x != m;
    }
  }
}
