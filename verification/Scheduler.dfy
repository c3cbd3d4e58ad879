/** The scheduler of the outbox: which queued envelopes may go on the wire now. */
module Scheduler {
  import opened Envelopes

  const AGED_MS := 30_000

  function Score(e: Envelope, now: int): nat {
    if e.queuedAt > 0 && now - e.queuedAt > AGED_MS && e.priority > 1 then 1 else e.priority
  }

  // ----- The specification -----

  // For each device it names the one item that may be sent. The method below is the single
  // pass over the queue; it must return this schedule in whatever order the candidate map
  // is walked.

  /** Nothing in flight stands in the way: only ephemeral signals of the device may
      be in flight, and beside an Essential not even those. Nothing queued stands in
      the way: no Essential is ahead, and ahead of an Essential there is nothing. */
  ghost predicate Eligible(q: seq<Envelope>, inflight: set<Ref>, i: nat)
    requires i < |q|
  {
    && q[i].clientRef !in inflight
    && (forall j :: 0 <= j < |q| && q[j].device == q[i].device && q[j].clientRef in inflight ==>
          q[j].kind == Ephemeral && q[i].kind != Essential)
    && (forall j :: 0 <= j < i && q[j].device == q[i].device ==>
          q[j].kind != Essential && q[i].kind != Essential)
  }

  /** Lower score first, and first queued among equal scores. */
  predicate Before(q: seq<Envelope>, now: int, i: nat, j: nat)
    requires i < |q| && j < |q|
  {
    Score(q[i], now) < Score(q[j], now) || (Score(q[i], now) == Score(q[j], now) && i < j)
  }

  ghost predicate Wins(q: seq<Envelope>, inflight: set<Ref>, now: int, i: nat)
    requires i < |q|
  {
    && Eligible(q, inflight, i)
    && forall j: nat :: j < |q| && j != i && q[j].device == q[i].device && Eligible(q, inflight, j) ==>
         Before(q, now, i, j)
  }

  ghost function Winners(q: seq<Envelope>, inflight: set<Ref>, now: int): set<nat> {
    set i: nat | i < |q| && Wins(q, inflight, now, i)
  }

  ghost function Schedulable(q: seq<Envelope>, inflight: set<Ref>): set<Device> {
    set i: nat | i < |q| && Eligible(q, inflight, i) :: q[i].device
  }

  ghost predicate Indices(q: seq<Envelope>, s: seq<nat>) {
    forall a :: 0 <= a < |s| ==> s[a] < |q|
  }

  ghost predicate Ordered(q: seq<Envelope>, now: int, s: seq<nat>)
    requires Indices(q, s)
  {
    forall a, b :: 0 <= a < b < |s| ==> Before(q, now, s[a], s[b])
  }

  ghost predicate Lists(s: seq<nat>, items: set<nat>) {
    (forall i :: i in s ==> i in items) && (forall i :: i in items ==> i in s)
  }

  /** All the winners, least first. */
  ghost function Ranking(q: seq<Envelope>, now: int, winners: set<nat>): (s: seq<nat>)
    requires forall i :: i in winners ==> i < |q|
    ensures Indices(q, s) && Ordered(q, now, s) && Lists(s, winners) && |s| == |winners|
  {
    if winners == {} then []
    else
      var w :| w in winners;
      Insert(q, now, Ranking(q, now, winners - {w}), w)
  }

  ghost function Schedule(q: seq<Envelope>, inflight: set<Ref>, now: int, limit: nat): (s: seq<nat>)
    ensures Indices(q, s) && Ordered(q, now, s) && forall i :: i in s ==> i in Winners(q, inflight, now)
  {
    var ranking := Ranking(q, now, Winners(q, inflight, now));
    if limit < |ranking| then ranking[..limit] else ranking
  }

  function Pick(q: seq<Envelope>, s: seq<nat>): (r: seq<Envelope>)
    requires forall a :: 0 <= a < |s| ==> s[a] < |q|
    ensures |r| == |s| && forall a :: 0 <= a < |s| ==> r[a] == q[s[a]]
  {
    seq(|s|, a requires 0 <= a < |s| => q[s[a]])
  }

  ghost function Ready(q: seq<Envelope>, inflight: set<Ref>, now: int, limit: nat): seq<Envelope> {
    Pick(q, Schedule(q, inflight, now, limit))
  }

  // ----- Sorting -----

  /** One step of the sort: the new index goes in front of the first one it precedes. */
  function Insert(q: seq<Envelope>, now: int, s: seq<nat>, w: nat): (r: seq<nat>)
    requires w < |q| && w !in s && Indices(q, s) && Ordered(q, now, s)
    ensures |r| == |s| + 1 && Indices(q, r) && Ordered(q, now, r)
    ensures forall i :: i in r <==> i in s || i == w
  {
    if s == [] || Before(q, now, w, s[0]) then
      [w] + s
    else
      var rest := Insert(q, now, s[1..], w);
      assert forall b :: 0 <= b < |rest| ==> rest[b] in rest;
      [s[0]] + rest
  }

  /** An ordered list is determined by its elements, so every way of walking the
      candidate map sorts to the same schedule. */
  lemma {:induction false} OrderIsUnique(q: seq<Envelope>, now: int, s: seq<nat>, t: seq<nat>)
    requires Indices(q, s) && Indices(q, t) && Ordered(q, now, s) && Ordered(q, now, t)
    requires forall i :: i in s <==> i in t
    ensures s == t
  {
    FirstIsMember(s);
    FirstIsMember(t);
    if s != [] && t != [] {
      assert s == [s[0]] + s[1..] && t == [t[0]] + t[1..];
      assert s[0] == t[0];
      assert s[0] !in s[1..] && t[0] !in t[1..];
      assert forall i :: i in s[1..] <==> i in s && i != s[0];
      assert forall i :: i in t[1..] <==> i in t && i != t[0];
      OrderIsUnique(q, now, s[1..], t[1..]);
    }
  }

  lemma FirstIsMember(s: seq<nat>)
    ensures s != [] ==> s[0] in s && exists i :: i in s
  {
  }

  // ----- What the schedule promises -----

  /** Everything offered is a queued item that nothing blocks, and no device is
      offered two items. */
  lemma ReadyItems(q: seq<Envelope>, inflight: set<Ref>, now: int, limit: nat)
    ensures var r := Ready(q, inflight, now, limit);
            && |r| <= limit
            && (forall a :: 0 <= a < |r| ==> exists i: nat :: i < |q| && q[i] == r[a] && Wins(q, inflight, now, i))
            && (forall a, b :: 0 <= a < b < |r| ==> r[a].device != r[b].device)
  {
    var s := Schedule(q, inflight, now, limit);
    assert forall a :: 0 <= a < |s| ==> s[a] in s;
  }

  /** The `limit` least winners overall: whatever is left out comes after everything
      that is offered. */
  lemma ReadyTakesTheLeast(q: seq<Envelope>, inflight: set<Ref>, now: int, limit: nat)
    ensures var s := Schedule(q, inflight, now, limit);
            forall i, w :: i in s && w in Winners(q, inflight, now) && w !in s ==> Before(q, now, i, w)
  {
    var ranking := Ranking(q, now, Winners(q, inflight, now));
    var s := Schedule(q, inflight, now, limit);
    forall i, w | i in s && w in Winners(q, inflight, now) && w !in s ensures Before(q, now, i, w) {
      assert ranking[..|s|] == s && w in ranking;
      var a :| 0 <= a < |s| && s[a] == i;
      var b :| 0 <= b < |ranking| && ranking[b] == w;
      assert ranking[a] == i;
      assert forall k :: 0 <= k < |s| ==> s[k] != w;
    }
  }

  /** Among the eligible items of a device that win over `i`, one exists. */
  lemma {:induction false} SomeoneWins(q: seq<Envelope>, inflight: set<Ref>, now: int, d: Device, n: nat) returns (w: nat)
    requires n <= |q|
    requires exists i: nat :: i < n && q[i].device == d && Eligible(q, inflight, i)
    ensures w < n && q[w].device == d && Eligible(q, inflight, w)
    ensures forall j: nat :: j < n && j != w && q[j].device == d && Eligible(q, inflight, j) ==> Before(q, now, w, j)
  {
    var last := n - 1;
    if exists i: nat :: i < last && q[i].device == d && Eligible(q, inflight, i) {
      w := SomeoneWins(q, inflight, now, d, last);
      if q[last].device == d && Eligible(q, inflight, last) && Before(q, now, last, w) {
        w := last;
      }
    } else {
      w := last;
    }
  }

  /** The schedule has one item for each device that can be served, up to the limit;
      so the scheduler never idles while some device could be served. */
  lemma ReadyServesEveryDevice(q: seq<Envelope>, inflight: set<Ref>, now: int, limit: nat)
    ensures |Winners(q, inflight, now)| == |Schedulable(q, inflight)|
    ensures |Ready(q, inflight, now, limit)|
              == (if limit < |Schedulable(q, inflight)| then limit else |Schedulable(q, inflight)|)
  {
    var ws := Winners(q, inflight, now);
    assert DevicesOf(q, ws) == Schedulable(q, inflight) by {
      forall d | d in Schedulable(q, inflight) ensures d in DevicesOf(q, ws) {
        var w := SomeoneWins(q, inflight, now, d, |q|);
        assert w in ws;
      }
    }
    DistinctDevices(q, ws);
  }

  ghost function DevicesOf(q: seq<Envelope>, s: set<nat>): set<Device>
    requires forall i :: i in s ==> i < |q|
  {
    set i | i in s :: q[i].device
  }

  lemma {:induction false} DistinctDevices(q: seq<Envelope>, s: set<nat>)
    requires forall i :: i in s ==> i < |q|
    requires forall i, j :: i in s && j in s && i != j ==> q[i].device != q[j].device
    ensures |DevicesOf(q, s)| == |s|
  {
    if s == {} {
      assert DevicesOf(q, s) == {};
    } else {
      var i :| i in s;
      DistinctDevices(q, s - {i});
      assert DevicesOf(q, s) == DevicesOf(q, s - {i}) + {q[i].device};
    }
  }

  /** Progress of the scheduler: with nothing in flight and room for one, a queue that
      is not empty always yields its first item's device. */
  lemma ReadyProgress(q: seq<Envelope>, now: int, limit: nat)
    requires q != [] && limit > 0
    ensures |Ready(q, {}, now, limit)| > 0
  {
    ReadyServesEveryDevice(q, {}, now, limit);
    assert Eligible(q, {}, 0);
    assert q[0].device in Schedulable(q, {});
  }

  /** An item that has waited over the ageing limit is passed over, within its device,
      only for something of score 0 or something queued earlier. */
  lemma AgedIsNotStarved(q: seq<Envelope>, inflight: set<Ref>, now: int, i: nat, w: nat)
    requires i < |q| && w < |q| && i != w && q[i].device == q[w].device
    requires q[i].queuedAt > 0 && now - q[i].queuedAt > AGED_MS
    requires Eligible(q, inflight, i) && Wins(q, inflight, now, w)
    ensures Score(q[w], now) == 0 || w < i
  {
    assert Before(q, now, w, i);
  }

  // ----- The pass over the queue -----

  /** `d`'s best candidate among the first `n` items. */
  ghost predicate Leads(q: seq<Envelope>, inflight: set<Ref>, now: int, n: nat, d: Device, c: nat)
    requires n <= |q|
  {
    && c < n && q[c].device == d && Eligible(q, inflight, c)
    && forall j: nat :: j < n && j != c && q[j].device == d && Eligible(q, inflight, j) ==> Before(q, now, c, j)
  }

  lemma ScheduleIsCut(q: seq<Envelope>, inflight: set<Ref>, now: int, limit: nat, sorted: seq<nat>)
    requires sorted == Ranking(q, now, Winners(q, inflight, now))
    ensures Schedule(q, inflight, now, limit) == if limit < |sorted| then sorted[..limit] else sorted
  {
  }

  method ReadyEnvelopes(q: seq<Envelope>, inflight: set<Ref>, now: int, limit: nat) returns (r: seq<Envelope>)
    ensures r == Ready(q, inflight, now, limit)
  {
    var candidates := Candidates(q, inflight, now);
    var sorted := SortedValues(q, now, candidates);
    SortIsRanking(q, inflight, now, candidates, sorted);
    ScheduleIsCut(q, inflight, now, limit, sorted);
    r := Pick(q, if limit < |sorted| then sorted[..limit] else sorted);
  }

  method Candidates(q: seq<Envelope>, inflight: set<Ref>, now: int) returns (candidates: map<Device, nat>)
    ensures forall j: nat :: j < |q| && Eligible(q, inflight, j) ==> q[j].device in candidates
    ensures forall d :: d in candidates ==> Leads(q, inflight, now, |q|, d, candidates[d])
  {
    var busyAny := set i | 0 <= i < |q| && q[i].clientRef in inflight :: q[i].device;
    var busy := set i | 0 <= i < |q| && q[i].clientRef in inflight && q[i].kind != Ephemeral :: q[i].device;
    var barriers: set<Device> := {};
    candidates := map[];
    for index := 0 to |q|
      invariant BarrierSet(q, busy, barriers, index)
      invariant Leading(q, inflight, now, index, candidates)
    {
      LeadersMoveOn(q, inflight, now, candidates, index);
      BarriersMoveOn(q, busy, barriers, index);
      var item := q[index];
      if item.clientRef in inflight {
        continue;
      }
      BusyOrBarred(q, inflight, index, busy, barriers);
      if item.device in busy || item.device in barriers {
        continue;
      }
      if item.kind == Essential {
        EssentialEligible(q, inflight, index, busyAny, busy, barriers, candidates);
        barriers := barriers + {item.device};
        if item.device in busyAny {
          continue;
        }
        if item.device !in candidates {
          candidates := candidates[item.device := index];
        }
      } else if item.device !in candidates || Score(item, now) < Score(q[candidates[item.device]], now) {
        candidates := candidates[item.device := index];
      }
    }
  }

  /** Among the first `n` items each device that can be served has its best candidate. */
  ghost predicate Leading(q: seq<Envelope>, inflight: set<Ref>, now: int, n: nat, candidates: map<Device, nat>)
    requires n <= |q|
  {
    && (forall j: nat :: j < n && Eligible(q, inflight, j) ==> q[j].device in candidates)
    && (forall d :: d in candidates ==> Leads(q, inflight, now, n, d, candidates[d]))
  }

  ghost predicate Improves(q: seq<Envelope>, now: int, candidates: map<Device, nat>, n: nat)
    requires n < |q| && forall d :: d in candidates ==> candidates[d] < n
  {
    q[n].device !in candidates || Score(q[n], now) < Score(q[candidates[q[n].device]], now)
  }

  /** The next item takes its device's lead when it is eligible and nothing was there or it
      scores less; otherwise the candidates stand. */
  lemma LeadersMoveOn(q: seq<Envelope>, inflight: set<Ref>, now: int, candidates: map<Device, nat>, n: nat)
    requires n < |q| && Leading(q, inflight, now, n, candidates)
    ensures forall d :: d in candidates ==> candidates[d] < n && q[candidates[d]].device == d
    ensures Leading(q, inflight, now, n + 1,
              if Eligible(q, inflight, n) && Improves(q, now, candidates, n) then candidates[q[n].device := n] else candidates)
  {
    if Eligible(q, inflight, n) && Improves(q, now, candidates, n) {
      TakesTheLead(q, inflight, now, candidates, n);
    }
  }

  lemma TakesTheLead(q: seq<Envelope>, inflight: set<Ref>, now: int, candidates: map<Device, nat>, n: nat)
    requires n < |q| && Leading(q, inflight, now, n, candidates) && Eligible(q, inflight, n) && Improves(q, now, candidates, n)
    ensures Leads(q, inflight, now, n + 1, q[n].device, n)
  {
  }

  /** An item that is not in flight is held back by its busy device and by a barrier ahead
      of it; nothing else holds back what is not an Essential. */
  lemma BusyOrBarred(q: seq<Envelope>, inflight: set<Ref>, index: nat, busy: set<Device>, barriers: set<Device>)
    requires index < |q| && q[index].clientRef !in inflight && BarrierSet(q, busy, barriers, index)
    requires busy == set i | 0 <= i < |q| && q[i].clientRef in inflight && q[i].kind != Ephemeral :: q[i].device
    ensures q[index].device in busy || q[index].device in barriers ==> !Eligible(q, inflight, index)
    ensures q[index].device !in busy && q[index].device !in barriers && q[index].kind != Essential ==> Eligible(q, inflight, index)
  {
  }

  /** The devices of the Essentials among the first `n` items whose device is not busy. */
  ghost predicate BarrierSet(q: seq<Envelope>, busy: set<Device>, barriers: set<Device>, n: nat)
    requires n <= |q|
  {
    && (forall d :: d in barriers ==> exists j :: 0 <= j < n && q[j].device == d && q[j].kind == Essential)
    && (forall j :: 0 <= j < n && q[j].kind == Essential && q[j].device !in busy ==> q[j].device in barriers)
  }

  lemma BarriersMoveOn(q: seq<Envelope>, busy: set<Device>, barriers: set<Device>, n: nat)
    requires n < |q| && BarrierSet(q, busy, barriers, n)
    ensures q[n].kind != Essential || q[n].device in busy || q[n].device in barriers ==> BarrierSet(q, busy, barriers, n + 1)
    ensures q[n].kind == Essential ==> BarrierSet(q, busy, barriers + {q[n].device}, n + 1)
  {
  }

  /** Sorts the candidates; the map's own order is arbitrary. */
  method SortedValues(q: seq<Envelope>, now: int, candidates: map<Device, nat>) returns (sorted: seq<nat>)
    requires forall d :: d in candidates ==> candidates[d] < |q| && q[candidates[d]].device == d
    ensures Indices(q, sorted) && Ordered(q, now, sorted)
    ensures forall i :: i in sorted <==> exists d :: d in candidates && candidates[d] == i
  {
    var rest := candidates.Keys;
    sorted := [];
    while rest != {}
      invariant rest <= candidates.Keys
      invariant Indices(q, sorted) && Ordered(q, now, sorted)
      invariant forall d :: d in candidates && d !in rest ==> candidates[d] in sorted
      invariant forall i :: i in sorted ==> q[i].device in candidates && q[i].device !in rest && candidates[q[i].device] == i
    {
      var d :| d in rest;
      sorted := Insert(q, now, sorted, candidates[d]);
      rest := rest - {d};
    }
  }

  lemma SortIsRanking(q: seq<Envelope>, inflight: set<Ref>, now: int, candidates: map<Device, nat>, sorted: seq<nat>)
    requires forall j: nat :: j < |q| && Eligible(q, inflight, j) ==> q[j].device in candidates
    requires forall d :: d in candidates ==> Leads(q, inflight, now, |q|, d, candidates[d])
    requires Indices(q, sorted) && Ordered(q, now, sorted)
    requires forall i :: i in sorted <==> exists d :: d in candidates && candidates[d] == i
    ensures sorted == Ranking(q, now, Winners(q, inflight, now))
  {
    var ranking := Ranking(q, now, Winners(q, inflight, now));
    forall i | i in ranking ensures i in sorted {
      assert Leads(q, inflight, now, |q|, q[i].device, candidates[q[i].device]);
    }
    forall i | i in sorted ensures i in ranking {
      var d :| d in candidates && candidates[d] == i;
      assert Wins(q, inflight, now, i);
    }
    OrderIsUnique(q, now, sorted, ranking);
  }

  /** An Essential may be sent just when its device has no candidate yet and nothing in
      flight: then it is the first item of its device. */
  lemma EssentialEligible(q: seq<Envelope>, inflight: set<Ref>, index: nat, busyAny: set<Device>, busy: set<Device>,
                          barriers: set<Device>, candidates: map<Device, nat>)
    requires index < |q| && q[index].clientRef !in inflight && q[index].kind == Essential
    requires busyAny == set i | 0 <= i < |q| && q[i].clientRef in inflight :: q[i].device
    requires busy == set i | 0 <= i < |q| && q[i].clientRef in inflight && q[i].kind != Ephemeral :: q[i].device
    requires q[index].device !in busy && q[index].device !in barriers
    requires BarrierSet(q, busy, barriers, index)
    requires forall j: nat :: j < index && Eligible(q, inflight, j) ==> q[j].device in candidates
    requires forall d :: d in candidates ==> exists j: nat :: j < index && q[j].device == d
    ensures Eligible(q, inflight, index) <==> q[index].device !in busyAny && q[index].device !in candidates
  {
    if q[index].device !in busyAny && q[index].device !in candidates {
      assert forall k :: 0 <= k < |q| && q[k].clientRef in inflight ==> q[k].device in busyAny;
      assert forall j: nat :: j < index && q[j].device == q[index].device ==> Eligible(q, inflight, j);
    }
  }
}
