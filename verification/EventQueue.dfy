/** The queue between the core and the interface: bounded, with only the latest live
    audio, and control events lost to nothing but overflow. */
module EventQueue {
  import opened Envelopes

  const MAX_EVENTS := 4096
  const MAX_AUDIO := 4

  /** An event as it is stored; audio is told apart by how its text begins. */
  datatype Item = Item(audio: bool, body: Bytes)

  // ----- What a push does -----

  function IsAudio(): Item -> bool { (i: Item) => i.audio }

  function Count<T>(q: seq<T>, audio: T -> bool): nat {
    if q == [] then 0 else Count(q[..|q| - 1], audio) + (if audio(q[|q| - 1]) then 1 else 0)
  }

  function First<T>(q: seq<T>, audio: T -> bool): (i: nat)
    ensures i <= |q| && (i < |q| ==> audio(q[i])) && forall j :: 0 <= j < i ==> !audio(q[j])
  {
    if q == [] then 0 else if audio(q[0]) then 0 else 1 + First(q[1..], audio)
  }

  function Remove<T>(q: seq<T>, i: nat): seq<T> {
    if i < |q| then q[..i] + q[i + 1..] else q
  }

  function Evict<T>(q: seq<T>, audio: T -> bool): seq<T> {
    if Count(q, audio) >= MAX_AUDIO then Remove(q, First(q, audio)) else q
  }

  function MakeRoom<T>(q: seq<T>): seq<T> {
    if |q| >= MAX_EVENTS then q[1..] else q
  }

  function AfterPush<T>(q: seq<T>, x: T, audio: T -> bool): seq<T> {
    MakeRoom(if audio(x) then Evict(q, audio) else q) + [x]
  }

  lemma {:induction false} CountRemoves<T>(q: seq<T>, i: nat, audio: T -> bool)
    requires i < |q|
    ensures Count(Remove(q, i), audio) == Count(q, audio) - (if audio(q[i]) then 1 else 0)
  {
    var n := |q| - 1;
    if i == n {
      assert Remove(q, i) == q[..n];
    } else {
      CountRemoves(q[..n], i, audio);
      assert Remove(q, i) == Remove(q[..n], i) + [q[n]];
      CountAdds(Remove(q[..n], i), q[n], audio);
    }
  }

  lemma CountAdds<T>(q: seq<T>, x: T, audio: T -> bool)
    ensures Count(q + [x], audio) == Count(q, audio) + (if audio(x) then 1 else 0)
  {
    assert (q + [x])[..|q|] == q;
  }

  lemma {:induction false} SomeAudio<T>(q: seq<T>, audio: T -> bool)
    requires Count(q, audio) > 0
    ensures First(q, audio) < |q|
  {
    var n := |q| - 1;
    if !audio(q[n]) {
      SomeAudio(q[..n], audio);
      assert audio(q[First(q[..n], audio)]);
    }
  }

  // ----- Runs -----

  /** An event with the number of its push. */
  datatype Tagged = Tagged(tag: nat, item: Item)

  function TaggedAudio(): Tagged -> bool { (t: Tagged) => t.item.audio }

  datatype World = World(items: seq<Tagged>, pushed: seq<Item>, popped: seq<Tagged>, overflowed: set<nat>)

  datatype Step = Push(item: Item) | Pop

  function Next(w: World, s: Step): World {
    match s
    case Push(item) =>
      var x := Tagged(|w.pushed|, item);
      var kept := if item.audio then Evict(w.items, TaggedAudio()) else w.items;
      World(AfterPush(w.items, x, TaggedAudio()), w.pushed + [item], w.popped,
            if |kept| >= MAX_EVENTS then w.overflowed + {kept[0].tag} else w.overflowed)
    case Pop =>
      if w.items == [] then w else w.(items := w.items[1..], popped := w.popped + [w.items[0]])
  }

  function Run(steps: seq<Step>): World {
    if steps == [] then World([], [], [], {}) else Next(Run(steps[..|steps| - 1]), steps[|steps| - 1])
  }

  // ----- What every run keeps -----

  /** The tags say which pushes these are, in the order of the pushes. */
  ghost predicate Embedded(q: seq<Tagged>, pushed: seq<Item>) {
    && (forall i :: 0 <= i < |q| ==> q[i].tag < |pushed| && pushed[q[i].tag] == q[i].item)
    && (forall i, j :: 0 <= i < j < |q| ==> q[i].tag < q[j].tag)
  }

  ghost predicate Holds(q: seq<Tagged>, tag: nat) {
    exists i :: 0 <= i < |q| && q[i].tag == tag
  }

  /** Of the audio, the latest pushes are queued. */
  ghost predicate Latest(q: seq<Tagged>, pushed: seq<Item>) {
    forall i, k :: 0 <= i < |q| && q[i].item.audio && q[i].tag < k < |pushed| && pushed[k].audio ==> Holds(q, k)
  }

  /** Every control event is queued, was popped, or overflowed. */
  ghost predicate Accounted(w: World) {
    forall k :: 0 <= k < |w.pushed| && !w.pushed[k].audio ==> Holds(w.popped + w.items, k) || k in w.overflowed
  }

  ghost predicate Inv(w: World) {
    && Embedded(w.popped + w.items, w.pushed)
    && |w.items| <= MAX_EVENTS && Count(w.items, TaggedAudio()) <= MAX_AUDIO
    && Latest(w.items, w.pushed)
    && Accounted(w)
  }

  /** Evicting takes out the oldest audio and nothing else. */
  lemma EvictKeeps(w: World)
    requires Inv(w)
    ensures var q := Evict(w.items, TaggedAudio());
            && Inv(w.(items := q)) && Count(q, TaggedAudio()) < MAX_AUDIO
  {
    var q, i := w.items, First(w.items, TaggedAudio());
    if Count(q, TaggedAudio()) >= MAX_AUDIO {
      SomeAudio(q, TaggedAudio());
      CountRemoves(q, i, TaggedAudio());
      RemoveKeeps(w, i);
    }
  }

  lemma EmbeddedPart(a: seq<Tagged>, q: seq<Tagged>, pushed: seq<Item>)
    requires Embedded(a + q, pushed)
    ensures Embedded(q, pushed)
  {
    forall i, j | 0 <= i < j < |q| ensures q[i].tag < q[j].tag {
      assert q[i] == (a + q)[|a| + i] && q[j] == (a + q)[|a| + j];
    }
    forall i | 0 <= i < |q| ensures q[i].tag < |pushed| && pushed[q[i].tag] == q[i].item {
      assert q[i] == (a + q)[|a| + i];
    }
  }

  /** Where an element was before one was removed. */
  function Before(j: nat, i: nat): nat {
    if j < i then j else j + 1
  }

  lemma Removed<T>(q: seq<T>, i: nat)
    requires i < |q|
    ensures |Remove(q, i)| == |q| - 1
    ensures forall j :: 0 <= j < |q| - 1 ==> Remove(q, i)[j] == q[Before(j, i)]
  {
  }

  lemma EmbeddedRemoves(q: seq<Tagged>, i: nat, pushed: seq<Item>)
    requires Embedded(q, pushed) && i < |q|
    ensures Embedded(Remove(q, i), pushed)
  {
    var r := Remove(q, i);
    Removed(q, i);
    forall j, k | 0 <= j < k < |r| ensures r[j].tag < r[k].tag {
      assert r[j] == q[Before(j, i)] && r[k] == q[Before(k, i)];
    }
    forall j | 0 <= j < |r| ensures r[j].tag < |pushed| && pushed[r[j].tag] == r[j].item {
      assert r[j] == q[Before(j, i)];
    }
  }

  lemma HoldsRemoves(q: seq<Tagged>, i: nat, k: nat)
    requires i < |q| && Holds(q, k) && q[i].tag != k
    ensures Holds(Remove(q, i), k)
  {
    var n :| 0 <= n < |q| && q[n].tag == k;
    Removed(q, i);
    var m := if n < i then n else n - 1;
    assert Before(m, i) == n && Remove(q, i)[m].tag == k;
  }

  /** Taking out the oldest audio, or the front, leaves the latest audio. */
  lemma LatestRemoves(q: seq<Tagged>, i: nat, pushed: seq<Item>)
    requires Latest(q, pushed) && Embedded(q, pushed) && i < |q| && forall j :: 0 <= j < i ==> !q[j].item.audio
    ensures Latest(Remove(q, i), pushed)
  {
    var r := Remove(q, i);
    Removed(q, i);
    forall j, k | 0 <= j < |r| && r[j].item.audio && r[j].tag < k < |pushed| && pushed[k].audio ensures Holds(r, k) {
      var n := Before(j, i);
      assert r[j] == q[n] && Holds(q, k);
      assert n >= i ==> q[i].tag <= q[n].tag;
      HoldsRemoves(q, i, k);
    }
  }

  lemma RemovedBehind(popped: seq<Tagged>, q: seq<Tagged>, i: nat)
    requires i < |q|
    ensures Remove(popped + q, |popped| + i) == popped + Remove(q, i)
  {
  }

  lemma AccountedRemoves(w: World, i: nat)
    requires Accounted(w) && Embedded(w.popped + w.items, w.pushed) && i < |w.items|
    ensures Embedded(w.popped + Remove(w.items, i), w.pushed)
    ensures w.items[i].item.audio ==> Accounted(w.(items := Remove(w.items, i)))
    ensures Accounted(w.(items := Remove(w.items, i), overflowed := w.overflowed + {w.items[i].tag}))
  {
    var all, n := w.popped + w.items, |w.popped| + i;
    RemovedBehind(w.popped, w.items, i);
    EmbeddedRemoves(all, n, w.pushed);
    assert all[n] == w.items[i];
    forall k | 0 <= k < |w.pushed| && !w.pushed[k].audio && k !in w.overflowed && k != all[n].tag
      ensures Holds(Remove(all, n), k)
    {
      HoldsRemoves(all, n, k);
    }
  }

  lemma RemoveKeeps(w: World, i: nat)
    requires Inv(w) && i == First(w.items, TaggedAudio()) && i < |w.items|
    requires Count(Remove(w.items, i), TaggedAudio()) <= MAX_AUDIO
    ensures Inv(w.(items := Remove(w.items, i)))
  {
    AccountedRemoves(w, i);
    EmbeddedPart(w.popped, w.items, w.pushed);
    LatestRemoves(w.items, i, w.pushed);
  }

  /** The front is taken off, to be popped or because the queue is full. */
  lemma FrontLeaves(w: World)
    requires Inv(w) && w.items != []
    ensures Inv(w.(items := w.items[1..], popped := w.popped + [w.items[0]]))
    ensures Inv(w.(items := w.items[1..], overflowed := w.overflowed + {w.items[0].tag}))
  {
    assert Remove(w.items, 0) == w.items[1..];
    assert w.popped + [w.items[0]] + w.items[1..] == w.popped + w.items;
    CountRemoves(w.items, 0, TaggedAudio());
    AccountedRemoves(w, 0);
    EmbeddedPart(w.popped, w.items, w.pushed);
    LatestRemoves(w.items, 0, w.pushed);
  }

  /** The new event goes to the back. */
  lemma BackJoins(w: World, item: Item)
    requires Inv(w) && |w.items| < MAX_EVENTS && (item.audio ==> Count(w.items, TaggedAudio()) < MAX_AUDIO)
    ensures Inv(w.(items := w.items + [Tagged(|w.pushed|, item)], pushed := w.pushed + [item]))
  {
    var x, pushed := Tagged(|w.pushed|, item), w.pushed + [item];
    var q, r := w.items, w.items + [x];
    CountAdds(q, x, TaggedAudio());
    assert w.popped + r == w.popped + q + [x];
    EmbeddedPart(w.popped, q, w.pushed);
    assert r[|q|].tag == |w.pushed|;
    forall j, k | 0 <= j < |r| && r[j].item.audio && r[j].tag < k < |pushed| && pushed[k].audio ensures Holds(r, k) {
      if k < |w.pushed| {
        assert Holds(q, k);
        var n :| 0 <= n < |q| && q[n].tag == k;
        assert r[n].tag == k;
      }
    }
    BackAccounts(w, x);
  }

  lemma BackAccounts(w: World, x: Tagged)
    requires Accounted(w) && x.tag == |w.pushed|
    ensures Accounted(w.(items := w.items + [x], pushed := w.pushed + [x.item]))
  {
    var all, more := w.popped + w.items, w.popped + (w.items + [x]);
    assert more[|all|] == x;
    forall k | 0 <= k < |w.pushed| && !w.pushed[k].audio ensures Holds(more, k) || k in w.overflowed {
      if k !in w.overflowed {
        var n :| 0 <= n < |all| && all[n].tag == k;
        assert more[n].tag == k;
      }
    }
  }

  lemma StepKeeps(w: World, s: Step)
    requires Inv(w)
    ensures Inv(Next(w, s))
  {
    match s
    case Pop => if w.items != [] { FrontLeaves(w); }
    case Push(item) =>
      if item.audio { EvictKeeps(w); }
      var v := if item.audio then w.(items := Evict(w.items, TaggedAudio())) else w;
      PushKeeps(v, item);
  }

  lemma PushKeeps(v: World, item: Item)
    requires Inv(v) && (item.audio ==> Count(v.items, TaggedAudio()) < MAX_AUDIO)
    ensures Inv(World(MakeRoom(v.items) + [Tagged(|v.pushed|, item)], v.pushed + [item], v.popped,
                      if |v.items| >= MAX_EVENTS then v.overflowed + {v.items[0].tag} else v.overflowed))
  {
    if |v.items| >= MAX_EVENTS {
      FrontLeaves(v);
      assert Remove(v.items, 0) == v.items[1..];
      CountRemoves(v.items, 0, TaggedAudio());
      BackJoins(v.(items := v.items[1..], overflowed := v.overflowed + {v.items[0].tag}), item);
    } else {
      BackJoins(v, item);
    }
  }

  lemma {:induction false} RunKeeps(steps: seq<Step>)
    ensures Inv(Run(steps))
  {
    if steps != [] {
      RunKeeps(steps[..|steps| - 1]);
      StepKeeps(Run(steps[..|steps| - 1]), steps[|steps| - 1]);
    }
  }

  // ----- The promises -----

  /** Whatever was popped, and then what is queued, are pushed events in the order of their
      pushes, none of them twice; the queue is bounded. */
  lemma OutputIsASubsequence(steps: seq<Step>)
    ensures var w := Run(steps); Embedded(w.popped + w.items, w.pushed) && |w.items| <= MAX_EVENTS
  {
    RunKeeps(steps);
  }

  /** At most four audio events are queued, and they are the latest that were pushed. */
  lemma QueuedAudioIsTheLatest(steps: seq<Step>)
    ensures var w := Run(steps); Count(w.items, TaggedAudio()) <= MAX_AUDIO && Latest(w.items, w.pushed)
  {
    RunKeeps(steps);
  }

  /** A control event is lost only to overflow. */
  lemma ControlIsLostOnlyToOverflow(steps: seq<Step>, k: nat)
    requires k < |Run(steps).pushed| && !Run(steps).pushed[k].audio
    ensures var w := Run(steps); Holds(w.popped + w.items, k) || k in w.overflowed
  {
    RunKeeps(steps);
  }

  /** And overflow happens only in a push onto a full queue. */
  lemma OverflowNeedsAFullQueue(steps: seq<Step>, s: Step, k: nat)
    requires k in Next(Run(steps), s).overflowed && k !in Run(steps).overflowed
    ensures s.Push? && |Run(steps).items| == MAX_EVENTS && Run(steps).items[0].tag <= k
  {
    RunKeeps(steps);
    var w := Run(steps);
    EmbeddedPart(w.popped, w.items, w.pushed);
  }

  // ----- The queue itself -----

  function Untagged(q: seq<Tagged>): (r: seq<Item>)
    ensures |r| == |q| && forall i :: 0 <= i < |q| ==> r[i] == q[i].item
  {
    seq(|q|, i requires 0 <= i < |q| => q[i].item)
  }

  lemma {:induction false} CountForgetsTags(q: seq<Tagged>)
    ensures Count(Untagged(q), IsAudio()) == Count(q, TaggedAudio())
  {
    if q != [] {
      var n := |q| - 1;
      CountForgetsTags(q[..n]);
      assert Untagged(q)[..n] == Untagged(q[..n]);
    }
  }

  lemma FirstForgetsTags(q: seq<Tagged>)
    ensures First(Untagged(q), IsAudio()) == First(q, TaggedAudio())
  {
    var i, j := First(Untagged(q), IsAudio()), First(q, TaggedAudio());
    assert i < |q| ==> q[i].item.audio;
    assert j < |q| ==> Untagged(q)[j].audio;
  }

  lemma EvictForgetsTags(q: seq<Tagged>)
    ensures Untagged(Evict(q, TaggedAudio())) == Evict(Untagged(q), IsAudio())
  {
    CountForgetsTags(q);
    FirstForgetsTags(q);
    var i := First(q, TaggedAudio());
    assert Untagged(Remove(q, i)) == Remove(Untagged(q), i);
  }

  lemma RoomForgetsTags(q: seq<Tagged>, x: Tagged)
    ensures Untagged(MakeRoom(q) + [x]) == MakeRoom(Untagged(q)) + [x.item]
  {
  }

  /** The queue does with the events what the run does with their tagged counterparts. */
  lemma PushForgetsTags(q: seq<Tagged>, x: Tagged)
    ensures AfterPush(Untagged(q), x.item, IsAudio()) == Untagged(AfterPush(q, x, TaggedAudio()))
  {
    EvictForgetsTags(q);
    RoomForgetsTags(if x.item.audio then Evict(q, TaggedAudio()) else q, x);
  }

  class Queue {
    var items: seq<Item>

    constructor ()
      ensures items == []
    {
      items := [];
    }

    method Push(item: Item)
      modifies this
      ensures items == AfterPush(old(items), item, IsAudio())
    {
      if item.audio {
        var count := 0;
        for i := 0 to |items|
          invariant count == Count(items[..i], IsAudio()) && items == old(items)
        {
          assert items[..i + 1][..i] == items[..i];
          if items[i].audio { count := count + 1; }
        }
        assert items[..|items|] == items;
        if count >= MAX_AUDIO {
          var index := Position();
          if index < |items| { items := items[..index] + items[index + 1..]; }
        }
      }
      if |items| >= MAX_EVENTS { items := items[1..]; }
      items := items + [item];
    }

    method Position() returns (index: nat)
      ensures index == First(items, IsAudio())
    {
      index := 0;
      while index < |items|
        invariant index <= |items| && forall j :: 0 <= j < index ==> !items[j].audio
      {
        if items[index].audio { return; }
        index := index + 1;
      }
    }

    method Pop() returns (item: Option<Item>)
      modifies this
      ensures old(items) == [] ==> item == None && items == []
      ensures old(items) != [] ==> item == Some(old(items)[0]) && items == old(items)[1..]
    {
      if items == [] { return None; }
      item := Some(items[0]);
      items := items[1..];
    }
  }
}
