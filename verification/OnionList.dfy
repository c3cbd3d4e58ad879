/** The signed list of onion entrances: what the signature covers, which lists are taken
    over, and which routes a client then tries. */
module OnionList {
  import opened Envelopes
  import opened Fields

  // ----- What is signed -----

  const DOMAIN: Bytes :=
    [118, 97, 108, 97, 110, 105, 117, 109, 45, 111, 110, 105, 111, 110, 45, 104, 111, 115, 116, 115, 45, 118, 49]

  const I64_MIN := -0x8000_0000_0000_0000
  type I64 = t: int | I64_MIN <= t < 0x8000_0000_0000_0000

  function TwosComplement(t: I64): nat {
    if t >= 0 then t else t + U64
  }

  function HostBytes(hosts: seq<Bytes>): Bytes {
    if hosts == [] then [] else Field(hosts[0]) + HostBytes(hosts[1..])
  }

  /** The bytes that are hashed and signed. */
  function PreImage(hosts: seq<Bytes>, issuedAt: I64): Bytes {
    DOMAIN + BigEndian(|hosts|, 8) + HostBytes(hosts) + BigEndian(TwosComplement(issuedAt), 8)
  }

  /** What the platform guarantees: a length fits in 64 bits. */
  ghost predicate Fits(hosts: seq<Bytes>) {
    |hosts| < U64 && forall h :: h in hosts ==> |h| < U64
  }

  lemma {:induction false} HostsDetermine(hosts: seq<Bytes>, hosts': seq<Bytes>, rest: Bytes, rest': Bytes)
    requires Fits(hosts) && Fits(hosts') && |hosts| == |hosts'|
    requires HostBytes(hosts) + rest == HostBytes(hosts') + rest'
    ensures hosts == hosts' && rest == rest'
  {
    if hosts == [] {
      assert HostBytes(hosts) + rest == rest && HostBytes(hosts') + rest' == rest';
    } else {
      var more, more' := HostBytes(hosts[1..]) + rest, HostBytes(hosts'[1..]) + rest';
      FirstHost(hosts, rest);
      FirstHost(hosts', rest');
      FieldDetermines(hosts[0], hosts'[0], more, more');
      HostsDetermine(hosts[1..], hosts'[1..], rest, rest');
      assert hosts == [hosts[0]] + hosts[1..] && hosts' == [hosts'[0]] + hosts'[1..];
    }
  }

  lemma FirstHost(hosts: seq<Bytes>, rest: Bytes)
    requires hosts != []
    ensures HostBytes(hosts) + rest == Field(hosts[0]) + (HostBytes(hosts[1..]) + rest)
  {
  }

  /** A signature covers the hosts, how many they are, where each ends, and the time of
      issue: no two lists have one pre-image. */
  lemma PreImageDetermines(hosts: seq<Bytes>, hosts': seq<Bytes>, t: I64, t': I64)
    requires Fits(hosts) && Fits(hosts') && PreImage(hosts, t) == PreImage(hosts', t')
    ensures hosts == hosts' && t == t'
  {
    var end, end' := BigEndian(TwosComplement(t), 8), BigEndian(TwosComplement(t'), 8);
    CutBehind(DOMAIN, BigEndian(|hosts|, 8), HostBytes(hosts), end);
    CutBehind(DOMAIN, BigEndian(|hosts'|, 8), HostBytes(hosts'), end');
    Widths();
    NumberDetermines(|hosts|, |hosts'|, 8);
    HostsDetermine(hosts, hosts', end, end');
    NumberDetermines(TwosComplement(t), TwosComplement(t'), 8);
  }

  lemma CutBehind(a: Bytes, b: Bytes, c: Bytes, d: Bytes)
    ensures var all := a + b + c + d;
            all[|a|..|a| + |b|] == b && all[|a| + |b|..] == c + d
  {
  }

  // ----- Who may name entrances -----

  type List = (seq<string>, I64)

  /** What the client checks signatures with: whether a signature goes with a hashed message
      under the built-in key, and how a host becomes bytes. */
  datatype Verifier = Verifier(accepts: (Bytes, Bytes) -> bool, utf8: string -> Bytes)

  predicate Verifies(v: Verifier, signature: Bytes, hosts: seq<string>, issuedAt: I64) {
    hosts != [] && v.accepts(signature, PreImage(Encoded(v.utf8, hosts), issuedAt))
  }

  /** `owner` are the lists that the holder of the offline key has signed: there is a
      signature for the hash of each of them, and for no other. */
  ghost predicate Ideal(v: Verifier, owner: set<List>) {
    && (forall a, b :: v.utf8(a) == v.utf8(b) ==> a == b)
    && (forall l :: l in owner ==> Fits(Encoded(v.utf8, l.0)))
    && (forall signature, message :: v.accepts(signature, message) ==> Signed(v, owner, message))
    && (forall l :: l in owner ==> exists signature :: v.accepts(signature, PreImage(Encoded(v.utf8, l.0), l.1)))
  }

  ghost predicate Signed(v: Verifier, owner: set<List>, message: Bytes) {
    exists l :: l in owner && PreImage(Encoded(v.utf8, l.0), l.1) == message
  }

  function Encoded(utf8: string -> Bytes, hosts: seq<string>): (bs: seq<Bytes>)
    ensures |bs| == |hosts| && forall i :: 0 <= i < |hosts| ==> bs[i] == utf8(hosts[i])
  {
    seq(|hosts|, i requires 0 <= i < |hosts| => utf8(hosts[i]))
  }

  /** Nobody but the holder of the key can name entrances: what verifies under some
      signature is exactly the signed lists, whole and with their own time. */
  lemma OnlyTheOwnersLists(v: Verifier, owner: set<List>, hosts: seq<string>, issuedAt: I64)
    requires Ideal(v, owner) && Fits(Encoded(v.utf8, hosts))
    ensures (exists signature :: Verifies(v, signature, hosts, issuedAt)) <==> hosts != [] && (hosts, issuedAt) in owner
  {
    if signature :| Verifies(v, signature, hosts, issuedAt) {
      SignedIsTheOwners(v, owner, hosts, issuedAt);
    }
    if hosts != [] && (hosts, issuedAt) in owner {
      var l := (hosts, issuedAt);
      var signature :| v.accepts(signature, PreImage(Encoded(v.utf8, l.0), l.1));
      assert Verifies(v, signature, hosts, issuedAt);
    }
  }

  lemma SignedIsTheOwners(v: Verifier, owner: set<List>, hosts: seq<string>, issuedAt: I64)
    requires Ideal(v, owner) && Fits(Encoded(v.utf8, hosts))
    requires Signed(v, owner, PreImage(Encoded(v.utf8, hosts), issuedAt))
    ensures (hosts, issuedAt) in owner
  {
    var l :| l in owner && PreImage(Encoded(v.utf8, l.0), l.1) == PreImage(Encoded(v.utf8, hosts), issuedAt);
    PreImageDetermines(Encoded(v.utf8, l.0), Encoded(v.utf8, hosts), l.1, issuedAt);
    forall i | 0 <= i < |hosts| ensures l.0[i] == hosts[i] {
      assert Encoded(v.utf8, l.0)[i] == Encoded(v.utf8, hosts)[i];
    }
    assert l.0 == hosts;
  }

  // ----- Hosts and routes -----

  predicate IsLabel(text: string) {
    forall i :: 0 <= i < |text| ==> 'a' <= text[i] <= 'z' || '2' <= text[i] <= '7'
  }

  predicate ValidHost(host: string) {
    |host| == 62 && host[56..] == ".onion" && IsLabel(host[..56])
  }

  function Route(host: string): string {
    "ws://" + host + "/ws"
  }

  const AUTO_ROUTE_URL := "valanium://auto"
  const ONION_ROUTE_URL := "valanium://onion"
  const DIRECT_ROUTES := ["wss://valanium.com/ws"]
  const FALLBACK_HOSTS :=
    ["5kghvwyxzmtzba" + "4foenmg5pkhcox" + "v6iq2c6wf4pbg5" + "uyjrviwkckvead" + ".onion",
     "5amnu2di3yhtpq" + "cpbcoaabfbzotw" + "3giap2lvoe5bi5" + "juflzhzdrsq4ad" + ".onion"]
  const RETIRED_HOSTS :=
    ["ho2sji2l42eqclnmu6gtbbg5nvtrz5jvpr5nqkehbstshcmspsnfkiyd.onion",
     "anb5vtfi4ztizycwj6nnclo75kpjb4mhz4wmc6ax3zwy2xlz3slx26yd.onion"]

  function ValidHosts(hosts: seq<string>): (r: seq<string>)
    ensures forall h :: h in r <==> h in hosts && ValidHost(h)
  {
    if hosts == [] then []
    else ValidHosts(hosts[..|hosts| - 1]) + (if ValidHost(hosts[|hosts| - 1]) then [hosts[|hosts| - 1]] else [])
  }

  /** The stored entrances that are still in use, in their order. */
  function UsableRoutes(hosts: seq<string>): (r: seq<string>)
    ensures forall t :: t in r <==> exists h :: h in hosts && ValidHost(h) && h !in RETIRED_HOSTS && t == Route(h)
  {
    if hosts == [] then []
    else
      var last := hosts[|hosts| - 1];
      UsableRoutes(hosts[..|hosts| - 1]) + (if ValidHost(last) && last !in RETIRED_HOSTS then [Route(last)] else [])
  }

  function WithFallbacks(routes: seq<string>): seq<string> {
    var one := if Route(FALLBACK_HOSTS[0]) in routes then routes else routes + [Route(FALLBACK_HOSTS[0])];
    if Route(FALLBACK_HOSTS[1]) in one then one else one + [Route(FALLBACK_HOSTS[1])]
  }

  // ----- The client's memory -----

  /** What is stored: the time of issue and the hosts, in two settings. */
  datatype Memory = Memory(issuedAt: Option<I64>, hosts: Option<seq<string>>)

  function AcceptedAt(m: Memory): I64 {
    if m.issuedAt.Some? then m.issuedAt.value else I64_MIN
  }

  /** A greeting of the server: a list with its signature and time, and whether the storage
      takes the time and then the hosts. */
  datatype Hello = Hello(hosts: seq<string>, signature: Bytes, issuedAt: I64, savesTime: bool, savesHosts: bool)

  function Remembered(v: Verifier, m: Memory, h: Hello): Memory {
    if !Verifies(v, h.signature, h.hosts, h.issuedAt) || h.issuedAt < AcceptedAt(m) || ValidHosts(h.hosts) == [] then m
    else if !h.savesTime then m
    else if !h.savesHosts then m.(issuedAt := Some(h.issuedAt))
    else Memory(Some(h.issuedAt), Some(ValidHosts(h.hosts)))
  }

  function Replay(v: Verifier, m: Memory, hellos: seq<Hello>): Memory {
    if hellos == [] then m else Remembered(v, Replay(v, m, hellos[..|hellos| - 1]), hellos[|hellos| - 1])
  }

  const NOTHING := Memory(None, None)

  /** Over any greetings the time of issue never goes back, even when the storage fails
      between the two settings. */
  lemma {:induction false} TimeNeverGoesBack(v: Verifier, m: Memory, hellos: seq<Hello>)
    ensures AcceptedAt(m) <= AcceptedAt(Replay(v, m, hellos))
    ensures m.issuedAt.Some? ==> Replay(v, m, hellos).issuedAt.Some?
  {
    if hellos != [] {
      TimeNeverGoesBack(v, m, hellos[..|hellos| - 1]);
    }
  }

  ghost predicate From(v: Verifier, hosts: seq<string>, hellos: seq<Hello>, n: nat) {
    && n < |hellos| && Verifies(v, hellos[n].signature, hellos[n].hosts, hellos[n].issuedAt)
    && hosts == ValidHosts(hellos[n].hosts) && hosts != []
  }

  /** What is stored comes from a verified list, no newer than the stored time; if the
      storage never failed, from one issued at exactly that time. */
  lemma {:induction false} HostsComeFromAList(v: Verifier, hellos: seq<Hello>) returns (n: nat)
    requires Replay(v, NOTHING, hellos).hosts.Some?
    ensures var m := Replay(v, NOTHING, hellos);
            && From(v, m.hosts.value, hellos, n) && m.issuedAt.Some? && hellos[n].issuedAt <= m.issuedAt.value
            && ((forall i :: 0 <= i < |hellos| ==> hellos[i].savesHosts) ==> hellos[n].issuedAt == m.issuedAt.value)
  {
    var init, last := hellos[..|hellos| - 1], hellos[|hellos| - 1];
    var before, after := Replay(v, NOTHING, init), Replay(v, NOTHING, hellos);
    if after.hosts == before.hosts && (after.issuedAt == before.issuedAt || !last.savesHosts) {
      n := HostsComeFromAList(v, init);
      TimeNeverGoesBack(v, before, [last]);
      assert [last][..0] == [];
      assert From(v, after.hosts.value, init, n) && init[n] == hellos[n];
    } else {
      n := |init|;
    }
  }

  /** So whatever the server sends, the stored entrances are the valid ones of a list that
      the holder of the offline key has signed. */
  lemma HostsAreTheOwners(v: Verifier, owner: set<List>, hellos: seq<Hello>) returns (l: List)
    requires Ideal(v, owner) && forall h :: h in hellos ==> Fits(Encoded(v.utf8, h.hosts))
    requires Replay(v, NOTHING, hellos).hosts.Some?
    ensures l in owner && Replay(v, NOTHING, hellos).hosts.value == ValidHosts(l.0)
    ensures (forall i :: 0 <= i < |hellos| ==> hellos[i].savesHosts) ==> Replay(v, NOTHING, hellos).issuedAt == Some(l.1)
  {
    var n := HostsComeFromAList(v, hellos);
    l := (hellos[n].hosts, hellos[n].issuedAt);
    assert hellos[n] in hellos;
    OnlyTheOwnersLists(v, owner, l.0, l.1);
  }

  // ----- The store -----

  class Store {
    var issuedAt: Option<I64>
    var hosts: Option<seq<string>>

    constructor ()
      ensures View() == NOTHING
    {
      issuedAt, hosts := None, None;
    }

    function View(): Memory
      reads this
    {
      Memory(issuedAt, hosts)
    }

    method Write() returns (ok: bool)
    {
      ok := *;
    }

    method RememberOnionHosts(v: Verifier, list: seq<string>, signature: Bytes, at: I64)
        returns (ghost savesTime: bool, ghost savesHosts: bool)
      modifies this
      ensures View() == Remembered(v, old(View()), Hello(list, signature, at, savesTime, savesHosts))
    {
      savesTime, savesHosts := true, true;
      if list == [] { return; }
      if !v.accepts(signature, PreImage(Encoded(v.utf8, list), at)) { return; }
      var accepted := if issuedAt.Some? then issuedAt.value else I64_MIN;
      if at < accepted { return; }
      var clean: seq<string> := [];
      for i := 0 to |list|
        invariant clean == ValidHosts(list[..i])
      {
        assert list[..i + 1][..i] == list[..i];
        if ValidHost(list[i]) { clean := clean + [list[i]]; }
      }
      assert list[..|list|] == list;
      if clean == [] { return; }
      var ok := Write();
      savesTime := ok;
      if !ok { return; }
      issuedAt := Some(at);
      ok := Write();
      savesHosts := ok;
      if ok { hosts := Some(clean); }
    }

    method LoadOnionHosts() returns (routes: seq<string>)
      ensures routes == WithFallbacks(UsableRoutes(if hosts.Some? then hosts.value else []))
    {
      var known := if hosts.Some? then hosts.value else [];
      routes := [];
      for i := 0 to |known|
        invariant routes == UsableRoutes(known[..i])
      {
        assert known[..i + 1][..i] == known[..i];
        if ValidHost(known[i]) && known[i] !in RETIRED_HOSTS { routes := routes + [Route(known[i])]; }
      }
      assert known[..|known|] == known;
      for i := 0 to |FALLBACK_HOSTS|
        invariant i == 1 ==> routes == if Route(FALLBACK_HOSTS[0]) in UsableRoutes(known) then UsableRoutes(known)
                                       else UsableRoutes(known) + [Route(FALLBACK_HOSTS[0])]
        invariant i == 0 ==> routes == UsableRoutes(known)
        invariant i == 2 ==> routes == WithFallbacks(UsableRoutes(known))
      {
        if Route(FALLBACK_HOSTS[i]) !in routes { routes := routes + [Route(FALLBACK_HOSTS[i])]; }
      }
    }

    method RoutesFor(url: string) returns (routes: seq<string>)
      ensures url == ONION_ROUTE_URL ==> routes == WithFallbacks(UsableRoutes(if hosts.Some? then hosts.value else []))
      ensures url == AUTO_ROUTE_URL ==> routes == DIRECT_ROUTES + WithFallbacks(UsableRoutes(if hosts.Some? then hosts.value else []))
      ensures url != ONION_ROUTE_URL && url != AUTO_ROUTE_URL ==> routes == [url]
    {
      var onion := LoadOnionHosts();
      if url == AUTO_ROUTE_URL {
        routes := DIRECT_ROUTES + onion;
      } else if url == ONION_ROUTE_URL {
        routes := onion;
      } else {
        routes := [url];
      }
    }
  }

  // ----- What onion mode tries -----

  ghost predicate IsOnion(route: string) {
    exists h :: ValidHost(h) && route == Route(h)
  }

  /** Onion mode has routes, every one of them an onion route, the fallbacks among them;
      and of what was stored exactly the valid hosts that are not retired. */
  lemma OnionModeIsOnion(hosts: seq<string>)
    ensures var routes := WithFallbacks(UsableRoutes(hosts));
            && routes != []
            && (forall h :: h in FALLBACK_HOSTS ==> Route(h) in routes)
            && (forall r :: r in routes ==> IsOnion(r))
            && (forall r :: r in routes <==> r in UsableRoutes(hosts) || r in [Route(FALLBACK_HOSTS[0]), Route(FALLBACK_HOSTS[1])])
  {
    FallbacksAreValid();
    var routes := WithFallbacks(UsableRoutes(hosts));
    forall r | r in routes ensures IsOnion(r) {
      if r in UsableRoutes(hosts) {
        var h :| h in hosts && ValidHost(h) && h !in RETIRED_HOSTS && r == Route(h);
      }
    }
  }

  lemma FallbacksAreValid()
    ensures ValidHost(FALLBACK_HOSTS[0]) && ValidHost(FALLBACK_HOSTS[1])
  {
    FirstFallback();
    SecondFallback();
  }

  lemma FirstFallback()
    ensures ValidHost(FALLBACK_HOSTS[0])
  {
    InQuarters("5kghvwyxzmtzba", "4foenmg5pkhcox", "v6iq2c6wf4pbg5", "uyjrviwkckvead");
  }

  lemma SecondFallback()
    ensures ValidHost(FALLBACK_HOSTS[1])
  {
    InQuarters("5amnu2di3yhtpq", "cpbcoaabfbzotw", "3giap2lvoe5bi5", "juflzhzdrsq4ad");
  }

  lemma InQuarters(a: string, b: string, c: string, d: string)
    requires |a| == 14 && |b| == 14 && |c| == 14 && |d| == 14
    requires IsLabel(a) && IsLabel(b) && IsLabel(c) && IsLabel(d)
    ensures ValidHost(a + b + c + d + ".onion")
  {
    assert (a + b + c + d + ".onion")[..56] == a + b + c + d;
  }
}
