/** The text that stands for a client's network: an IPv4 address as it is, an IPv6 address
    cut down to its first four groups, in whichever way its zeros were written. */
module Subnet {
  import opened Envelopes

  // ----- Text -----

  function Find(s: string, c: char): (i: nat)
    ensures i <= |s| && (i < |s| ==> s[i] == c) && forall j :: 0 <= j < i ==> s[j] != c
  {
    if s == "" then 0 else if s[0] == c then 0 else 1 + Find(s[1..], c)
  }

  predicate PairAt(s: string, i: nat) {
    i + 1 < |s| && s[i] == ':' && s[i + 1] == ':'
  }

  /** Where the first double colon begins, or the length when there is none. */
  function FindPair(s: string): (i: nat)
    ensures i <= |s| && (i < |s| ==> PairAt(s, i)) && forall j :: 0 <= j < i ==> !PairAt(s, j)
  {
    if |s| < 2 then |s|
    else if PairAt(s, 0) then 0
    else
      var i := FindPair(s[1..]);
      assert forall j :: 0 <= j < i ==> !PairAt(s[1..], j);
      assert forall j :: 1 <= j < i + 1 ==> PairAt(s, j) == PairAt(s[1..], j - 1);
      1 + i
  }

  function Split(s: string, c: char): (parts: seq<string>)
    ensures |parts| > 0
    decreases |s|
  {
    var i := Find(s, c);
    if i == |s| then [s] else [s[..i]] + Split(s[i + 1..], c)
  }

  function SplitPairs(s: string): (parts: seq<string>)
    ensures |parts| > 0
    decreases |s|
  {
    var i := FindPair(s);
    if i == |s| then [s] else [s[..i]] + SplitPairs(s[i + 2..])
  }

  function Join(parts: seq<string>): string {
    if parts == [] then "" else if |parts| == 1 then parts[0] else parts[0] + ":" + Join(parts[1..])
  }

  // ----- The function -----

  predicate Digits(s: string) {
    s != "" && forall c :: c in s ==> '0' <= c <= '9'
  }

  function Lower(c: char): char {
    if c == 'F' then 'f' else c
  }

  /** An IPv4 address mapped into IPv6. */
  function Mapped(address: string): Option<string> {
    if |address| > 7 && address[..3] == "::" + [address[2]] && (forall i :: 2 <= i < 6 ==> Lower(address[i]) == 'f')
       && address[6] == ':' && |Split(address[7..], '.')| == 4
       && forall p :: p in Split(address[7..], '.') ==> Digits(p)
    then Some(address[7..]) else None
  }

  function Groups(half: string): seq<string> {
    if half == "" then [] else Split(half, ':')
  }

  function Zeros(n: nat): (z: seq<string>)
    ensures |z| == n && forall i :: 0 <= i < n ==> z[i] == "0"
  {
    seq(n, _ => "0")
  }

  /** The first four groups, with the zeros that a double colon stands for put in. */
  function FromGroups(address: string, head: seq<string>, tail: seq<string>): string {
    if |head| + |tail| > 7 then address else Join((head + Zeros(8 - |head| - |tail|) + tail)[..4]) + "::/64"
  }

  function FromHalves(address: string, halves: seq<string>): string
    requires |halves| > 0
  {
    if |halves| > 2 then address
    else if |halves| == 2 then FromGroups(address, Groups(halves[0]), Groups(halves[1]))
    else if |Groups(halves[0])| != 8 then address
    else Join(Groups(halves[0])[..4]) + "::/64"
  }

  function Of(address: string): string {
    if Mapped(address).Some? then Mapped(address).value
    else if ':' !in address then address
    else FromHalves(address, SplitPairs(address))
  }

  // ----- Spellings of one address -----

  predicate HexGroup(g: string) {
    1 <= |g| <= 4 && forall c :: c in g ==> '0' <= c <= '9' || 'a' <= c <= 'f' || 'A' <= c <= 'F'
  }

  predicate HexGroups(gs: seq<string>) {
    forall g :: g in gs ==> HexGroup(g)
  }

  /** The address with the groups from `i` to `j` left to a double colon. */
  function Compressed(gs: seq<string>, i: nat, j: nat): string
    requires i <= j <= |gs|
  {
    Join(gs[..i]) + "::" + Join(gs[j..])
  }

  lemma {:induction false} FindAt(s: string, t: string, c: char)
    requires c !in s
    ensures Find(s + [c] + t, c) == |s|
  {
    var all := s + [c] + t;
    assert all[|s|] == c;
    assert forall j :: 0 <= j < |s| ==> all[j] == s[j];
  }

  lemma NoColon(g: string)
    requires HexGroup(g)
    ensures ':' !in g && '.' !in g && g != ""
  {
  }

  lemma {:induction false} SplitJoin(gs: seq<string>)
    requires gs != [] && HexGroups(gs)
    ensures Split(Join(gs), ':') == gs
  {
    NoColon(gs[0]);
    if |gs| == 1 {
      assert Find(gs[0], ':') == |gs[0]|;
    } else {
      FindAt(gs[0], Join(gs[1..]), ':');
      var s := Join(gs);
      assert s == gs[0] + [':'] + Join(gs[1..]);
      assert s[..|gs[0]|] == gs[0] && s[|gs[0]| + 1..] == Join(gs[1..]);
      SplitJoin(gs[1..]);
    }
  }

  /** Joined groups begin and end with a digit and hold no double colon. */
  ghost predicate Tight(s: string) {
    (s != "" ==> s[0] != ':' && s[|s| - 1] != ':') && forall i :: 0 <= i < |s| ==> !PairAt(s, i)
  }

  lemma {:induction false} JoinIsTight(gs: seq<string>)
    requires HexGroups(gs)
    ensures Tight(Join(gs)) && (gs != [] ==> Join(gs) != "")
  {
    if gs != [] {
      NoColon(gs[0]);
      if |gs| > 1 {
        var g, rest := gs[0], Join(gs[1..]);
        JoinIsTight(gs[1..]);
        var s := g + ":" + rest;
        forall i | 0 <= i < |s| ensures !PairAt(s, i) {
          if i > |g| {
            assert !PairAt(rest, i - |g| - 1);
          } else if i == |g| {
            assert s[i + 1] == rest[0];
          } else {
            assert s[i] == g[i];
          }
        }
      }
    }
  }

  lemma TightHasNoPair(s: string)
    requires Tight(s)
    ensures SplitPairs(s) == [s]
  {
  }

  lemma OnePair(a: string, b: string)
    requires Tight(a) && Tight(b)
    ensures SplitPairs(a + "::" + b) == [a, b]
  {
    var s := a + "::" + b;
    assert PairAt(s, |a|);
    forall j | 0 <= j < |a| ensures !PairAt(s, j) {
      assert !PairAt(a, j);
      assert s[j] == a[j];
    }
    assert FindPair(s) == |a|;
    assert s[..|a|] == a && s[|a| + 2..] == b;
    TightHasNoPair(b);
  }

  lemma {:induction false} NoDots(gs: seq<string>)
    requires HexGroups(gs)
    ensures '.' !in Join(gs)
  {
    if gs != [] {
      NoColon(gs[0]);
      NoDots(gs[1..]);
    }
  }

  lemma NotMapped(address: string)
    requires '.' !in address
    ensures Mapped(address) == None
  {
    if |address| > 7 {
      assert Find(address[7..], '.') == |address[7..]|;
    }
  }

  lemma FullForm(gs: seq<string>)
    requires |gs| == 8 && HexGroups(gs)
    ensures Of(Join(gs)) == Join(gs[..4]) + "::/64"
  {
    var s := Join(gs);
    NoDots(gs);
    NotMapped(s);
    JoinIsTight(gs);
    TightHasNoPair(s);
    SplitJoin(gs);
    assert ':' in s by { assert s == gs[0] + ":" + Join(gs[1..]); assert s[|gs[0]|] == ':'; }
  }

  lemma GroupsOfJoin(gs: seq<string>)
    requires HexGroups(gs)
    ensures Groups(Join(gs)) == gs
  {
    JoinIsTight(gs);
    if gs != [] { SplitJoin(gs); }
  }

  lemma Refilled(gs: seq<string>, i: nat, j: nat)
    requires i < j <= |gs| && forall k :: i <= k < j ==> gs[k] == "0"
    ensures gs[..i] + Zeros(j - i) + gs[j..] == gs
  {
  }

  lemma TwoHalves(a: seq<string>, b: seq<string>)
    requires HexGroups(a) && HexGroups(b)
    ensures var s := Join(a) + "::" + Join(b);
            Mapped(s) == None && ':' in s && SplitPairs(s) == [Join(a), Join(b)]
  {
    var s := Join(a) + "::" + Join(b);
    NoDots(a);
    NoDots(b);
    NotMapped(s);
    JoinIsTight(a);
    JoinIsTight(b);
    OnePair(Join(a), Join(b));
    assert s[|Join(a)|] == ':';
  }

  lemma OfHalves(s: string, x: string, y: string)
    requires Mapped(s) == None && ':' in s && SplitPairs(s) == [x, y]
    ensures Of(s) == FromGroups(s, Groups(x), Groups(y))
  {
  }

  lemma CompressedGroups(gs: seq<string>, i: nat, j: nat)
    requires |gs| == 8 && HexGroups(gs) && i < j <= 8
    ensures Of(Compressed(gs, i, j)) == FromGroups(Compressed(gs, i, j), gs[..i], gs[j..])
  {
    TwoHalves(gs[..i], gs[j..]);
    OfHalves(Compressed(gs, i, j), Join(gs[..i]), Join(gs[j..]));
    GroupsOfJoin(gs[..i]);
    GroupsOfJoin(gs[j..]);
  }

  lemma CompressedForm(gs: seq<string>, i: nat, j: nat)
    requires |gs| == 8 && HexGroups(gs) && i < j <= 8 && forall k :: i <= k < j ==> gs[k] == "0"
    ensures Of(Compressed(gs, i, j)) == Join(gs[..4]) + "::/64"
  {
    CompressedGroups(gs, i, j);
    Refilled(gs, i, j);
    assert 8 - |gs[..i]| - |gs[j..]| == j - i;
  }

  /** One network for every spelling: however its zero groups are compressed, an address
      gives what its full form gives. */
  lemma SpellingDoesNotMatter(gs: seq<string>, i: nat, j: nat)
    requires |gs| == 8 && HexGroups(gs) && i < j <= 8 && forall k :: i <= k < j ==> gs[k] == "0"
    ensures Of(Compressed(gs, i, j)) == Of(Join(gs))
  {
    FullForm(gs);
    CompressedForm(gs, i, j);
  }

  lemma {:induction false} JoinDetermines(gs: seq<string>, hs: seq<string>)
    requires gs != [] && hs != [] && HexGroups(gs) && HexGroups(hs) && Join(gs) == Join(hs)
    ensures gs == hs
  {
    SplitJoin(gs);
    SplitJoin(hs);
  }

  /** Two addresses share a result exactly when their first four groups are the same text. */
  lemma OneNetworkPerPrefix(gs: seq<string>, hs: seq<string>)
    requires |gs| == 8 && |hs| == 8 && HexGroups(gs) && HexGroups(hs)
    ensures Of(Join(gs)) == Of(Join(hs)) <==> gs[..4] == hs[..4]
  {
    FullForm(gs);
    FullForm(hs);
    var x, y := Join(gs[..4]), Join(hs[..4]);
    if x + "::/64" == y + "::/64" {
      assert |x| == |y| && (x + "::/64")[..|x|] == x && (y + "::/64")[..|y|] == y;
      JoinDetermines(gs[..4], hs[..4]);
    }
  }

  /** The groups' own text counts: a leading zero makes it another network. */
  lemma LeadingZeroMatters()
    ensures Of(Join(["2001", "db8", "0", "0", "0", "0", "0", "1"])) != Of(Join(["2001", "0db8", "0", "0", "0", "0", "0", "1"]))
  {
    var gs, hs := ["2001", "db8", "0", "0", "0", "0", "0", "1"], ["2001", "0db8", "0", "0", "0", "0", "0", "1"];
    OneNetworkPerPrefix(gs, hs);
    assert gs[..4][1] != hs[..4][1];
  }
}
