/** The snapshot of the MLS storage: a count, and for each entry its two lengths, its key
    and its value. Restoring reads it back without ever looking past the end. */
module Snapshot {
  import opened Envelopes
  import opened Fields

  type Entry = (Bytes, Bytes)

  // ----- The format -----

  function EntryBytes(e: Entry): Bytes {
    BigEndian(|e.0|, 8) + BigEndian(|e.1|, 8) + e.0 + e.1
  }

  function EntriesBytes(es: seq<Entry>): Bytes {
    if es == [] then [] else EntryBytes(es[0]) + EntriesBytes(es[1..])
  }

  function SnapshotBytes(es: seq<Entry>): Bytes {
    BigEndian(|es|, 8) + EntriesBytes(es)
  }

  /** Some order of the entries of a map. */
  ghost predicate Lists(es: seq<Entry>, m: map<Bytes, Bytes>) {
    && (forall i :: 0 <= i < |es| ==> es[i].0 in m && m[es[i].0] == es[i].1)
    && (forall k :: k in m ==> exists i :: 0 <= i < |es| && es[i].0 == k)
  }

  // ----- Reading -----

  function InsertAll(m: map<Bytes, Bytes>, es: seq<Entry>): map<Bytes, Bytes>
    decreases |es|
  {
    if es == [] then m else InsertAll(m[es[0].0 := es[0].1], es[1..])
  }

  /** One entry from the front. */
  function TakeEntry(s: Bytes): Option<(Entry, Bytes)> {
    if |s| < 16 then None
    else
      var k, v := FromBigEndian(s[..8]), FromBigEndian(s[8..16]);
      if |s| < 16 + k + v then None else Some(((s[16..16 + k], s[16 + k..16 + k + v]), s[16 + k + v..]))
  }

  function TakeEntries(m: map<Bytes, Bytes>, count: nat, s: Bytes): Option<map<Bytes, Bytes>>
    decreases count
  {
    if count == 0 then Some(m)
    else match TakeEntry(s)
      case None => None
      case Some((e, rest)) => TakeEntries(m[e.0 := e.1], count - 1, rest)
  }

  function Restored(s: Bytes): Option<map<Bytes, Bytes>> {
    if |s| < 8 then None else TakeEntries(map[], FromBigEndian(s[..8]), s[8..])
  }

  // ----- Round trip -----

  /** What the platform guarantees: a length fits in 64 bits. */
  ghost predicate Fits(es: seq<Entry>) {
    |es| < U64 && forall i :: 0 <= i < |es| ==> |es[i].0| < U64 && |es[i].1| < U64
  }

  lemma TakeRoundTrip(e: Entry, rest: Bytes)
    requires |e.0| < U64 && |e.1| < U64
    ensures TakeEntry(EntryBytes(e) + rest) == Some((e, rest))
  {
    var s := EntryBytes(e) + rest;
    Widths();
    NumberRoundTrip(|e.0|, 8);
    NumberRoundTrip(|e.1|, 8);
    assert s[..8] == BigEndian(|e.0|, 8) && s[8..16] == BigEndian(|e.1|, 8);
    assert s[16..16 + |e.0|] == e.0 && s[16 + |e.0|..16 + |e.0| + |e.1|] == e.1;
    assert s[16 + |e.0| + |e.1|..] == rest;
  }

  lemma FirstEntry(es: seq<Entry>, rest: Bytes)
    requires es != []
    ensures EntriesBytes(es) + rest == EntryBytes(es[0]) + (EntriesBytes(es[1..]) + rest)
  {
  }

  lemma {:induction false} EntriesRoundTrip(m: map<Bytes, Bytes>, es: seq<Entry>, rest: Bytes)
    requires Fits(es)
    ensures TakeEntries(m, |es|, EntriesBytes(es) + rest) == Some(InsertAll(m, es))
    decreases |es|
  {
    if es != [] {
      FirstEntry(es, rest);
      TakeRoundTrip(es[0], EntriesBytes(es[1..]) + rest);
      EntriesRoundTrip(m[es[0].0 := es[0].1], es[1..], rest);
    }
  }

  lemma {:induction false} InsertsAll(m: map<Bytes, Bytes>, es: seq<Entry>, all: map<Bytes, Bytes>)
    requires forall i :: 0 <= i < |es| ==> es[i].0 in all && all[es[i].0] == es[i].1
    requires forall k :: k in m ==> k in all && all[k] == m[k]
    requires forall k :: k in all ==> k in m || exists i :: 0 <= i < |es| && es[i].0 == k
    ensures InsertAll(m, es) == all
    decreases |es|
  {
    if es == [] {
      assert m.Keys == all.Keys;
    } else {
      var m' := m[es[0].0 := es[0].1];
      forall k | k in all ensures k in m' || exists i :: 0 <= i < |es[1..]| && es[1..][i].0 == k {
        if k !in m' {
          var i :| 0 <= i < |es| && es[i].0 == k;
          assert es[1..][i - 1].0 == k;
        }
      }
      InsertsAll(m', es[1..], all);
    }
  }

  /** The bytes list every entry of the map once, in some order. */
  ghost predicate IsSnapshot(bytes: Bytes, m: map<Bytes, Bytes>) {
    exists es :: Lists(es, m) && |es| == |m| && bytes == SnapshotBytes(es)
  }

  /** Restoring a snapshot gives the map back, in whichever order it was listed; bytes
      behind the snapshot are not looked at. */
  lemma SnapshotRoundTrip(es: seq<Entry>, m: map<Bytes, Bytes>, rest: Bytes)
    requires Fits(es) && Lists(es, m)
    ensures Restored(SnapshotBytes(es) + rest) == Some(m)
  {
    var s := SnapshotBytes(es) + rest;
    Widths();
    NumberRoundTrip(|es|, 8);
    assert s[..8] == BigEndian(|es|, 8) && s[8..] == EntriesBytes(es) + rest;
    EntriesRoundTrip(map[], es, rest);
    InsertsAll(map[], es, m);
  }

  // ----- No strict prefix is accepted -----

  lemma TakeStarves(e: Entry, part: Bytes)
    requires |e.0| < U64 && |e.1| < U64 && part < EntryBytes(e)
    ensures TakeEntry(part) == None
  {
    if |part| >= 16 {
      Widths();
      NumberRoundTrip(|e.0|, 8);
      NumberRoundTrip(|e.1|, 8);
      var s := EntryBytes(e);
      assert part[..8] == s[..8] == BigEndian(|e.0|, 8) && part[8..16] == s[8..16] == BigEndian(|e.1|, 8);
    }
  }

  lemma {:induction false} EntriesStarve(m: map<Bytes, Bytes>, es: seq<Entry>, part: Bytes)
    requires Fits(es) && part < EntriesBytes(es)
    ensures TakeEntries(m, |es|, part) == None
    decreases |es|
  {
    var first, more := EntryBytes(es[0]), EntriesBytes(es[1..]);
    if |part| < |first| {
      assert part < first;
      TakeStarves(es[0], part);
    } else {
      assert part == first + part[|first|..] && part[|first|..] < more;
      TakeRoundTrip(es[0], part[|first|..]);
      EntriesStarve(m[es[0].0 := es[0].1], es[1..], part[|first|..]);
    }
  }

  /** A snapshot that was cut short anywhere is rejected. */
  lemma PrefixIsRejected(es: seq<Entry>, part: Bytes)
    requires Fits(es) && part < SnapshotBytes(es)
    ensures Restored(part) == None
  {
    if |part| >= 8 {
      var s := SnapshotBytes(es);
      Widths();
      NumberRoundTrip(|es|, 8);
      assert part[..8] == s[..8] == BigEndian(|es|, 8);
      assert s[8..] == EntriesBytes(es) && part[8..] < s[8..];
      EntriesStarve(map[], es, part[8..]);
    }
  }

  // ----- The storage -----

  class Storage {
    var values: map<Bytes, Bytes>

    constructor ()
      ensures values == map[]
    {
      values := map[];
    }

    /** Walks the map in an order of its own. */
    method TakeSnapshot() returns (out: Bytes)
      ensures IsSnapshot(out, values)
    {
      var body: Bytes := [];
      ghost var es: seq<Entry> := [];
      var rest := values.Keys;
      while rest != {}
        invariant rest <= values.Keys && |es| + |rest| == |values|
        invariant body == EntriesBytes(es) && Walked(es, values, rest)
      {
        var k :| k in rest;
        OneMoreEntry(es, (k, values[k]));
        WalkOn(es, values, rest, k);
        body := body + (BigEndian(|k|, 8) + BigEndian(|values[k]|, 8) + k + values[k]);
        rest, es := rest - {k}, es + [(k, values[k])];
      }
      out := BigEndian(|values|, 8) + body;
      assert out == SnapshotBytes(es) && Lists(es, values);
    }

    /** Clears the storage once the count is read, and inserts the entries as they come;
        a broken snapshot leaves what came before the break. */
    method RestoreFrom(snapshot: Bytes) returns (ok: bool)
      modifies this
      ensures ok <==> Restored(snapshot).Some?
      ensures ok ==> values == Restored(snapshot).value
      ensures |snapshot| < 8 ==> values == old(values)
    {
      if |snapshot| < 8 { return false; }
      var count: nat, cursor: nat := FromBigEndian(snapshot[..8]), 8;
      values := map[];
      var left := count;
      while left > 0
        invariant 8 <= cursor <= |snapshot|
        invariant Restored(snapshot) == TakeEntries(values, left, snapshot[cursor..])
      {
        if |snapshot| - cursor < 16 { return false; }
        var keyLen, valueLen := FromBigEndian(snapshot[cursor..cursor + 8]), FromBigEndian(snapshot[cursor + 8..cursor + 16]);
        OneEntry(snapshot, cursor);
        if cursor + 16 + keyLen > |snapshot| { return false; }
        if cursor + 16 + keyLen + valueLen > |snapshot| { return false; }
        var key := snapshot[cursor + 16..cursor + 16 + keyLen];
        var value := snapshot[cursor + 16 + keyLen..cursor + 16 + keyLen + valueLen];
        values := values[key := value];
        cursor := cursor + 16 + keyLen + valueLen;
        left := left - 1;
      }
      ok := true;
    }
  }

  ghost predicate Walked(es: seq<Entry>, m: map<Bytes, Bytes>, rest: set<Bytes>) {
    && (forall i :: 0 <= i < |es| ==> es[i].0 in m && m[es[i].0] == es[i].1)
    && (forall k :: k in m ==> k in rest || exists i :: 0 <= i < |es| && es[i].0 == k)
  }

  lemma WalkOn(es: seq<Entry>, m: map<Bytes, Bytes>, rest: set<Bytes>, k: Bytes)
    requires Walked(es, m, rest) && k in rest && k in m
    ensures Walked(es + [(k, m[k])], m, rest - {k})
  {
    var more := es + [(k, m[k])];
    assert more[|es|].0 == k;
    forall j | j in m ensures j in rest - {k} || exists i :: 0 <= i < |more| && more[i].0 == j {
      if j !in rest {
        var i :| 0 <= i < |es| && es[i].0 == j;
        assert more[i].0 == j;
      }
    }
  }

  lemma {:induction false} OneMoreEntry(es: seq<Entry>, e: Entry)
    ensures EntriesBytes(es + [e]) == EntriesBytes(es) + EntryBytes(e)
  {
    if es == [] {
      assert [e][1..] == [];
    } else {
      assert (es + [e])[1..] == es[1..] + [e];
      OneMoreEntry(es[1..], e);
      assert EntryBytes(es[0]) + (EntriesBytes(es[1..]) + EntryBytes(e)) == EntriesBytes(es) + EntryBytes(e);
    }
  }

  lemma OneEntry(s: Bytes, at: nat)
    requires at + 16 <= |s|
    ensures var k, v := FromBigEndian(s[at..at + 8]), FromBigEndian(s[at + 8..at + 16]);
            TakeEntry(s[at..]) ==
              if at + 16 + k + v > |s| then None
              else Some(((s[at + 16..at + 16 + k], s[at + 16 + k..at + 16 + k + v]), s[at + 16 + k + v..]))
  {
    var t := s[at..];
    assert t[..8] == s[at..at + 8] && t[8..16] == s[at + 8..at + 16];
    var k, v := FromBigEndian(t[..8]), FromBigEndian(t[8..16]);
    if at + 16 + k + v <= |s| {
      assert t[16..16 + k] == s[at + 16..at + 16 + k] && t[16 + k..16 + k + v] == s[at + 16 + k..at + 16 + k + v];
      assert t[16 + k + v..] == s[at + 16 + k + v..];
    }
  }

  /** What is taken from one storage another storage takes over. */
  method Transfer(from: Storage, to: Storage) returns (ok: bool)
    requires |from.values| < U64 && forall k :: k in from.values ==> |k| < U64 && |from.values[k]| < U64
    modifies to
    ensures ok && to.values == old(from.values)
  {
    var bytes := from.TakeSnapshot();
    ghost var es :| Lists(es, from.values) && |es| == |from.values| && bytes == SnapshotBytes(es);
    assert bytes + [] == bytes;
    SnapshotRoundTrip(es, from.values, []);
    ok := to.RestoreFrom(bytes);
  }
}
