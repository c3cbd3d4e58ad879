/** How an account travels from one device to another: every payload is a length and then
    its bytes in frames of bounded size, and an empty payload ends the stream. */
module PairingStream {
  import opened Envelopes
  import opened Fields

  const MAX_FRAME := 4096
  const TAG := 16
  const CHUNK := MAX_FRAME - TAG
  const MAX_PAYLOAD := 2 * 1024 * 1024
  const MAX_RECORD := 16 * 1024 * 1024

  // ----- The frames of a stream -----

  function Header(n: nat): (h: Bytes)
    ensures |h| == 4
  {
    BigEndian(n, 4)
  }

  function HeaderValue(h: Bytes): nat {
    FromBigEndian(h)
  }

  lemma HeaderRoundTrip(n: nat)
    requires n < U32
    ensures HeaderValue(Header(n)) == n
  {
    Widths();
    NumberRoundTrip(n, 4);
  }

  function Chunks(p: Bytes): (fs: seq<Bytes>)
    ensures forall f :: f in fs ==> 1 <= |f| <= CHUNK
  {
    if p == [] then [] else if |p| <= CHUNK then [p] else [p[..CHUNK]] + Chunks(p[CHUNK..])
  }

  predicate Sendable(p: Bytes) {
    1 <= |p| <= MAX_RECORD
  }

  function Frames(p: Bytes): (fs: seq<Bytes>)
    requires Sendable(p)
  {
    [Header(|p|)] + Chunks(p)
  }

  /** The records, and the empty payload that ends them. */
  function RecordFrames(records: seq<Bytes>): seq<Bytes>
    requires forall r :: r in records ==> Sendable(r)
  {
    if records == [] then [Header(0)] else Frames(records[0]) + RecordFrames(records[1..])
  }

  /** What the source writes for a whole account. */
  function Stream(p: Bytes, records: seq<Bytes>): seq<Bytes>
    requires Sendable(p) && forall r :: r in records ==> Sendable(r)
  {
    Frames(p) + RecordFrames(records)
  }

  // ----- What a receiver makes of frames -----

  datatype Reading = Got(payload: Bytes, rest: seq<Bytes>) | Starved | Malformed

  function Collect(acc: Bytes, len: nat, frames: seq<Bytes>): Reading
    decreases |frames|
  {
    if |acc| >= len then Got(acc, frames)
    else if frames == [] then Starved
    else if frames[0] == [] || |frames[0]| > len - |acc| then Malformed
    else Collect(acc + frames[0], len, frames[1..])
  }

  function Read(frames: seq<Bytes>): Reading {
    if frames == [] then Starved
    else if |frames[0]| != 4 || HeaderValue(frames[0]) > MAX_RECORD then Malformed
    else Collect([], HeaderValue(frames[0]), frames[1..])
  }

  datatype Transfer = Whole(payload: Bytes, records: seq<Bytes>, rest: seq<Bytes>) | Cut | Invalid

  function ReadRecords(payload: Bytes, records: seq<Bytes>, frames: seq<Bytes>): Transfer
    decreases |frames|
  {
    match Read(frames)
    case Starved => Cut
    case Malformed => Invalid
    case Got(record, rest) =>
      ReadShortens(frames);
      if record == [] then Whole(payload, records, rest) else ReadRecords(payload, records + [record], rest)
  }

  function ReadAccount(frames: seq<Bytes>): Transfer {
    match Read(frames)
    case Starved => Cut
    case Malformed => Invalid
    case Got(payload, rest) =>
      if payload == [] || |payload| > MAX_PAYLOAD then Invalid else ReadRecords(payload, [], rest)
  }

  lemma {:induction false} CollectShortens(acc: Bytes, len: nat, frames: seq<Bytes>)
    requires Collect(acc, len, frames).Got?
    ensures |Collect(acc, len, frames).rest| <= |frames|
    decreases |frames|
  {
    if |acc| < len {
      CollectShortens(acc + frames[0], len, frames[1..]);
    }
  }

  lemma ReadShortens(frames: seq<Bytes>)
    requires Read(frames).Got?
    ensures |Read(frames).rest| < |frames|
  {
    CollectShortens([], HeaderValue(frames[0]), frames[1..]);
  }

  // ----- Round trip, and nothing but the whole stream -----

  lemma {:induction false} CollectRoundTrip(acc: Bytes, p: Bytes, rest: seq<Bytes>)
    ensures Collect(acc, |acc| + |p|, Chunks(p) + rest) == Got(acc + p, rest)
    decreases |p|
  {
    var frames := Chunks(p) + rest;
    if p == [] {
      assert frames == rest && acc + p == acc;
    } else if |p| <= CHUNK {
      assert frames[0] == p && frames[1..] == rest;
    } else {
      assert frames[0] == p[..CHUNK] && frames[1..] == Chunks(p[CHUNK..]) + rest;
      CollectRoundTrip(acc + p[..CHUNK], p[CHUNK..], rest);
      assert acc + p[..CHUNK] + p[CHUNK..] == acc + p;
    }
  }

  lemma {:induction false} CollectStarves(acc: Bytes, p: Bytes, part: seq<Bytes>)
    requires part < Chunks(p)
    ensures Collect(acc, |acc| + |p|, part) == Starved
    decreases |p|
  {
    if part != [] {
      assert part[0] == p[..CHUNK] && |p| > CHUNK;
      CollectStarves(acc + p[..CHUNK], p[CHUNK..], part[1..]);
    }
  }

  lemma ReadRoundTrip(p: Bytes, rest: seq<Bytes>)
    requires Sendable(p)
    ensures Read(Frames(p) + rest) == Got(p, rest)
  {
    var frames := Frames(p) + rest;
    assert frames[0] == Header(|p|) && frames[1..] == Chunks(p) + rest;
    HeaderRoundTrip(|p|);
    CollectRoundTrip([], p, rest);
    assert [] + p == p;
  }

  lemma ReadStarves(p: Bytes, part: seq<Bytes>)
    requires Sendable(p) && part < Frames(p)
    ensures Read(part) == Starved
  {
    if part != [] {
      assert part[0] == Header(|p|) && part[1..] < Chunks(p);
      HeaderRoundTrip(|p|);
      CollectStarves([], p, part[1..]);
    }
  }

  lemma ReadEnd(rest: seq<Bytes>)
    ensures Read([Header(0)] + rest) == Got([], rest)
  {
    HeaderRoundTrip(0);
    assert ([Header(0)] + rest)[1..] == rest;
  }

  lemma Regroup<T>(a: seq<T>, b: seq<T>, c: seq<T>)
    ensures a + b + c == a + (b + c)
  {
  }

  lemma FirstRecord(records: seq<Bytes>, rest: seq<Bytes>)
    requires records != [] && forall r :: r in records ==> Sendable(r)
    ensures RecordFrames(records) + rest == Frames(records[0]) + (RecordFrames(records[1..]) + rest)
  {
    Regroup(Frames(records[0]), RecordFrames(records[1..]), rest);
  }

  lemma ReadMore(p: Bytes, done: seq<Bytes>, record: Bytes, rest: seq<Bytes>)
    requires Sendable(record)
    ensures ReadRecords(p, done, Frames(record) + rest) == ReadRecords(p, done + [record], rest)
  {
    ReadRoundTrip(record, rest);
  }

  lemma ReadLast(p: Bytes, done: seq<Bytes>, rest: seq<Bytes>)
    ensures ReadRecords(p, done, [Header(0)] + rest) == Whole(p, done, rest)
  {
    ReadEnd(rest);
  }

  lemma Listed<T>(done: seq<T>, records: seq<T>)
    ensures records != [] ==> done + [records[0]] + records[1..] == done + records
    ensures done + [] == done
  {
  }

  lemma {:induction false} RecordsRoundTrip(p: Bytes, done: seq<Bytes>, records: seq<Bytes>, rest: seq<Bytes>)
    requires forall r :: r in records ==> Sendable(r)
    ensures ReadRecords(p, done, RecordFrames(records) + rest) == Whole(p, done + records, rest)
    decreases |records|
  {
    Listed(done, records);
    if records == [] {
      ReadLast(p, done, rest);
    } else {
      FirstRecord(records, rest);
      ReadMore(p, done, records[0], RecordFrames(records[1..]) + rest);
      RecordsRoundTrip(p, done + [records[0]], records[1..], rest);
    }
  }

  /** The receiver rebuilds exactly the payload and the records that were sent. */
  lemma StreamRoundTrip(p: Bytes, records: seq<Bytes>, rest: seq<Bytes>)
    requires 1 <= |p| <= MAX_PAYLOAD && forall r :: r in records ==> Sendable(r)
    ensures ReadAccount(Stream(p, records) + rest) == Whole(p, records, rest)
  {
    var more := RecordFrames(records) + rest;
    assert Stream(p, records) + rest == Frames(p) + more;
    ReadRoundTrip(p, more);
    RecordsRoundTrip(p, [], records, rest);
    assert [] + records == records;
  }

  lemma {:induction false} RecordsStarve(p: Bytes, done: seq<Bytes>, records: seq<Bytes>, part: seq<Bytes>)
    requires forall r :: r in records ==> Sendable(r)
    requires part < RecordFrames(records)
    ensures ReadRecords(p, done, part) == Cut
    decreases |records|
  {
    if records != [] {
      var first, more := Frames(records[0]), RecordFrames(records[1..]);
      BeginningSplits(part, first, more);
      if |part| < |first| {
        ReadStarves(records[0], part);
      } else {
        ReadMore(p, done, records[0], part[|first|..]);
        RecordsStarve(p, done + [records[0]], records[1..], part[|first|..]);
      }
    }
  }

  /** A stream that is cut anywhere never reaches the installation. */
  lemma PrefixNeverInstalls(p: Bytes, records: seq<Bytes>, part: seq<Bytes>)
    requires 1 <= |p| <= MAX_PAYLOAD && forall r :: r in records ==> Sendable(r)
    requires part < Stream(p, records)
    ensures ReadAccount(part) == Cut
  {
    var first, more := Frames(p), RecordFrames(records);
    if |part| < |first| {
      assert part < first;
      ReadStarves(p, part);
    } else {
      assert part == first + part[|first|..] && part[|first|..] < more;
      ReadRoundTrip(p, part[|first|..]);
      RecordsStarve(p, [], records, part[|first|..]);
    }
  }

  // ----- What has arrived so far -----

  function ItemFrames(item: Bytes): seq<Bytes>
    requires |item| <= MAX_RECORD
  {
    if item == [] then [Header(0)] else Frames(item)
  }

  /** Payloads and ends on the wire, one after another. */
  function Wire(items: seq<Bytes>): seq<Bytes>
    requires forall i :: i in items ==> |i| <= MAX_RECORD
  {
    if items == [] then [] else ItemFrames(items[0]) + Wire(items[1..])
  }

  /** What a receiver has put together from the frames so far. */
  function Heard(frames: seq<Bytes>): seq<Bytes>
    decreases |frames|
  {
    match Read(frames)
    case Got(p, rest) => ReadShortens(frames); [p] + Heard(rest)
    case _ => []
  }

  lemma ReadItem(item: Bytes, rest: seq<Bytes>)
    requires |item| <= MAX_RECORD
    ensures Read(ItemFrames(item) + rest) == Got(item, rest)
  {
    if item == [] { ReadEnd(rest); } else { ReadRoundTrip(item, rest); }
  }

  lemma ShortItemStarves(item: Bytes, part: seq<Bytes>)
    requires |item| <= MAX_RECORD && part < ItemFrames(item)
    ensures Heard(part) == []
  {
    if item != [] { ReadStarves(item, part); }
  }

  lemma HeardOneMore(item: Bytes, rest: seq<Bytes>)
    requires |item| <= MAX_RECORD
    ensures Heard(ItemFrames(item) + rest) == [item] + Heard(rest)
  {
    ReadItem(item, rest);
  }

  lemma BeginningSplits<T>(part: seq<T>, a: seq<T>, b: seq<T>)
    requires part <= a + b
    ensures |part| < |a| ==> part < a
    ensures |part| >= |a| ==> part == a + part[|a|..] && part[|a|..] <= b
  {
    if |part| >= |a| {
      assert part[..|a|] == (a + b)[..|a|] == a && part[|a|..] == (a + b)[|a|..|part|] == b[..|part| - |a|];
    }
  }

  /** Whatever part of the frames has arrived, what the receiver has put together is a
      beginning of what was sent, and all of it once all frames are there. */
  lemma {:induction false} HeardIsABeginning(items: seq<Bytes>, part: seq<Bytes>)
    requires (forall i :: i in items ==> |i| <= MAX_RECORD) && part <= Wire(items)
    ensures Heard(part) <= items && (part == Wire(items) ==> Heard(part) == items)
    decreases |items|
  {
    if items != [] {
      var first, more := ItemFrames(items[0]), Wire(items[1..]);
      BeginningSplits(part, first, more);
      if |part| < |first| {
        ShortItemStarves(items[0], part);
      } else {
        var rest := part[|first|..];
        HeardOneMore(items[0], rest);
        HeardIsABeginning(items[1..], rest);
        BeginningGrows(items, Heard(rest));
        assert part == Wire(items) ==> rest == more;
      }
    }
  }

  lemma BeginningGrows<T>(items: seq<T>, heard: seq<T>)
    requires items != [] && heard <= items[1..]
    ensures [items[0]] + heard <= items && (heard == items[1..] ==> [items[0]] + heard == items)
  {
  }

  /** Every frame fits: with its tag it is at least 17 and at most 4096 bytes. */
  lemma {:induction false} FramesFit(p: Bytes, records: seq<Bytes>, f: Bytes)
    requires Sendable(p) && (forall r :: r in records ==> Sendable(r)) && f in Stream(p, records)
    ensures 17 <= |f| + TAG <= MAX_FRAME
    decreases |records|
  {
    if records != [] && f in RecordFrames(records) {
      FramesFit(records[0], records[1..], f);
    }
  }

  function Flatten(frames: seq<Bytes>): Bytes {
    if frames == [] then [] else frames[0] + Flatten(frames[1..])
  }

  /** However the bytes were cut into frames, a payload is accepted exactly when it is
      the frames behind its length, none of them empty, put together. */
  lemma {:induction false} CollectIsExact(acc: Bytes, len: nat, frames: seq<Bytes>) returns (used: nat)
    requires Collect(acc, len, frames).Got? && |acc| <= len
    ensures used <= |frames| && Collect(acc, len, frames).rest == frames[used..]
    ensures Collect(acc, len, frames).payload == acc + Flatten(frames[..used])
    ensures |Collect(acc, len, frames).payload| == len
    ensures forall f :: f in frames[..used] ==> f != []
    decreases |frames|
  {
    if |acc| >= len {
      used := 0;
    } else {
      var n := CollectIsExact(acc + frames[0], len, frames[1..]);
      used := n + 1;
      assert frames[..used] == [frames[0]] + frames[1..][..n];
      assert acc + frames[0] + Flatten(frames[1..][..n]) == acc + Flatten(frames[..used]);
    }
  }

  // ----- The loops -----

  /** One direction of the channel, which is ideal: authenticated plaintexts arrive in
      order until it breaks. */
  class Channel {
    var frames: seq<Bytes>

    constructor ()
      ensures frames == []
    {
      frames := [];
    }

    /** A frame that is too long is refused; otherwise the connection may break. */
    method Send(plain: Bytes) returns (ok: bool)
      modifies this
      ensures ok ==> |plain| + TAG <= MAX_FRAME
      ensures frames == if ok then old(frames) + [plain] else old(frames)
    {
      ok := *;
      ok := ok && |plain| + TAG <= MAX_FRAME;
      if ok { frames := frames + [plain]; }
    }

    method Receive() returns (frame: Option<Bytes>)
      modifies this
      ensures old(frames) == [] ==> frame == None && frames == []
      ensures old(frames) != [] ==> frame == Some(old(frames)[0]) && frames == old(frames)[1..]
    {
      if frames == [] { return None; }
      frame := Some(frames[0]);
      frames := frames[1..];
    }

    /** Writes the payload in chunks; `sent` is what got through. */
    method SendChunks(p: Bytes) returns (ok: bool, ghost sent: seq<Bytes>)
      modifies this
      ensures frames == old(frames) + sent
      ensures ok ==> sent == Chunks(p)
      ensures !ok ==> sent < Chunks(p)
    {
      var at := 0;
      ok, sent := true, [];
      assert p[0..] == p;
      while at < |p|
        invariant at <= |p| && ok && frames == old(frames) + sent
        invariant Chunks(p) == sent + Chunks(p[at..])
      {
        var end := if at + CHUNK < |p| then at + CHUNK else |p|;
        NextChunk(p, at);
        Regroup(sent, [p[at..end]], Chunks(p[end..]));
        ok := Send(p[at..end]);
        if !ok { return; }
        sent := sent + [p[at..end]];
        at := end;
      }
      assert p[at..] == [];
    }

    /** Whatever happens, what was written is a prefix of the payload's frames. */
    method SendPayload(p: Bytes) returns (ok: bool)
      modifies this
      ensures ok ==> Sendable(p) && frames == old(frames) + Frames(p)
      ensures !Sendable(p) ==> frames == old(frames)
      ensures !ok && Sendable(p) ==> exists part :: part < Frames(p) && frames == old(frames) + part
    {
      if |p| == 0 || |p| > MAX_RECORD { return false; }
      ok := Send(Header(|p|));
      if !ok {
        assert frames == old(frames) + [];
        return;
      }
      ghost var sent;
      ok, sent := SendChunks(p);
      Regroup(old(frames), [Header(|p|)], sent);
      assert ok || [Header(|p|)] + sent < Frames(p);
    }

    method ReceivePayload() returns (r: Option<Bytes>)
      modifies this
      ensures r == if Read(old(frames)).Got? then Some(Read(old(frames)).payload) else None
      ensures r.Some? ==> frames == Read(old(frames)).rest
    {
      var header := Receive();
      if header == None || |header.value| != 4 { return None; }
      var len := HeaderValue(header.value);
      if len > MAX_RECORD { return None; }
      var payload: Bytes := [];
      while |payload| < len
        invariant |payload| <= len
        invariant Collect([], len, old(frames)[1..]) == Collect(payload, len, frames)
        decreases |frames|
      {
        var chunk := Receive();
        if chunk == None || |chunk.value| == 0 || |chunk.value| > len - |payload| { return None; }
        payload := payload + chunk.value;
      }
      r := Some(payload);
    }

    /** Payload and records until the empty payload that ends the stream. */
    method ReceiveAccount() returns (r: Option<(Bytes, seq<Bytes>)>)
      modifies this
      ensures r.Some? <==> ReadAccount(old(frames)).Whole?
      ensures r.Some? ==>
        var t := ReadAccount(old(frames)); r.value == (t.payload, t.records) && frames == t.rest
    {
      var payload := ReceivePayload();
      if payload == None || |payload.value| == 0 || |payload.value| > MAX_PAYLOAD { return None; }
      var records: seq<Bytes> := [];
      while true
        invariant ReadAccount(old(frames)) == ReadRecords(payload.value, records, frames)
        decreases |frames|
      {
        ghost var before := frames;
        var record := ReceivePayload();
        if record == None { return None; }
        ReadShortens(before);
        if |record.value| == 0 { break; }
        records := records + [record.value];
      }
      r := Some((payload.value, records));
    }
  }

  lemma NextChunk(p: Bytes, at: nat)
    requires at < |p|
    ensures var end := if at + CHUNK < |p| then at + CHUNK else |p|;
            Chunks(p[at..]) == [p[at..end]] + Chunks(p[end..])
  {
    var rest := p[at..];
    if |rest| > CHUNK {
      assert rest[..CHUNK] == p[at..at + CHUNK] && rest[CHUNK..] == p[at + CHUNK..];
    } else {
      assert rest == p[at..|p|] && p[|p|..] == [] && Chunks(p[|p|..]) == [];
    }
  }
}
