/** The records that the durable outbox stores, shared by the scheduler, the
    outbox, the sending protocol and the first-contact protocol. */
module Envelopes {

  datatype Option<+T> = None | Some(value: T)

  type Byte = b: int | 0 <= b < 0x100
  type Bytes = seq<Byte>

  type Ref = Bytes
  type Device = Bytes

  datatype Kind = Message | Essential | Ephemeral

  /** An opaque MLS ciphertext. What the model needs of it is which group and which
      ratchet position produced it, and how many bytes it takes in the queue. */
  datatype Ciphertext =
    | Application(group: Bytes, position: nat, text: Bytes, size: nat)
    | Commit(group: Bytes, position: nat, size: nat)
    | Welcome(group: Bytes, size: nat)

  datatype Envelope = Envelope(
    authenticated: bool,
    priority: nat,
    queuedAt: int,
    clientRef: Ref,
    device: Device,
    conversation: Bytes,
    logicalId: Option<Bytes>,
    ciphertext: Ciphertext,
    kind: Kind,
    expiresAt: Option<int>)

  /** The envelope as it was created, whatever lifetime it has been given since. */
  function Undated(e: Envelope): Envelope {
    e.(expiresAt := None)
  }

  function Refs(q: seq<Envelope>): (refs: set<Ref>)
    ensures forall i :: 0 <= i < |q| ==> q[i].clientRef in refs
    ensures forall r :: r in refs ==> exists i :: 0 <= i < |q| && q[i].clientRef == r
  {
    set i | 0 <= i < |q| :: q[i].clientRef
  }

  ghost predicate UniqueRefs(q: seq<Envelope>) {
    forall i, j :: 0 <= i < j < |q| ==> q[i].clientRef != q[j].clientRef
  }

  function TotalSize(q: seq<Envelope>): nat {
    if q == [] then 0 else TotalSize(q[..|q| - 1]) + q[|q| - 1].ciphertext.size
  }

  /** Retaining the items that satisfy a condition, in their order. */
  function Retain(q: seq<Envelope>, keep: Envelope -> bool): (r: seq<Envelope>) {
    if q == [] then []
    else
      var rest := Retain(q[..|q| - 1], keep);
      if keep(q[|q| - 1]) then rest + [q[|q| - 1]] else rest
  }

  lemma {:induction false} SubsetSize<T>(a: set<T>, b: set<T>)
    requires a <= b
    ensures |a| <= |b|
  {
    if a != {} {
      var x :| x in a;
      SubsetSize(a - {x}, b - {x});
    }
  }
}
