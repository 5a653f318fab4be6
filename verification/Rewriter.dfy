/** Renumbering of the packets of several simulcast layers into one outgoing stream. */
module Rewriter {
  import opened Bits
  import opened Counter
  import opened Identifiers

  type Byte = x: nat | x < 256

  /** `payload` is everything that the rewriter does not look at. */
  datatype Packet = Packet(ssrc: uint32, ids: TruncatedIds, payload: seq<Byte>)

  const HALF16: nat := 0x8000
  const HALF32: nat := 0x8000_0000

  // ---------------------------------------------------------------------------------------------
  // Specification on values
  // ---------------------------------------------------------------------------------------------

  datatype Forwarding = Forwarding(
    ssrc: uint32,
    firstIncoming: ExpandedIds,
    latestIncoming: ExpandedIds,
    firstOutgoing: ExpandedIds)

  datatype State = State(latestOutgoing: ExpandedIds, forwarding: Forwarding)

  const ZERO := ExpandedIds(0, 0)
  const INITIAL := State(ZERO, Forwarding(0, ZERO, ZERO, ZERO))

  function ExpandIds(ids: TruncatedIds, latest: ExpandedIds): ExpandedIds {
    ExpandedIds(Expand(ids.timestamp, HALF32, latest.timestamp),
                ToUint32(Expand(ids.sequenceNumber, HALF16, latest.sequenceNumber)))
  }

  function LatestIds(ids: TruncatedIds, latest: ExpandedIds): ExpandedIds {
    ExpandedIds(ExpandedLatest(ids.timestamp, HALF32, latest.timestamp),
                ToUint32(ExpandedLatest(ids.sequenceNumber, HALF16, latest.sequenceNumber)))
  }

  function Forward(
    f: Forwarding, ssrc: uint32, ids: TruncatedIds, latestOutgoing: ExpandedIds
  ): (Forwarding, ExpandedIds)
  {
    if f.ssrc != ssrc then SwitchLayer(f, ssrc, ids, latestOutgoing)
    else
      (f.(latestIncoming := LatestIds(ids, f.latestIncoming)),
       f.firstOutgoing.Add(ExpandIds(ids, f.latestIncoming).Sub(f.firstIncoming)))
  }

  function SwitchLayer(
    f: Forwarding, ssrc: uint32, ids: TruncatedIds, latestOutgoing: ExpandedIds
  ): (Forwarding, ExpandedIds)
  {
    var first := ExpandedIds(ids.timestamp, ids.sequenceNumber);
    var outgoing := latestOutgoing.Add(if f.ssrc != 0 then ExpandedIds(1, 2) else ZERO);
    (Forwarding(ssrc, first, first, outgoing), outgoing)
  }

  /** One packet: the new state and the expanded outgoing identifiers. */
  function Step(s: State, p: Packet): (State, ExpandedIds) {
    var (f, outgoing) := Forward(s.forwarding, p.ssrc, p.ids, s.latestOutgoing);
    (State(s.latestOutgoing.Max(outgoing), f), outgoing)
  }

  function Rewritten(s: State, p: Packet): Packet {
    p.(ids := Step(s, p).1.Truncate())
  }

  lemma HalfWindows()
    ensures HalfOf(16) == HALF16 && HalfOf(32) == HALF32
  {
    Pow2Values();
  }

  // ---------------------------------------------------------------------------------------------
  // The objects
  // ---------------------------------------------------------------------------------------------

  class ForwardingState {
    var ssrc: uint32
    var firstIncoming: ExpandedIds
    var latestIncoming: ExpandedIds
    var firstOutgoing: ExpandedIds

    constructor ()
      ensures Contents() == INITIAL.forwarding
    {
      ssrc := 0;
      firstIncoming, latestIncoming, firstOutgoing := ZERO, ZERO, ZERO;
    }

    ghost function Contents(): Forwarding
      reads this
    {
      Forwarding(ssrc, firstIncoming, latestIncoming, firstOutgoing)
    }

    method Process(newSsrc: uint32, incoming: TruncatedIds, latestOutgoing: ExpandedIds) returns (outgoing: ExpandedIds)
      modifies this
      ensures (Contents(), outgoing) == Forward(old(Contents()), newSsrc, incoming, latestOutgoing)
    {
      if ssrc != newSsrc {
        outgoing := Reset(newSsrc, incoming, latestOutgoing);
        return;
      }
      HalfWindows();
      var latestSequenceNumber := new Latest(latestIncoming.sequenceNumber);
      var wide := ExpandCounter(incoming.sequenceNumber, 16, latestSequenceNumber);
      var expandedSequenceNumber: uint32 := ToUint32(wide);
      latestIncoming := latestIncoming.(sequenceNumber := ToUint32(latestSequenceNumber.value));

      var latestTimestamp := new Latest(latestIncoming.timestamp);
      var expandedTimestamp := ExpandCounter(incoming.timestamp, 32, latestTimestamp);
      latestIncoming := latestIncoming.(timestamp := latestTimestamp.value);

      var delta := ExpandedIds(expandedTimestamp, expandedSequenceNumber).Sub(firstIncoming);
      outgoing := firstOutgoing.Add(delta);
    }

    method Reset(newSsrc: uint32, incoming: TruncatedIds, latestOutgoing: ExpandedIds) returns (outgoing: ExpandedIds)
      modifies this
      ensures (Contents(), outgoing) == SwitchLayer(old(Contents()), newSsrc, incoming, latestOutgoing)
    {
      firstIncoming := ExpandedIds(incoming.timestamp, incoming.sequenceNumber);
      latestIncoming := firstIncoming;
      var delta: ExpandedIds;
      if ssrc != 0 {
        delta := ExpandedIds(1, 2);
      } else {
        delta := ExpandedIds(0, 0);
      }
      outgoing := latestOutgoing.Add(delta);
      firstOutgoing := outgoing;
      ssrc := newSsrc;
    }
  }

  class PacketRewriter {
    var latestOutgoing: ExpandedIds
    const state: ForwardingState

    constructor ()
      ensures Contents() == INITIAL
      ensures fresh(state)
    {
      latestOutgoing := ZERO;
      state := new ForwardingState();
    }

    ghost function Contents(): State
      reads this, state
    {
      State(latestOutgoing, state.Contents())
    }

    method ProcessIncoming(packet: Packet) returns (rewritten: Packet)
      modifies this, state
      ensures Contents() == Step(old(Contents()), packet).0
      ensures rewritten == Rewritten(old(Contents()), packet)
      ensures rewritten.payload == packet.payload && rewritten.ssrc == packet.ssrc
      ensures rewritten.ids == Step(old(Contents()), packet).1.Truncate()
    {
      var outgoing := state.Process(packet.ssrc, packet.ids, latestOutgoing);
      latestOutgoing := latestOutgoing.Max(outgoing);
      rewritten := packet.(ids := TruncatedIds(ToUint32(outgoing.timestamp), ToUint16(outgoing.sequenceNumber)));
    }
  }
}
