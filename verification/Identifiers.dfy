/** Packet identifiers, as they travel (32-bit timestamp, 16-bit sequence number) and as they are tracked (64 and 32
    bits). All arithmetic wraps at the width of the field. */
module Identifiers {
  import opened Bits

  datatype TruncatedIds = TruncatedIds(timestamp: uint32, sequenceNumber: uint16) {
    function Add(delta: TruncatedIds): TruncatedIds {
      TruncatedIds(Wrap32(timestamp + delta.timestamp), Wrap16(sequenceNumber + delta.sequenceNumber))
    }

    function Sub(delta: TruncatedIds): TruncatedIds {
      TruncatedIds(Wrap32(timestamp - delta.timestamp), Wrap16(sequenceNumber - delta.sequenceNumber))
    }
  }

  datatype ExpandedIds = ExpandedIds(timestamp: uint64, sequenceNumber: uint32) {
    function Add(delta: ExpandedIds): ExpandedIds {
      ExpandedIds(Wrap64(timestamp + delta.timestamp), Wrap32(sequenceNumber + delta.sequenceNumber))
    }

    function Sub(delta: ExpandedIds): ExpandedIds {
      ExpandedIds(Wrap64(timestamp - delta.timestamp), Wrap32(sequenceNumber - delta.sequenceNumber))
    }

    function Max(other: ExpandedIds): ExpandedIds {
      ExpandedIds(if timestamp > other.timestamp then timestamp else other.timestamp,
                  if sequenceNumber > other.sequenceNumber then sequenceNumber else other.sequenceNumber)
    }

    function Truncate(): TruncatedIds {
      TruncatedIds(ToUint32(timestamp), ToUint16(sequenceNumber))
    }

    /** Component-wise order. */
    predicate AtMost(other: ExpandedIds) {
      timestamp <= other.timestamp && sequenceNumber <= other.sequenceNumber
    }
  }

  lemma Residue32(x: nat, k: int, r: uint32)
    requires x == k * 0x1_0000_0000 + r
    ensures ToUint32(x) == r
  {
  }

  lemma Residue16(x: nat, k: int, r: uint16)
    requires x == k * 0x1_0000 + r
    ensures ToUint16(x) == r
  {
  }

  lemma Narrow32(a: uint64, b: uint64)
    ensures ToUint32(Wrap64(a + b)) == Wrap32(ToUint32(a) + ToUint32(b))
    ensures ToUint32(Wrap64(a - b)) == Wrap32(ToUint32(a) - ToUint32(b))
  {
    var p, q, r, t := a / 0x1_0000_0000, b / 0x1_0000_0000, ToUint32(a), ToUint32(b);
    Residue32(Wrap64(a + b),
              p + q + (if r + t < U32 then 0 else 1) - (if a + b < U64 then 0 else 0x1_0000_0000), Wrap32(r + t));
    Residue32(Wrap64(a - b),
              p - q - (if r < t then 1 else 0) + (if a < b then 0x1_0000_0000 else 0), Wrap32(r - t));
  }

  lemma Narrow16(a: uint32, b: uint32)
    ensures ToUint16(Wrap32(a + b)) == Wrap16(ToUint16(a) + ToUint16(b))
    ensures ToUint16(Wrap32(a - b)) == Wrap16(ToUint16(a) - ToUint16(b))
  {
    var p, q, r, t := a / 0x1_0000, b / 0x1_0000, ToUint16(a), ToUint16(b);
    var carry, lost := if r + t < U16 then 0 else 1, if a + b < U32 then 0 else 0x1_0000;
    Residue16(Wrap32(a + b), p + q + carry - lost, Wrap16(r + t));
    Residue16(Wrap32(a - b), p - q - (if r < t then 1 else 0) + (if a < b then 0x1_0000 else 0), Wrap16(r - t));
  }

  /** Truncation commutes with wrapping addition and subtraction, whatever overflows on the way. */
  lemma TruncationCommutes(a: ExpandedIds, b: ExpandedIds)
    ensures a.Add(b).Truncate() == a.Truncate().Add(b.Truncate())
    ensures a.Sub(b).Truncate() == a.Truncate().Sub(b.Truncate())
  {
    Narrow32(a.timestamp, b.timestamp);
    Narrow16(a.sequenceNumber, b.sequenceNumber);
  }

  /** Offsets can be undone, so two identifiers at the same offset from the same bases are the same. */
  lemma OffsetUndone(base: TruncatedIds, first: TruncatedIds, a: TruncatedIds)
    ensures base.Add(a.Sub(first)).Sub(base).Add(first) == a
  {
  }
}
