/** Whole runs of the rewriter: numbering inside one layer, across layers, and as seen by a receiver. */
module RewriterRuns {
  import opened Bits
  import opened Counter
  import opened Identifiers
  import opened Rewriter

  function Final(s: State, ps: seq<Packet>): State
    decreases |ps|
  {
    if ps == [] then s else Final(Step(s, ps[0]).0, ps[1..])
  }

  /** The expanded identifiers given to each packet. */
  function Outgoing(s: State, ps: seq<Packet>): (out: seq<ExpandedIds>)
    ensures |out| == |ps|
    decreases |ps|
  {
    if ps == [] then [] else [Step(s, ps[0]).1] + Outgoing(Step(s, ps[0]).0, ps[1..])
  }

  /** The packets that leave the rewriter. */
  function Wire(s: State, ps: seq<Packet>): (out: seq<Packet>)
    ensures |out| == |ps|
    decreases |ps|
  {
    if ps == [] then [] else [Rewritten(s, ps[0])] + Wire(Step(s, ps[0]).0, ps[1..])
  }

  /** The rewriter makes one packet of each, with its payload and its SSRC. */
  lemma {:induction false} WireKeepsMedia(s: State, ps: seq<Packet>)
    ensures |Wire(s, ps)| == |ps|
    ensures forall k :: 0 <= k < |ps| ==>
              Wire(s, ps)[k].payload == ps[k].payload && Wire(s, ps)[k].ssrc == ps[k].ssrc
    decreases |ps|
  {
    if ps == [] {
    } else {
      WireKeepsMedia(Step(s, ps[0]).0, ps[1..]);
    }
  }

  lemma {:induction false} RunConcat(s: State, a: seq<Packet>, b: seq<Packet>)
    ensures Final(s, a + b) == Final(Final(s, a), b)
    ensures Outgoing(s, a + b) == Outgoing(s, a) + Outgoing(Final(s, a), b)
    ensures Wire(s, a + b) == Wire(s, a) + Wire(Final(s, a), b)
    decreases |a|
  {
    if a == [] {
      assert a + b == b;
    } else {
      assert (a + b)[0] == a[0] && (a + b)[1..] == a[1..] + b;
      RunConcat(Step(s, a[0]).0, a[1..], b);
    }
  }

  // ---------------------------------------------------------------------------------------------
  // Inside one layer: a constant offset
  // ---------------------------------------------------------------------------------------------

  predicate OneLayer(ssrc: uint32, ps: seq<Packet>) {
    forall p :: p in ps ==> p.ssrc == ssrc
  }

  /** Where the layer's numbering puts the incoming identifiers. */
  function Offset(f: Forwarding, ids: TruncatedIds): TruncatedIds {
    f.firstOutgoing.Truncate().Add(ids.Sub(f.firstIncoming.Truncate()))
  }

  lemma UnwrapTruncates16(t: uint16, l: nat)
    ensures ToUint16(Unwrap(t, HALF16, l)) == t
  {
    UnwrapCongruent(t, HALF16, l);
    LowOf16(Unwrap(t, HALF16, l));
  }

  lemma UnwrapTruncates32(t: uint32, l: nat)
    ensures ToUint32(Unwrap(t, HALF32, l)) == t
  {
    UnwrapCongruent(t, HALF32, l);
    LowOf32(Unwrap(t, HALF32, l));
  }

  lemma NarrowWrap(x: nat)
    requires x < 0x2_0000_0000_0000_0000
    ensures ToUint32(Wrap64(x)) == ToUint32(x) && ToUint16(ToUint32(x)) == ToUint16(x)
  {
    var q, r := x / 0x1_0000_0000, ToUint32(x);
    Residue32(Wrap64(x), if x < U64 then q else q - 0x1_0000_0000, r);
    Residue16(x, q * 0x1_0000 + r / 0x1_0000, ToUint16(r));
  }

  lemma ExpandedIdsTruncate(ids: TruncatedIds, latest: ExpandedIds)
    ensures ExpandIds(ids, latest).Truncate() == ids
  {
    UnwrapTruncates32(ids.timestamp, latest.timestamp);
    UnwrapTruncates16(ids.sequenceNumber, latest.sequenceNumber);
    NarrowWrap(Unwrap(ids.timestamp, HALF32, latest.timestamp));
    NarrowWrap(Unwrap(ids.sequenceNumber, HALF16, latest.sequenceNumber));
  }

  lemma StepIsOffset(s: State, p: Packet)
    requires p.ssrc == s.forwarding.ssrc
    ensures Step(s, p).1.Truncate() == Offset(s.forwarding, p.ids)
  {
    var f := s.forwarding;
    var expanded := ExpandIds(p.ids, f.latestIncoming);
    ExpandedIdsTruncate(p.ids, f.latestIncoming);
    TruncationCommutes(expanded, f.firstIncoming);
    TruncationCommutes(f.firstOutgoing, expanded.Sub(f.firstIncoming));
  }

  /** While one layer is forwarded, every packet that leaves is its incoming numbering plus one fixed offset: whatever
      was received before it, in whatever order, and whatever overflowed. */
  lemma {:induction false} LayerOffset(s: State, ps: seq<Packet>)
    requires OneLayer(s.forwarding.ssrc, ps)
    ensures forall i :: 0 <= i < |ps| ==> Outgoing(s, ps)[i].Truncate() == Offset(s.forwarding, ps[i].ids)
    decreases |ps|
  {
    if ps == [] {
    } else {
      assert ps[0] in ps && forall p :: p in ps[1..] ==> p in ps;
      StepIsOffset(s, ps[0]);
      LayerOffset(Step(s, ps[0]).0, ps[1..]);
    }
  }

  /** So a packet's outgoing numbering depends on nothing but the packet and the first one of the layer. Losing,
      repeating or reordering others changes nothing, and different packets stay different. */
  lemma LayerOrderIrrelevant(s: State, ps: seq<Packet>, qs: seq<Packet>, i: nat, j: nat)
    requires OneLayer(s.forwarding.ssrc, ps) && OneLayer(s.forwarding.ssrc, qs) && i < |ps| && j < |qs|
    ensures Outgoing(s, ps)[i].Truncate() == Outgoing(s, qs)[j].Truncate() <==> ps[i].ids == qs[j].ids
  {
    LayerOffset(s, ps);
    LayerOffset(s, qs);
    if Offset(s.forwarding, ps[i].ids) == Offset(s.forwarding, qs[j].ids) {
      var base, first := s.forwarding.firstOutgoing.Truncate(), s.forwarding.firstIncoming.Truncate();
      OffsetUndone(base, first, ps[i].ids);
      OffsetUndone(base, first, qs[j].ids);
    }
  }

  // ---------------------------------------------------------------------------------------------
  // Lockstep of incoming and outgoing numbering
  // ---------------------------------------------------------------------------------------------

  /** The layer has advanced as far in its own numbering as in the outgoing one. */
  predicate Lockstep(s: State) {
    var f := s.forwarding;
    && f.firstIncoming.AtMost(f.latestIncoming)
    && s.latestOutgoing.timestamp - f.firstOutgoing.timestamp == f.latestIncoming.timestamp - f.firstIncoming.timestamp
    && s.latestOutgoing.sequenceNumber - f.firstOutgoing.sequenceNumber
       == f.latestIncoming.sequenceNumber - f.firstIncoming.sequenceNumber
  }

  /** The incoming identifiers of a packet of the current layer, over the unbounded integers. */
  function InSeq(s: State, p: Packet): nat {
    Unwrap(p.ids.sequenceNumber, HALF16, s.forwarding.latestIncoming.sequenceNumber)
  }

  function InTs(s: State, p: Packet): nat {
    Unwrap(p.ids.timestamp, HALF32, s.forwarding.latestIncoming.timestamp)
  }

  /** The outgoing identifiers before they are cut to the width of their fields. */
  function OutSeq(s: State, p: Packet): int {
    if p.ssrc == s.forwarding.ssrc
    then s.forwarding.firstOutgoing.sequenceNumber + InSeq(s, p) - s.forwarding.firstIncoming.sequenceNumber
    else s.latestOutgoing.sequenceNumber + (if s.forwarding.ssrc != 0 then 2 else 0)
  }

  function OutTs(s: State, p: Packet): int {
    if p.ssrc == s.forwarding.ssrc
    then s.forwarding.firstOutgoing.timestamp + InTs(s, p) - s.forwarding.firstIncoming.timestamp
    else s.latestOutgoing.timestamp + (if s.forwarding.ssrc != 0 then 1 else 0)
  }

  /** Nothing is cut off in this step: both the incoming and the outgoing identifiers fit their fields. */
  predicate Fits(s: State, p: Packet) {
    && 0 <= OutTs(s, p) < U64
    && 0 <= OutSeq(s, p) < U32
    && (p.ssrc == s.forwarding.ssrc ==> InTs(s, p) < U64 && InSeq(s, p) < U32)
  }

  lemma FittingStep(s: State, p: Packet)
    requires Fits(s, p)
    ensures Step(s, p).1 == ExpandedIds(OutTs(s, p), OutSeq(s, p))
  {
    if p.ssrc == s.forwarding.ssrc {
      CutSeq(InSeq(s, p), 0);
      FittingOffset(s.forwarding, InTs(s, p), InSeq(s, p));
    }
  }

  lemma FittingOffset(f: Forwarding, ts: uint64, sn: uint32)
    requires 0 <= f.firstOutgoing.timestamp + ts - f.firstIncoming.timestamp < U64
    requires 0 <= f.firstOutgoing.sequenceNumber + sn - f.firstIncoming.sequenceNumber < U32
    ensures f.firstOutgoing.Add(ExpandedIds(ts, sn).Sub(f.firstIncoming))
            == ExpandedIds(f.firstOutgoing.timestamp + ts - f.firstIncoming.timestamp,
                           f.firstOutgoing.sequenceNumber + sn - f.firstIncoming.sequenceNumber)
  {
  }

  lemma FittingLatest(s: State, p: Packet)
    requires Fits(s, p) && p.ssrc == s.forwarding.ssrc
    ensures Step(s, p).0.forwarding.latestIncoming
            == ExpandedIds(Max(InTs(s, p), s.forwarding.latestIncoming.timestamp),
                           Max(InSeq(s, p), s.forwarding.latestIncoming.sequenceNumber))
  {
    CutSeq(InSeq(s, p), s.forwarding.latestIncoming.sequenceNumber);
  }

  /** Cutting a sequence number to its field, before and after taking the maximum. */
  lemma CutSeq(x: nat, latest: uint32)
    requires x < 0x2_0000_0000
    ensures ToUint32(Wrap64(x)) == if x < U32 then x else x - U32
    ensures ToUint32(Max(Wrap64(x), latest)) == if x < U32 then Max(x, latest) else x - U32
  {
  }

  /** When a packet of the current layer keeps sequence numbers in lockstep: its incoming index fits, and its outgoing
      index neither falls below zero (a packet from before the layer's first one can do that) nor overflows. */
  predicate SeqCarries(s: State, p: Packet) {
    InSeq(s, p) < U32 && 0 <= OutSeq(s, p) < U32
  }

  /** Likewise for timestamps. Here incoming and outgoing overflow may cancel, because the 64-bit latest timestamp is
      not touched by an index that wrapped. */
  predicate TsCarries(s: State, p: Packet) {
    0 <= OutTs(s, p) && (InTs(s, p) < U64 <==> OutTs(s, p) < U64)
  }

  lemma UnwrapCeiling(t: nat, half: nat, l: nat)
    requires half > 0 && t < 2 * half
    ensures Unwrap(t, half, l) <= Max(l + half, 2 * half - 1)
  {
    UnwrapNear(t, half, l);
  }

  /** Lockstep survives a packet of the current layer exactly when both components carry. */
  lemma LockstepIff(s: State, p: Packet)
    requires Lockstep(s) && p.ssrc == s.forwarding.ssrc
    ensures Lockstep(Step(s, p).0) <==> SeqCarries(s, p) && TsCarries(s, p)
  {
    var f := s.forwarding;
    UnwrapCeiling(p.ids.sequenceNumber, HALF16, f.latestIncoming.sequenceNumber);
    UnwrapCeiling(p.ids.timestamp, HALF32, f.latestIncoming.timestamp);
    CutSeq(InSeq(s, p), f.latestIncoming.sequenceNumber);
    SeqLockstep(s.latestOutgoing.sequenceNumber, f.firstOutgoing.sequenceNumber, f.latestIncoming.sequenceNumber,
                f.firstIncoming.sequenceNumber, InSeq(s, p));
    TsLockstep(s.latestOutgoing.timestamp, f.firstOutgoing.timestamp, f.latestIncoming.timestamp,
               f.firstIncoming.timestamp, InTs(s, p));
  }

  lemma SeqLockstep(latestOut: uint32, firstOut: uint32, latestIn: uint32, firstIn: uint32, x: nat)
    requires firstIn <= latestIn && latestOut - firstOut == latestIn - firstIn
    requires x <= Max(latestIn + HALF16, 2 * HALF16 - 1)
    ensures var expanded: uint32 := if x < U32 then x else x - U32;
            var latestIn' := if x < U32 then Max(x, latestIn) else x - U32;
            var latestOut' := Max(latestOut, Wrap32(firstOut + Wrap32(expanded - firstIn)));
            (firstIn <= latestIn' && latestOut' - firstOut == latestIn' - firstIn)
            <==> x < U32 && 0 <= firstOut + x - firstIn < U32
  {
  }

  lemma TsLockstep(latestOut: uint64, firstOut: uint64, latestIn: uint64, firstIn: uint64, x: nat)
    requires firstIn <= latestIn && latestOut - firstOut == latestIn - firstIn
    requires x <= Max(latestIn + HALF32, 2 * HALF32 - 1)
    ensures var latestIn' := Max(Wrap64(x), latestIn);
            var latestOut' := Max(latestOut, Wrap64(firstOut + Wrap64(Wrap64(x) - firstIn)));
            (firstIn <= latestIn' && latestOut' - firstOut == latestIn' - firstIn)
            <==> 0 <= firstOut + x - firstIn && (x < U64 <==> firstOut + x - firstIn < U64)
  {
  }

  /** A layer switch starts in lockstep exactly when the outgoing identifiers do not overflow. */
  lemma SwitchLockstepIff(s: State, p: Packet)
    requires p.ssrc != s.forwarding.ssrc
    ensures Lockstep(Step(s, p).0) <==> OutTs(s, p) < U64 && OutSeq(s, p) < U32
  {
  }

  // ---------------------------------------------------------------------------------------------
  // Freshness across layers
  // ---------------------------------------------------------------------------------------------

  predicate FittingRun(s: State, ps: seq<Packet>)
    decreases |ps|
  {
    ps != [] ==> Fits(s, ps[0]) && FittingRun(Step(s, ps[0]).0, ps[1..])
  }

  /** No packet is numbered before the first one of its layer. */
  predicate Follows(s: State, p: Packet) {
    p.ssrc == s.forwarding.ssrc ==>
      InTs(s, p) >= s.forwarding.firstIncoming.timestamp && InSeq(s, p) >= s.forwarding.firstIncoming.sequenceNumber
  }

  predicate FollowingRun(s: State, ps: seq<Packet>)
    decreases |ps|
  {
    ps != [] ==> Follows(s, ps[0]) && FollowingRun(Step(s, ps[0]).0, ps[1..])
  }

  lemma {:induction false} OutgoingBelowLatest(s: State, ps: seq<Packet>)
    ensures s.latestOutgoing.AtMost(Final(s, ps).latestOutgoing)
    ensures forall i :: 0 <= i < |ps| ==> Outgoing(s, ps)[i].AtMost(Final(s, ps).latestOutgoing)
    decreases |ps|
  {
    if ps == [] {
    } else {
      OutgoingBelowLatest(Step(s, ps[0]).0, ps[1..]);
    }
  }

  lemma {:induction false} OutgoingAboveFloor(s: State, ps: seq<Packet>, floor: ExpandedIds)
    requires floor.AtMost(s.forwarding.firstOutgoing) && floor.AtMost(s.latestOutgoing)
    requires FittingRun(s, ps) && FollowingRun(s, ps)
    ensures forall i :: 0 <= i < |ps| ==> floor.AtMost(Outgoing(s, ps)[i])
    decreases |ps|
  {
    if ps == [] {
    } else {
      FittingStep(s, ps[0]);
      OutgoingAboveFloor(Step(s, ps[0]).0, ps[1..], floor);
    }
  }

  lemma SwitchClimbs(s: State, ps: seq<Packet>, j: nat)
    requires FittingRun(s, ps) && FollowingRun(s, ps) && j < |ps|
    requires s.forwarding.ssrc != 0 && ps[0].ssrc != s.forwarding.ssrc
    ensures s.latestOutgoing.sequenceNumber + 2 <= Outgoing(s, ps)[j].sequenceNumber
    ensures s.latestOutgoing.timestamp + 1 <= Outgoing(s, ps)[j].timestamp
  {
    FittingStep(s, ps[0]);
    var s' := Step(s, ps[0]).0;
    if j > 0 {
      OutgoingAboveFloor(s', ps[1..], s'.forwarding.firstOutgoing);
      assert Outgoing(s, ps)[j] == Outgoing(s', ps[1..])[j - 1];
    }
  }

  /** Everything sent from a layer switch on lies above everything sent before it, by at least 2 in sequence and 1 in
      timestamp: no identifier is ever used for two layers. */
  lemma FreshAcrossSwitch(s: State, before: seq<Packet>, after: seq<Packet>, i: nat, j: nat)
    requires FittingRun(s, before + after) && FollowingRun(s, before + after)
    requires i < |before| && j < |after|
    requires var ssrc := Final(s, before).forwarding.ssrc; ssrc != 0 && after[0].ssrc != ssrc
    ensures var out := Outgoing(s, before + after);
            && out[i].sequenceNumber + 2 <= out[|before| + j].sequenceNumber
            && out[i].timestamp + 1 <= out[|before| + j].timestamp
  {
    RunConcat(s, before, after);
    RunSuffix(s, before, after);
    OutgoingBelowLatest(s, before);
    SwitchClimbs(Final(s, before), after, j);
  }

  lemma {:induction false} RunSuffix(s: State, a: seq<Packet>, b: seq<Packet>)
    requires FittingRun(s, a + b) && FollowingRun(s, a + b)
    ensures FittingRun(Final(s, a), b) && FollowingRun(Final(s, a), b)
    decreases |a|
  {
    if a == [] {
      assert a + b == b;
    } else {
      assert (a + b)[0] == a[0] && (a + b)[1..] == a[1..] + b;
      RunSuffix(Step(s, a[0]).0, a[1..], b);
    }
  }

  /** The assumption is needed: right after a switch, a packet that precedes the first one of its layer by two in
      sequence and one in timestamp is given the very identifiers of the previous layer's latest packet. */
  lemma PrecedingPacketReuses(s: State, first: Packet, late: Packet)
    requires s.forwarding.ssrc != 0 && first.ssrc != s.forwarding.ssrc && Fits(s, first)
    requires late.ssrc == first.ssrc
    requires late.ids.sequenceNumber + 2 == first.ids.sequenceNumber && late.ids.timestamp + 1 == first.ids.timestamp
    ensures Step(Step(s, first).0, late).1 == s.latestOutgoing
  {
    FittingStep(s, first);
    var s' := Step(s, first).0;
    UnwrapOneBack(late.ids.sequenceNumber, HALF16, first.ids.sequenceNumber);
    UnwrapOneBack(late.ids.timestamp, HALF32, first.ids.timestamp);
    FittingStep(s', late);
  }

  /** A counter slightly below the latest one, both in the first window, stands for itself. */
  lemma UnwrapOneBack(t: nat, half: nat, l: nat)
    requires half > 1 && t <= l <= t + 2 && l < 2 * half
    ensures Unwrap(t, half, l) == t
  {
  }

  predicate AllAbove(floor: ExpandedIds, out: seq<ExpandedIds>) {
    forall i :: 0 <= i < |out| ==> floor.AtMost(out[i])
  }

  lemma AllAboveCons(floor: ExpandedIds, x: ExpandedIds, out: seq<ExpandedIds>)
    ensures AllAbove(floor, [x] + out) <==> floor.AtMost(x) && AllAbove(floor, out)
  {
    if AllAbove(floor, [x] + out) {
      assert ([x] + out)[0] == x;
      forall i | 0 <= i < |out| ensures floor.AtMost(out[i]) {
        assert ([x] + out)[i + 1] == out[i];
      }
    }
  }

  /** While one layer is forwarded, nothing falls below the layer's first outgoing identifiers, in either component,
      exactly when no packet precedes the layer's first one. */
  lemma {:induction false} AboveBaseIff(s: State, ps: seq<Packet>)
    requires OneLayer(s.forwarding.ssrc, ps) && FittingRun(s, ps)
    ensures AllAbove(s.forwarding.firstOutgoing, Outgoing(s, ps)) <==> FollowingRun(s, ps)
    decreases |ps|
  {
    if ps == [] {
    } else {
      var s' := Step(s, ps[0]).0;
      assert ps[0] in ps && forall p :: p in ps[1..] ==> p in ps;
      FittingStep(s, ps[0]);
      AllAboveCons(s.forwarding.firstOutgoing, Step(s, ps[0]).1, Outgoing(s', ps[1..]));
      AboveBaseIff(s', ps[1..]);
    }
  }

  /** After a switch everything is at least two numbers and one tick above all that was sent before exactly then. */
  lemma FreshAfterSwitchIff(s: State, ps: seq<Packet>)
    requires ps != [] && s.forwarding.ssrc != 0 && ps[0].ssrc != s.forwarding.ssrc
    requires OneLayer(ps[0].ssrc, ps) && FittingRun(s, ps)
    ensures AllAbove(s.latestOutgoing.Add(ExpandedIds(1, 2)), Outgoing(s, ps)) <==> FollowingRun(s, ps)
    ensures s.latestOutgoing.Add(ExpandedIds(1, 2))
            == ExpandedIds(s.latestOutgoing.timestamp + 1, s.latestOutgoing.sequenceNumber + 2)
  {
    var s' := Step(s, ps[0]).0;
    assert forall p :: p in ps[1..] ==> p in ps;
    FittingStep(s, ps[0]);
    AboveBaseIff(s', ps[1..]);
    AllAboveCons(s'.forwarding.firstOutgoing, Step(s, ps[0]).1, Outgoing(s', ps[1..]));
  }

  /** If there is a switch at k, a packet from there on is at least two numbers and one tick above one before. */
  predicate FreshPair(out: seq<ExpandedIds>, ps: seq<Packet>, i: nat, k: nat, j: nat)
    requires |out| == |ps| && i < k <= j < |ps|
  {
    ps[k - 1].ssrc != ps[k].ssrc ==>
      out[i].sequenceNumber + 2 <= out[j].sequenceNumber && out[i].timestamp + 1 <= out[j].timestamp
  }

  ghost predicate FreshAcrossAll(out: seq<ExpandedIds>, ps: seq<Packet>)
    requires |out| == |ps|
  {
    forall i: nat, k: nat, j: nat {:trigger FreshPair(out, ps, i, k, j)} ::
      i < k <= j < |ps| ==> FreshPair(out, ps, i, k, j)
  }

  predicate NonzeroSsrcs(ps: seq<Packet>) {
    forall p :: p in ps ==> p.ssrc != 0
  }

  lemma {:induction false} RunSnoc(s: State, ps: seq<Packet>, p: Packet)
    ensures Final(s, ps + [p]) == Step(Final(s, ps), p).0
    ensures Outgoing(s, ps + [p]) == Outgoing(s, ps) + [Step(Final(s, ps), p).1]
    ensures Wire(s, ps + [p]) == Wire(s, ps) + [Rewritten(Final(s, ps), p)]
    ensures FittingRun(s, ps + [p]) <==> FittingRun(s, ps) && Fits(Final(s, ps), p)
    ensures FollowingRun(s, ps + [p]) <==> FollowingRun(s, ps) && Follows(Final(s, ps), p)
    decreases |ps|
  {
    if ps == [] {
      assert ps + [p] == [p] && [p][0] == p && [p][1..] == [];
    } else {
      assert (ps + [p])[0] == ps[0] && (ps + [p])[1..] == ps[1..] + [p];
      RunSnoc(Step(s, ps[0]).0, ps[1..], p);
    }
  }

  lemma Split(ps: seq<Packet>) returns (front: seq<Packet>, last: Packet)
    requires ps != []
    ensures ps == front + [last] && |front| == |ps| - 1 && last == ps[|ps| - 1]
  {
    front, last := ps[..|ps| - 1], ps[|ps| - 1];
  }

  /** The latest outgoing identifiers were given to packets of the run, each component to one. */
  ghost predicate Attained(out: seq<ExpandedIds>, latest: ExpandedIds, i: nat, j: nat) {
    && i < |out| && out[i].sequenceNumber == latest.sequenceNumber
    && j < |out| && out[j].timestamp == latest.timestamp
  }

  lemma AttainedSnoc(out: seq<ExpandedIds>, latest: ExpandedIds, i: nat, j: nat, x: ExpandedIds)
    returns (i': nat, j': nat)
    requires Attained(out, latest, i, j) || (out == [] && Least(latest))
    ensures Attained(out + [x], latest.Max(x), i', j')
  {
    assert out == [] ==> latest.AtMost(x);
    i' := if x.sequenceNumber <= latest.sequenceNumber && out != [] then i else |out|;
    j' := if x.timestamp <= latest.timestamp && out != [] then j else |out|;
  }

  lemma {:induction false} LatestAttained(s: State, ps: seq<Packet>, todo: nat) returns (i: nat, j: nat)
    requires Least(s.latestOutgoing) && todo == |ps| && todo > 0
    ensures Attained(Outgoing(s, ps), Final(s, ps).latestOutgoing, i, j)
    decreases todo
  {
    var front, last := Split(ps);
    RunSnoc(s, front, last);
    i, j := 0, 0;
    if todo > 1 { i, j := LatestAttained(s, front, todo - 1); }
    i, j := AttainedSnoc(Outgoing(s, front), Final(s, front).latestOutgoing, i, j, Step(Final(s, front), last).1);
  }

  /** Nothing is below. */
  ghost predicate Least(ids: ExpandedIds) {
    forall x: ExpandedIds :: ids.AtMost(x)
  }

  /** The layer whose outgoing numbers start at `base` began with packet k; if there were layers before, its numbers
      continue from those of packets i and j. */
  ghost predicate StartsAt(ps: seq<Packet>, out: seq<ExpandedIds>, base: ExpandedIds, k: nat, i: nat, j: nat)
    requires |out| == |ps|
  {
    && k < |ps| && base == out[k]
    && (k == 0 ==> Least(base))
    && (k > 0 ==> && ps[k - 1].ssrc != ps[k].ssrc && i < k && j < k
                  && out[i].sequenceNumber + 2 == base.sequenceNumber && out[j].timestamp + 1 == base.timestamp)
  }

  /** Nothing has been forwarded yet. */
  ghost predicate Unstarted(s: State) {
    s.forwarding.ssrc == 0 && Least(s.latestOutgoing)
  }

  lemma InitialUnstarted()
    ensures Unstarted(INITIAL)
  {
  }

  /** A run from the start, with nothing cut off and no SSRC 0. */
  ghost predicate ProperRun(s: State, ps: seq<Packet>) {
    Unstarted(s) && NonzeroSsrcs(ps) && FittingRun(s, ps)
  }

  lemma ProperSnoc(s: State, front: seq<Packet>, last: Packet)
    requires ProperRun(s, front + [last])
    ensures ProperRun(s, front) && last.ssrc != 0 && Fits(Final(s, front), last)
    ensures front != [] ==> Final(s, front).forwarding.ssrc == front[|front| - 1].ssrc != 0
  {
    RunSnoc(s, front, last);
    assert last in front + [last] && forall q :: q in front ==> q in front + [last];
    if front != [] {
      LastSsrc(s, front);
      assert front[|front| - 1] in front;
    }
  }

  ghost predicate LayerBegins(s: State, ps: seq<Packet>, k: nat, i: nat, j: nat) {
    StartsAt(ps, Outgoing(s, ps), Final(s, ps).forwarding.firstOutgoing, k, i, j)
  }

  lemma {:induction false} LayerStart(s: State, ps: seq<Packet>, todo: nat) returns (k: nat, i: nat, j: nat)
    requires ProperRun(s, ps) && todo == |ps| && todo > 0
    ensures LayerBegins(s, ps, k, i, j)
    decreases todo
  {
    var front, last := Split(ps);
    ProperSnoc(s, front, last);
    if todo == 1 {
      assert Final(s, front) == s;
      FirstSwitch(s, last);
      k, i, j := FirstLayerStart(s, front, last);
    } else {
      k, i, j := LayerStart(s, front, todo - 1);
      k, i, j := LayerStartSnoc(s, front, last, k, i, j);
    }
  }

  lemma FirstSwitch(s: State, p: Packet)
    requires Unstarted(s) && p.ssrc != 0
    ensures Step(s, p).1 == s.latestOutgoing == Step(s, p).0.forwarding.firstOutgoing
  {
  }

  lemma FirstLayerStart(s: State, none: seq<Packet>, p: Packet) returns (k: nat, i: nat, j: nat)
    requires Least(s.latestOutgoing) && none == []
    requires Step(s, p).1 == s.latestOutgoing == Step(s, p).0.forwarding.firstOutgoing
    ensures LayerBegins(s, none + [p], k, i, j)
  {
    RunSnoc(s, none, p);
    k, i, j := 0, 0, 0;
  }

  lemma LayerStartSnoc(s: State, ps: seq<Packet>, p: Packet, k: nat, i: nat, j: nat) returns (k': nat, i': nat, j': nat)
    requires Least(s.latestOutgoing) && ps != [] && Fits(Final(s, ps), p)
    requires Final(s, ps).forwarding.ssrc == ps[|ps| - 1].ssrc != 0
    requires LayerBegins(s, ps, k, i, j)
    ensures LayerBegins(s, ps + [p], k', i', j')
  {
    RunSnoc(s, ps, p);
    if p.ssrc == Final(s, ps).forwarding.ssrc {
      k', i', j' := k, i, j;
      SameLayerStart(ps, Outgoing(s, ps), Final(s, ps), k, i, j, p);
    } else {
      k' := |ps|;
      i', j' := LatestAttained(s, ps, |ps|);
      NextLayerStart(ps, Outgoing(s, ps), Final(s, ps), i', j', p);
    }
  }

  lemma SameLayerStart(ps: seq<Packet>, out: seq<ExpandedIds>, s: State, k: nat, i: nat, j: nat, p: Packet)
    requires |out| == |ps| && StartsAt(ps, out, s.forwarding.firstOutgoing, k, i, j) && p.ssrc == s.forwarding.ssrc
    ensures StartsAt(ps + [p], out + [Step(s, p).1], Step(s, p).0.forwarding.firstOutgoing, k, i, j)
  {
  }

  lemma NextLayerStart(ps: seq<Packet>, out: seq<ExpandedIds>, s: State, i: nat, j: nat, p: Packet)
    requires |out| == |ps| && i < |ps| && j < |ps| && ps[|ps| - 1].ssrc == s.forwarding.ssrc != 0
    requires p.ssrc != s.forwarding.ssrc && Fits(s, p)
    requires out[i].sequenceNumber == s.latestOutgoing.sequenceNumber && out[j].timestamp == s.latestOutgoing.timestamp
    ensures StartsAt(ps + [p], out + [Step(s, p).1], Step(s, p).0.forwarding.firstOutgoing, |ps|, i, j)
  {
    FittingStep(s, p);
  }

  ghost predicate FreshRun(s: State, ps: seq<Packet>) {
    FreshAcrossAll(Outgoing(s, ps), ps)
  }

  /** A packet that keeps the run fresh does not precede its layer's first one. */
  lemma FreshFollows(s: State, front: seq<Packet>, last: Packet)
    requires ProperRun(s, front + [last]) && FreshRun(s, front + [last])
    ensures Follows(Final(s, front), last)
  {
    ProperSnoc(s, front, last);
    if front != [] && last.ssrc == Final(s, front).forwarding.ssrc {
      var k, i, j := LayerStart(s, front, |front|);
      AboveStart(s, front, last, k, i, j);
      FollowsFromBase(Final(s, front), last);
    }
  }

  lemma AboveStart(s: State, front: seq<Packet>, last: Packet, k: nat, i: nat, j: nat)
    requires LayerBegins(s, front, k, i, j) && FreshRun(s, front + [last])
    ensures Final(s, front).forwarding.firstOutgoing.AtMost(Step(Final(s, front), last).1)
  {
    RunSnoc(s, front, last);
    var base, x := Final(s, front).forwarding.firstOutgoing, Step(Final(s, front), last).1;
    assert k == 0 ==> base.AtMost(x);
    if k > 0 {
      var ps, out := front + [last], Outgoing(s, front + [last]);
      assert FreshPair(out, ps, i, k, |front|) && FreshPair(out, ps, j, k, |front|);
      assert ps[k - 1] == front[k - 1] && ps[k] == front[k];
    }
  }

  lemma FollowsFromBase(s: State, p: Packet)
    requires p.ssrc == s.forwarding.ssrc && Fits(s, p)
    ensures Follows(s, p) <==> s.forwarding.firstOutgoing.AtMost(Step(s, p).1)
  {
    FittingStep(s, p);
  }

  lemma FreshPrefix(s: State, front: seq<Packet>, last: Packet)
    requires FreshRun(s, front + [last])
    ensures FreshRun(s, front)
  {
    RunSnoc(s, front, last);
    forall i: nat, k: nat, j: nat | i < k <= j < |front| ensures FreshPair(Outgoing(s, front), front, i, k, j) {
      assert FreshPair(Outgoing(s, front + [last]), front + [last], i, k, j);
      assert (front + [last])[k - 1] == front[k - 1] && (front + [last])[k] == front[k];
    }
  }

  lemma FollowingSnoc(s: State, front: seq<Packet>, last: Packet)
    requires FollowingRun(s, front) && Follows(Final(s, front), last)
    ensures FollowingRun(s, front + [last])
  {
    RunSnoc(s, front, last);
  }

  lemma FollowingNone(s: State, ps: seq<Packet>)
    requires |ps| == 0
    ensures FollowingRun(s, ps)
  {
  }

  lemma {:induction false} FreshRunFollows(s: State, ps: seq<Packet>, todo: nat)
    requires ProperRun(s, ps) && FreshRun(s, ps) && todo == |ps|
    ensures FollowingRun(s, ps)
    decreases todo
  {
    if todo == 0 {
      FollowingNone(s, ps);
    } else {
      var front, last := Split(ps);
      FreshPrefix(s, front, last);
      ProperSnoc(s, front, last);
      FreshRunFollows(s, front, todo - 1);
      FreshFollows(s, front, last);
      FollowingSnoc(s, front, last);
    }
  }

  lemma FollowingIsFresh(s: State, ps: seq<Packet>)
    requires ProperRun(s, ps) && FollowingRun(s, ps)
    ensures FreshRun(s, ps)
  {
    forall i: nat, k: nat, j: nat | i < k <= j < |ps| ensures FreshPair(Outgoing(s, ps), ps, i, k, j) {
      if ps[k - 1].ssrc != ps[k].ssrc { FreshAt(s, ps, i, k, j); }
    }
  }

  /** The whole run, over any number of switches: no identifier of a layer comes closer than two numbers and one tick to
      those of earlier layers exactly when no packet precedes the first one of its layer. */
  lemma FreshRunIff(s: State, ps: seq<Packet>)
    requires Unstarted(s) && NonzeroSsrcs(ps) && FittingRun(s, ps)
    ensures FreshAcrossAll(Outgoing(s, ps), ps) <==> FollowingRun(s, ps)
  {
    assert ProperRun(s, ps);
    if FreshRun(s, ps) {
      FreshRunFollows(s, ps, |ps|);
    }
    if FollowingRun(s, ps) {
      FollowingIsFresh(s, ps);
    }
  }

  lemma FreshFromTheStart(s: State, ps: seq<Packet>)
    requires s == INITIAL && NonzeroSsrcs(ps) && FittingRun(s, ps)
    ensures FreshAcrossAll(Outgoing(s, ps), ps) <==> FollowingRun(s, ps)
  {
    InitialUnstarted();
    FreshRunIff(s, ps);
  }

  lemma FreshAt(s: State, ps: seq<Packet>, i: nat, k: nat, j: nat)
    requires NonzeroSsrcs(ps) && FittingRun(s, ps) && FollowingRun(s, ps)
    requires i < k <= j < |ps| && ps[k - 1].ssrc != ps[k].ssrc
    ensures FreshPair(Outgoing(s, ps), ps, i, k, j)
  {
    var before, after := ps[..k], ps[k..];
    assert ps == before + after && before[k - 1] == ps[k - 1] && ps[k - 1] in ps;
    LastSsrc(s, before);
    FreshAcrossSwitch(s, before, after, i, j - k);
  }

  lemma LastSsrc(s: State, ps: seq<Packet>)
    requires ps != []
    ensures Final(s, ps).forwarding.ssrc == ps[|ps| - 1].ssrc
  {
    var front, last := Split(ps);
    RunSnoc(s, front, last);
  }

  /** SSRC 0 doubles as "nothing forwarded yet". A switch moves past everything sent so far exactly when the layer
      that is left has another SSRC; leaving SSRC 0 sends the latest identifiers again. */
  lemma SwitchAdvancesIff(s: State, p: Packet)
    requires p.ssrc != s.forwarding.ssrc && Fits(s, p)
    ensures Step(s, p).1.sequenceNumber > s.latestOutgoing.sequenceNumber <==> s.forwarding.ssrc != 0
    ensures Step(s, p).1.timestamp > s.latestOutgoing.timestamp <==> s.forwarding.ssrc != 0
    ensures s.forwarding.ssrc == 0 ==> Step(s, p).1 == s.latestOutgoing
  {
    FittingStep(s, p);
  }
}
