/** How many packets it takes before a field of the rewriter can wrap, whatever the packets are. */
module RewriterGrowth {
  import opened Bits
  import opened Counter
  import opened Identifiers
  import opened Rewriter
  import opened RewriterRuns

  // ---------------------------------------------------------------------------------------------
  // Inside one layer: the stores of the incoming identifiers
  // ---------------------------------------------------------------------------------------------

  /** No sequence number of the run is cut by its 32-bit store. */
  predicate SequenceNumbersLast(s: State, ps: seq<Packet>)
    decreases |ps|
  {
    ps != [] ==> InSeq(s, ps[0]) < U32 && SequenceNumbersLast(Step(s, ps[0]).0, ps[1..])
  }

  /** No timestamp of the run wraps in 64 bits. */
  predicate TimestampsLast(s: State, ps: seq<Packet>)
    decreases |ps|
  {
    ps != [] ==> InTs(s, ps[0]) < U64 && TimestampsLast(Step(s, ps[0]).0, ps[1..])
  }

  lemma SequenceStep(s: State, p: Packet, n: nat)
    requires p.ssrc == s.forwarding.ssrc && n < 131070
    requires s.forwarding.latestIncoming.sequenceNumber <= 0xFFFF + n * 0x8000
    ensures InSeq(s, p) < U32
    ensures Step(s, p).0.forwarding.latestIncoming.sequenceNumber
            == Max(InSeq(s, p), s.forwarding.latestIncoming.sequenceNumber) <= 0xFFFF + (n + 1) * 0x8000
  {
    UnwrapCeiling(p.ids.sequenceNumber, HALF16, s.forwarding.latestIncoming.sequenceNumber);
    CutSeq(InSeq(s, p), s.forwarding.latestIncoming.sequenceNumber);
  }

  lemma TimestampStep(s: State, p: Packet, n: nat)
    requires p.ssrc == s.forwarding.ssrc && n < 8589934590
    requires s.forwarding.latestIncoming.timestamp <= 0xFFFF_FFFF + n * 0x8000_0000
    ensures InTs(s, p) < U64
    ensures Step(s, p).0.forwarding.latestIncoming.timestamp
            == Max(InTs(s, p), s.forwarding.latestIncoming.timestamp) <= 0xFFFF_FFFF + (n + 1) * 0x8000_0000
  {
    UnwrapCeiling(p.ids.timestamp, HALF32, s.forwarding.latestIncoming.timestamp);
  }

  /** Any packets of one layer, in any order and with any jumps: each raises the latest sequence number by at most
      half a window, so 131070 of them cannot fill the 32-bit store. */
  lemma {:induction false} SequenceGrowth(s: State, n: nat, ps: seq<Packet>)
    requires OneLayer(s.forwarding.ssrc, ps) && n + |ps| <= 131070
    requires s.forwarding.latestIncoming.sequenceNumber <= 0xFFFF + n * 0x8000
    ensures SequenceNumbersLast(s, ps)
    ensures s.forwarding.latestIncoming.sequenceNumber <= Final(s, ps).forwarding.latestIncoming.sequenceNumber
            <= 0xFFFF + (n + |ps|) * 0x8000
    decreases |ps|
  {
    if ps == [] {
    } else {
      assert ps[0] in ps && forall p :: p in ps[1..] ==> p in ps;
      SequenceStep(s, ps[0], n);
      SequenceGrowth(Step(s, ps[0]).0, n + 1, ps[1..]);
    }
  }

  /** Likewise 8589934590 packets cannot fill the 64-bit timestamp. */
  lemma {:induction false} TimestampGrowth(s: State, n: nat, ps: seq<Packet>)
    requires OneLayer(s.forwarding.ssrc, ps) && n + |ps| <= 8589934590
    requires s.forwarding.latestIncoming.timestamp <= 0xFFFF_FFFF + n * 0x8000_0000
    ensures TimestampsLast(s, ps)
    ensures s.forwarding.latestIncoming.timestamp <= Final(s, ps).forwarding.latestIncoming.timestamp
            <= 0xFFFF_FFFF + (n + |ps|) * 0x8000_0000
    decreases |ps|
  {
    if ps == [] {
    } else {
      assert ps[0] in ps && forall p :: p in ps[1..] ==> p in ps;
      TimestampStep(s, ps[0], n);
      TimestampGrowth(Step(s, ps[0]).0, n + 1, ps[1..]);
    }
  }

  /** Counted from the first packet of a layer. */
  lemma LayerLasts(s: State, first: Packet, ps: seq<Packet>)
    requires first.ssrc != s.forwarding.ssrc && OneLayer(first.ssrc, ps)
    ensures |ps| <= 131070 ==> SequenceNumbersLast(Step(s, first).0, ps)
    ensures |ps| <= 8589934590 ==> TimestampsLast(Step(s, first).0, ps)
  {
    var s' := Step(s, first).0;
    if |ps| <= 131070 { SequenceGrowth(s', 0, ps); }
    if |ps| <= 8589934590 { TimestampGrowth(s', 0, ps); }
  }

  // ---------------------------------------------------------------------------------------------
  // Over any number of layers: the outgoing identifiers
  // ---------------------------------------------------------------------------------------------

  /** No packet is numbered below zero. */
  predicate NonNegativeRun(s: State, ps: seq<Packet>)
    decreases |ps|
  {
    ps != [] ==> 0 <= OutTs(s, ps[0]) && 0 <= OutSeq(s, ps[0]) && NonNegativeRun(Step(s, ps[0]).0, ps[1..])
  }

  /** A state that n packets can lead to, each raising the outgoing identifiers by less than a window. */
  predicate Within(s: State, n: nat) {
    && Lockstep(s)
    && s.latestOutgoing.sequenceNumber <= n * 0xFFFF && s.latestOutgoing.timestamp <= n * 0xFFFF_FFFF
    && s.forwarding.latestIncoming.sequenceNumber <= 0xFFFF + n * 0x8000
    && s.forwarding.latestIncoming.timestamp <= 0xFFFF_FFFF + n * 0x8000_0000
  }

  lemma WithinFits(s: State, p: Packet, n: nat)
    requires Within(s, n) && n < 65537
    ensures OutSeq(s, p) <= (n + 1) * 0xFFFF && OutTs(s, p) <= (n + 1) * 0xFFFF_FFFF
    ensures Fits(s, p) <==> 0 <= OutTs(s, p) && 0 <= OutSeq(s, p)
  {
    UnwrapCeiling(p.ids.sequenceNumber, HALF16, s.forwarding.latestIncoming.sequenceNumber);
    UnwrapCeiling(p.ids.timestamp, HALF32, s.forwarding.latestIncoming.timestamp);
  }

  lemma WithinStep(s: State, p: Packet, n: nat)
    requires Within(s, n) && n < 65537 && Fits(s, p)
    ensures Within(Step(s, p).0, n + 1)
  {
    WithinFits(s, p, n);
    FittingStep(s, p);
    if p.ssrc == s.forwarding.ssrc {
      LockstepIff(s, p);
      SequenceStep(s, p, n);
      TimestampStep(s, p, n);
    } else {
      SwitchLockstepIff(s, p);
    }
  }

  lemma {:induction false} FitsWhileNonNegative(s: State, n: nat, ps: seq<Packet>)
    requires Within(s, n) && n + |ps| <= 65537
    ensures FittingRun(s, ps) <==> NonNegativeRun(s, ps)
    decreases |ps|
  {
    if ps == [] {
    } else {
      WithinFits(s, ps[0], n);
      if Fits(s, ps[0]) {
        WithinStep(s, ps[0], n);
        FitsWhileNonNegative(Step(s, ps[0]).0, n + 1, ps[1..]);
      }
    }
  }

  lemma {:induction false} FollowingIsNonNegative(s: State, n: nat, ps: seq<Packet>)
    requires Within(s, n) && n + |ps| <= 65537 && FollowingRun(s, ps)
    ensures NonNegativeRun(s, ps)
    decreases |ps|
  {
    if ps == [] {
    } else {
      WithinFits(s, ps[0], n);
      WithinStep(s, ps[0], n);
      FollowingIsNonNegative(Step(s, ps[0]).0, n + 1, ps[1..]);
    }
  }

  /** Arbitrary packets over any number of switches: for up to 65537 of them nothing is ever cut off, exactly when no
      packet is numbered below zero; in particular when none precedes the first one of its layer. */
  lemma RunFitsIff(s: State, ps: seq<Packet>)
    requires s == INITIAL && |ps| <= 65537
    ensures FittingRun(s, ps) <==> NonNegativeRun(s, ps)
    ensures FollowingRun(s, ps) ==> FittingRun(s, ps)
  {
    FitsWhileNonNegative(s, 0, ps);
    if FollowingRun(s, ps) { FollowingIsNonNegative(s, 0, ps); }
  }
}
