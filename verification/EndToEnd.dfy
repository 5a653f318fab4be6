/** The rewriter between a sender with unbounded indices and a receiver that unwraps what arrives. */
module EndToEnd {
  import opened Bits
  import opened Counter
  import opened Identifiers
  import opened Rewriter
  import opened RewriterRuns

  // ---------------------------------------------------------------------------------------------
  // The receiver
  // ---------------------------------------------------------------------------------------------

  /** What a receiver tracks: it applies `ExpandCounter` to both identifiers of each packet it gets. */
  datatype Heard = Heard(timestamp: uint64, sequenceNumber: uint64)

  function Hear(ids: TruncatedIds, l: Heard): Heard {
    Heard(Expand(ids.timestamp, HALF32, l.timestamp), Expand(ids.sequenceNumber, HALF16, l.sequenceNumber))
  }

  function LatestHeard(x: Heard, l: Heard): Heard {
    Heard(Max(x.timestamp, l.timestamp), Max(x.sequenceNumber, l.sequenceNumber))
  }

  function Received(l: Heard, wire: seq<Packet>): (out: seq<Heard>)
    ensures |out| == |wire|
    decreases |wire|
  {
    if wire == [] then []
    else var x := Hear(wire[0].ids, l); [x] + Received(LatestHeard(x, l), wire[1..])
  }

  function ReceiverLatest(l: Heard, wire: seq<Packet>): Heard
    decreases |wire|
  {
    if wire == [] then l else ReceiverLatest(LatestHeard(Hear(wire[0].ids, l), l), wire[1..])
  }

  function Wide(x: ExpandedIds): Heard {
    Heard(x.timestamp, x.sequenceNumber)
  }

  function WideAll(xs: seq<ExpandedIds>): (out: seq<Heard>)
    ensures |out| == |xs|
    ensures forall i :: 0 <= i < |xs| ==> out[i] == Wide(xs[i])
  {
    seq(|xs|, i requires 0 <= i < |xs| => Wide(xs[i]))
  }

  /** The identifiers sent for the packet survive the trip, as far as the latest ones sent so far tell. */
  predicate Visible(s: State, p: Packet) {
    var out := Step(s, p).1;
    && Survives(out.timestamp, HALF32, s.latestOutgoing.timestamp)
    && Survives(out.sequenceNumber, HALF16, s.latestOutgoing.sequenceNumber)
  }

  predicate AllVisible(s: State, ps: seq<Packet>)
    decreases |ps|
  {
    ps != [] ==> Visible(s, ps[0]) && AllVisible(Step(s, ps[0]).0, ps[1..])
  }

  lemma HearIff(out: ExpandedIds, latest: ExpandedIds)
    ensures Hear(out.Truncate(), Wide(latest)) == Wide(out)
       <==> && Survives(out.timestamp, HALF32, latest.timestamp)
            && Survives(out.sequenceNumber, HALF16, latest.sequenceNumber)
  {
    HalfWindows();
    LowOf32(out.timestamp);
    LowOf16(out.sequenceNumber);
    SurvivesIff(out.timestamp, 32, latest.timestamp);
    SurvivesIff(out.sequenceNumber, 16, latest.sequenceNumber);
  }

  lemma HearStep(s: State, p: Packet)
    ensures Hear(Rewritten(s, p).ids, Wide(s.latestOutgoing)) == Wide(Step(s, p).1) <==> Visible(s, p)
    ensures LatestHeard(Wide(Step(s, p).1), Wide(s.latestOutgoing)) == Wide(Step(s, p).0.latestOutgoing)
  {
    HearIff(Step(s, p).1, s.latestOutgoing);
  }

  lemma ConsEqual<T>(x: T, xs: seq<T>, y: T, ys: seq<T>)
    ensures [x] + xs == [y] + ys <==> x == y && xs == ys
  {
    assert ([x] + xs)[0] == x && ([x] + xs)[1..] == xs;
    assert ([y] + ys)[0] == y && ([y] + ys)[1..] == ys;
  }

  lemma WideCons(x: ExpandedIds, xs: seq<ExpandedIds>)
    ensures WideAll([x] + xs) == [Wide(x)] + WideAll(xs)
  {
  }

  /** A receiver in step with the rewriter recovers a run's expanded identifiers exactly when each survives. */
  lemma {:induction false} ReceiverExactIff(s: State, ps: seq<Packet>)
    ensures Received(Wide(s.latestOutgoing), Wire(s, ps)) == WideAll(Outgoing(s, ps)) <==> AllVisible(s, ps)
    decreases |ps|
  {
    if ps == [] {
    } else {
      var l, p := Wide(s.latestOutgoing), ps[0];
      var s', out := Step(s, p).0, Step(s, p).1;
      var x := Hear(Rewritten(s, p).ids, l);
      HearStep(s, p);
      ReceiverExactIff(s', ps[1..]);
      WideCons(out, Outgoing(s', ps[1..]));
      ReceivedCons(l, Rewritten(s, p), Wire(s', ps[1..]));
      ConsEqual(x, Received(LatestHeard(x, l), Wire(s', ps[1..])), Wide(out), WideAll(Outgoing(s', ps[1..])));
    }
  }

  lemma ReceivedCons(l: Heard, p: Packet, wire: seq<Packet>)
    ensures Received(l, [p] + wire) == [Hear(p.ids, l)] + Received(LatestHeard(Hear(p.ids, l), l), wire)
  {
    assert ([p] + wire)[1..] == wire;
  }

  lemma {:induction false} ReceiverInStep(s: State, ps: seq<Packet>)
    requires AllVisible(s, ps)
    ensures ReceiverLatest(Wide(s.latestOutgoing), Wire(s, ps)) == Wide(Final(s, ps).latestOutgoing)
    decreases |ps|
  {
    if ps == [] {
    } else {
      HearIff(Step(s, ps[0]).1, s.latestOutgoing);
      ReceiverInStep(Step(s, ps[0]).0, ps[1..]);
    }
  }

  /** A packet the rewriter can be trusted with: a real SSRC, nothing cut off, and, inside a layer, less than half a
      window away from the latest packet of the layer. */
  predicate Good(s: State, p: Packet) {
    && p.ssrc != 0
    && Fits(s, p)
    && (p.ssrc == s.forwarding.ssrc ==>
          && Distance(InTs(s, p), s.forwarding.latestIncoming.timestamp) < HALF32
          && Distance(InSeq(s, p), s.forwarding.latestIncoming.sequenceNumber) < HALF16)
  }

  predicate GoodRun(s: State, ps: seq<Packet>)
    decreases |ps|
  {
    ps != [] ==> Good(s, ps[0]) && GoodRun(Step(s, ps[0]).0, ps[1..])
  }

  lemma GoodStep(s: State, p: Packet)
    requires Lockstep(s) && Good(s, p)
    ensures Visible(s, p) && Lockstep(Step(s, p).0)
  {
    FittingStep(s, p);
    if p.ssrc == s.forwarding.ssrc {
      LockstepIff(s, p);
    } else {
      SwitchLockstepIff(s, p);
    }
  }

  lemma {:induction false} GoodRunVisible(s: State, ps: seq<Packet>)
    requires Lockstep(s) && GoodRun(s, ps)
    ensures AllVisible(s, ps) && Lockstep(Final(s, ps))
    decreases |ps|
  {
    if ps == [] {
    } else {
      GoodStep(s, ps[0]);
      GoodRunVisible(Step(s, ps[0]).0, ps[1..]);
    }
  }

  /** A receiver in step stays in step, over any number of layer switches. */
  lemma ReceiverRoundTripFrom(s: State, ps: seq<Packet>)
    requires Lockstep(s) && GoodRun(s, ps)
    ensures Received(Wide(s.latestOutgoing), Wire(s, ps)) == WideAll(Outgoing(s, ps))
    ensures ReceiverLatest(Wide(s.latestOutgoing), Wire(s, ps)) == Wide(Final(s, ps).latestOutgoing)
  {
    GoodRunVisible(s, ps);
    ReceiverExactIff(s, ps);
    ReceiverInStep(s, ps);
  }

  /** The receiver round trip, over any number of layer switches: starting from zero, unwrapping the rewritten packets
      gives exactly the rewriter's expanded identifiers, and the receiver's latest are the rewriter's. */
  lemma ReceiverRoundTrip(ps: seq<Packet>)
    requires GoodRun(INITIAL, ps)
    ensures Received(Heard(0, 0), Wire(INITIAL, ps)) == WideAll(Outgoing(INITIAL, ps))
    ensures ReceiverLatest(Heard(0, 0), Wire(INITIAL, ps)) == Wide(Final(INITIAL, ps).latestOutgoing)
  {
    ReceiverRoundTripFrom(INITIAL, ps);
  }

  // ---------------------------------------------------------------------------------------------
  // The ideal renumbering
  // ---------------------------------------------------------------------------------------------

  /** A packet as its sender knows it: indices that never wrap. */
  datatype Source = Source(ssrc: uint32, timestamp: nat, sequenceNumber: nat, payload: seq<Byte>)

  datatype Position = Position(timestamp: int, sequenceNumber: int)

  /** Renumbering over the unbounded indices: the first packet gets (0, 0), the first of every later layer continues
      one tick and two numbers after the latest, and inside a layer distances are kept. */
  datatype Ideal = Ideal(ssrc: uint32, first: Position, highest: Position, base: Position, latest: Position)

  const IDEAL_INITIAL := Ideal(0, Position(0, 0), Position(0, 0), Position(0, 0), Position(0, 0))

  function Highest(a: Position, b: Position): Position {
    Position(if a.timestamp > b.timestamp then a.timestamp else b.timestamp,
             if a.sequenceNumber > b.sequenceNumber then a.sequenceNumber else b.sequenceNumber)
  }

  function IdealStep(i: Ideal, x: Source): (Ideal, Position) {
    var here := Position(x.timestamp, x.sequenceNumber);
    if i.ssrc != x.ssrc then
      var out := if i.ssrc == 0 then i.latest else Position(i.latest.timestamp + 1, i.latest.sequenceNumber + 2);
      (Ideal(x.ssrc, here, here, out, Highest(i.latest, out)), out)
    else
      var out := Position(i.base.timestamp + x.timestamp - i.first.timestamp,
                          i.base.sequenceNumber + x.sequenceNumber - i.first.sequenceNumber);
      (i.(highest := Highest(i.highest, here), latest := Highest(i.latest, out)), out)
  }

  function IdealOutgoing(i: Ideal, xs: seq<Source>): (out: seq<Position>)
    ensures |out| == |xs|
    decreases |xs|
  {
    if xs == [] then [] else [IdealStep(i, xs[0]).1] + IdealOutgoing(IdealStep(i, xs[0]).0, xs[1..])
  }

  function Sent(x: Source): Packet {
    Packet(x.ssrc, TruncatedIds(ToUint32(x.timestamp), ToUint16(x.sequenceNumber)), x.payload)
  }

  function SentAll(xs: seq<Source>): (ps: seq<Packet>)
    ensures |ps| == |xs|
    ensures forall i :: 0 <= i < |xs| ==> ps[i] == Sent(xs[i])
  {
    seq(|xs|, i requires 0 <= i < |xs| => Sent(xs[i]))
  }

  /** The sender's packet is close to the ones of its layer: less than half a window from the highest so far, and not
      in a window before the one its layer started in. */
  predicate Close(i: Ideal, x: Source)
    requires i.first.timestamp >= 0 && i.first.sequenceNumber >= 0
  {
    && x.ssrc != 0
    && (x.ssrc == i.ssrc ==>
          && Distance(x.timestamp, i.highest.timestamp) < HALF32
          && Distance(x.sequenceNumber, i.highest.sequenceNumber) < HALF16
          && x.timestamp >= WindowStart(i.first.timestamp, U32)
          && x.sequenceNumber >= WindowStart(i.first.sequenceNumber, U16))
  }

  /** The outgoing position is not negative and everything stored for the packet fits its field. */
  predicate Room(i: Ideal, x: Source)
    requires i.first.timestamp >= 0 && i.first.sequenceNumber >= 0
  {
    var out := IdealStep(i, x).1;
    && 0 <= out.timestamp < U64
    && 0 <= out.sequenceNumber < U32
    && (x.ssrc == i.ssrc ==>
          && x.timestamp - WindowStart(i.first.timestamp, U32) < U64
          && x.sequenceNumber - WindowStart(i.first.sequenceNumber, U16) < U32)
  }

  predicate IdealRun(i: Ideal, xs: seq<Source>)
    requires i.first.timestamp >= 0 && i.first.sequenceNumber >= 0
    decreases |xs|
  {
    xs != [] ==> Close(i, xs[0]) && Room(i, xs[0]) && IdealRun(IdealStep(i, xs[0]).0, xs[1..])
  }

  /** Incoming indices are stored relative to the window in which the layer began. */
  ghost predicate Relative(firstIn: nat, latestIn: nat, first: nat, highest: int, m: nat)
    requires m > 0
  {
    firstIn == first - WindowStart(first, m) && latestIn == highest - WindowStart(first, m)
  }

  /** The rewriter's state stands for the ideal one: it has forgotten only how many windows had passed when the layer
      began. */
  ghost predicate Represents(s: State, i: Ideal) {
    var f := s.forwarding;
    && i.first.timestamp >= 0 && i.first.sequenceNumber >= 0
    && f.ssrc == i.ssrc
    && Position(s.latestOutgoing.timestamp, s.latestOutgoing.sequenceNumber) == i.latest
    && (i.ssrc != 0 ==>
          && Position(f.firstOutgoing.timestamp, f.firstOutgoing.sequenceNumber) == i.base
          && Relative(f.firstIncoming.timestamp, f.latestIncoming.timestamp,
                      i.first.timestamp, i.highest.timestamp, U32)
          && Relative(f.firstIncoming.sequenceNumber, f.latestIncoming.sequenceNumber,
                      i.first.sequenceNumber, i.highest.sequenceNumber, U16))
  }

  /** Counting from the window in which the layer began does not disturb the unwrapping. */
  lemma UnwrapRelative(x: nat, half: nat, highest: nat, first: nat, start: nat)
    requires half > 0 && start == WindowStart(first, 2 * half) && start <= x && start <= highest
    requires Distance(x, highest) < half
    ensures Unwrap(Low(x, 2 * half), half, highest - start) == x - start
  {
    var y, l := x - start, highest - start;
    assert Low(x, 2 * half) == Low(y, 2 * half) by { LowAfterStart(x, first, 2 * half); }
    assert Distance(y, l) < half;
    UnwrapNearby(y, half, l);
  }

  /** One step of the ideal renumbering is one step of the rewriter on what the sender puts on the wire. */
  lemma RefinementStep(s: State, i: Ideal, x: Source)
    requires Represents(s, i) && Close(i, x) && Room(i, x)
    ensures Represents(Step(s, Sent(x)).0, IdealStep(i, x).0)
    ensures Good(s, Sent(x))
    ensures var out := Step(s, Sent(x)).1; Position(out.timestamp, out.sequenceNumber) == IdealStep(i, x).1
  {
    if x.ssrc == i.ssrc {
      SameLayerStep(s, i, x);
    } else {
      SwitchStep(s, i, x);
    }
  }

  lemma SameLayerStep(s: State, i: Ideal, x: Source)
    requires Represents(s, i) && Close(i, x) && Room(i, x) && x.ssrc == i.ssrc
    ensures Represents(Step(s, Sent(x)).0, IdealStep(i, x).0)
    ensures Good(s, Sent(x))
    ensures var out := Step(s, Sent(x)).1; Position(out.timestamp, out.sequenceNumber) == IdealStep(i, x).1
  {
    var p := Sent(x);
    assert InTs(s, p) == x.timestamp - WindowStart(i.first.timestamp, U32) by {
      LowOf32(x.timestamp);
      UnwrapRelative(x.timestamp, HALF32, i.highest.timestamp, i.first.timestamp, WindowStart(i.first.timestamp, U32));
    }
    assert InSeq(s, p) == x.sequenceNumber - WindowStart(i.first.sequenceNumber, U16) by {
      LowOf16(x.sequenceNumber);
      UnwrapRelative(x.sequenceNumber, HALF16, i.highest.sequenceNumber, i.first.sequenceNumber,
                     WindowStart(i.first.sequenceNumber, U16));
    }
    FittingStep(s, p);
    FittingLatest(s, p);
  }

  lemma SwitchStep(s: State, i: Ideal, x: Source)
    requires Represents(s, i) && Close(i, x) && Room(i, x) && x.ssrc != i.ssrc
    ensures Represents(Step(s, Sent(x)).0, IdealStep(i, x).0)
    ensures Good(s, Sent(x))
    ensures var out := Step(s, Sent(x)).1; Position(out.timestamp, out.sequenceNumber) == IdealStep(i, x).1
  {
    var p := Sent(x);
    LowOf32(x.timestamp);
    LowOf16(x.sequenceNumber);
    assert Relative(p.ids.timestamp, p.ids.timestamp, x.timestamp, x.timestamp, U32);
    assert Relative(p.ids.sequenceNumber, p.ids.sequenceNumber, x.sequenceNumber, x.sequenceNumber, U16);
    FittingStep(s, p);
  }

  lemma {:induction false} Refinement(s: State, i: Ideal, xs: seq<Source>)
    requires Represents(s, i) && IdealRun(i, xs)
    ensures GoodRun(s, SentAll(xs))
    ensures forall k :: 0 <= k < |xs| ==>
              var out := Outgoing(s, SentAll(xs))[k];
              Position(out.timestamp, out.sequenceNumber) == IdealOutgoing(i, xs)[k]
    decreases |xs|
  {
    if xs == [] {
    } else {
      RefinementStep(s, i, xs[0]);
      assert SentAll(xs)[1..] == SentAll(xs[1..]);
      Refinement(Step(s, Sent(xs[0])).0, IdealStep(i, xs[0]).0, xs[1..]);
    }
  }

  /** The receiver recovered the ideal position of every packet. */
  predicate Matches(heard: seq<Heard>, ideal: seq<Position>) {
    && |heard| == |ideal|
    && forall k :: 0 <= k < |heard| ==> Position(heard[k].timestamp, heard[k].sequenceNumber) == ideal[k]
  }

  lemma SenderToReceiverFrom(s: State, i: Ideal, xs: seq<Source>)
    requires Represents(s, i) && Lockstep(s) && IdealRun(i, xs)
    ensures Matches(Received(Wide(s.latestOutgoing), Wire(s, SentAll(xs))), IdealOutgoing(i, xs))
  {
    Refinement(s, i, xs);
    GoodRunVisible(s, SentAll(xs));
    ReceiverExactIff(s, SentAll(xs));
  }

  /** Each packet on the wire is the sender's, but for its numbers. */
  predicate CarriesMedia(wire: seq<Packet>, xs: seq<Source>) {
    |wire| == |xs| && forall k :: 0 <= k < |xs| ==> wire[k].payload == xs[k].payload && wire[k].ssrc == xs[k].ssrc
  }

  /** From the sender's true indices, through truncation, renumbering, truncation again and unwrapping, the receiver
      ends up with the ideal renumbering of those indices, packet by packet, and with the payloads sent. */
  lemma SenderToReceiver(xs: seq<Source>)
    requires IdealRun(IDEAL_INITIAL, xs)
    ensures Matches(Received(Heard(0, 0), Wire(INITIAL, SentAll(xs))), IdealOutgoing(IDEAL_INITIAL, xs))
    ensures CarriesMedia(Wire(INITIAL, SentAll(xs)), xs)
  {
    SenderToReceiverFrom(INITIAL, IDEAL_INITIAL, xs);
    WireKeepsMedia(INITIAL, SentAll(xs));
  }

  // ---------------------------------------------------------------------------------------------
  // How long the fields last
  // ---------------------------------------------------------------------------------------------

  /** The sender's packets are close to each other and never end up below position zero; nothing is said about the
      width of any field. */
  predicate CloseRun(i: Ideal, xs: seq<Source>)
    requires i.first.timestamp >= 0 && i.first.sequenceNumber >= 0
    decreases |xs|
  {
    xs != [] ==>
      && Close(i, xs[0])
      && IdealStep(i, xs[0]).1.timestamp >= 0
      && IdealStep(i, xs[0]).1.sequenceNumber >= 0
      && CloseRun(IdealStep(i, xs[0]).0, xs[1..])
  }

  /** The state is one that n packets can lead to. */
  ghost predicate After(i: Ideal, n: nat) {
    && i.first.timestamp >= 0 && i.first.sequenceNumber >= 0
    && i.first.timestamp <= i.highest.timestamp && i.first.sequenceNumber <= i.highest.sequenceNumber
    && 0 <= i.base.timestamp <= i.latest.timestamp <= n * HALF32
    && 0 <= i.base.sequenceNumber <= i.latest.sequenceNumber <= n * HALF16
    && i.latest.timestamp - i.base.timestamp == i.highest.timestamp - i.first.timestamp
    && i.latest.sequenceNumber - i.base.sequenceNumber == i.highest.sequenceNumber - i.first.sequenceNumber
  }

  lemma AfterStep(i: Ideal, x: Source, n: nat)
    requires After(i, n) && Close(i, x) && n < 131070
    requires IdealStep(i, x).1.timestamp >= 0 && IdealStep(i, x).1.sequenceNumber >= 0
    ensures After(IdealStep(i, x).0, n + 1) && Room(i, x)
  {
  }

  /** 131070 packets cannot exhaust the 32-bit sequence number nor the 64-bit timestamp, however they jump. */
  lemma {:induction false} RoomForManyPackets(i: Ideal, n: nat, xs: seq<Source>)
    requires After(i, n) && CloseRun(i, xs) && n + |xs| <= 131070
    ensures IdealRun(i, xs)
    decreases |xs|
  {
    if xs == [] {
    } else {
      AfterStep(i, xs[0], n);
      RoomForManyPackets(IdealStep(i, xs[0]).0, n + 1, xs[1..]);
    }
  }

  /** So for runs of that length the end-to-end result needs no assumption about field widths. */
  lemma ShortRunsArrive(xs: seq<Source>)
    requires CloseRun(IDEAL_INITIAL, xs) && |xs| <= 131070
    ensures Matches(Received(Heard(0, 0), Wire(INITIAL, SentAll(xs))), IdealOutgoing(IDEAL_INITIAL, xs))
    ensures CarriesMedia(Wire(INITIAL, SentAll(xs)), xs)
  {
    RoomForManyPackets(IDEAL_INITIAL, 0, xs);
    SenderToReceiver(xs);
  }
}
