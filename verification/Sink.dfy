/** A shared message sink that one of its senders can seal: every interleaving of concurrent sends and seals. */
module SinkModel {

  datatype Message<S, M> = Message(sender: S, content: M)

  /** What a goroutine is doing: a seal that has won the compare-and-swap looks at the channel first and closes it in a
      second step. `late` records that some call to `Seal` had returned before this send began. */
  datatype Call<M> =
    | SendBegun(content: M, late: bool)
    | SendSelecting(content: M, late: bool)
    | SendReturned(content: M, delivered: bool, late: bool)
    | SealBegun
    | SealWon
    | SealClosing
    | SealReturned

  /** `closings` counts the closes, also of a channel that is closed already. `log` is every message that reached the
      sink, with the call that put it there. */
  datatype Sink<S, M> = Sink(
    sender: S,
    alreadySealed: bool,
    sealed: bool,
    closings: nat,
    calls: map<nat, Call<M>>,
    log: seq<(nat, Message<S, M>)>)

  datatype Action<M> =
    | BeginSend(call: nat, content: M)
    | LoadSealed(call: nat)
    | SelectSealed(call: nat)
    | SelectDeliver(call: nat)
    | BeginSeal(call: nat)
    | CompareAndSwap(call: nat)
    | CheckSealed(call: nat)
    | CloseSealed(call: nat)

  function Initial<S, M>(sender: S): Sink<S, M> {
    Sink(sender, false, false, 0, map[], [])
  }

  predicate SomeSealReturned<S, M>(k: Sink<S, M>) {
    exists c :: c in k.calls && k.calls[c].SealReturned?
  }

  predicate Enabled<S, M>(k: Sink<S, M>, a: Action<M>) {
    match a
    case BeginSend(c, _) => c !in k.calls
    case LoadSealed(c) => c in k.calls && k.calls[c].SendBegun?
    case SelectSealed(c) => c in k.calls && k.calls[c].SendSelecting? && k.sealed
    case SelectDeliver(c) => c in k.calls && k.calls[c].SendSelecting?
    case BeginSeal(c) => c !in k.calls
    case CompareAndSwap(c) => c in k.calls && k.calls[c].SealBegun?
    case CheckSealed(c) => c in k.calls && k.calls[c].SealWon?
    case CloseSealed(c) => c in k.calls && k.calls[c].SealClosing?
  }

  function Next<S, M>(k: Sink<S, M>, a: Action<M>): Sink<S, M>
    requires Enabled(k, a)
  {
    match a
    case BeginSend(c, content) => k.(calls := k.calls[c := SendBegun(content, SomeSealReturned(k))])
    case LoadSealed(c) =>
      var SendBegun(content, late) := k.calls[c];
      k.(calls := k.calls[c := if k.alreadySealed then SendReturned(content, false, late)
                               else SendSelecting(content, late)])
    case SelectSealed(c) =>
      k.(calls := k.calls[c := SendReturned(k.calls[c].content, false, k.calls[c].late)])
    case SelectDeliver(c) =>
      k.(calls := k.calls[c := SendReturned(k.calls[c].content, true, k.calls[c].late)],
         log := k.log + [(c, Message(k.sender, k.calls[c].content))])
    case BeginSeal(c) => k.(calls := k.calls[c := SealBegun])
    case CompareAndSwap(c) =>
      if k.alreadySealed then k.(calls := k.calls[c := SealReturned])
      else k.(alreadySealed := true, calls := k.calls[c := SealWon])
    case CheckSealed(c) => k.(calls := k.calls[c := if k.sealed then SealReturned else SealClosing])
    case CloseSealed(c) => k.(sealed := true, closings := k.closings + 1, calls := k.calls[c := SealReturned])
  }

  /** The call has won the compare-and-swap and not yet closed the channel. */
  predicate Winning<M>(c: Call<M>) {
    c.SealWon? || c.SealClosing?
  }

  /** The winner of the compare-and-swap, while it has not closed the channel yet, is alone. */
  ghost predicate OneWinner<S, M>(k: Sink<S, M>) {
    && (forall c :: c in k.calls && Winning(k.calls[c]) ==> k.alreadySealed && !k.sealed)
    && (forall c, d :: c in k.calls && d in k.calls && Winning(k.calls[c]) && Winning(k.calls[d]) ==> c == d)
    && (k.sealed ==> k.alreadySealed)
    && (SomeSealReturned(k) ==> k.alreadySealed)
    && k.closings == if k.sealed then 1 else 0
  }

  /** A send that began after a seal returned has not got past the first check. */
  ghost predicate LateSendsFail<S, M>(k: Sink<S, M>) {
    forall c :: c in k.calls ==>
      match k.calls[c]
      case SendBegun(_, late) => late ==> k.alreadySealed
      case SendSelecting(_, late) => !late
      case SendReturned(_, delivered, late) => late ==> !delivered
      case _ => true
  }

  /** The log holds one entry for each send that returned success, with that send's content and the sink's own
      sender, and nothing else. */
  ghost predicate LogIsSuccesses<S, M>(k: Sink<S, M>) {
    && (forall i {:trigger IsSuccess(k, i)} :: 0 <= i < |k.log| ==> IsSuccess(k, i))
    && (forall i, j :: 0 <= i < j < |k.log| ==> k.log[i].0 != k.log[j].0)
    && (forall c :: c in k.calls && k.calls[c].SendReturned? && k.calls[c].delivered ==>
          Logged(k, c))
  }

  ghost predicate IsSuccess<S, M>(k: Sink<S, M>, i: int)
    requires 0 <= i < |k.log|
  {
    && k.log[i].0 in k.calls
    && k.calls[k.log[i].0].SendReturned? && k.calls[k.log[i].0].delivered
    && k.log[i].1 == Message(k.sender, k.calls[k.log[i].0].content)
  }

  ghost predicate Logged<S, M>(k: Sink<S, M>, c: nat) {
    exists i :: 0 <= i < |k.log| && k.log[i].0 == c
  }

  /** A send has failed, or the channel been closed, only because of a seal; a seal that has been won and is over has
      closed the channel. */
  ghost predicate SealsMatter<S, M>(k: Sink<S, M>) {
    && (forall c :: c in k.calls && k.calls[c].SendReturned? && !k.calls[c].delivered ==> k.alreadySealed)
    && (k.alreadySealed ==> k.sealed || exists c :: c in k.calls && Winning(k.calls[c]))
    && (k.alreadySealed ==> exists c :: c in k.calls && IsSeal(k.calls[c]))
  }

  predicate IsSeal<M>(c: Call<M>) {
    c.SealBegun? || c.SealWon? || c.SealClosing? || c.SealReturned?
  }

  ghost predicate Inv<S, M>(k: Sink<S, M>) {
    OneWinner(k) && LateSendsFail(k) && LogIsSuccesses(k) && SealsMatter(k)
  }

  lemma StepKeepsOneWinner<S, M>(k: Sink<S, M>, a: Action<M>)
    requires OneWinner(k) && Enabled(k, a)
    ensures OneWinner(Next(k, a))
  {
  }

  lemma StepKeepsLateSendsFail<S, M>(k: Sink<S, M>, a: Action<M>)
    requires OneWinner(k) && LateSendsFail(k) && Enabled(k, a)
    ensures LateSendsFail(Next(k, a))
  {
  }

  lemma DeliveryKeepsLog<S, M>(k: Sink<S, M>, a: Action<M>)
    requires LogIsSuccesses(k) && Enabled(k, a) && a.SelectDeliver?
    ensures LogIsSuccesses(Next(k, a))
  {
    var k', n := Next(k, a), |k.log|;
    assert k'.log[..n] == k.log && k'.log[n].0 == a.call;
    forall i | 0 <= i < |k'.log| ensures IsSuccess(k', i) && (i < n ==> k'.log[i].0 != a.call) {
      DeliveryKeepsEntry(k, a, i);
    }
    assert forall i :: 0 <= i < n ==> k'.log[i] == k.log[i];
    forall c | c in k'.calls && k'.calls[c].SendReturned? && k'.calls[c].delivered ensures Logged(k', c) {
      DeliveryKeepsLogged(k, a, c);
    }
  }

  lemma DeliveryKeepsEntry<S, M>(k: Sink<S, M>, a: Action<M>, i: nat)
    requires LogIsSuccesses(k) && Enabled(k, a) && a.SelectDeliver? && i <= |k.log|
    ensures IsSuccess(Next(k, a), i) && (i < |k.log| ==> Next(k, a).log[i].0 != a.call)
  {
    var k' := Next(k, a);
    if i < |k.log| {
      assert IsSuccess(k, i) && k'.log[i] == k.log[i];
    }
  }

  lemma DeliveryKeepsLogged<S, M>(k: Sink<S, M>, a: Action<M>, c: nat)
    requires LogIsSuccesses(k) && Enabled(k, a) && a.SelectDeliver?
    requires var calls := Next(k, a).calls; c in calls && calls[c].SendReturned? && calls[c].delivered
    ensures Logged(Next(k, a), c)
  {
    var k', n := Next(k, a), |k.log|;
    if c == a.call {
      assert k'.log[n].0 == c;
    } else {
      assert Logged(k, c);
      var i :| 0 <= i < n && k.log[i].0 == c;
      assert k'.log[i].0 == c;
    }
  }

  lemma OtherStepKeepsLog<S, M>(k: Sink<S, M>, a: Action<M>)
    requires LogIsSuccesses(k) && Enabled(k, a) && !a.SelectDeliver?
    ensures LogIsSuccesses(Next(k, a))
  {
    var k' := Next(k, a);
    assert k'.log == k.log;
    forall i | 0 <= i < |k'.log| ensures IsSuccess(k', i) {
      assert IsSuccess(k, i);
    }
    forall c | c in k'.calls && k'.calls[c].SendReturned? && k'.calls[c].delivered ensures Logged(k', c) {
      assert k'.calls[c] == k.calls[c] && Logged(k, c);
    }
  }

  ghost predicate Path<S, M>(k: Sink<S, M>, actions: seq<Action<M>>, z: Sink<S, M>)
    decreases |actions|
  {
    if actions == [] then k == z
    else Enabled(k, actions[0]) && Path(Next(k, actions[0]), actions[1..], z)
  }

  lemma StepKeepsSealsMatter<S, M>(k: Sink<S, M>, a: Action<M>)
    requires OneWinner(k) && SealsMatter(k) && Enabled(k, a)
    ensures SealsMatter(Next(k, a))
  {
    var k' := Next(k, a);
    assert forall c :: c in k.calls && IsSeal(k.calls[c]) ==> c in k'.calls && IsSeal(k'.calls[c]);
    if a.CompareAndSwap? { assert IsSeal(k'.calls[a.call]); }
    if k'.alreadySealed && !k'.sealed {
      if a.CompareAndSwap? && !k.alreadySealed {
        assert Winning(k'.calls[a.call]);
      } else {
        var c :| c in k.calls && Winning(k.calls[c]);
        assert c in k'.calls && Winning(k'.calls[c]);
      }
    }
  }

  lemma {:induction false} RunsKeepInv<S, M>(k: Sink<S, M>, actions: seq<Action<M>>, z: Sink<S, M>)
    requires Inv(k) && Path(k, actions, z)
    ensures Inv(z) && z.sender == k.sender
    decreases |actions|
  {
    if actions == [] {
    } else {
      StepKeepsOneWinner(k, actions[0]);
      StepKeepsLateSendsFail(k, actions[0]);
      StepKeepsSealsMatter(k, actions[0]);
      if actions[0].SelectDeliver? { DeliveryKeepsLog(k, actions[0]); } else { OtherStepKeepsLog(k, actions[0]); }
      RunsKeepInv(Next(k, actions[0]), actions[1..], z);
    }
  }

  /** Sealing is final: under every interleaving, no send that begins after any call to `Seal` has returned delivers,
      even when that call lost the race to one that has not closed the channel yet; the channel is closed at most
      once; and every message in the sink comes from a send that returned success and names the sink's own sender. */
  lemma SealIsFinal<S, M>(sender: S, actions: seq<Action<M>>, z: Sink<S, M>, c: nat)
    requires Path(Initial(sender), actions, z) && c in z.calls
    ensures z.calls[c].SendReturned? && z.calls[c].late ==>
              !z.calls[c].delivered && forall i :: 0 <= i < |z.log| ==> z.log[i].0 != c
    ensures z.closings <= 1
    ensures forall i :: 0 <= i < |z.log| ==> z.log[i].1.sender == sender
  {
    RunsKeepInv(Initial(sender), actions, z);
    forall i | 0 <= i < |z.log|
      ensures z.log[i].1.sender == sender
      ensures z.log[i].0 == c ==> z.calls[c].SendReturned? && z.calls[c].delivered
    {
      assert IsSuccess(z, i);
    }
  }

  /** No send fails as long as nobody has called `Seal`, and every send under way can deliver. Once a seal is through,
      the channel is closed, so that no sender is left waiting. */
  lemma OnlySealsRefuse<S, M>(sender: S, actions: seq<Action<M>>, z: Sink<S, M>, c: nat)
    requires Path(Initial(sender), actions, z) && c in z.calls
    ensures (forall d :: d in z.calls ==> !IsSeal(z.calls[d])) ==>
              && (z.calls[c].SendReturned? ==> z.calls[c].delivered && Logged(z, c))
              && (z.calls[c].SendBegun? ==> Enabled(z, LoadSealed(c)) && Next(z, LoadSealed(c)).calls[c].SendSelecting?)
              && (z.calls[c].SendSelecting? ==> Enabled(z, SelectDeliver(c)))
    ensures z.calls[c].SealReturned? && (forall d :: d in z.calls ==> !Winning(z.calls[d])) ==>
              && z.sealed && z.closings == 1
              && forall d :: d in z.calls && z.calls[d].SendSelecting? ==> Enabled(z, SelectSealed(d))
  {
    RunsKeepInv(Initial(sender), actions, z);
  }

  /** The compare-and-swap is what keeps it at one: two seals past it would both see the channel open, and both close
      it. */
  lemma TwoWinnersCloseTwice<S, M>(k: Sink<S, M>, c: nat, d: nat)
    requires c != d && c in k.calls && d in k.calls && k.calls[c].SealWon? && k.calls[d].SealWon? && !k.sealed
    ensures var k1 := Next(k, CheckSealed(c));
            && Enabled(k1, CheckSealed(d))
            && var k2 := Next(k1, CheckSealed(d));
               && Enabled(k2, CloseSealed(c))
               && var k3 := Next(k2, CloseSealed(c));
                  Enabled(k3, CloseSealed(d)) && Next(k3, CloseSealed(d)).closings == k.closings + 2
  {
  }

  /** A sender that was already waiting may still deliver after the seal: the promise is about later sends only. */
  lemma WaitingSenderMayDeliver<S, M>(k: Sink<S, M>, c: nat)
    requires Inv(k) && k.sealed && c in k.calls && k.calls[c].SendSelecting?
    ensures Enabled(k, SelectSealed(c)) && Enabled(k, SelectDeliver(c)) && !k.calls[c].late
    ensures Next(k, SelectDeliver(c)).calls[c] == SendReturned(k.calls[c].content, true, false)
  {
  }

  /** The sink's shared variables; each method is one atomic access to them. */
  class SinkWithSender<S, M> {
    const sender: S
    var alreadySealed: bool
    var sealed: bool
    var messages: seq<Message<S, M>>

    constructor (s: S)
      ensures sender == s && !alreadySealed && !sealed && messages == []
    {
      sender := s;
      alreadySealed, sealed, messages := false, false, [];
    }

    /** The object holds what the model says. */
    ghost predicate Represents(k: Sink<S, M>)
      reads this
    {
      && k.sender == sender && k.alreadySealed == alreadySealed && k.sealed == sealed
      && |messages| == |k.log| && forall i :: 0 <= i < |messages| ==> messages[i] == k.log[i].1
    }

    method Load(ghost k: Sink<S, M>, ghost c: nat) returns (rejected: bool)
      requires Represents(k) && Enabled(k, LoadSealed(c))
      ensures Represents(Next(k, LoadSealed(c)))
      ensures rejected <==> Next(k, LoadSealed(c)).calls[c].SendReturned?
    {
      rejected := alreadySealed;
    }

    method Deliver(content: M, ghost k: Sink<S, M>, ghost c: nat)
      requires Represents(k) && Enabled(k, SelectDeliver(c)) && k.calls[c].content == content
      modifies this`messages
      ensures Represents(Next(k, SelectDeliver(c)))
      ensures messages == old(messages) + [Message(sender, content)]
    {
      messages := messages + [Message(sender, content)];
    }

    method CompareAndSwapSealed(ghost k: Sink<S, M>, ghost c: nat) returns (won: bool)
      requires Represents(k) && Enabled(k, CompareAndSwap(c))
      modifies this`alreadySealed
      ensures Represents(Next(k, CompareAndSwap(c)))
      ensures won <==> Next(k, CompareAndSwap(c)).calls[c].SealWon?
    {
      won := !alreadySealed;
      if won {
        alreadySealed := true;
      }
    }

    /** The select of a seal: whether the channel is closed already. */
    method Check(ghost k: Sink<S, M>, ghost c: nat) returns (isClosed: bool)
      requires Represents(k) && Enabled(k, CheckSealed(c))
      ensures Represents(Next(k, CheckSealed(c)))
      ensures isClosed <==> Next(k, CheckSealed(c)).calls[c].SealReturned?
    {
      isClosed := sealed;
    }

    method Close(ghost k: Sink<S, M>, ghost c: nat)
      requires Represents(k) && Enabled(k, CloseSealed(c))
      modifies this`sealed
      ensures Represents(Next(k, CloseSealed(c)))
    {
      sealed := true;
    }

    /** A send that nobody else gets in between of, with room in the sink. */
    method Send(content: M, ghost k: Sink<S, M>, ghost c: nat) returns (ok: bool, ghost k': Sink<S, M>)
      requires Represents(k) && c !in k.calls && OneWinner(k)
      modifies this`messages
      ensures Represents(k') && c in k'.calls && k'.calls[c] == SendReturned(content, ok, SomeSealReturned(k))
      ensures ok <==> !alreadySealed
      ensures messages == if ok then old(messages) + [Message(sender, content)] else old(messages)
    {
      ghost var k1 := Next(k, BeginSend(c, content));
      var rejected := Load(k1, c);
      ghost var k2 := Next(k1, LoadSealed(c));
      if rejected {
        return false, k2;
      }
      Deliver(content, k2, c);
      return true, Next(k2, SelectDeliver(c));
    }

    /** A seal that nobody else gets in between of. */
    method Seal(ghost k: Sink<S, M>, ghost c: nat) returns (ghost k': Sink<S, M>)
      requires Represents(k) && c !in k.calls && OneWinner(k)
      modifies this`alreadySealed, this`sealed
      ensures Represents(k') && c in k'.calls && k'.calls[c].SealReturned?
      ensures alreadySealed && sealed == (old(sealed) || !old(alreadySealed))
      ensures k'.closings == k.closings + if old(alreadySealed) then 0 else 1
    {
      ghost var k1 := Next(k, BeginSeal(c));
      var won := CompareAndSwapSealed(k1, c);
      k' := Next(k1, CompareAndSwap(c));
      if won {
        var isClosed := Check(k', c);
        k' := Next(k', CheckSealed(c));
        if !isClosed {
          Close(k', c);
          k' := Next(k', CloseSealed(c));
        }
      }
    }
  }
}
