/** The driver as it runs on its static arrays, and the receive loop above it. */
module EthernetObject {
  import opened EthernetRings
  import opened EthernetProtocol

  const RX_DESCRIPTOR_COUNT: nat := 8
  const TX_DESCRIPTOR_COUNT: nat := 8

  class EthernetMac {
    const txBuffers: array<Frame>
    const txOwn: array<bool>
    var txIndex: nat
    ghost var txDma: nat
    ghost var submitted: seq<Frame>
    ghost var wire: seq<Frame>

    const rxSlots: array<Completed>
    const rxDone: array<bool>
    var rxIndex: nat
    var rxDma: nat                 // the DMA's own position
    ghost var arrived: seq<Completed>
    ghost var outcomes: seq<Outcome>

    ghost function TxState(): Tx
      reads this, txBuffers, txOwn
    {
      Tx(txBuffers[..], txOwn[..], txIndex, txDma, false, submitted, wire)
    }

    ghost function RxState(held: bool): Rx
      reads this, rxSlots, rxDone
    {
      Rx(rxSlots[..], rxDone[..], rxIndex, rxDma, held, arrived, outcomes)
    }

    ghost predicate Arrays()
      reads this
    {
      && txOwn.Length == txBuffers.Length == TX_DESCRIPTOR_COUNT
      && rxDone.Length == rxSlots.Length == RX_DESCRIPTOR_COUNT
      && txOwn != rxDone
    }

    ghost predicate Valid()
      reads this, txBuffers, txOwn, rxSlots, rxDone
    {
      Arrays() && TxOk(TxState()) && RxOk(RxState(false))
    }

    /** EthernetMac_Init: every receive descriptor to the DMA, every transmit
        descriptor to the CPU. */
    constructor ()
      ensures Valid() && TxStart(TxState()) && RxStart(RxState(false))
      ensures fresh(txBuffers) && fresh(txOwn) && fresh(rxSlots) && fresh(rxDone)
    {
      txBuffers := new Frame[TX_DESCRIPTOR_COUNT](_ => []);
      txOwn := new bool[TX_DESCRIPTOR_COUNT](_ => false);
      rxSlots := new Completed[RX_DESCRIPTOR_COUNT](_ => Completed(false, false, false, 0, []));
      rxDone := new bool[RX_DESCRIPTOR_COUNT](_ => false);
      txIndex, txDma, submitted, wire := 0, 0, [], [];
      rxIndex, rxDma, arrived, outcomes := 0, 0, [], [];
      new;
      TxStartIsOk(TxState());
      RxStartIsOk(RxState(false));
    }

    /** EthernetMac_Transmit */
    method Transmit(frame: Frame) returns (status: Status)
      requires Valid()
      modifies this`txIndex, this`submitted, txBuffers, txOwn
      ensures Valid() && RxState(false) == old(RxState(false))
      ensures status == TransmitStatus(frame, old(txOwn[txIndex]))
      ensures status == InvalidArgument <==> frame == []
      ensures status == FrameTooLarge <==> |frame| > BUFFER_SIZE
      ensures status == TransmitBusy <==> 0 < |frame| <= BUFFER_SIZE && old(|submitted| - |wire|) == TX_DESCRIPTOR_COUNT
      ensures status == Ok <==> 0 < |frame| <= BUFFER_SIZE && old(|submitted| - |wire|) < TX_DESCRIPTOR_COUNT
      ensures wire == old(wire) && submitted == if status == Ok then old(submitted) + [frame] else old(submitted)
    {
      hide Window, RxOk;
      ghost var x := TxState();
      Newest(x.buffers, x.own, x.submitted, |x.wire|);
      if frame == [] {
        return InvalidArgument;
      }
      if |frame| > BUFFER_SIZE {
        return FrameTooLarge;
      }
      if txOwn[txIndex] {
        return TransmitBusy;
      }
      TxKeeps(x, Copy(frame));
      TxKeeps(TxNext(x, Copy(frame)), HandOver);
      txBuffers[txIndex] := frame;
      txOwn[txIndex] := true;
      txIndex := (txIndex + 1) % TX_DESCRIPTOR_COUNT;
      submitted := submitted + [frame];
      assert TxState() == TxNext(TxNext(x, Copy(frame)), HandOver);
      status := Ok;
    }

    /** EthernetMac_ReleaseReceivedFrame */
    method ReleaseFrame(ghost o: Outcome)
      requires Arrays() && rxIndex < RX_DESCRIPTOR_COUNT
      modifies this`rxIndex, this`outcomes, rxDone
      ensures RxState(false) == Release(old(RxState(false)), o)
    {
      rxDone[rxIndex] := false;
      rxIndex := (rxIndex + 1) % RX_DESCRIPTOR_COUNT;
      outcomes := outcomes + [o];
    }

    /** EthernetMac_GetReceivedFrame: a bad frame is released here. */
    method GetFrame() returns (status: Status, length: nat)
      requires Arrays() && RxOk(RxState(false))
      modifies this`rxIndex, this`outcomes, rxDone
      ensures RxEnabled(old(RxState(false)), Get) && RxState(status == Ok) == RxNext(old(RxState(false)), Get)
      ensures status == NoFrame <==> !old(rxDone[rxIndex])
      ensures status == Ok ==> RxState(false) == old(RxState(false)) && Classify(rxSlots[rxIndex]) == Good(length)
      ensures var c := old(rxSlots[rxIndex]);
              && (status == FrameError <==> old(rxDone[rxIndex]) && !Intact(c))
              && (status == FrameTooLarge <==> old(rxDone[rxIndex]) && Intact(c) && c.length > BUFFER_SIZE + 4)
              && (status == Ok <==> old(rxDone[rxIndex]) && Intact(c) && c.length <= BUFFER_SIZE + 4)
              && (status == Ok ==> length + 4 == c.length)
    {
      hide Window;
      length := 0;
      if !rxDone[rxIndex] {
        return NoFrame, 0;
      }
      var c := rxSlots[rxIndex];
      if c.error || !c.first || !c.last || c.length < CRC_SIZE {
        ReleaseFrame(DroppedBad);
        return FrameError, 0;
      }
      length := c.length - CRC_SIZE;
      if length > BUFFER_SIZE {
        ReleaseFrame(DroppedTooLarge);
        return FrameTooLarge, length;
      }
      status := Ok;
    }

    /** The DMA completes descriptors while the CPU is elsewhere. */
    method Dma(cs: seq<Completed>, ghost held: bool)
      requires Arrays() && RxOk(RxState(held)) && Whole(cs)
      modifies this`rxDma, this`arrived, rxSlots, rxDone
      ensures RxOk(RxState(held)) && RxState(held) == Burst(old(RxState(held)), cs)
    {
      hide RxOk, Burst, Fair;
      for i := 0 to |cs|
        invariant RxOk(RxState(held)) && Whole(cs[i..])
        invariant Burst(RxState(held), cs[i..]) == Burst(old(RxState(held)), cs)
      {
        ghost var x := RxState(held);
        Indices(x);
        BurstStep(x, cs[i..]);
        if !rxDone[rxDma] {
          rxSlots[rxDma] := cs[i];
          rxDone[rxDma] := true;
          rxDma := (rxDma + 1) % RX_DESCRIPTOR_COUNT;
          arrived := arrived + [cs[i]];
          assert RxState(held) == RxNext(x, Complete(cs[i]));
        }
        assert cs[i..][1..] == cs[i + 1..];
      }
      assert cs[|cs|..] == [];
      BurstStep(RxState(held), []);
    }

    /** The body of the loop of NetworkInterface_ProcessInput, with lwIP's answer
        should a frame be offered to it, and what the DMA completes meanwhile. */
    method ProcessOne(taken: Taken, during: seq<Completed>) returns (status: Status, input: seq<Frame>)
      requires Arrays() && RxOk(RxState(false)) && Whole(during)
      modifies this`rxIndex, this`outcomes, this`rxDma, this`arrived, rxSlots, rxDone
      ensures status == NoFrame <==> !old(rxDone[rxIndex])
      ensures status == Ok ==> Asked(old(RxState(false)))
      ensures status != Ok && status != NoFrame ==> !Asked(old(RxState(false)))
      ensures if status == NoFrame then RxState(false) == old(RxState(false)) && input == []
              else (&& RxState(false) == Pass(old(RxState(false)), taken, during)
                    && input == Accepts(outcomes[old(|outcomes|)..]))
    {
      hide RxOk, Pass, Burst, Accepts;
      ghost var x := RxState(false);
      Indices(x);
      var length;
      status, length := GetFrame();
      input := [];
      if status != NoFrame {
        PassOutcome(x, taken, during);
        if status == Ok {
          PassGood(x, taken, during);
          Dma(during, true);
          match taken {
            case OutOfMemory => ReleaseFrame(NoMemory);
            case Rejected => ReleaseFrame(Refused);
            case Accepted =>
              input := [rxSlots[rxIndex].buffer[..length]];
              ReleaseFrame(Delivered(input[0]));
          }
        } else {
          PassBad(x, taken, during);
          Dma(during, false);
        }
        assert outcomes[|x.outcomes|..] == [OutcomeOf(x.slots[x.cpu], taken)];
        AcceptsOne([], OutcomeOf(x.slots[x.cpu], taken));
        AcceptsNone();
        assert [] + [OutcomeOf(x.slots[x.cpu], taken)] == [OutcomeOf(x.slots[x.cpu], taken)];
      }
    }

    /** One turn of that loop, with what the DMA completes before it. */
    method ProcessTurn(rest: seq<Taken>, todo: seq<Meanwhile>) returns (status: Status, frames: seq<Frame>)
      requires Arrays() && RxOk(RxState(false)) && AllWhole(todo)
      modifies this`rxIndex, this`outcomes, this`rxDma, this`arrived, rxSlots, rxDone
      ensures RxOk(RxState(false)) && AllWhole(Tail(todo))
      ensures status == NoFrame ==>
                outcomes == old(outcomes) && RxState(false) == Drain(old(RxState(false)), rest, todo)
      ensures status != NoFrame ==>
                && Drain(RxState(false), if status == Ok then Tail(rest) else rest, Tail(todo))
                     == Drain(old(RxState(false)), rest, todo)
                && |outcomes| == old(|outcomes|) + 1 && old(outcomes) <= outcomes
                && frames == Accepts(outcomes[old(|outcomes|)..])
                && (todo == [] ==> Waiting(RxState(false)) < old(Waiting(RxState(false))))
    {
      hide RxOk, Pass, Drain, Accepts, Burst, Turn, AllWhole, Waiting;
      var taken, m := if rest == [] then Accepted else rest[0], Head(todo);
      HeadWhole(todo);
      ghost var x := RxState(false);
      Dma(m.before, false);
      Indices(RxState(false));
      status, frames := ProcessOne(taken, m.during);
      DrainTurn(x, rest, todo);
    }

    /** NetworkInterface_ProcessInput, with the answers lwIP gives in turn and what the
        DMA completes around each turn of the loop.  Every descriptor completed by then
        is returned, in ring order, and `input` is what lwIP has accepted. */
    method ProcessInput(answers: seq<Taken>, ms: seq<Meanwhile>) returns (input: seq<Frame>)
      requires Valid() && AllWhole(ms)
      modifies this`rxIndex, this`outcomes, this`rxDma, this`arrived, rxSlots, rxDone
      ensures Valid() && TxState() == old(TxState()) && RxState(false) == Drain(old(RxState(false)), answers, ms)
      ensures |outcomes| == |arrived| && old(outcomes) <= outcomes && input == Accepts(outcomes[old(|outcomes|)..])
      ensures AllFair(RxState(false))
      ensures answers == [] ==> AllDelivered(RxState(false), old(|outcomes|))
    {
      hide TxOk, RxOk, Pass, Drain, Accepts, Burst, Turn, AllWhole, AllFair, AllDelivered;
      input := [];
      var rest, todo, more := answers, ms, true;
      ghost var first := |outcomes|;
      if answers == [] { NothingDropped(RxState(false), ms); }
      assert outcomes[first..] == [] && Accepts([]) == [] by { AcceptsNone(); }
      while more
        invariant Arrays() && TxState() == old(TxState()) && RxOk(RxState(false)) && AllWhole(todo)
        invariant if more then Drain(RxState(false), rest, todo) == Drain(old(RxState(false)), answers, ms)
                  else RxState(false) == Drain(old(RxState(false)), answers, ms)
        invariant first <= |outcomes| && input == Accepts(outcomes[first..])
        decreases more, |todo|, Waiting(RxState(false))
      {
        ghost var done := outcomes;
        var status, frames := ProcessTurn(rest, todo);
        if status == NoFrame {
          more := false;
        } else {
          assert outcomes[..|done|] == done;
          AcceptsMore(outcomes, first, |done|);
          input := input + frames;
          rest, todo := if status == Ok then Tail(rest) else rest, Tail(todo);
        }
      }
      OutcomesFair(RxState(false));
    }
  }

  /** The frames among the outcomes that reached lwIP. */
  function Accepts(os: seq<Outcome>): seq<Frame> {
    if os == [] then []
    else Accepts(os[..|os| - 1]) + if os[|os| - 1].Delivered? then [os[|os| - 1].frame] else []
  }

  lemma AcceptsNone()
    ensures Accepts([]) == []
  {
  }

  lemma AcceptsOne(os: seq<Outcome>, o: Outcome)
    ensures Accepts(os + [o]) == Accepts(os) + if o.Delivered? then [o.frame] else []
  {
    assert (os + [o])[..|os + [o]| - 1] == os;
  }

  lemma AcceptsMore(os: seq<Outcome>, first: nat, n: nat)
    requires first <= n && n + 1 == |os|
    ensures Accepts(os[first..]) == Accepts(os[..n][first..]) + Accepts(os[n..])
  {
    hide Accepts;
    assert os[first..] == os[..n][first..] + [os[n]] && os[n..] == [os[n]];
    AcceptsOne(os[..n][first..], os[n]);
    AcceptsOne([], os[n]);
    AcceptsNone();
    assert [] + [os[n]] == [os[n]];
  }

  lemma Indices(x: Rx)
    requires RxOk(x)
    ensures x.cpu < |x.done| == |x.slots| && x.dma < |x.done|
  {
  }

  lemma SlotBuffer(x: Rx)
    requires RxOk(x) && x.done[x.cpu]
    ensures |x.slots[x.cpu].buffer| == BUFFER_SIZE
  {
    Oldest(x.slots, x.done, x.arrived, |x.outcomes|);
    assert x.slots[x.cpu] == x.arrived[|x.outcomes|];
  }

  /** What becomes of a completed descriptor in one pass of the loop. */
  function OutcomeOf(c: Completed, taken: Taken): Outcome
    requires |c.buffer| == BUFFER_SIZE
  {
    match Classify(c)
    case Bad => DroppedBad
    case TooLarge => DroppedTooLarge
    case Good(n) =>
      match taken
      case OutOfMemory => NoMemory
      case Rejected => Refused
      case Accepted => Delivered(c.buffer[..n])
  }

  lemma BurstStep(x: Rx, cs: seq<Completed>)
    requires RxOk(x) && Whole(cs)
    ensures cs == [] ==> Burst(x, cs) == x
    ensures cs != [] && x.done[x.dma] ==> Burst(x, cs) == Burst(x, cs[1..])
    ensures cs != [] && !x.done[x.dma] ==>
              && RxEnabled(x, Complete(cs[0])) && RxOk(RxNext(x, Complete(cs[0])))
              && Burst(x, cs) == Burst(RxNext(x, Complete(cs[0])), cs[1..])
  {
    Indices(x);
    hide RxOk, RxNext;
    if cs != [] && !x.done[x.dma] { CompleteKeeps(x, cs[0]); }
  }

  /** The outcome of a pass is about the descriptor it found, whatever the DMA does. */
  lemma PassOutcome(x: Rx, taken: Taken, during: seq<Completed>)
    requires RxOk(x) && !x.held && x.done[x.cpu] && Whole(during)
    ensures |x.slots[x.cpu].buffer| == BUFFER_SIZE
    ensures Pass(x, taken, during).outcomes == x.outcomes + [OutcomeOf(x.slots[x.cpu], taken)]
  {
    SlotBuffer(x);
    RxKeeps(x, Get);
    hide RxOk, Burst;
  }

  /** A frame handed out is still there after a burst, and can be finished. */
  lemma PassGood(x: Rx, taken: Taken, during: seq<Completed>)
    requires RxOk(x) && !x.held && x.done[x.cpu] && Whole(during) && Asked(x)
    ensures RxEnabled(x, Get) && RxNext(x, Get) == x.(held := true) && RxOk(x.(held := true))
    ensures var y := Burst(x.(held := true), during);
            && y.held && y.cpu == x.cpu < |y.done| == |y.slots| && y.slots[y.cpu] == x.slots[x.cpu]
            && |x.slots[x.cpu].buffer| == BUFFER_SIZE
            && Pass(x, taken, during) == Release(y, OutcomeOf(x.slots[x.cpu], taken))
  {
    SlotBuffer(x);
    RxKeeps(x, Get);
    Indices(Burst(x.(held := true), during));
    HeldFrameStays(Burst(x.(held := true), during), x.slots[x.cpu], taken);
    hide RxOk, Burst;
  }

  lemma PassBad(x: Rx, taken: Taken, during: seq<Completed>)
    requires RxOk(x) && !x.held && x.done[x.cpu] && Whole(during) && !Asked(x)
    ensures RxEnabled(x, Get) && RxOk(RxNext(x, Get)) && Pass(x, taken, during) == Burst(RxNext(x, Get), during)
  {
    Indices(x);
    RxKeeps(x, Get);
    hide RxOk, Burst;
  }

  /** A turn of the loop, by what it finds after the burst before it. */
  lemma DrainTurn(x: Rx, answers: seq<Taken>, ms: seq<Meanwhile>)
    requires RxOk(x) && !x.held && AllWhole(ms)
    ensures Whole(Head(ms).before) && Whole(Head(ms).during) && AllWhole(Tail(ms))
    ensures var x', taken := Burst(x, Head(ms).before), if answers == [] then Accepted else answers[0];
            && RxOk(x') && !x'.held && x'.cpu < |x'.done|
            && (!x'.done[x'.cpu] ==> Drain(x, answers, ms) == x')
            && (x'.done[x'.cpu] ==>
                  var y := Pass(x', taken, Head(ms).during);
                  && Drain(x, answers, ms) == Drain(y, if Asked(x') then Tail(answers) else answers, Tail(ms))
                  && (ms == [] ==> Waiting(y) < Waiting(x)) && |y.outcomes| == |x'.outcomes| + 1
                  && x'.outcomes <= y.outcomes)
  {
    HeadWhole(ms);
    var x' := Burst(x, Head(ms).before);
    Indices(x');
    DoneWaits(x');
    hide RxOk, Burst, Pass;
  }

  predicate Fits(c: Completed) { Intact(c) && c.length <= BUFFER_SIZE + 4 }

  /** From the n-th on no frame that is whole and fits has been dropped. */
  ghost predicate AllDelivered(x: Rx, n: nat) {
    forall i :: n <= i < |x.outcomes| && i < |x.arrived| && Fits(x.arrived[i]) ==> x.outcomes[i].Delivered?
  }

  /** While lwIP takes what it is offered, the loop drops nothing else. */
  lemma {:induction false} NothingDropped(x: Rx, ms: seq<Meanwhile>)
    requires RxOk(x) && !x.held && AllWhole(ms)
    ensures AllDelivered(Drain(x, [], ms), |x.outcomes|)
    decreases |ms|, Waiting(x)
  {
    hide RxOk, Burst, Pass, AllWhole, Fair, Waiting, OutcomeOf, Fits;
    DrainTurn(x, [], ms);
    var x', z := Burst(x, Head(ms).before), Drain(x, [], ms);
    hide Drain;
    if x'.done[x'.cpu] {
      var y := Pass(x', Accepted, Head(ms).during);
      PassOutcome(x', Accepted, Head(ms).during);
      OldestSlot(x');
      NothingDropped(y, Tail(ms));
      assert y.outcomes <= z.outcomes && y.arrived <= z.arrived;
      assert z.arrived[|x.outcomes|] == y.arrived[|x.outcomes|] == x'.arrived[|x.outcomes|];
      assert z.outcomes[|x.outcomes|] == y.outcomes[|x.outcomes|];
      DeliveredOne(x'.arrived[|x.outcomes|]);
    }
  }

  lemma DeliveredOne(c: Completed)
    requires |c.buffer| == BUFFER_SIZE
    ensures Fits(c) ==> OutcomeOf(c, Accepted).Delivered?
  {
    ClassifyExact(c);
  }

  lemma OutcomesFair(x: Rx)
    requires RxOk(x)
    ensures AllFair(x)
  {
    DoneWaits(x);
  }

  lemma OldestSlot(x: Rx)
    requires RxOk(x) && x.done[x.cpu]
    ensures |x.outcomes| < |x.arrived| && x.arrived[|x.outcomes|] == x.slots[x.cpu]
  {
    Oldest(x.slots, x.done, x.arrived, |x.outcomes|);
  }
}
