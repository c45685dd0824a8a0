/** CPU and DMA steps on the two rings, in any order. */
module EthernetProtocol {
  import opened EthernetRings

  // ------------------------------------------------------------------ transmit

  datatype Status = Ok | InvalidArgument | FrameTooLarge | TransmitBusy | NoFrame | FrameError

  datatype Tx = Tx(
    buffers: seq<Frame>,     // transmitBuffers
    own: seq<bool>,          // the OWN bits: true while the DMA has the descriptor
    cpu: nat,                // transmitDescriptorIndex
    dma: nat,                // the DMA's position
    copied: bool,            // the frame is in the buffer, the descriptor not yet handed over
    submitted: seq<Frame>,   // history: frames handed over
    wire: seq<Frame>         // history: frames sent
  )

  datatype TxEvent = Copy(frame: Frame) | HandOver | Send

  /** What EthernetMac_Transmit answers. */
  function TransmitStatus(frame: Frame, owned: bool): Status {
    if frame == [] then InvalidArgument
    else if |frame| > BUFFER_SIZE then FrameTooLarge
    else if owned then TransmitBusy
    else Ok
  }

  predicate TxEnabled(x: Tx, e: TxEvent) {
    && x.cpu < |x.own| == |x.buffers| && x.dma < |x.own|
    && match e
       case Copy(frame) => !x.copied && TransmitStatus(frame, x.own[x.cpu]) == Ok
       case HandOver => x.copied
       case Send => x.own[x.dma]
  }

  function TxNext(x: Tx, e: TxEvent): Tx
    requires TxEnabled(x, e)
  {
    match e
    case Copy(frame) => x.(buffers := x.buffers[x.cpu := frame], copied := true)
    case HandOver =>
      x.(own := x.own[x.cpu := true], cpu := (x.cpu + 1) % |x.own|, copied := false,
         submitted := x.submitted + [x.buffers[x.cpu]])
    case Send =>
      x.(own := x.own[x.dma := false], dma := (x.dma + 1) % |x.own|, wire := x.wire + [x.buffers[x.dma]])
  }

  ghost predicate TxOk(x: Tx) {
    && Window(x.buffers, x.own, x.submitted, |x.wire|)
    && x.cpu == |x.submitted| % |x.own| && x.dma == |x.wire| % |x.own|
    && x.wire == x.submitted[..|x.wire|]
    && (x.copied ==> !x.own[x.cpu])
  }

  lemma TxKeeps(x: Tx, e: TxEvent)
    requires TxOk(x) && TxEnabled(x, e)
    ensures TxOk(TxNext(x, e))
  {
    var n, s, w := |x.own|, |x.submitted|, |x.wire|;
    match e
    case Copy(frame) =>
      Scribble(x.buffers, x.own, x.submitted, w, x.cpu, frame);
    case HandOver =>
      Fill(x.buffers, x.own, x.submitted, w, x.buffers[x.cpu]);
      assert x.buffers[x.cpu := x.buffers[x.cpu]] == x.buffers;
      Step(s, n);
      assert (x.submitted + [x.buffers[x.cpu]])[..w] == x.submitted[..w];
    case Send =>
      Empty(x.buffers, x.own, x.submitted, w);
      Step(w, n);
      assert x.submitted[..w + 1] == x.submitted[..w] + [x.submitted[w]];
  }

  ghost predicate TxRuns(x: Tx, es: seq<TxEvent>)
    decreases |es|
  {
    es == [] || (TxEnabled(x, es[0]) && TxRuns(TxNext(x, es[0]), es[1..]))
  }

  ghost function TxRun(x: Tx, es: seq<TxEvent>): Tx
    requires TxRuns(x, es)
    decreases |es|
  {
    if es == [] then x else TxRun(TxNext(x, es[0]), es[1..])
  }

  /** As EthernetMac_Init leaves the ring. */
  predicate TxStart(x: Tx) {
    && 0 < |x.own| == |x.buffers| && (forall i :: 0 <= i < |x.own| ==> !x.own[i])
    && x.cpu == 0 && x.dma == 0 && !x.copied && x.submitted == [] && x.wire == []
  }

  lemma TxStartIsOk(x: Tx)
    requires TxStart(x)
    ensures TxOk(x)
  {
  }

  /** Frames leave in the order they were submitted, each once; a buffer that the DMA
      owns holds the frame it was given, whatever the CPU has done since. */
  lemma {:induction false} TransmitInOrder(x: Tx, es: seq<TxEvent>)
    requires TxOk(x) && TxRuns(x, es)
    ensures TxOk(TxRun(x, es)) && TxRun(x, es).wire <= TxRun(x, es).submitted
    ensures var y := TxRun(x, es);
            0 < |y.own| == |y.buffers| &&
            forall i :: |y.wire| <= i < |y.submitted| ==> y.own[i % |y.own|] && y.buffers[i % |y.own|] == y.submitted[i]
    decreases |es|
  {
    if es != [] {
      hide TxOk, TxNext, TxEnabled;
      TxKeeps(x, es[0]);
      TransmitInOrder(TxNext(x, es[0]), es[1..]);
    }
  }

  // ------------------------------------------------------------------- receive

  /** A receive descriptor as the DMA leaves it, with its buffer. */
  datatype Completed = Completed(error: bool, first: bool, last: bool, length: nat, buffer: Frame)

  datatype Verdict = Bad | TooLarge | Good(length: nat)

  /** The tests of EthernetMac_GetReceivedFrame. */
  function Classify(c: Completed): Verdict {
    if c.error || !c.first || !c.last || c.length < CRC_SIZE then Bad
    else if c.length - CRC_SIZE > BUFFER_SIZE then TooLarge
    else Good(c.length - CRC_SIZE)
  }

  datatype Outcome = DroppedBad | DroppedTooLarge | NoMemory | Refused | Delivered(frame: Frame)

  /** One whole frame, received without an error, with room for its checksum. */
  predicate Intact(c: Completed) { !c.error && c.first && c.last && c.length >= 4 }

  /** Only bad, oversized, unallocatable or refused frames are dropped, and what is
      delivered is the frame without the four bytes of its checksum. */
  predicate Fair(o: Outcome, c: Completed) {
    && (o == DroppedBad <==> !Intact(c))
    && (o == DroppedTooLarge <==> Intact(c) && c.length > BUFFER_SIZE + 4)
    && (o.Delivered? ==> |o.frame| + 4 == c.length && o.frame <= c.buffer)
  }

  /** The tests of the driver tell exactly that. */
  lemma ClassifyExact(c: Completed)
    ensures Classify(c) == Bad <==> !Intact(c)
    ensures Classify(c) == TooLarge <==> Intact(c) && c.length > BUFFER_SIZE + 4
    ensures forall n: nat :: Classify(c) == Good(n) <==> Intact(c) && n <= BUFFER_SIZE && n + 4 == c.length
  {
  }

  datatype Rx = Rx(
    slots: seq<Completed>,
    done: seq<bool>,            // OWN bits inverted: true while the CPU has the descriptor
    cpu: nat,                   // receiveDescriptorIndex
    dma: nat,
    held: bool,                 // a frame has been handed out and not yet released
    arrived: seq<Completed>,    // history: descriptors completed by the DMA
    outcomes: seq<Outcome>      // history: what became of them
  )

  /** How lwIP takes the frame. */
  datatype Taken = OutOfMemory | Rejected | Accepted

  datatype RxEvent = Complete(c: Completed) | Get | Finish(taken: Taken)

  predicate RxEnabled(x: Rx, e: RxEvent) {
    && x.cpu < |x.done| == |x.slots| && x.dma < |x.done|
    && match e
       case Complete(c) => !x.done[x.dma] && |c.buffer| == BUFFER_SIZE
       case Get => !x.held
       case Finish(_) => x.held && Classify(x.slots[x.cpu]).Good? && |x.slots[x.cpu].buffer| == BUFFER_SIZE
  }

  /** EthernetMac_ReleaseReceivedFrame */
  function Release(x: Rx, o: Outcome): Rx
    requires x.cpu < |x.done|
  {
    x.(done := x.done[x.cpu := false], cpu := (x.cpu + 1) % |x.done|, held := false, outcomes := x.outcomes + [o])
  }

  function RxNext(x: Rx, e: RxEvent): Rx
    requires RxEnabled(x, e)
  {
    match e
    case Complete(c) =>
      x.(slots := x.slots[x.dma := c], done := x.done[x.dma := true], dma := (x.dma + 1) % |x.done|,
         arrived := x.arrived + [c])
    case Get =>
      if !x.done[x.cpu] then x
      else (match Classify(x.slots[x.cpu])
            case Bad => Release(x, DroppedBad)
            case TooLarge => Release(x, DroppedTooLarge)
            case Good(_) => x.(held := true))
    case Finish(taken) =>
      Release(x, match taken
                 case OutOfMemory => NoMemory
                 case Rejected => Refused
                 case Accepted => Delivered(x.slots[x.cpu].buffer[..Classify(x.slots[x.cpu]).length]))
  }

  ghost predicate RxOk(x: Rx) {
    && Window(x.slots, x.done, x.arrived, |x.outcomes|)
    && x.cpu == |x.outcomes| % |x.done| && x.dma == |x.arrived| % |x.done|
    && (forall i :: 0 <= i < |x.arrived| ==> |x.arrived[i].buffer| == BUFFER_SIZE)
    && (forall i :: 0 <= i < |x.outcomes| ==> Fair(x.outcomes[i], x.arrived[i]))
    && (x.held ==> x.done[x.cpu] && Classify(x.slots[x.cpu]).Good?)
  }

  /** The i-th outcome is what the i-th arrival deserves. */
  ghost predicate AllFair(x: Rx) {
    |x.outcomes| <= |x.arrived| && forall i :: 0 <= i < |x.outcomes| ==> Fair(x.outcomes[i], x.arrived[i])
  }

  lemma ReleaseKeeps(x: Rx, o: Outcome)
    requires RxOk(x) && x.cpu < |x.done| == |x.slots| && x.done[x.cpu] && Fair(o, x.slots[x.cpu])
    ensures RxOk(Release(x, o))
  {
    Empty(x.slots, x.done, x.arrived, |x.outcomes|);
    Step(|x.outcomes|, |x.done|);
  }

  lemma CompleteKeeps(x: Rx, c: Completed)
    requires RxOk(x) && RxEnabled(x, Complete(c))
    ensures RxOk(RxNext(x, Complete(c)))
  {
    Fill(x.slots, x.done, x.arrived, |x.outcomes|, c);
    Step(|x.arrived|, |x.done|);
  }

  lemma RxKeeps(x: Rx, e: RxEvent)
    requires RxOk(x) && RxEnabled(x, e)
    ensures RxOk(RxNext(x, e))
  {
    if x.cpu < |x.slots| { ClassifyExact(x.slots[x.cpu]); }
    match e
    case Complete(c) => CompleteKeeps(x, c);
    case Get =>
      if x.done[x.cpu] {
        match Classify(x.slots[x.cpu])
        case Bad => ReleaseKeeps(x, DroppedBad);
        case TooLarge => ReleaseKeeps(x, DroppedTooLarge);
        case Good(_) =>
      }
    case Finish(taken) =>
      match taken
      case OutOfMemory => ReleaseKeeps(x, NoMemory);
      case Rejected => ReleaseKeeps(x, Refused);
      case Accepted => ReleaseKeeps(x, Delivered(x.slots[x.cpu].buffer[..Classify(x.slots[x.cpu]).length]));
  }

  ghost predicate RxRuns(x: Rx, es: seq<RxEvent>)
    decreases |es|
  {
    es == [] || (RxEnabled(x, es[0]) && RxRuns(RxNext(x, es[0]), es[1..]))
  }

  ghost function RxRun(x: Rx, es: seq<RxEvent>): Rx
    requires RxRuns(x, es)
    decreases |es|
  {
    if es == [] then x else RxRun(RxNext(x, es[0]), es[1..])
  }

  predicate RxStart(x: Rx) {
    && 0 < |x.done| == |x.slots| && (forall i :: 0 <= i < |x.done| ==> !x.done[i])
    && x.cpu == 0 && x.dma == 0 && !x.held && x.arrived == [] && x.outcomes == []
  }

  lemma RxStartIsOk(x: Rx)
    requires RxStart(x)
    ensures RxOk(x)
  {
  }

  /** Every descriptor the DMA completes is returned once and in ring order: the i-th
      outcome is about the i-th arrival, and is what that arrival deserves. */
  lemma {:induction false} ReceiveInOrder(x: Rx, es: seq<RxEvent>)
    requires RxOk(x) && RxRuns(x, es)
    ensures RxOk(RxRun(x, es)) && AllFair(RxRun(x, es))
    decreases |es|
  {
    if es != [] {
      hide RxOk, RxNext, RxEnabled;
      RxKeeps(x, es[0]);
      ReceiveInOrder(RxNext(x, es[0]), es[1..]);
    }
  }

  /** A frame that has been handed out can be finished, and until then the DMA leaves
      its buffer alone. */
  lemma HeldFrameStays(x: Rx, c: Completed, taken: Taken)
    requires RxOk(x) && x.held
    ensures RxEnabled(x, Finish(taken))
    ensures RxEnabled(x, Complete(c)) ==>
            RxNext(x, Complete(c)).slots[x.cpu] == x.slots[x.cpu] && RxNext(x, Complete(c)).held
  {
    Oldest(x.slots, x.done, x.arrived, |x.outcomes|);
    assert x.slots[x.cpu] == x.arrived[|x.outcomes|];
  }

  predicate Whole(cs: seq<Completed>) { forall c :: c in cs ==> |c.buffer| == BUFFER_SIZE }

  /** The DMA completes descriptors while the CPU is elsewhere; what finds no free
      descriptor is missed. */
  ghost function Burst(x: Rx, cs: seq<Completed>): (y: Rx)
    requires RxOk(x) && Whole(cs)
    ensures RxOk(y) && y.held == x.held && y.outcomes == x.outcomes && y.cpu == x.cpu && |y.done| == |x.done|
    ensures x.arrived <= y.arrived && (x.done[x.cpu] ==> y.done[y.cpu] && y.slots[y.cpu] == x.slots[x.cpu])
    decreases |cs|
  {
    if cs == [] then x
    else if x.done[x.dma] then Burst(x, cs[1..])
    else CompleteKeeps(x, cs[0]); Burst(RxNext(x, Complete(cs[0])), cs[1..])
  }

  /** What the DMA completes around one pass: before it, and while a frame is held. */
  datatype Meanwhile = Meanwhile(before: seq<Completed>, during: seq<Completed>)

  predicate AllWhole(ms: seq<Meanwhile>) { forall m :: m in ms ==> Whole(m.before) && Whole(m.during) }

  /** One pass of the loop of NetworkInterface_ProcessInput. */
  ghost function Pass(x: Rx, taken: Taken, during: seq<Completed>): (y: Rx)
    requires RxOk(x) && !x.held && x.done[x.cpu] && Whole(during)
    ensures RxOk(y) && !y.held && x.arrived <= y.arrived && |y.outcomes| == |x.outcomes| + 1 && x.outcomes <= y.outcomes
    ensures during == [] ==> y.arrived == x.arrived
  {
    RxKeeps(x, Get);
    var y := Burst(RxNext(x, Get), during);
    if y.held then
      HeldFrameStays(y, y.slots[y.cpu], taken);
      RxKeeps(y, Finish(taken));
      RxNext(y, Finish(taken))
    else y
  }

  lemma DoneWaits(x: Rx)
    requires RxOk(x)
    ensures (x.done[x.cpu] <==> |x.outcomes| < |x.arrived|) && |x.outcomes| <= |x.arrived|
  {
    Oldest(x.slots, x.done, x.arrived, |x.outcomes|);
  }

  function Head(ms: seq<Meanwhile>): Meanwhile { if ms == [] then Meanwhile([], []) else ms[0] }

  function Tail<T>(s: seq<T>): seq<T> { if s == [] then [] else s[1..] }

  datatype Round = Over(rx: Rx) | Going(rx: Rx)

  /** One turn of the loop: it is over if the next descriptor belongs to the DMA. */
  ghost function Turn(x: Rx, taken: Taken, m: Meanwhile): (r: Round)
    requires RxOk(x) && !x.held && Whole(m.before) && Whole(m.during)
    ensures RxOk(r.rx) && !r.rx.held && x.arrived <= r.rx.arrived && x.outcomes <= r.rx.outcomes
    ensures r.Over? ==> |r.rx.outcomes| == |r.rx.arrived|
    ensures r.Going? && m == Meanwhile([], []) ==> Waiting(r.rx) < Waiting(x)
  {
    var x' := Burst(x, m.before);
    DoneWaits(x');
    if Waiting(x') == 0 then Over(x') else Going(Pass(x', taken, m.during))
  }

  /** The loop: until a descriptor belongs to the DMA.  `answers` is how lwIP takes
      the frames offered to it, a missing answer being an acceptance; `ms` is what the
      DMA completes around each turn.  It ends with every completed descriptor returned. */
  ghost function Drain(x: Rx, answers: seq<Taken>, ms: seq<Meanwhile>): (y: Rx)
    requires RxOk(x) && !x.held && AllWhole(ms)
    ensures RxOk(y) && !y.held && x.arrived <= y.arrived && x.outcomes <= y.outcomes && |y.outcomes| == |y.arrived|
    decreases |ms|, Waiting(x)
  {
    HeadWhole(ms);
    var r := Turn(x, if answers == [] then Accepted else answers[0], Head(ms));
    if r.Over? then r.rx
    else Drain(r.rx, if Asked(Burst(x, Head(ms).before)) then Tail(answers) else answers, Tail(ms))
  }

  lemma HeadWhole(ms: seq<Meanwhile>)
    requires AllWhole(ms)
    ensures Whole(Head(ms).before) && Whole(Head(ms).during) && AllWhole(Tail(ms))
  {
  }

  /** The descriptors the DMA has completed and the CPU has not returned. */
  function Waiting(x: Rx): nat { if |x.outcomes| < |x.arrived| then |x.arrived| - |x.outcomes| else 0 }

  /** The next of them is a frame that lwIP will be asked to take. */
  predicate Asked(x: Rx) { x.cpu < |x.slots| && Classify(x.slots[x.cpu]).Good? }
}
