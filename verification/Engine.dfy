// Whole runs of one hugepage stream: every interleaving of kernel, layer and driver steps.

module Engine {
  import opened Common
  import opened Receive
  import opened Transmit

  // ---------------------------------------------------------------- the two halves meet in left_set_lens

  datatype StreamCursor = StreamCursor(rx: RxCursor, tx: TxCursor)

  const FRESH_CURSOR := StreamCursor(RxCursor(0, 0, 0), TxCursor(0, 0, 0, 0, 0))

  function LeftLens(c: StreamCursor): Outcome<(nat, nat)> {
    if c.rx.end < c.rx.start || c.tx.end < c.tx.start then Panicked(Underflow)
    else Done((c.rx.end - c.rx.start, c.tx.end - c.tx.start))
  }

  function SetLeftLens(c: StreamCursor, newIn: nat, newOut: nat): Outcome<StreamCursor> {
    if LeftLens(c).Panicked? then Panicked(Underflow)
    else if newIn + c.rx.start > REGION then Panicked(InOverCapacity)
    else if newOut + c.tx.start > REGION then Panicked(OutOverCapacity)
    else Done(StreamCursor(SetLenIn(c.rx, newIn), SetLenOut(c.tx, newOut)))
  }

  /** Reading the lengths back gives what was set, unless a refused submission left idx_out_cur stale and the
      out-length was changed. */
  lemma LensRoundTripIff(c: StreamCursor, newIn: nat, newOut: nat)
    requires SetLeftLens(c, newIn, newOut).Done?
    ensures LeftLens(SetLeftLens(c, newIn, newOut).value) == Done((newIn, newOut))
       <==> (Synced(c.tx) || newOut == c.tx.end - c.tx.start)
  {}

  /** left_set_lens for every cursor and all lengths: which of its checks fails, and otherwise the lengths it gives. */
  lemma SetLensReplies(c: StreamCursor, newIn: nat, newOut: nat)
    ensures var r := SetLeftLens(c, newIn, newOut);
            && (r == Panicked(Underflow) <==> c.rx.end < c.rx.start || c.tx.end < c.tx.start)
            && (c.rx.start <= c.rx.end && c.tx.start <= c.tx.end ==>
                  && (r == Panicked(InOverCapacity) <==> c.rx.start + newIn > REGION)
                  && (r == Panicked(OutOverCapacity) <==> c.rx.start + newIn <= REGION < c.tx.start + newOut)
                  && (r.Done? <==> c.rx.start + newIn <= REGION && c.tx.start + newOut <= REGION))
            && (r.Done? ==>
                  && r.value.rx.end - r.value.rx.start == newIn && r.value.rx.reused == c.rx.reused
                  && (newIn <= c.rx.end - c.rx.start ==> r.value.rx.end == c.rx.end)
                  && (newIn >= c.rx.end - c.rx.start ==> r.value.rx.start == c.rx.start)
                  && r.value.tx == (if newOut == c.tx.end - c.tx.start then c.tx
                                    else c.tx.(end := c.tx.idx * BUF_SIZE + newOut)))
  {}

  /** After a borrow, a layer that does not add to its input may leave exactly as much as the first piece holds; any
      amount if there is one piece. Anything else panics, also when both lengths are set to what they were. */
  lemma MayLeaveIff(s: Rx, tx: TxCursor, newIn: nat, newOut: nat)
    requires RxInv(s) && newIn <= s.c.end - s.c.start && tx.start <= tx.end && newOut + tx.start <= REGION
    ensures var view := ViewOf(RxBorrow(s).c);
            var r := SetLeftLens(StreamCursor(RxBorrow(s).c, tx), newIn, newOut);
            if view.Single? || newIn <= view.len1 then r.Done? else r == Panicked(InOverCapacity)
  {
    RevolveKeeps(s);
  }

  /** After a refused submission, committing a shorter output than was already submitted puts the end before the
      start: the next left_lens underflows. */
  lemma StaleCommitUnderflowsIff(c: StreamCursor, newIn: nat, newOut: nat)
    requires SetLeftLens(c, newIn, newOut).Done?
    ensures LeftLens(SetLeftLens(c, newIn, newOut).value) == Panicked(Underflow)
       <==> (newOut != c.tx.end - c.tx.start && c.tx.idx * BUF_SIZE + newOut < c.tx.start)
  {}

  /** Such a state is one refused call away: two buffers pending, the second submission refused. */
  lemma StaleCommitReachable()
    ensures var tx := SendAllOut(TxCursor(0, 2 * BUF_SIZE, 0, 0, 0), 1).c;
            var c := StreamCursor(RxCursor(0, 0, 0), tx);
            !Synced(tx) && SetLeftLens(c, 0, 0).Done? && LeftLens(SetLeftLens(c, 0, 0).value) == Panicked(Underflow)
  {
    SendShape(TxCursor(0, 2 * BUF_SIZE, 0, 0, 0), 1);
  }

  // ---------------------------------------------------------------- the state machine

  datatype World = World(rx: Rx, tx: Tx)

  datatype Event =
    | Dma(bytes: seq<byte>)                              // the kernel writes received bytes into the region
    | Recv(bufId: Option<nat>, bufLen: nat)              // cb_recv_multi
    | Borrow                                             // left_bufs_mut
    | Write(output: seq<byte>)                           // a layer writes after the pending output
    | SetLens(newIn: nat, newOut: nat)                   // left_set_lens
    | Free                                               // try_free_buffers
    | Send(accepts: nat)                                 // send_all_out; the ring refuses submission number accepts
    | Ack(flight: nat, sentOut: nat, more: bool)         // sent_zc
    | Fail(flight: nat, more: bool)                      // a send completion with a negative result

  ghost predicate WorldInv(w: World) { RxInv(w.rx) && TxInv(w.tx) }

  /** The part of the invariant that makes lengths and unread bytes well defined. */
  ghost predicate Ordered(rx: Rx, tx: Tx) {
    && rx.c.start <= rx.c.end && rx.consumed <= rx.Reported() <= |rx.wire|
    && |rx.Unread()| == rx.c.end - rx.c.start
    && tx.c.start <= tx.c.end <= |tx.region|
  }

  /** A new stream over any two pages. */
  ghost function InitWorld(inRegion: seq<byte>, outRegion: seq<byte>): (w: World)
    requires |inRegion| == REGION == |outRegion|
    ensures WorldInv(w)
  { World(RxInit(inRegion), TxInit(outRegion)) }

  /** What the kernel and the layers are trusted with: the kernel writes only into buffers it owns, reports only
      bytes it wrote and acknowledges only bytes it was given; layers consume input but never add to it, commit
      only bytes they wrote, and leave the output alone between a refused submission and its repetition. */
  ghost predicate Admissible(w: World, e: Event)
    requires WorldInv(w)
  {
    match e
    case Dma(bytes) => HasCredit(w.rx, |bytes|)
    case Recv(bufId, bufLen) => bufId.Some? ==> w.rx.Reported() + bufLen <= |w.rx.wire|
    case Borrow => true
    case Write(_) => Synced(w.tx.c)
    case SetLens(newIn, newOut) =>
      && newIn <= w.rx.c.end - w.rx.c.start
      && newOut <= w.tx.Len() + |w.tx.scratch|
      && (newOut == w.tx.Len() || Synced(w.tx.c))
    case Free => true
    case Send(_) => true
    case Ack(i, n, _) => CanAck(w.tx, i, n)
    case Fail(i, _) => CanFail(w.tx, i)
  }

  ghost function OnRx(w: World, r: Outcome<Rx>): Outcome<World> {
    match r case Done(rx) => Done(w.(rx := rx)) case Panicked(why) => Panicked(why)
  }

  ghost function OnTx(w: World, r: Outcome<Tx>): Outcome<World> {
    match r case Done(tx) => Done(w.(tx := tx)) case Panicked(why) => Panicked(why)
  }

  ghost function Step(w: World, e: Event): (r: Outcome<World>)
    requires WorldInv(w) && Admissible(w, e)
  {
    match e
    case Dma(bytes) => Done(w.(rx := RxDma(w.rx, bytes)))
    case Recv(bufId, bufLen) => OnRx(w, RxRecv(w.rx, bufId, bufLen))
    case Borrow => Done(w.(rx := RxBorrow(w.rx)))
    case Write(output) =>
      if WriteAt(w.tx) + |output| > REGION then Panicked(SliceOutOfRange)
      else Done(w.(tx := TxWrite(w.tx, output)))
    case SetLens(newIn, newOut) =>
      SetLenKeeps(w.tx, newOut);
      (match SetLeftLens(StreamCursor(w.rx.c, w.tx.c), newIn, newOut)
       case Panicked(why) => Panicked(why)
       case Done(_) => Done(World(RxSetLen(w.rx, newIn), TxSetLen(w.tx, newOut))))
    case Free => OnRx(w, RxFree(w.rx))
    case Send(accepts) => Done(w.(tx := TxSend(w.tx, accepts)))
    case Ack(i, n, more) => OnTx(w, TxAck(w.tx, i, n, more))
    case Fail(i, more) => Done(w.(tx := TxFail(w.tx, i, more)))
  }

  lemma StepKeeps(w: World, e: Event)
    requires WorldInv(w) && Admissible(w, e)
    ensures Step(w, e).Done? ==> WorldInv(Step(w, e).value)
    ensures Step(w, e) != Panicked(Underflow)
  {
    match e
    case Dma(bytes) => DmaKeepsUnread(w.rx, bytes);
    case Recv(bufId, bufLen) => if RxRecv(w.rx, bufId, bufLen).Done? { RecvKeeps(w.rx, bufId, bufLen); }
    case Borrow => BorrowShowsUnread(w.rx);
    case Write(output) => if WriteAt(w.tx) + |output| <= REGION { WriteKeeps(w.tx, output); }
    case SetLens(newIn, newOut) =>
      SetLenKeeps(w.tx, newOut);
      if newIn + w.rx.c.start <= REGION { ConsumeKeeps(w.rx, newIn); }
    case Free => if RxFree(w.rx).Done? { FreeKeeps(w.rx); }
    case Send(accepts) => SendKeeps(w.tx, accepts);
    case Ack(i, n, more) => AckKeeps(w.tx, i, n, more);
    case Fail(i, more) => FailKeeps(w.tx, i, more);
  }

  /** What a trusted left_set_lens within its guards does to both halves. */
  lemma TrustedLens(w: World, newIn: nat, newOut: nat)
    requires WorldInv(w) && Admissible(w, SetLens(newIn, newOut))
    requires SetLeftLens(StreamCursor(w.rx.c, w.tx.c), newIn, newOut).Done?
    ensures w.tx.Len() <= |w.tx.committed| && w.tx.c.idx * BUF_SIZE + newOut <= |w.tx.region|
    ensures var rx, tx := RxSetLen(w.rx, newIn), TxSetLen(w.tx, newOut);
            && WorldInv(World(rx, tx))
            && StreamCursor(rx.c, tx.c) == SetLeftLens(StreamCursor(w.rx.c, w.tx.c), newIn, newOut).value
            && rx.region == w.rx.region && tx.region == w.tx.region
  {
    SetLenKeeps(w.tx, newOut);
    ConsumeKeeps(w.rx, newIn);
  }

  /** The exact input on which each step of trusted parties panics. */
  predicate StepPanics(c: StreamCursor, written: nat, e: Event) {
    match e
    case Recv(bufId, bufLen) => bufId.Some? && bufLen == 0
    case Write(output) => c.tx.end + written + |output| > REGION
    case SetLens(newIn, _) => Revolves(c.rx) || (ViewOf(c.rx).Double? && newIn > ViewOf(c.rx).len1)
    case Free => c.rx.reused > c.rx.start / BUF_SIZE && !WrapsRecycling(c.rx)
    case _ => false
  }

  /** A step panics exactly then: left_set_lens without a borrow since the reader passed the end of the page, or
      leaving more than the first piece of the last borrow. Its second guard never fails. */
  lemma StepPanicsIff(w: World, e: Event)
    requires WorldInv(w) && Admissible(w, e)
    ensures Step(w, e).Panicked? <==> StepPanics(StreamCursor(w.rx.c, w.tx.c), |w.tx.scratch|, e)
    ensures Step(w, e) != Panicked(OutOverCapacity)
  {
    match e
    case Ack(i, n, more) => AckKeeps(w.tx, i, n, more);
    case SetLens(newIn, newOut) => SetLenKeeps(w.tx, newOut);
    case _ =>
  }

  /** All steps are admissible and, when a pace is given, at most that many bytes are consumed between
      two returns of try_free_buffers. */
  ghost predicate Legal(w: World, es: seq<Event>, pace: Option<nat>)
    requires WorldInv(w)
    decreases |es|
  {
    es == [] ||
    (&& Admissible(w, es[0])
     && (Step(w, es[0]).Done? ==>
           var w' := Step(w, es[0]).value;
           StepKeeps(w, es[0]);
           (pace.Some? ==> w'.rx.sinceFree <= pace.value) && Legal(w', es[1..], pace)))
  }

  ghost function Run(w: World, es: seq<Event>, pace: Option<nat>): Outcome<World>
    requires WorldInv(w) && Legal(w, es, pace)
    decreases |es|
  {
    if es == [] then Done(w)
    else
      StepKeeps(w, es[0]);
      match Step(w, es[0])
      case Panicked(why) => Panicked(why)
      case Done(w') => Run(w', es[1..], pace)
  }

  lemma {:induction false} RunKeeps(w: World, es: seq<Event>, pace: Option<nat>)
    requires WorldInv(w) && Legal(w, es, pace)
    ensures Run(w, es, pace).Done? ==> WorldInv(Run(w, es, pace).value)
    ensures Run(w, es, pace) != Panicked(Underflow)
    decreases |es|
  {
    if es != [] {
      StepKeeps(w, es[0]);
    }
    if es != [] && Step(w, es[0]).Done? {
      RunKeeps(Step(w, es[0]).value, es[1..], pace);
    }
  }

  lemma RunCons(w: World, e: Event, es: seq<Event>, pace: Option<nat>)
    requires WorldInv(w) && Admissible(w, e) && Step(w, e).Done? && WorldInv(Step(w, e).value)
    requires pace.Some? ==> Step(w, e).value.rx.sinceFree <= pace.value
    requires Legal(Step(w, e).value, es, pace)
    ensures Legal(w, [e] + es, pace)
    ensures Run(w, [e] + es, pace) == Run(Step(w, e).value, es, pace)
  {
    assert ([e] + es)[1..] == es;
  }

  lemma RunPanics(w: World, e: Event, es: seq<Event>, pace: Option<nat>)
    requires WorldInv(w) && Admissible(w, e) && Step(w, e).Panicked?
    ensures Legal(w, [e] + es, pace)
    ensures Run(w, [e] + es, pace) == Panicked(Step(w, e).why)
  {}

  lemma {:induction false} RunAppend(w: World, es: seq<Event>, w': World, fs: seq<Event>)
    requires WorldInv(w) && Legal(w, es, None) && Run(w, es, None) == Done(w')
    requires WorldInv(w') && Legal(w', fs, None)
    ensures Legal(w, es + fs, None) && Run(w, es + fs, None) == Run(w', fs, None)
    decreases |es|
  {
    if es == [] {
      assert es + fs == fs;
    } else {
      StepKeeps(w, es[0]);
      hide Admissible, Step, WorldInv;
      RunAppend(Step(w, es[0]).value, es[1..], w', fs);
      assert es + fs == [es[0]] + (es[1..] + fs);
      RunCons(w, es[0], es[1..] + fs, None);
    }
  }

  /** A run that stays within a pace stays within every larger one and ends the same way. */
  lemma {:induction false} Slower(w: World, es: seq<Event>, p: nat, q: Option<nat>)
    requires WorldInv(w) && Legal(w, es, Some(p)) && (q.Some? ==> p <= q.value)
    ensures Legal(w, es, q) && Run(w, es, q) == Run(w, es, Some(p))
    decreases |es|
  {
    if es != [] && Step(w, es[0]).Done? {
      StepKeeps(w, es[0]);
      Slower(Step(w, es[0]).value, es[1..], p, q);
    }
  }

  // ---------------------------------------------------------------- the receive ring is a FIFO

  /** The reference: bytes on the network side and bytes waiting for the layers, both unbounded. */
  datatype Queue = Queue(net: seq<byte>, waiting: seq<byte>)

  function QueueStep(q: Queue, e: Event): Queue {
    match e
    case Dma(bytes) => q.(net := q.net + bytes)
    case Recv(Some(_), n) => if n <= |q.net| then Queue(q.net[n..], q.waiting + q.net[..n]) else q
    case SetLens(keep, _) => if keep <= |q.waiting| then q.(waiting := q.waiting[|q.waiting| - keep..]) else q
    case _ => q
  }

  function QueueRun(q: Queue, es: seq<Event>): Queue
    decreases |es|
  {
    if es == [] then q else QueueRun(QueueStep(q, es[0]), es[1..])
  }

  ghost function QueueOf(s: Rx): Queue
    requires RxInv(s)
  { Queue(s.wire[s.Reported()..], s.Unread()) }

  lemma DmaSimulates(s: Rx, bytes: seq<byte>)
    requires RxInv(s) && HasCredit(s, |bytes|)
    ensures RxInv(RxDma(s, bytes))
    ensures QueueOf(RxDma(s, bytes)) == QueueStep(QueueOf(s), Dma(bytes))
  {
    DmaKeepsUnread(s, bytes);
    assert (s.wire + bytes)[s.Reported()..] == s.wire[s.Reported()..] + bytes;
  }

  lemma RecvSimulates(s: Rx, bufId: Option<nat>, n: nat)
    requires RxInv(s) && RxRecv(s, bufId, n).Done?
    requires bufId.Some? ==> s.Reported() + n <= |s.wire|
    ensures RxInv(RxRecv(s, bufId, n).value)
    ensures QueueOf(RxRecv(s, bufId, n).value) == QueueStep(QueueOf(s), Recv(bufId, n))
  {
    RecvKeeps(s, bufId, n);
    if bufId.Some? {
      var net := s.wire[s.Reported()..];
      assert net[n..] == s.wire[s.Reported() + n..];
      assert net[..n] == s.wire[s.Reported()..s.Reported() + n];
    }
  }

  lemma ConsumeSimulates(s: Rx, newIn: nat, newOut: nat)
    requires RxInv(s) && newIn <= s.c.end - s.c.start && newIn + s.c.start <= REGION
    ensures RxInv(RxSetLen(s, newIn))
    ensures QueueOf(RxSetLen(s, newIn)) == QueueStep(QueueOf(s), SetLens(newIn, newOut))
  {
    ConsumeKeeps(s, newIn);
    var t := RxSetLen(s, newIn);
    assert t.wire == s.wire && t.Reported() == s.Reported();
    assert |QueueOf(s).waiting| == s.c.end - s.c.start;
  }

  lemma BorrowSimulates(s: Rx)
    requires RxInv(s)
    ensures RxInv(RxBorrow(s)) && QueueOf(RxBorrow(s)) == QueueOf(s)
  {
    BorrowShowsUnread(s);
  }

  lemma FreeSimulates(s: Rx)
    requires RxInv(s) && RxFree(s).Done?
    ensures RxInv(RxFree(s).value) && QueueOf(RxFree(s).value) == QueueOf(s)
  {
    FreeKeeps(s);
  }

  lemma QueueStepSimulates(w: World, e: Event)
    requires WorldInv(w) && Admissible(w, e) && Step(w, e).Done?
    ensures RxInv(Step(w, e).value.rx)
    ensures QueueOf(Step(w, e).value.rx) == QueueStep(QueueOf(w.rx), e)
  {
    match e
    case Dma(bytes) => DmaSimulates(w.rx, bytes);
    case Recv(bufId, bufLen) => RecvSimulates(w.rx, bufId, bufLen);
    case Borrow => BorrowSimulates(w.rx);
    case SetLens(newIn, newOut) => ConsumeSimulates(w.rx, newIn, newOut);
    case Free => FreeSimulates(w.rx);
    case _ =>
  }

  lemma {:induction false} RunSimulates(w: World, es: seq<Event>, pace: Option<nat>)
    requires WorldInv(w) && Legal(w, es, pace) && Run(w, es, pace).Done?
    ensures WorldInv(Run(w, es, pace).value)
    ensures QueueOf(Run(w, es, pace).value.rx) == QueueRun(QueueOf(w.rx), es)
    decreases |es|
  {
    if es != [] {
      StepKeeps(w, es[0]);
      QueueStepSimulates(w, es[0]);
      RunSimulates(Step(w, es[0]).value, es[1..], pace);
    }
  }

  /** A borrow of s shows q, in one or two legal pieces. */
  ghost predicate Shows(s: Rx, q: seq<byte>) {
    && |s.region| == REGION && LegalView(s.c, ViewOf(s.c))
    && ViewBytes(s.region, ViewOf(s.c)) == q
  }

  /** After any run, borrowing shows the reference queue's waiting bytes. */
  lemma RingIsFifo(w: World, es: seq<Event>, pace: Option<nat>)
    requires WorldInv(w) && Legal(w, es, pace) && Run(w, es, pace).Done?
    ensures Shows(RxBorrow(Run(w, es, pace).value.rx), QueueRun(QueueOf(w.rx), es).waiting)
  {
    RunSimulates(w, es, pace);
    BorrowShowsUnread(Run(w, es, pace).value.rx);
  }
}
