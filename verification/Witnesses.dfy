// Runs showing that the two recycling bounds cannot be raised by a single byte.

module Witnesses {
  import opened Common
  import opened Receive
  import opened Recycling
  import opened Engine

  function Zeros(n: nat): seq<byte> { seq(n, _ => 0) }

  /** Receive n bytes and report them. */
  ghost function Arrive(s: Rx, n: nat): Rx
    requires |s.region| == REGION
  { RxDma(s, Zeros(n)).(c := s.c.(end := s.c.end + n)) }

  /** Receive n bytes, borrow, and let a layer consume all of them; then go on with es. */
  function Drain(bufId: nat, n: nat, es: seq<Event>): seq<Event> {
    [Dma(Zeros(n))] + ([Recv(Some(bufId), n)] + ([Borrow] + ([SetLens(0, 0)] + es)))
  }

  /** The receive side after a Drain. */
  ghost function Drained(s: Rx, n: nat): Rx
    requires RxInv(s)
  {
    var b := RxBorrow(Arrive(s, n));
    b.(c := b.c.(start := b.c.end), consumed := b.consumed + (b.c.end - b.c.start) as nat,
       sinceFree := b.sinceFree + (b.c.end - b.c.start) as nat)
  }

  /** The first half of a Drain: n bytes arrive and are reported. */
  lemma ArriveRun(w: World, bufId: nat, n: nat, es: seq<Event>, pace: nat)
    requires WorldInv(w) && n > 0 && HasCredit(w.rx, n) && w.rx.Reported() == |w.rx.wire|
    requires w.rx.sinceFree <= pace
    ensures var w' := w.(rx := Arrive(w.rx, n));
            && WorldInv(w')
            && (Legal(w', es, Some(pace)) ==>
                  var all := [Dma(Zeros(n))] + ([Recv(Some(bufId), n)] + es);
                  Legal(w, all, Some(pace)) && Run(w, all, Some(pace)) == Run(w', es, Some(pace)))
  {
    var w1 := Step(w, Dma(Zeros(n))).value;
    StepKeeps(w, Dma(Zeros(n)));
    StepKeeps(w1, Recv(Some(bufId), n));
    var w' := w.(rx := Arrive(w.rx, n));
    assert Step(w1, Recv(Some(bufId), n)) == Done(w');
    if Legal(w', es, Some(pace)) {
      RunCons(w1, Recv(Some(bufId), n), es, Some(pace));
      RunCons(w, Dma(Zeros(n)), [Recv(Some(bufId), n)] + es, Some(pace));
    }
  }

  lemma DrainRun(w: World, bufId: nat, n: nat, es: seq<Event>, pace: nat)
    requires WorldInv(w) && n > 0 && w.tx.c.start == w.tx.c.end
    requires w.rx.c.start == w.rx.c.end && w.rx.Reported() == |w.rx.wire|
    requires HasCredit(w.rx, n)
    requires RxBorrow(Arrive(w.rx, n)).c.start <= REGION
    requires w.rx.sinceFree == 0 && n <= pace
    ensures WorldInv(w.(rx := Drained(w.rx, n)))
    ensures Legal(w.(rx := Drained(w.rx, n)), es, Some(pace)) ==>
              && Legal(w, Drain(bufId, n, es), Some(pace))
              && Run(w, Drain(bufId, n, es), Some(pace)) == Run(w.(rx := Drained(w.rx, n)), es, Some(pace))
  {
    ArriveRun(w, bufId, n, [Borrow] + ([SetLens(0, 0)] + es), pace);
    var w2 := w.(rx := Arrive(w.rx, n));
    StepKeeps(w2, Borrow);
    var w3 := Step(w2, Borrow).value;
    StepKeeps(w3, SetLens(0, 0));
    var w4 := w.(rx := Drained(w.rx, n));
    assert Step(w3, SetLens(0, 0)) == Done(w4);
    if Legal(w4, es, Some(pace)) {
      RunCons(w3, SetLens(0, 0), es, Some(pace));
      RunCons(w2, Borrow, [SetLens(0, 0)] + es, Some(pace));
    }
  }

  lemma FreeRun(w: World, es: seq<Event>, pace: nat)
    requires WorldInv(w)
    ensures RxFree(w.rx).Panicked? ==>
              && Legal(w, [Free] + es, Some(pace))
              && Run(w, [Free] + es, Some(pace)) == Panicked(RxFree(w.rx).why)
    ensures RxFree(w.rx).Done? ==>
              var w' := w.(rx := RxFree(w.rx).value);
              && WorldInv(w')
              && (Legal(w', es, Some(pace)) ==>
                    Legal(w, [Free] + es, Some(pace)) && Run(w, [Free] + es, Some(pace)) == Run(w', es, Some(pace)))
  {
    if RxFree(w.rx).Panicked? {
      RunPanics(w, Free, es, Some(pace));
    } else {
      StepKeeps(w, Free);
      if Legal(Step(w, Free).value, es, Some(pace)) {
        RunCons(w, Free, es, Some(pace));
      }
    }
  }

  // ---------------------------------------------------------------- 4096 bytes between frees reach the panic

  function Rounds(k: nat, count: nat): seq<Event>
    decreases count
  {
    if count == 0 then [] else Drain(k / 2 % BUF_COUNT, 4096, [Free] + Rounds(k + 1, count - 1))
  }

  /** After k rounds of 4096 bytes without a revolution. */
  ghost predicate AfterRounds(w: World, k: nat) {
    && WorldInv(w)
    && w.tx.c.start == w.tx.c.end
    && w.rx.c == RxCursor(4096 * k, 4096 * k, k / 2)
    && |w.rx.wire| == 4096 * k && |w.rx.dropped| == k / 2
    && w.rx.laps == 0 && w.rx.resets == 0 && w.rx.sinceFree == 0
  }

  lemma NextRound(w: World, k: nat)
    requires AfterRounds(w, k) && k < 513
    requires WorldInv(w.(rx := Drained(w.rx, 4096)))
    ensures var f := RxFree(Drained(w.rx, 4096));
            f.Done? && (WorldInv(w.(rx := f.value)) ==> AfterRounds(w.(rx := f.value), k + 1))
  {}

  /** A round either panics or leads to the next one. */
  lemma RoundRun(w: World, k: nat, es: seq<Event>)
    requires AfterRounds(w, k) && k <= 513
    ensures RxInv(Drained(w.rx, 4096))
    ensures var all := Drain(k / 2 % BUF_COUNT, 4096, [Free] + es);
            var f := RxFree(Drained(w.rx, 4096));
            && (f.Panicked? <==> k == 513)
            && (f.Panicked? ==>
                  f.why == RecycledAhead && Legal(w, all, Some(4096)) && Run(w, all, Some(4096)) == Panicked(f.why))
            && (f.Done? ==>
                  && AfterRounds(w.(rx := f.value), k + 1)
                  && (Legal(w.(rx := f.value), es, Some(4096)) ==>
                        Legal(w, all, Some(4096)) && Run(w, all, Some(4096)) == Run(w.(rx := f.value), es, Some(4096))))
  {
    DrainRun(w, k / 2 % BUF_COUNT, 4096, [Free] + es, 4096);
    FreeRun(w.(rx := Drained(w.rx, 4096)), es, 4096);
    if k < 513 { NextRound(w, k); }
  }

  lemma {:induction false} RoundsPanic(w: World, k: nat)
    requires AfterRounds(w, k) && k <= 513
    ensures Legal(w, Rounds(k, 514 - k), Some(4096))
    ensures Run(w, Rounds(k, 514 - k), Some(4096)) == Panicked(RecycledAhead)
    decreases 514 - k
  {
    RoundRun(w, k, Rounds(k + 1, 513 - k));
    if k < 513 {
      RoundsPanic(w.(rx := RxFree(Drained(w.rx, 4096)).value), k + 1);
    }
  }

  /** A legal run at this pace ends in this panic. */
  ghost predicate EndsIn(w: World, es: seq<Event>, pace: nat, why: Panic)
    requires WorldInv(w)
  { Legal(w, es, Some(pace)) && Run(w, es, Some(pace)) == Panicked(why) }

  /** A fresh stream whose layers consume 4096 bytes between frees panics in try_free_buffers. */
  lemma FourKiBPanics(inRegion: seq<byte>, outRegion: seq<byte>)
    requires |inRegion| == REGION == |outRegion|
    ensures EndsIn(InitWorld(inRegion, outRegion), Rounds(0, 514), SAFE_PACE + 1, RecycledAhead)
  {
    RoundsPanic(InitWorld(inRegion, outRegion), 0);
  }

  // ---------------------------------------------------------------- one byte more than 255 buffers loses count

  lemma BorrowRun(w: World, es: seq<Event>, pace: nat)
    requires WorldInv(w) && w.rx.sinceFree <= pace
    ensures var w' := w.(rx := RxBorrow(w.rx));
            && WorldInv(w')
            && (Legal(w', es, Some(pace)) ==>
                  Legal(w, [Borrow] + es, Some(pace)) && Run(w, [Borrow] + es, Some(pace)) == Run(w', es, Some(pace)))
  {
    StepKeeps(w, Borrow);
    if Legal(Step(w, Borrow).value, es, Some(pace)) {
      RunCons(w, Borrow, es, Some(pace));
    }
  }

  /** Two buffers less a byte, a free, then 255 buffers and a byte, then a revolution. */
  function Overrun(tail: seq<Event>): seq<Event> {
    Drain(0, 16383, [Free] + Drain(1, EXACT_PACE + 1, [Borrow] + tail))
  }

  lemma OverrunRun(inRegion: seq<byte>, outRegion: seq<byte>, tail: seq<Event>) returns (w': World)
    requires |inRegion| == REGION == |outRegion|
    ensures WorldInv(w') && w'.rx.consumed / BUF_SIZE == 257 && |w'.rx.dropped| == 1
    ensures w'.rx.c == RxCursor(BUF_SIZE, BUF_SIZE, 1)
    ensures var w := InitWorld(inRegion, outRegion);
            Legal(w', tail, Some(EXACT_PACE + 1)) ==>
              && Legal(w, Overrun(tail), Some(EXACT_PACE + 1))
              && Run(w, Overrun(tail), Some(EXACT_PACE + 1)) == Run(w', tail, Some(EXACT_PACE + 1))
  {
    var pace := EXACT_PACE + 1;
    var w0 := InitWorld(inRegion, outRegion);
    var rest := Drain(1, pace, [Borrow] + tail);
    DrainRun(w0, 0, 16383, [Free] + rest, pace);
    var w1 := w0.(rx := Drained(w0.rx, 16383));
    FreeRun(w1, rest, pace);
    w' := LastDrain(w1.(rx := RxFree(w1.rx).value), tail);
  }

  lemma LastDrain(w: World, tail: seq<Event>) returns (w': World)
    requires WorldInv(w) && w.tx.c.start == w.tx.c.end
    requires w.rx.c == RxCursor(16383, 16383, 1) && w.rx.consumed == |w.rx.wire| == 16383
    requires |w.rx.dropped| == 1 && w.rx.laps == w.rx.resets == w.rx.sinceFree == 0
    ensures WorldInv(w') && w'.rx.consumed / BUF_SIZE == 257 && |w'.rx.dropped| == 1
    ensures w'.rx.c == RxCursor(BUF_SIZE, BUF_SIZE, 1)
    ensures var es := Drain(1, EXACT_PACE + 1, [Borrow] + tail);
            Legal(w', tail, Some(EXACT_PACE + 1)) ==>
              && Legal(w, es, Some(EXACT_PACE + 1))
              && Run(w, es, Some(EXACT_PACE + 1)) == Run(w', tail, Some(EXACT_PACE + 1))
  {
    var pace := EXACT_PACE + 1;
    DrainRun(w, 1, pace, [Borrow] + tail, pace);
    var w3 := w.(rx := Drained(w.rx, pace));
    BorrowRun(w3, tail, pace);
    w' := w3.(rx := RxBorrow(w3.rx));
  }

  /** After the overrun and a free: 257 buffers have been consumed, one returned, and the cursor looks right. */
  lemma OneMoreByteLosesCount(inRegion: seq<byte>, outRegion: seq<byte>)
    requires |inRegion| == REGION == |outRegion|
    ensures var w := InitWorld(inRegion, outRegion);
            && Legal(w, Overrun([Free] + []), Some(EXACT_PACE + 1))
            && var r := Run(w, Overrun([Free] + []), Some(EXACT_PACE + 1));
               r.Done? && r.value.rx.consumed / BUF_SIZE == 257 && |r.value.rx.dropped| == 1
               && r.value.rx.c.reused == r.value.rx.c.start / BUF_SIZE
  {
    var w' := OverrunRun(inRegion, outRegion, [Free] + []);
    FreeRun(w', [], EXACT_PACE + 1);
  }

  // ---------------------------------------------------------------- a lap that ends by naming 256

  /** 255 buffers, a free, one more buffer and a byte, a revolution, a free. */
  function ShortLap(): seq<Event> {
    Drain(0, EXACT_PACE, [Free] + Drain(255, BUF_SIZE + 1, [Borrow] + ([Free] + [])))
  }

  /** The 256th id handed back is 256; the ring has no such buffer, and 255 was due. */
  lemma ShortLapNames256(inRegion: seq<byte>, outRegion: seq<byte>)
    requires |inRegion| == REGION == |outRegion|
    ensures var w := InitWorld(inRegion, outRegion);
            && Legal(w, ShortLap(), Some(EXACT_PACE))
            && var r := Run(w, ShortLap(), Some(EXACT_PACE));
               r.Done? && |r.value.rx.dropped| == 256 && r.value.rx.dropped[255] == 256
  {
    var w0 := InitWorld(inRegion, outRegion);
    var rest := Drain(255, BUF_SIZE + 1, [Borrow] + ([Free] + []));
    DrainRun(w0, 0, EXACT_PACE, [Free] + rest, EXACT_PACE);
    var w1 := w0.(rx := Drained(w0.rx, EXACT_PACE));
    FreeRun(w1, rest, EXACT_PACE);
    ShortLapEnds(w1.(rx := RxFree(w1.rx).value));
  }

  lemma ShortLapEnds(w: World)
    requires WorldInv(w) && w.tx.c.start == w.tx.c.end
    requires w.rx.c == RxCursor(EXACT_PACE, EXACT_PACE, 255) && w.rx.consumed == |w.rx.wire| == EXACT_PACE
    requires |w.rx.dropped| == 255 && w.rx.laps == w.rx.resets == w.rx.sinceFree == 0
    ensures var es := Drain(255, BUF_SIZE + 1, [Borrow] + ([Free] + []));
            && Legal(w, es, Some(EXACT_PACE))
            && var r := Run(w, es, Some(EXACT_PACE));
               r.Done? && |r.value.rx.dropped| == 256 && r.value.rx.dropped[255] == 256
  {
    DrainRun(w, 255, BUF_SIZE + 1, [Borrow] + ([Free] + []), EXACT_PACE);
    var w3 := w.(rx := Drained(w.rx, BUF_SIZE + 1));
    var w4 := w3.(rx := RxBorrow(w3.rx));
    BorrowRun(w3, [Free] + [], EXACT_PACE);
    FreeRun(w4, [], EXACT_PACE);
  }

  // ---------------------------------------------------------------- input left in place across the page's end

  /** n bytes arrive and are borrowed, and the layer leaves all of them. */
  function Leave(bufId: nat, n: nat): seq<Event> {
    [Dma(Zeros(n))] + ([Recv(Some(bufId), n)] + ([Borrow] + ([SetLens(n, 0)] + [])))
  }

  /** 255 buffers are consumed and returned; then a layer leaves a partial record that runs past the page's end by a
      byte, setting both lengths to what they were: line 348 panics. */
  lemma PartialRecordPanics(inRegion: seq<byte>, outRegion: seq<byte>)
    requires |inRegion| == REGION == |outRegion|
    ensures var es := Drain(0, EXACT_PACE, [Free] + Leave(255, BUF_SIZE + 1));
            EndsIn(InitWorld(inRegion, outRegion), es, EXACT_PACE, InOverCapacity)
  {
    var w0 := InitWorld(inRegion, outRegion);
    DrainRun(w0, 0, EXACT_PACE, [Free] + Leave(255, BUF_SIZE + 1), EXACT_PACE);
    var w1 := w0.(rx := Drained(w0.rx, EXACT_PACE));
    FreeRun(w1, Leave(255, BUF_SIZE + 1), EXACT_PACE);
    LeavePanics(w1.(rx := RxFree(w1.rx).value));
  }

  lemma LeavePanics(w: World)
    requires WorldInv(w) && w.tx.c.start == w.tx.c.end == 0
    requires w.rx.c == RxCursor(EXACT_PACE, EXACT_PACE, 255) && w.rx.consumed == |w.rx.wire| == EXACT_PACE
    requires |w.rx.dropped| == 255 && w.rx.laps == w.rx.sinceFree == 0
    ensures EndsIn(w, Leave(255, BUF_SIZE + 1), EXACT_PACE, InOverCapacity)
  {
    var n := BUF_SIZE + 1;
    ArriveRun(w, 255, n, [Borrow] + ([SetLens(n, 0)] + []), EXACT_PACE);
    var w2 := w.(rx := Arrive(w.rx, n));
    BorrowRun(w2, [SetLens(n, 0)] + [], EXACT_PACE);
    RunPanics(w2.(rx := RxBorrow(w2.rx)), SetLens(n, 0), [], Some(EXACT_PACE));
  }
}
