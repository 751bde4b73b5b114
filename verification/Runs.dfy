// Theorems about every run of one stream, and the runs that show their bounds are tight.

module Runs {
  import opened Common
  import opened Receive
  import opened Recycling
  import opened Transmit
  import opened Engine

  // ---------------------------------------------------------------- input

  /** From a fresh stream, at any pace: at most 2 MiB are ever unread, buffers are returned only once they are
      consumed, and the kernel never holds more credit than consumption has paid for. */
  lemma InputIsBounded(inRegion: seq<byte>, outRegion: seq<byte>, es: seq<Event>, pace: Option<nat>)
    requires |inRegion| == REGION == |outRegion|
    requires Legal(InitWorld(inRegion, outRegion), es, pace)
    requires Run(InitWorld(inRegion, outRegion), es, pace).Done?
    ensures var rx := Run(InitWorld(inRegion, outRegion), es, pace).value.rx;
            && rx.c.end - rx.c.start <= REGION
            && |rx.wire| - rx.consumed <= REGION
            && |rx.dropped| <= rx.consumed / BUF_SIZE
            && |rx.wire| <= (BUF_COUNT + |rx.dropped|) * BUF_SIZE
  {
    RunKeeps(InitWorld(inRegion, outRegion), es, pace);
  }

  // ---------------------------------------------------------------- output

  /** From a fresh stream, however sends are throttled, refused and acknowledged: everything committed has been
      submitted in order or is still pending, and the in-flight counters are exact and bounded. */
  lemma OutputIsExact(inRegion: seq<byte>, outRegion: seq<byte>, es: seq<Event>, pace: Option<nat>)
    requires |inRegion| == REGION == |outRegion|
    requires Legal(InitWorld(inRegion, outRegion), es, pace)
    requires Run(InitWorld(inRegion, outRegion), es, pace).Done?
    ensures var tx := Run(InitWorld(inRegion, outRegion), es, pace).value.tx;
            && tx.c.start <= tx.c.end <= |tx.region|
            && tx.committed == tx.submitted + tx.Pending()
            && tx.c.bufs == OpenCount(tx.flights) <= 261
            && tx.c.sends == Unacked(tx.flights) <= 2105344
  {
    RunKeeps(InitWorld(inRegion, outRegion), es, pace);
  }

  /** No send_all_out call of the run is refused by the ring. */
  ghost predicate Unrefused(w: World, es: seq<Event>, pace: Option<nat>)
    requires WorldInv(w) && Legal(w, es, pace)
    decreases |es|
  {
    es == [] ||
    (&& (es[0].Send? ==> SendAllOut(w.tx.c, es[0].accepts).chunks.Some?)
     && (Step(w, es[0]).Done? ==> (StepKeeps(w, es[0]); Unrefused(Step(w, es[0]).value, es[1..], pace))))
  }

  lemma SyncedStep(w: World, e: Event)
    requires WorldInv(w) && Admissible(w, e) && Synced(w.tx.c) && Step(w, e).Done?
    requires e.Send? ==> SendAllOut(w.tx.c, e.accepts).chunks.Some?
    ensures Synced(Step(w, e).value.tx.c)
  {
    if e.Send? { SendShape(w.tx.c, e.accepts); }
  }

  lemma {:induction false} StaysSynced(w: World, es: seq<Event>, pace: Option<nat>)
    requires WorldInv(w) && Legal(w, es, pace) && Unrefused(w, es, pace) && Synced(w.tx.c)
    ensures Run(w, es, pace).Done? ==> Synced(Run(w, es, pace).value.tx.c)
    decreases |es|
  {
    if es != [] && Step(w, es[0]).Done? {
      StepKeeps(w, es[0]);
      SyncedStep(w, es[0]);
      StaysSynced(Step(w, es[0]).value, es[1..], pace);
    }
  }

  /** Reading back what was set. */
  ghost predicate RoundTrips(c: StreamCursor) {
    forall newIn: nat, newOut: nat :: SetLeftLens(c, newIn, newOut).Done? ==>
      LeftLens(SetLeftLens(c, newIn, newOut).value) == Done((newIn, newOut))
  }

  /** After any run without a refused submission, any lengths that left_set_lens accepts are the lengths that
      left_lens then reports. */
  lemma LensRoundTrip(w: World, es: seq<Event>, pace: Option<nat>)
    requires WorldInv(w) && Legal(w, es, pace) && Unrefused(w, es, pace) && Synced(w.tx.c)
    requires Run(w, es, pace).Done?
    ensures RoundTrips(StreamCursor(Run(w, es, pace).value.rx.c, Run(w, es, pace).value.tx.c))
  {
    StaysSynced(w, es, pace);
    SyncedRoundTrips(StreamCursor(Run(w, es, pace).value.rx.c, Run(w, es, pace).value.tx.c));
  }

  lemma SyncedRoundTrips(c: StreamCursor)
    requires Synced(c.tx)
    ensures RoundTrips(c)
  {
    forall newIn: nat, newOut: nat | SetLeftLens(c, newIn, newOut).Done?
      ensures LeftLens(SetLeftLens(c, newIn, newOut).value) == Done((newIn, newOut))
    {
      LensRoundTripIff(c, newIn, newOut);
    }
  }

  // ---------------------------------------------------------------- recycling at a pace of 255 buffers

  lemma ExactStep(w: World, e: Event)
    requires WorldInv(w) && Admissible(w, e) && Exact(w.rx) && w.rx.sinceFree <= EXACT_PACE
    ensures Step(w, e).Done? ==> Exact(Step(w, e).value.rx)
  {
    if e.Free? && RxFree(w.rx).Done? {
      ExactFree(w.rx);
    }
  }

  lemma {:induction false} ExactRun(w: World, es: seq<Event>)
    requires WorldInv(w) && Exact(w.rx) && w.rx.sinceFree <= EXACT_PACE
    requires Legal(w, es, Some(EXACT_PACE))
    ensures var r := Run(w, es, Some(EXACT_PACE));
            r.Done? ==> WorldInv(r.value) && Exact(r.value.rx) && r.value.rx.sinceFree <= EXACT_PACE
    decreases |es|
  {
    if es != [] && Step(w, es[0]).Done? {
      StepKeeps(w, es[0]);
      ExactStep(w, es[0]);
      ExactRun(Step(w, es[0]).value, es[1..]);
    }
  }

  /** If try_free_buffers returns now, every wholly consumed buffer has been handed back. */
  ghost predicate FreesExactly(s: Rx) { RxFree(s).Done? ==> CaughtUp(RxFree(s).value) }

  /** Consuming at most 255 buffers between frees, every return of try_free_buffers has handed back exactly the
      wholly consumed buffers, over any number of revolutions. */
  lemma EveryFreeCatchesUp(w: World, es: seq<Event>)
    requires WorldInv(w) && Exact(w.rx) && w.rx.sinceFree <= EXACT_PACE
    requires Legal(w, es, Some(EXACT_PACE)) && Run(w, es, Some(EXACT_PACE)).Done?
    ensures FreesExactly(Run(w, es, Some(EXACT_PACE)).value.rx)
  {
    ExactRun(w, es);
    var s := Run(w, es, Some(EXACT_PACE)).value.rx;
    if RxFree(s).Done? { ExactFree(s); }
  }

  // ---------------------------------------------------------------- recycling at a pace of 4095 bytes

  lemma CloseStep(w: World, e: Event)
    requires WorldInv(w) && Admissible(w, e) && Close(w.rx) && IdsCycle(w.rx.dropped)
    ensures Step(w, e) != Panicked(RecycledAhead)
    ensures Step(w, e).Done? && Step(w, e).value.rx.sinceFree <= SAFE_PACE ==>
              Close(Step(w, e).value.rx) && IdsCycle(Step(w, e).value.rx.dropped)
  {
    hide TxInv, TxSend, TxSetLen, TxWrite;
    match e
    case SetLens(newIn, newOut) =>
      if Step(w, e).Done? && RxSetLen(w.rx, newIn).sinceFree <= SAFE_PACE { CloseConsume(w.rx, newIn); }
    case Borrow => CloseBorrow(w.rx);
    case Free => CloseFree(w.rx); IdsFree(w.rx);
    case _ =>
  }

  /** Consuming at most 4095 bytes between frees, try_free_buffers never panics, idx_in_reused stays within
      256, and the returned ids cycle as the ring expects but for the id of line 223. */
  lemma {:induction false} NeverRecycledAhead(w: World, es: seq<Event>)
    requires WorldInv(w) && Close(w.rx) && IdsCycle(w.rx.dropped)
    requires Legal(w, es, Some(SAFE_PACE))
    ensures var r := Run(w, es, Some(SAFE_PACE));
            && r != Panicked(RecycledAhead)
            && (r.Done? ==> Close(r.value.rx) && r.value.rx.c.reused <= 256 && IdsCycle(r.value.rx.dropped))
    decreases |es|
  {
    if es != [] {
      CloseStep(w, es[0]);
      if Step(w, es[0]).Done? {
        StepKeeps(w, es[0]);
        NeverRecycledAhead(Step(w, es[0]).value, es[1..]);
      }
    }
  }

  // ---------------------------------------------------------------- the ids of whole runs

  /** Some free of the run misnames. */
  ghost predicate Misnaming(w: World, es: seq<Event>, pace: Option<nat>)
    requires WorldInv(w) && Legal(w, es, pace)
    decreases |es|
  {
    es != [] && Step(w, es[0]).Done? &&
    (|| (es[0].Free? && Misnames(w.rx.c))
     || (StepKeeps(w, es[0]); Misnaming(Step(w, es[0]).value, es[1..], pace)))
  }

  lemma DroppedGrows(w: World, e: Event)
    requires WorldInv(w) && Admissible(w, e) && Step(w, e).Done?
    ensures w.rx.dropped <= Step(w, e).value.rx.dropped
    ensures !e.Free? ==> Step(w, e).value.rx.dropped == w.rx.dropped
    ensures e.Free? ==> RxFree(w.rx) == Done(Step(w, e).value.rx)
  {
    hide TxInv, TxSend, TxSetLen, TxWrite;
    if e.Free? { IdsNamed(w.rx); }
  }

  lemma {:induction false} DroppedOnlyGrows(w: World, es: seq<Event>, pace: Option<nat>)
    requires WorldInv(w) && Legal(w, es, pace) && Run(w, es, pace).Done?
    ensures w.rx.dropped <= Run(w, es, pace).value.rx.dropped
    decreases |es|
  {
    if es != [] {
      StepKeeps(w, es[0]);
      DroppedGrows(w, es[0]);
      DroppedOnlyGrows(Step(w, es[0]).value, es[1..], pace);
    }
  }

  /** At any pace: the run names only ids that are due if and only if none of its frees misnames. */
  lemma {:induction false} IdsRightRunIff(w: World, es: seq<Event>, pace: Option<nat>)
    requires WorldInv(w) && Legal(w, es, pace) && Run(w, es, pace).Done? && IdsRight(w.rx.dropped)
    ensures IdsRight(Run(w, es, pace).value.rx.dropped) <==> !Misnaming(w, es, pace)
    decreases |es|
  {
    if es != [] {
      StepKeeps(w, es[0]);
      DroppedGrows(w, es[0]);
      if es[0].Free? { IdsRightIff(w.rx); }
      var w' := Step(w, es[0]).value;
      if IdsRight(w'.rx.dropped) {
        IdsRightRunIff(w', es[1..], pace);
      } else {
        DroppedOnlyGrows(w', es[1..], pace);
        WrongStaysWrong(w'.rx.dropped, Run(w', es[1..], pace).value.rx.dropped);
      }
    }
  }

  lemma WrongStaysWrong(a: seq<nat>, b: seq<nat>)
    requires a <= b && !IdsRight(a)
    ensures !IdsRight(b)
  {
    var n :| 0 <= n < |a| && a[n] != n % BUF_COUNT;
    assert b[n] == a[n];
  }

  /** The laps whose wrapping free finds 255 of its 256 buffers returned. */
  ghost function ShortLaps(w: World, es: seq<Event>, pace: Option<nat>): set<nat>
    requires WorldInv(w) && Legal(w, es, pace)
    decreases |es|
  {
    if es == [] || Step(w, es[0]).Panicked? then {}
    else
      StepKeeps(w, es[0]);
      var rest := ShortLaps(Step(w, es[0]).value, es[1..], pace);
      if es[0].Free? && ShortWrap(w.rx.c) then {w.rx.resets} + rest else rest
  }

  /** The id that number n of all returns should carry, given which laps ended short. */
  function IdOf(n: nat, short: set<nat>): nat {
    if n % BUF_COUNT == 255 && n / BUF_COUNT in short then 256 else n % BUF_COUNT
  }

  /** dropped, from index from on, is the cycle with 256 for 255 on exactly these laps. */
  ghost predicate NamesOnly(dropped: seq<nat>, from: nat, short: set<nat>) {
    && (forall lap :: lap in short ==> from <= BUF_COUNT * lap + 255 < |dropped|)
    && forall n :: from <= n < |dropped| ==> dropped[n] == IdOf(n, short)
  }

  /** One call's ids in front of the ids of the rest of the run. */
  lemma NamesJoin(d0: seq<nat>, d1: seq<nat>, d: seq<nat>, lap: nat, short: bool, rest: set<nat>)
    requires d0 <= d1 <= d && NamesOnly(d, |d1|, rest)
    requires forall n :: |d0| <= n < |d1| ==> d1[n] == if short then 256 else n % BUF_COUNT
    requires short ==> |d0| == BUF_COUNT * lap + 255 && |d1| == |d0| + 1
    ensures NamesOnly(d, |d0|, if short then {lap} + rest else rest)
  {
    var laps := if short then {lap} + rest else rest;
    forall n | |d0| <= n < |d| ensures d[n] == IdOf(n, laps) {
      if n < |d1| {
        assert d[n] == d1[n];
      }
      if n % BUF_COUNT == 255 {
        assert n == BUF_COUNT * (n / BUF_COUNT) + 255;
      }
    }
  }

  /** Every id of a run at up to 4095 bytes per free: the cycle 0..255, with 256 for 255 on exactly the laps that
      end by a short wrap. */
  lemma {:induction false} IdsExact(w: World, es: seq<Event>)
    requires WorldInv(w) && Close(w.rx) && IdsCycle(w.rx.dropped) && Legal(w, es, Some(SAFE_PACE))
    requires Run(w, es, Some(SAFE_PACE)).Done?
    ensures w.rx.dropped <= Run(w, es, Some(SAFE_PACE)).value.rx.dropped
    ensures NamesOnly(Run(w, es, Some(SAFE_PACE)).value.rx.dropped, |w.rx.dropped|, ShortLaps(w, es, Some(SAFE_PACE)))
    decreases |es|
  {
    if es != [] {
      StepKeeps(w, es[0]);
      CloseStep(w, es[0]);
      DroppedGrows(w, es[0]);
      var w' := Step(w, es[0]).value;
      var short := es[0].Free? && ShortWrap(w.rx.c);
      if es[0].Free? { FreeNames(w.rx); }
      hide Close, IdsCycle, WorldInv, NamesOnly, ShortWrap, Step;
      IdsExact(w', es[1..]);
      NamesJoin(w.rx.dropped, w'.rx.dropped, Run(w', es[1..], Some(SAFE_PACE)).value.rx.dropped, w.rx.resets, short,
                ShortLaps(w', es[1..], Some(SAFE_PACE)));
    }
  }

  lemma FreeNames(s: Rx)
    requires RxInv(s) && Close(s)
    ensures RxFree(s).Done?
    ensures forall n :: |s.dropped| <= n < |RxFree(s).value.dropped| ==>
              RxFree(s).value.dropped[n] == if ShortWrap(s.c) then 256 else n % BUF_COUNT
    ensures ShortWrap(s.c) ==> |s.dropped| == BUF_COUNT * s.resets + 255 && |RxFree(s).value.dropped| == |s.dropped| + 1
  {
    IdsFree(s);
    IdsNamed(s);
  }

  lemma FreshIsClose(inRegion: seq<byte>, outRegion: seq<byte>)
    requires |inRegion| == REGION == |outRegion|
    ensures var w := InitWorld(inRegion, outRegion);
            Close(w.rx) && Exact(w.rx) && IdsCycle(w.rx.dropped)
  {}
}
