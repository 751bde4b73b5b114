// The exact paces of consumption at which recycling is safe, and exact.

module Paces {
  import opened Common
  import opened Recycling
  import opened Engine
  import opened Runs
  import opened Witnesses

  /** No legal run at this pace ends in the panic of try_free_buffers. */
  ghost predicate NeverPanics(w: World, pace: nat)
    requires WorldInv(w)
  {
    forall es :: Legal(w, es, Some(pace)) ==> Run(w, es, Some(pace)) != Panicked(RecycledAhead)
  }

  /** After every legal run at this pace, a free that returns has handed back every wholly consumed buffer. */
  ghost predicate AlwaysExact(w: World, pace: nat)
    requires WorldInv(w)
  {
    forall es :: Legal(w, es, Some(pace)) && Run(w, es, Some(pace)).Done? ==> FreesExactly(Run(w, es, Some(pace)).value.rx)
  }

  /** The recycling panic is unreachable if and only if at most 4095 bytes are consumed between frees. */
  lemma SafePaceIff(inRegion: seq<byte>, outRegion: seq<byte>, pace: nat)
    requires |inRegion| == REGION == |outRegion|
    ensures NeverPanics(InitWorld(inRegion, outRegion), pace) <==> pace <= SAFE_PACE
  {
    var w := InitWorld(inRegion, outRegion);
    FreshIsClose(inRegion, outRegion);
    if pace <= SAFE_PACE {
      forall es | Legal(w, es, Some(pace)) ensures Run(w, es, Some(pace)) != Panicked(RecycledAhead) {
        Slower(w, es, pace, Some(SAFE_PACE));
        NeverRecycledAhead(w, es);
      }
    } else {
      FourKiBPanics(inRegion, outRegion);
      Slower(w, Rounds(0, 514), SAFE_PACE + 1, Some(pace));
    }
  }

  /** Every return of try_free_buffers is exact if and only if at most 255 buffers are consumed between frees. */
  lemma ExactPaceIff(inRegion: seq<byte>, outRegion: seq<byte>, pace: nat)
    requires |inRegion| == REGION == |outRegion|
    ensures AlwaysExact(InitWorld(inRegion, outRegion), pace) <==> pace <= EXACT_PACE
  {
    var w := InitWorld(inRegion, outRegion);
    FreshIsClose(inRegion, outRegion);
    if pace <= EXACT_PACE {
      forall es | Legal(w, es, Some(pace)) && Run(w, es, Some(pace)).Done?
        ensures FreesExactly(Run(w, es, Some(pace)).value.rx)
      {
        Slower(w, es, pace, Some(EXACT_PACE));
        EveryFreeCatchesUp(w, es);
      }
    } else {
      var w' := OverrunRun(inRegion, outRegion, []);
      Slower(w, Overrun([]), EXACT_PACE + 1, Some(pace));
      assert !FreesExactly(w'.rx);
    }
  }
}
