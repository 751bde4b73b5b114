// When does try_free_buffers return every consumed buffer, and when does it panic?

module Recycling {
  import opened Common
  import opened Receive

  /** Every wholly consumed buffer has been returned, and the cursor's own count agrees. */
  ghost predicate CaughtUp(s: Rx) {
    && |s.dropped| == s.consumed / BUF_SIZE
    && s.c.reused == s.c.start / BUF_SIZE
  }

  /** At the last return of try_free_buffers every consumed buffer had been returned. */
  ghost predicate Exact(s: Rx) {
    && s.sinceFree <= s.consumed
    && |s.dropped| == (s.consumed - s.sinceFree) / BUF_SIZE
  }

  const EXACT_PACE: nat := 255 * BUF_SIZE
  const SAFE_PACE: nat := 4095

  /** The exact condition for one call: at most one revolution is unaccounted for, and if there is one the
      reader must be in buffer 0 with 255 or 256 buffers already returned on the previous lap. */
  lemma FreeCatchesUpIff(s: Rx)
    requires RxInv(s)
    ensures (RxFree(s).Done? && CaughtUp(RxFree(s).value))
       <==> (s.laps == s.resets || (s.laps == s.resets + 1 && WrapsRecycling(s.c)))
  {
    assert s.consumed / BUF_SIZE == BUF_COUNT * s.laps + s.c.start / BUF_SIZE;
  }

  lemma ExactFree(s: Rx)
    requires RxInv(s) && Exact(s) && s.sinceFree <= EXACT_PACE && RxFree(s).Done?
    ensures CaughtUp(RxFree(s).value) && Exact(RxFree(s).value)
  {
    assert s.consumed / BUF_SIZE == BUF_COUNT * s.laps + s.c.start / BUF_SIZE;
    FreeCatchesUpIff(s);
  }

  /** States reached while at most 4095 bytes are consumed between frees: either no revolution is
      outstanding, or exactly one is and the reader has not left buffer 0. */
  ghost predicate Close(s: Rx) {
    && s.sinceFree <= SAFE_PACE
    && s.c.start <= REGION + SAFE_PACE
    && (|| (&& s.laps == s.resets
            && s.sinceFree <= s.c.start
            && s.c.reused == (s.c.start - s.sinceFree) / BUF_SIZE)
        || (&& s.laps == s.resets + 1
            && (s.c.reused == 255 || s.c.reused == 256)
            && s.c.start <= SAFE_PACE + s.sinceFree))
  }

  lemma CloseConsume(s: Rx, newLen: nat)
    requires RxInv(s) && Close(s)
    requires newLen <= s.c.end - s.c.start && newLen + s.c.start <= REGION
    requires RxSetLen(s, newLen).sinceFree <= SAFE_PACE
    ensures Close(RxSetLen(s, newLen))
  {}

  lemma CloseBorrow(s: Rx)
    requires RxInv(s) && Close(s)
    ensures Close(RxBorrow(s))
  {}

  lemma CloseFree(s: Rx)
    requires RxInv(s) && Close(s)
    ensures RxFree(s).Done? && Close(RxFree(s).value)
    ensures s.c.reused <= 256 && RxFree(s).value.c.reused <= 256
  {
    if s.laps == s.resets + 1 {
      assert s.c.start < BUF_SIZE;
    }
  }

  // ---------------------------------------------------------------- which ids are named

  /** The reader is in buffer 0 and one buffer of the previous lap is still to be returned: line 222. */
  predicate ShortWrap(c: RxCursor) { c.start / BUF_SIZE == 0 && c.reused == 255 }

  /** The call names an id that is not the next one of the cycle: 256 on a short wrap, or ids above 255 when the
      reader has run past the end without a revolution. */
  predicate Misnames(c: RxCursor) {
    ShortWrap(c) || (c.reused < c.start / BUF_SIZE && c.start / BUF_SIZE > BUF_COUNT)
  }

  ghost predicate IdsRight(dropped: seq<nat>) {
    forall n :: 0 <= n < |dropped| ==> dropped[n] == n % BUF_COUNT
  }

  /** Exactly the ids one call returns: 256 on a short wrap, else each buffer's number within the lap. */
  lemma IdsNamed(s: Rx)
    requires RxInv(s) && RxFree(s).Done?
    ensures s.dropped <= RxFree(s).value.dropped
    ensures forall n :: |s.dropped| <= n < |RxFree(s).value.dropped| ==>
              RxFree(s).value.dropped[n] == if ShortWrap(s.c) then 256 else n - BUF_COUNT * s.resets
    ensures ShortWrap(s.c) ==> |s.dropped| == BUF_COUNT * s.resets + 255 && |RxFree(s).value.dropped| == |s.dropped| + 1
  {}

  /** A call names only the ids that are due exactly when it does not misname. */
  lemma IdsRightIff(s: Rx)
    requires RxInv(s) && RxFree(s).Done? && IdsRight(s.dropped)
    ensures IdsRight(RxFree(s).value.dropped) <==> !Misnames(s.c)
  {
    IdsNamed(s);
    var t := RxFree(s).value;
    if ShortWrap(s.c) {
      assert t.dropped[|s.dropped|] == 256;
    } else if Misnames(s.c) {
      var n := |t.dropped| - 1;
      assert t.dropped[n] == n - BUF_COUNT * s.resets == s.c.start / BUF_SIZE - 1;
    }
  }

  /** Returned ids cycle through 0..255, except that line 223 names 256 where 255 is due. */
  ghost predicate IdsCycle(dropped: seq<nat>) {
    forall n :: 0 <= n < |dropped| ==>
      dropped[n] == n % BUF_COUNT || (n % BUF_COUNT == 255 && dropped[n] == 256)
  }

  /** At 4095 bytes per call the ids are the cycle's, but for the one of a short wrap. */
  lemma IdsFree(s: Rx)
    requires RxInv(s) && Close(s)
    ensures RxFree(s).Done? && s.dropped <= RxFree(s).value.dropped
    ensures forall n :: |s.dropped| <= n < |RxFree(s).value.dropped| ==>
              RxFree(s).value.dropped[n] == if ShortWrap(s.c) then 256 else n % BUF_COUNT
    ensures IdsCycle(s.dropped) ==> IdsCycle(RxFree(s).value.dropped)
  {
    CloseFree(s);
    IdsNamed(s);
    forall n | |s.dropped| <= n < |RxFree(s).value.dropped|
      ensures if ShortWrap(s.c) then n % BUF_COUNT == 255 else n - BUF_COUNT * s.resets == n % BUF_COUNT
    {
      if ShortWrap(s.c) {
        assert n == BUF_COUNT * s.resets + 255;
      } else {
        assert 0 <= n - BUF_COUNT * s.resets < BUF_COUNT;
      }
    }
  }
}
