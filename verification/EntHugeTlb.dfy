// EntHugeTlb: the stream object, updating its cursor fields and its two hugepages in place.

module HugeTlb {
  import opened Common
  import opened Receive
  import opened Transmit
  import opened Engine
  import Losses

  lemma OffsetInverse(at: nat, j: nat, i: nat)
    requires i < REGION && j < REGION
    ensures Offset(at, i) == j <==> i == (at + j) % REGION
  {}

  method CopyCyclic(page: array<byte>, at: nat, bytes: seq<byte>)
    requires page.Length == REGION && |bytes| <= REGION
    modifies page
    ensures page[..] == Fill(old(page[..]), at, bytes)
  {
    for j := 0 to |bytes|
      invariant forall i :: 0 <= i < REGION ==>
                  page[i] == if Offset(at, i) < j then bytes[Offset(at, i)] else old(page[i])
    {
      forall i: nat | i < REGION ensures Offset(at, i) == j <==> i == (at + j) % REGION {
        OffsetInverse(at, j, i);
      }
      page[(at + j) % REGION] := bytes[j];
    }
  }

  method CopyInto(page: array<byte>, at: nat, bytes: seq<byte>)
    requires at + |bytes| <= page.Length
    modifies page
    ensures page[..] == Overwrite(old(page[..]), at, bytes)
  {
    for j := 0 to |bytes|
      invariant forall i :: 0 <= i < page.Length ==>
                  page[i] == if at <= i < at + j then bytes[i - at] else old(page[i])
    {
      page[at + j] := bytes[j];
    }
  }

  /** What left_set_lens within its guards does to both halves when a layer does not add to its input. */
  lemma LensFollow(rx: Rx, tx: Tx, newIn: nat, newOut: nat)
    requires RxInv(rx) && Losses.Loose(tx) && newIn <= rx.c.end - rx.c.start
    requires SetLeftLens(StreamCursor(rx.c, tx.c), newIn, newOut).Done?
    ensures tx.c.start <= tx.c.end && tx.Len() <= |tx.committed|
    ensures tx.c.idx * BUF_SIZE + newOut <= REGION == |tx.region|
    ensures var rx', tx' := RxSetLen(rx, newIn), TxSetLen(tx, newOut);
            && RxInv(rx') && Losses.Loose(tx') && rx'.region == rx.region && tx'.region == tx.region
            && SetLeftLens(StreamCursor(rx.c, tx.c), newIn, newOut) == Done(StreamCursor(rx'.c, tx'.c))
  {
    Losses.CommitMoves(tx, newOut);
    ConsumeKeeps(rx, newIn);
  }

  lemma InOrder(rx: Rx)
    requires RxInv(rx)
    ensures rx.c.start <= rx.c.end
  {}

  lemma TrustedFollows(rx: Rx, tx: Tx, newIn: nat, newOut: nat)
    requires WorldInv(World(rx, tx)) && Admissible(World(rx, tx), SetLens(newIn, newOut))
    requires SetLeftLens(StreamCursor(rx.c, tx.c), newIn, newOut).Done?
    ensures newIn <= rx.c.end - rx.c.start && tx.c.start <= tx.c.end && tx.Len() <= |tx.committed|
    ensures tx.c.idx * BUF_SIZE + newOut <= |tx.region|
    ensures var rx', tx' := RxSetLen(rx, newIn), TxSetLen(tx, newOut); WorldInv(World(rx', tx')) && Ordered(rx', tx')
  {
    TrustedLens(World(rx, tx), newIn, newOut);
  }

  class EntHugeTlb {
    const hugetlbIn: array<byte>
    const hugetlbOut: array<byte>
    // CursorLeft
    var posInStart: nat
    var posInEnd: nat
    var idxInReused: nat
    var posOutStart: nat
    var posOutEnd: nat
    var idxOutCur: nat
    var pendingSends: nat
    var pendingBufs: nat
    var isReady: bool
    var inBlocked: bool
    // history
    ghost var rx: Rx
    ghost var tx: Tx

    function Cursor(): StreamCursor
      reads this
    {
      StreamCursor(RxCursor(posInStart, posInEnd, idxInReused),
                   TxCursor(posOutStart, posOutEnd, idxOutCur, pendingSends, pendingBufs))
    }

    /** The fields and the pages are the state that the histories describe. */
    ghost predicate Valid()
      reads this, hugetlbIn, hugetlbOut
    {
      && hugetlbIn != hugetlbOut
      && hugetlbIn.Length == REGION == hugetlbOut.Length
      && Cursor() == StreamCursor(rx.c, tx.c)
      && rx.region == hugetlbIn[..] && tx.region == hugetlbOut[..]
      && Ordered(rx, tx)
      && WorldInv(World(rx, tx))
    }

    /** What remains when a layer has written or committed through a stale slice: the receive half is as ever, and tx
        still records the send side, though not all of its output need be kept. */
    ghost predicate Follows()
      reads this, hugetlbIn, hugetlbOut
    {
      && hugetlbIn != hugetlbOut
      && hugetlbIn.Length == REGION == hugetlbOut.Length
      && Cursor() == StreamCursor(rx.c, tx.c)
      && rx.region == hugetlbIn[..] && tx.region == hugetlbOut[..]
      && RxInv(rx) && Losses.Loose(tx)
    }

    lemma ValidFollows()
      requires Valid()
      ensures Follows() && Losses.Kept(tx)
    {}

    constructor FromPages(pageIn: array<byte>, pageOut: array<byte>)
      requires pageIn != pageOut && pageIn.Length == REGION == pageOut.Length
      ensures Valid() && hugetlbIn == pageIn && hugetlbOut == pageOut
      ensures World(rx, tx) == InitWorld(pageIn[..], pageOut[..])
      ensures !isReady && !inBlocked
    {
      hugetlbIn, hugetlbOut := pageIn, pageOut;
      posInStart, posInEnd, idxInReused := 0, 0, 0;
      posOutStart, posOutEnd, idxOutCur, pendingSends, pendingBufs := 0, 0, 0, 0, 0;
      isReady, inBlocked := false, false;
      rx, tx := RxInit(pageIn[..]), TxInit(pageOut[..]);
    }

    /** ringOk: the kernel accepts the buffer ring; it is asked only for a usable descriptor. */
    static method FromConnected(fixedFd: Option<nat>, pageIn: array<byte>, pageOut: array<byte>, ringOk: bool)
      returns (r: Reply<EntHugeTlb>)
      requires pageIn != pageOut && pageIn.Length == REGION == pageOut.Length
      ensures r.Ok? <==> fixedFd.Some? && fixedFd.value < U16_MAX && ringOk
      ensures r.Err? ==> r.error == (if fixedFd.None? then HugeTlbReqFixedId
                                     else if fixedFd.value >= U16_MAX then LimitHugeTlbU16 else RingBuf)
      ensures r.Ok? ==>
                && fresh(r.value) && r.value.Valid() && r.value.hugetlbIn == pageIn && r.value.hugetlbOut == pageOut
                && World(r.value.rx, r.value.tx) == InitWorld(pageIn[..], pageOut[..])
                && !r.value.isReady && !r.value.inBlocked
    {
      var bufgrp := SlotU16FromFixedFd(fixedFd);
      if bufgrp.Err? { return Err(bufgrp.error); }
      if !ringOk { return Err(RingBuf); }
      var ent := new EntHugeTlb.FromPages(pageIn, pageOut);
      return Ok(ent);
    }

    // -------------------------------------------------------------- the outside world

    /** The kernel's write into the page: bytes go to consecutive positions, cyclically. */
    method KernelWrite(at: nat, bytes: seq<byte>)
      requires Valid() && at == |rx.wire| && HasCredit(rx, |bytes|)
      modifies this`rx, hugetlbIn
      ensures Valid() && rx == RxDma(old(rx), bytes)
    {
      DmaKeepsUnread(rx, bytes);
      CopyCyclic(hugetlbIn, at, bytes);
      rx := RxDma(rx, bytes);
    }

    /** off continues what was committed and written so far, in a slice that starts where unsent output starts. */
    ghost predicate Appends(off: nat)
      reads this
      requires posOutStart <= posOutEnd
    { Synced(Cursor().tx) && off == posOutEnd - posOutStart + |tx.scratch| }

    /** A layer's write through the borrowed output slice, at any offset. One that does not append may land on
        pending or written bytes: the histories survive exactly when it leaves those as they were. */
    method WriteOut(off: nat, output: seq<byte>) returns (r: Outcome<()>)
      requires Valid()
      modifies this`tx, hugetlbOut
      ensures r == if idxOutCur * BUF_SIZE + off + |output| > REGION then Panicked(SliceOutOfRange) else Done(())
      ensures hugetlbOut[..] == if r.Panicked? then old(hugetlbOut[..])
                                else Overwrite(old(hugetlbOut[..]), idxOutCur * BUF_SIZE + off, output)
      ensures Follows()
      ensures r.Panicked? ==> Valid() && tx == old(tx)
      ensures r.Done? && old(Appends(off)) ==> Valid() && tx == TxWrite(old(tx), output)
      ensures r.Done? && !old(Appends(off)) ==>
                && tx == old(tx).(region := hugetlbOut[..])
                && (Valid() <==> SameBytes(old(tx), tx))
    {
      hide RxInv, TxInv, SameBytes, Overwrite, Losses.Loose;
      ValidFollows();
      var at := idxOutCur * BUF_SIZE + off;
      if at + |output| > hugetlbOut.Length {
        return Panicked(SliceOutOfRange);
      }
      ghost var appends := Appends(off);
      if appends { WriteKeeps(tx, output); } else { WriteElsewhereIff(tx, at, output); }
      Losses.WriteStaysLoose(tx, at, output);
      CopyInto(hugetlbOut, at, output);
      tx := if appends then TxWrite(tx, output) else tx.(region := Overwrite(tx.region, at, output));
      return Done(());
    }

    // -------------------------------------------------------------- receiving

    method CbRecvMulti(bufId: Option<nat>, bufLen: nat) returns (r: Outcome<()>)
      requires Valid() && (bufId.Some? ==> rx.Reported() + bufLen <= |rx.wire|)
      modifies this
      ensures Valid() && tx == old(tx)
      ensures r.Panicked? <==> bufId.Some? && bufLen == 0
      ensures r.Done? ==> RxRecv(old(rx), bufId, bufLen) == Done(rx)
      ensures r.Panicked? ==> RxRecv(old(rx), bufId, bufLen) == Panicked(r.why) && rx == old(rx)
      ensures isReady == old(isReady) && inBlocked == old(inBlocked)
    {
      if bufId.None? {
        return Done(());
      }
      var maybeNewEndPos := bufLen + posInEnd;
      if maybeNewEndPos > posInEnd {
        RecvKeeps(rx, bufId, bufLen);
        posInEnd := maybeNewEndPos;
        rx := RxRecv(rx, bufId, bufLen).value;
        return Done(());
      }
      if REGION - BUF_SIZE <= posInEnd < REGION && bufId.value == 0 {
        return Panicked(RevolutionDetected);
      }
      return Panicked(EndNotUpdated);
    }

    method TryFreeBuffers() returns (r: Outcome<()>, ids: seq<nat>)
      requires Valid()
      modifies this
      ensures Valid() && tx == old(tx)
      ensures r.Done? ==> RxFree(old(rx)) == Done(rx) && rx.dropped == old(rx.dropped) + ids
      ensures r.Panicked? ==> RxFree(old(rx)) == Panicked(r.why) && rx == old(rx) && ids == []
      ensures isReady == old(isReady) && inBlocked == old(inBlocked)
    {
      ids := [];
      ghost var before := rx;
      if RxFree(rx).Done? { FreeKeeps(rx); }
      var curBufId := posInStart / BUF_SIZE;
      if curBufId == 0 && idxInReused == 255 {
        ids := ids + [256];
        idxInReused := 0;
        rx := RxFree(rx).value;
        return Done(()), ids;
      }
      if curBufId == 0 && idxInReused == 256 {
        idxInReused := 0;
        rx := RxFree(rx).value;
        return Done(()), ids;
      }
      if idxInReused > curBufId {
        return Panicked(RecycledAhead), ids;
      }
      var gap := curBufId - idxInReused;
      var first := idxInReused;
      if curBufId > 0 && gap > 0 {
        for doFree := idxInReused to curBufId
          invariant rx == before && tx == old(tx) && isReady == old(isReady) && inBlocked == old(inBlocked)
          invariant Cursor() == StreamCursor(before.c.(reused := doFree), tx.c)
          invariant ids == seq(doFree - first, i => first + i)
        {
          ids := ids + [doFree];
          idxInReused := doFree + 1;
        }
      }
      rx := RxFree(rx).value;
      return Done(()), ids;
    }

    method SentZc(ghost flight: nat, sentOut: nat, more: bool)
      requires Valid() && CanAck(tx, flight, sentOut)
      modifies this
      ensures Valid() && rx == old(rx)
      ensures TxAck(old(tx), flight, sentOut, more) == Done(tx)
      ensures isReady == old(isReady) && inBlocked == old(inBlocked)
    {
      AckKeeps(tx, flight, sentOut, more);
      pendingSends := pendingSends - sentOut;
      if more == false {
        pendingBufs := pendingBufs - 1;
      }
      tx := TxAck(tx, flight, sentOut, more).value;
    }

    // -------------------------------------------------------------- sending

    /** accepts: the number of the submission that the ring refuses, if the call gets that far.
        submitted: the add_send_zc_rawbuf calls that succeeded. */
    method SendAllOut(accepts: nat) returns (chunks: Option<nat>, submitted: seq<Chunk>)
      requires Valid()
      modifies this
      ensures Valid() && rx == old(rx)
      ensures tx == TxSend(old(tx), accepts)
      ensures chunks == Transmit.SendAllOut(old(tx.c), accepts).chunks
      ensures submitted == Transmit.SendAllOut(old(tx.c), accepts).submitted
      ensures isReady == old(isReady) && inBlocked == old(inBlocked)
    {
      SendKeeps(tx, accepts);
      var totalOutLen := posOutEnd - posOutStart;
      if pendingSends > 8192 || pendingBufs > 5 || totalOutLen == 0 {
        assert TxSend(tx, accepts) == tx;
        return Some(0), [];
      }
      chunks, submitted := SubmitChunks(accepts, totalOutLen);
      tx := TxSend(tx, accepts);
    }

    /** The chunk loop of send_all_out. */
    method SubmitChunks(accepts: nat, totalOutLen: nat) returns (chunks: Option<nat>, submitted: seq<Chunk>)
      requires Aligned(Cursor().tx) && !Throttled(Cursor().tx)
      requires totalOutLen == posOutEnd - posOutStart > 0
      modifies this`posOutStart, this`posOutEnd, this`idxOutCur, this`pendingSends, this`pendingBufs
      ensures var r := Transmit.SendAllOut(old(Cursor().tx), accepts); Sent(Cursor().tx, submitted, chunks) == r
    {
      var sentOut := 0;
      ghost var c0 := Cursor().tx;
      submitted := [];
      var bufId := posOutStart / BUF_SIZE;
      ghost var first := bufId;
      var count := (totalOutLen + BUF_SIZE - 1) / BUF_SIZE;
      assert first + count <= BUF_COUNT;
      for chunkNo := 0 to count
        invariant chunkNo <= accepts && bufId == first + chunkNo <= 255
        invariant submitted == Cut(first, totalOutLen, chunkNo)
        invariant sentOut == if chunkNo < count then chunkNo * BUF_SIZE else totalOutLen
        invariant pendingSends == c0.sends + sentOut && pendingBufs == c0.bufs + chunkNo
        invariant idxOutCur == c0.idx && posOutStart == bufId * BUF_SIZE
        invariant posOutEnd == if chunkNo < count then c0.end else posOutStart
      {
        CutPrefix(first, totalOutLen, chunkNo);
        assert chunkNo * BUF_SIZE < totalOutLen;
        assert chunkNo + 1 == count <==> totalOutLen <= (chunkNo + 1) * BUF_SIZE;
        var remaining := totalOutLen - sentOut;
        var chunkLen := if remaining < BUF_SIZE then remaining else BUF_SIZE;
        sentOut := sentOut + chunkLen;
        var bufRef := posOutStart;
        if chunkNo == accepts {
          return None, submitted;
        }
        submitted := submitted + [Chunk(bufId, chunkLen, bufRef)];
        pendingSends := pendingSends + chunkLen;
        pendingBufs := pendingBufs + 1;
        if bufId == 255 {
          idxOutCur, posOutStart, posOutEnd := 0, 0, 0;
          return Some(count), submitted;
        }
        bufId := bufId + 1;
        posOutStart := bufId * BUF_SIZE;
        if posOutEnd < posOutStart {
          posOutEnd := posOutStart;
        }
      }
      idxOutCur := bufId;
      return Some(count), submitted;
    }

    // -------------------------------------------------------------- the Left side

    /** The subtraction fails exactly when the end lies before the start, which a valid stream never shows. */
    method LeftLens() returns (r: Outcome<(nat, nat)>)
      requires Follows()
      ensures r.Panicked? <==> posOutEnd < posOutStart
      ensures r.Panicked? ==> r.why == Underflow && !Valid()
      ensures r.Done? ==>
                && r.value.0 == posInEnd - posInStart == |rx.Unread()|
                && r.value.1 == posOutEnd - posOutStart == |tx.Pending()|
    {
      if posOutEnd < posOutStart {
        return Panicked(Underflow);
      }
      return Done((posInEnd - posInStart, posOutEnd - posOutStart));
    }

    /** What the invariant asks of a layer's lengths: consume only, commit only what was written, and nothing
        after a refused submission. */
    ghost predicate Trusted(newIn: nat, newOut: nat)
      reads this, hugetlbIn, hugetlbOut
      requires Valid()
    { Admissible(World(rx, tx), SetLens(newIn, newOut)) }

    method LeftSetLens(newLenIn: nat, newLenOut: nat) returns (r: Outcome<()>)
      requires Follows()
      modifies this
      ensures r.Done? ==> r == Done(()) && SetLeftLens(old(Cursor()), newLenIn, newLenOut) == Done(Cursor())
      ensures r.Panicked? ==> SetLeftLens(old(Cursor()), newLenIn, newLenOut) == Panicked(r.why)
      ensures r.Panicked? ==> Follows() && rx == old(rx) && tx == old(tx) && (old(Valid()) ==> Valid())
      ensures r.Done? && newLenIn <= old(posInEnd - posInStart) ==>
                && Follows() && old(posOutStart <= posOutEnd && tx.Len() <= |tx.committed|)
                && old(idxOutCur * BUF_SIZE) + newLenOut <= REGION
                && rx == RxSetLen(old(rx), newLenIn) && tx == TxSetLen(old(tx), newLenOut)
      ensures r.Done? && old(Valid() && Trusted(newLenIn, newLenOut)) ==> Valid()
      ensures isReady == old(isReady) && inBlocked == old(inBlocked)
    {
      hide WorldInv, RxInv, Losses.Loose, SetLeftLens, RxSetLen, TxSetLen, Admissible;
      ghost var trusted := Valid() && Trusted(newLenIn, newLenOut);
      InOrder(rx);
      r := MoveLens(newLenIn, newLenOut);
      if r.Done? {
        if trusted { TrustedFollows(rx, tx, newLenIn, newLenOut); }
        if newLenIn <= rx.c.end - rx.c.start {
          LensFollow(rx, tx, newLenIn, newLenOut);
          rx, tx := RxSetLen(rx, newLenIn), TxSetLen(tx, newLenOut);
        }
      }
    }

    /** The field updates of left_set_lens. */
    method MoveLens(newLenIn: nat, newLenOut: nat) returns (r: Outcome<()>)
      requires hugetlbIn.Length == REGION && posInStart <= posInEnd
      modifies this`posInStart, this`posInEnd, this`posOutEnd
      ensures r.Done? ==> r == Done(()) && SetLeftLens(old(Cursor()), newLenIn, newLenOut) == Done(Cursor())
      ensures r.Panicked? ==> SetLeftLens(old(Cursor()), newLenIn, newLenOut) == Panicked(r.why)
      ensures r.Panicked? ==> Cursor() == old(Cursor())
    {
      if posOutEnd < posOutStart {
        return Panicked(Underflow);
      }
      var curLenIn, curLenOut := posInEnd - posInStart, posOutEnd - posOutStart;
      if newLenIn + posInStart > hugetlbIn.Length {
        return Panicked(InOverCapacity);
      }
      if newLenOut + posOutStart > hugetlbIn.Length {
        return Panicked(OutOverCapacity);
      }
      if newLenIn < curLenIn {
        posInStart := posInEnd - newLenIn;
      }
      if newLenIn > curLenIn {
        posInEnd := posInStart + newLenIn;
      }
      if newLenOut != curLenOut {
        var bufOutStart := idxOutCur * BUF_SIZE;
        posOutEnd := bufOutStart + newLenOut;
      }
      return Done(());
    }

    /** The borrowed input as one or two ranges of the page, and where the borrowed output slice starts. */
    method LeftBufsMut() returns (bufIn: View, bufOutStart: nat)
      requires Valid()
      modifies this
      ensures Valid() && tx == old(tx) && rx == RxBorrow(old(rx))
      ensures bufIn == ViewOf(rx.c) && LegalView(rx.c, bufIn)
      ensures ViewBytes(hugetlbIn[..], bufIn) == rx.Unread() == old(rx.Unread())
      ensures bufOutStart == tx.c.idx * BUF_SIZE <= REGION
      ensures isReady == old(isReady) && inBlocked == old(inBlocked)
    {
      BorrowShowsUnread(rx);
      rx := RxBorrow(rx);
      if posInStart > REGION && posInEnd > REGION {
        posInStart := posInStart - REGION;
        posInEnd := posInEnd - REGION;
      }
      if posInStart <= REGION && posInEnd > REGION {
        var bufIn1Len := REGION - posInStart;
        var bufIn2Len := posInEnd - REGION;
        bufIn := Double(posInStart, bufIn1Len, bufIn2Len);
      } else {
        bufIn := Single(posInStart, posInEnd);
      }
      bufOutStart := idxOutCur * BUF_SIZE;
    }

    method SetReady(ready: bool)
      modifies this`isReady
      ensures isReady == ready
    {
      isReady := ready;
    }

    method SetLeftInBlocked(blocked: bool)
      modifies this`inBlocked
      ensures inBlocked == blocked
    {
      inBlocked := blocked;
    }
  }
}
