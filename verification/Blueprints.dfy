// IntermedBuf and run_blueprints over a real stream object.

module Blueprints {
  import opened Common
  import opened Receive
  import opened Transmit
  import opened Engine
  import opened HugeTlb
  import Losses
  import opened DriveModel

  /** The buffer between a layer (on its left) and the app (on its right). */
  class IntermedBuf {
    const bufRightIn: array<byte>
    const bufRightOut: array<byte>
    var rightInLen: nat
    var rightOutLen: nat

    ghost predicate Valid()
      reads this
    {
      && bufRightIn != bufRightOut
      && bufRightIn.Length == MID_SIZE == bufRightOut.Length
      && rightInLen <= MID_SIZE && rightOutLen <= MID_SIZE
    }

    ghost function In(): seq<byte>
      reads this, bufRightIn
      requires Valid()
    { bufRightIn[..rightInLen] }

    ghost function Out(): seq<byte>
      reads this, bufRightOut
      requires Valid()
    { bufRightOut[..rightOutLen] }

    constructor ()
      ensures Valid() && In() == [] && Out() == []
      ensures fresh(bufRightIn) && fresh(bufRightOut)
    {
      bufRightIn := new byte[8192](_ => 0);
      bufRightOut := new byte[8192](_ => 0);
      rightInLen, rightOutLen := 0, 0;
    }

    method AddRightIn(bs: seq<byte>) returns (r: Outcome<()>)
      requires Valid()
      modifies this`rightInLen, bufRightIn
      ensures Valid() && (r == Panicked(SliceOutOfRange) || r == Done(()))
      ensures r.Done? <==> |old(In())| + |bs| <= MID_SIZE
      ensures In() == if r.Done? then old(In()) + bs else old(In())
    {
      var startPos, endPos := rightInLen, rightInLen + |bs|;
      if endPos > bufRightIn.Length {
        return Panicked(SliceOutOfRange);
      }
      CopyInto(bufRightIn, startPos, bs);
      rightInLen := rightInLen + |bs|;
      return Done(());
    }

    method AddRightOut(bs: seq<byte>) returns (r: Outcome<()>)
      requires Valid()
      modifies this`rightOutLen, bufRightOut
      ensures Valid() && (r == Panicked(SliceOutOfRange) || r == Done(()))
      ensures r.Done? <==> |old(Out())| + |bs| <= MID_SIZE
      ensures Out() == if r.Done? then old(Out()) + bs else old(Out())
    {
      var startPos, endPos := rightOutLen, rightOutLen + |bs|;
      if endPos > bufRightOut.Length {
        return Panicked(SliceOutOfRange);
      }
      CopyInto(bufRightOut, startPos, bs);
      rightOutLen := rightOutLen + |bs|;
      return Done(());
    }

    method AllSentRightOut()
      requires Valid()
      modifies this`rightOutLen, bufRightOut
      ensures Valid() && Out() == []
      ensures forall i :: 0 <= i < MID_SIZE ==> bufRightOut[i] == 0
    {
      rightOutLen := 0;
      forall i | 0 <= i < bufRightOut.Length {
        bufRightOut[i] := 0;
      }
    }

    /** left_set_lens has no guard and keeps a prefix of the input. */
    method LeftSetLens(lenIn: nat, lenOut: nat)
      requires Valid()
      modifies this`rightInLen, this`rightOutLen
      ensures rightInLen == lenIn && rightOutLen == lenOut
      ensures lenIn <= MID_SIZE && lenOut <= MID_SIZE ==> Valid()
      ensures lenIn <= |old(In())| && lenOut <= MID_SIZE ==> In() == old(In())[..lenIn]
      ensures lenOut <= |old(Out())| && lenIn <= MID_SIZE ==> Out() == old(Out())[..lenOut]
    {
      rightInLen := lenIn;
      rightOutLen := lenOut;
    }
  }

  /** Keeping a prefix is queue behaviour for every content exactly when everything or nothing was consumed. */
  lemma PrefixIsQueueIff(n: nat, keep: nat)
    requires keep <= n
    ensures (forall q: seq<byte> :: |q| == n ==> q[..keep] == q[n - keep..]) <==> (keep == 0 || keep == n)
  {
    if 0 < keep < n {
      var q := seq(n, i => if i == 0 then 1 as byte else 0);
      assert q[..keep][0] == 1;
      assert q[n - keep..][0] == q[n - keep] == 0;
    }
  }

  /** A stream between runs: no layer left bytes written but uncommitted. */
  ghost predicate Ready(ent: EntHugeTlb)
    reads ent, ent.hugetlbIn, ent.hugetlbOut
  { ent.Valid() && ent.tx.scratch == [] }

  /** And its last send was not refused. */
  ghost predicate Settled(ent: EntHugeTlb)
    reads ent, ent.hugetlbIn, ent.hugetlbOut
  { Ready(ent) && Synced(ent.tx.c) }

  /** The in-length left_lens reports. */
  function LenIn(ent: EntHugeTlb): int
    reads ent
  { ent.posInEnd - ent.posInStart }

  function LensOf(ent: EntHugeTlb, mid: IntermedBuf, level: nat): Drive
    reads ent, mid
    requires ent.posInStart <= ent.posInEnd && ent.posOutStart <= ent.posOutEnd
  {
    Drive(level, ent.posInEnd - ent.posInStart, ent.posOutEnd - ent.posOutStart, mid.rightInLen, mid.rightOutLen)
  }

  function PageOf(ent: EntHugeTlb): Page
    reads ent
  { PageAt(ent.Cursor()) }

  /** The lengths at the start of a run, when the buffer to the app is empty. */
  function StartOf(ent: EntHugeTlb): Drive
    reads ent
    requires ent.posInStart <= ent.posInEnd && ent.posOutStart <= ent.posOutEnd
  { Drive(0, ent.posInEnd - ent.posInStart, ent.posOutEnd - ent.posOutStart, 0, 0) }

  /** A layer's answer to a borrow: append output to the borrowed slice, then set both lengths. */
  method CommitLeft(ent: EntHugeTlb, lenOut: nat, newIn: nat, output: seq<byte>) returns (r: Outcome<()>)
    requires Ready(ent) && newIn <= |ent.rx.Unread()| && lenOut == ent.tx.Len() && ent.posInStart <= REGION
    modifies ent, ent.hugetlbOut
    ensures ent.Follows() && ent.rx.wire == old(ent.rx.wire) && ent.rx.Reported() == old(ent.rx.Reported())
    ensures r == FaultOutcome(CommitFault(old(PageOf(ent)), lenOut, newIn, |output|))
    ensures old(Synced(ent.tx.c)) ==> ent.Valid()
    ensures r.Done? ==> Answers(old(PageOf(ent)), old(ent.rx), old(ent.tx), newIn, output, ent.Cursor(), ent.rx, ent.tx)
    ensures r.Done? && old(Synced(ent.tx.c)) ==> Settled(ent)
  {
    hide WorldInv, RxInv, Losses.Loose, Losses.Answered, Answers;
    ghost var rx, tx := ent.rx, ent.tx;
    assert |rx.Unread()| == LenIn(ent) && Ordered(rx, tx);
    r := ent.WriteOut(lenOut, output);
    if r.Panicked? { return; }
    r := LensLeft(ent, rx, tx, lenOut, newIn, output);
  }

  /** Setting the lengths after the write. rx, tx: the histories before it. */
  method LensLeft(ent: EntHugeTlb, ghost rx: Rx, ghost tx: Tx, lenOut: nat, newIn: nat, output: seq<byte>)
    returns (r: Outcome<()>)
    requires ent.Follows() && Ordered(rx, tx) && WorldInv(World(rx, tx)) && |tx.region| == REGION && tx.scratch == []
    requires newIn <= |rx.Unread()| && lenOut == tx.Len() && rx.c.start <= REGION && WriteAt(tx) + |output| <= REGION
    requires ent.rx == rx && ent.tx == Written(tx, output) && (Synced(tx.c) ==> ent.Valid())
    modifies ent
    ensures ent.Follows() && ent.rx.wire == rx.wire && ent.rx.Reported() == rx.Reported()
    ensures r == FaultOutcome(CommitFault(old(PageOf(ent)), lenOut, newIn, |output|))
    ensures Synced(tx.c) ==> ent.Valid()
    ensures r.Done? ==> Answers(old(PageOf(ent)), rx, tx, newIn, output, ent.Cursor(), ent.rx, ent.tx)
    ensures r.Done? && Synced(tx.c) ==> Settled(ent)
  {
    hide WorldInv, RxInv, Losses.Loose, Losses.Answered, SetLeftLens, PageAfter, LeftAfter, CommitFault;
    hide RxSetLen, TxSetLen, Written;
    CommitAnswers(rx, tx, newIn, output);
    CommitMoves(ent.Cursor(), lenOut, newIn, |output|);
    r := ent.LeftSetLens(newIn, lenOut + |output|);
  }

  /** What a call that does not panic has done to the stream: its input keeps the last newIn bytes, its output is
      Losses.Answered, and the lengths are those LeftAfter gives. */
  ghost predicate Answers(p: Page, rx: Rx, tx: Tx, newIn: nat, output: seq<byte>, c': StreamCursor, rx': Rx, tx': Tx) {
    && rx.consumed <= rx.Reported() <= |rx.wire| && newIn <= |rx.Unread()|
    && |tx.region| == REGION && tx.c.start <= tx.c.end && tx.Len() <= |tx.committed|
    && tx.c.idx * BUF_SIZE + tx.Len() + |output| <= REGION
    && rx'.wire == rx.wire && rx'.consumed <= rx'.Reported() == rx.Reported()
    && rx'.Unread() == rx.Unread()[|rx.Unread()| - newIn..]
    && tx' == Losses.Answered(tx, output)
    && PageAt(c') == PageAfter(p, |rx.Unread()|, newIn)
    && c'.rx.end - c'.rx.start == newIn && c'.tx.end - c'.tx.start == LeftAfter(p, tx.Len(), |output|)
  }

  lemma AnswersOnward(p: Page, rx: Rx, tx: Tx, newIn: nat, output: seq<byte>, c': StreamCursor, rx': Rx, tx': Tx)
    requires Answers(p, rx, tx, newIn, output, c', rx', tx')
    ensures Onward(rx, tx, rx', tx') && tx'.committed == tx.committed + output
    ensures c'.rx.end - c'.rx.start == newIn && c'.tx.end - c'.tx.start == LeftAfter(p, tx.Len(), |output|)
    ensures newIn <= |rx.Unread()| && PageAt(c') == PageAfter(p, |rx.Unread()|, newIn)
  {
    Losses.AnsweredAppends(tx, output);
  }

  /** Borrowing first makes no difference. */
  lemma AnswersBorrowed(c: StreamCursor, rx: Rx, tx: Tx, newIn: nat, output: seq<byte>,
                         c': StreamCursor, rx': Rx, tx': Tx)
    requires WorldInv(World(rx, tx)) && rx.c == c.rx
    requires Answers(PageAt(c.(rx := RxBorrow(rx).c)), RxBorrow(rx), tx, newIn, output, c', rx', tx')
    ensures Answers(PageAt(c), rx, tx, newIn, output, c', rx', tx')
  {
    RevolveKeeps(rx);
  }

  function PageAt(c: StreamCursor): Page { Page(c.rx.start, c.tx.start, c.tx.idx * BUF_SIZE) }

  /** The stream's output right after a layer's write. */
  function Written(tx: Tx, output: seq<byte>): Tx
    requires |tx.region| == REGION && tx.c.start <= tx.c.end && WriteAt(tx) + |output| <= REGION && tx.scratch == []
  { if Synced(tx.c) then TxWrite(tx, output) else tx.(region := Overwrite(tx.region, WriteAt(tx), output)) }

  /** The write and the commit together are Losses.Answered; on a synced stream the invariant survives both. */
  lemma WrittenAnswers(tx: Tx, output: seq<byte>)
    requires TxInv(tx) && tx.scratch == [] && WriteAt(tx) + |output| <= REGION
    ensures var w, newLen := Written(tx, output), tx.Len() + |output|;
            && tx.Len() <= |tx.committed| && w.Len() == tx.Len() && w.c == tx.c
            && TxSetLen(w, newLen) == Losses.Answered(tx, output)
  {
    hide Overwrite;
    var w, at := Written(tx, output), WriteAt(tx);
    assert w.region == Overwrite(tx.region, at, output);
    if output != [] && Synced(tx.c) {
      assert w.scratch == output && output[|output|..] == [];
    }
  }

  lemma WrittenKeeps(tx: Tx, output: seq<byte>)
    requires TxInv(tx) && Synced(tx.c) && tx.scratch == [] && WriteAt(tx) + |output| <= REGION
    ensures var w, t := Written(tx, output), Losses.Answered(tx, output);
            TxInv(w) && w.scratch == output && Synced(t.c) && t.scratch == []
  {
    WrittenAnswers(tx, output);
    CommitAppends(tx, output);
    assert [] + output == output;
  }

  /** The cursor's side of it: which guard fails, and where the page and the lengths end up. */
  lemma CommitMoves(c: StreamCursor, lenOut: nat, newIn: nat, output: nat)
    requires c.rx.start <= REGION && newIn <= c.rx.end - c.rx.start && c.tx.start <= c.tx.end
    requires lenOut == c.tx.end - c.tx.start && c.tx.idx * BUF_SIZE + lenOut + output <= REGION
    ensures var r, fault := SetLeftLens(c, newIn, lenOut + output), CommitFault(PageAt(c), lenOut, newIn, output);
            && (r.Panicked? ==> fault == Some(r.why))
            && (r.Done? ==>
                  && fault.None? && newIn + c.rx.start <= REGION
                  && PageAt(r.value) == PageAfter(PageAt(c), c.rx.end - c.rx.start, newIn)
                  && r.value.rx.end - r.value.rx.start == newIn
                  && r.value.tx.end - r.value.tx.start == LeftAfter(PageAt(c), lenOut, output))
  {}

  /** What left_set_lens then makes of both halves, if its guards let it. */
  lemma CommitAnswers(rx: Rx, tx: Tx, newIn: nat, output: seq<byte>)
    requires WorldInv(World(rx, tx)) && tx.scratch == [] && WriteAt(tx) + |output| <= REGION
    requires newIn <= |rx.Unread()| && rx.c.start <= REGION
    ensures var w, newLen := Written(tx, output), tx.Len() + |output|;
            && tx.Len() <= |tx.committed| && w.Len() == tx.Len() && w.c == tx.c
            && TxSetLen(w, newLen) == Losses.Answered(tx, output)
            && (Synced(tx.c) ==>
                  && WorldInv(World(rx, w)) && Admissible(World(rx, w), SetLens(newIn, newLen))
                  && Losses.Answered(tx, output).scratch == [] && Synced(Losses.Answered(tx, output).c))
    ensures newIn + rx.c.start <= REGION ==>
            var s := RxSetLen(rx, newIn);
            && s.wire == rx.wire && s.consumed <= s.Reported() == rx.Reported()
            && s.Unread() == rx.Unread()[|rx.Unread()| - newIn..]
            && s.c.start == rx.c.start + |rx.Unread()| - newIn && s.c.end - s.c.start == newIn
  {
    WrittenAnswers(tx, output);
    if Synced(tx.c) { WrittenKeeps(tx, output); }
    if newIn + rx.c.start <= REGION { ConsumeKeeps(rx, newIn); }
  }

  /** One call into the stream: borrow, then commit. */
  method AdvanceLeft(ent: EntHugeTlb, newIn: nat, output: seq<byte>) returns (r: Outcome<()>)
    requires Ready(ent) && newIn <= |ent.rx.Unread()|
    modifies ent, ent.hugetlbOut
    ensures ent.Follows() && ent.rx.wire == old(ent.rx.wire) && ent.rx.Reported() == old(ent.rx.Reported())
    ensures r == FaultOutcome(CommitFault(old(PageOf(ent)), old(ent.tx.Len()), newIn, |output|))
    ensures old(Synced(ent.tx.c)) ==> ent.Valid()
    ensures r.Done? ==> Answers(old(PageOf(ent)), old(ent.rx), old(ent.tx), newIn, output, ent.Cursor(), ent.rx, ent.tx)
    ensures r.Done? && old(Synced(ent.tx.c)) ==> Settled(ent)
  {
    hide WorldInv, Losses.Loose, Answers;
    ghost var c, rx, tx := ent.Cursor(), ent.rx, ent.tx;
    var view, outStart := ent.LeftBufsMut();
    r := CommitLeft(ent, ent.posOutEnd - ent.posOutStart, newIn, output);
    if r.Done? { AnswersBorrowed(c, rx, tx, newIn, output, ent.Cursor(), ent.rx, ent.tx); }
  }

  method LayerAdvance(ent: EntHugeTlb, mid: IntermedBuf, m: LayerMove) returns (r: Outcome<()>)
    requires Ready(ent) && mid.Valid() && m.newIn <= |ent.rx.Unread()|
    requires {ent.hugetlbIn, ent.hugetlbOut} !! {mid.bufRightIn, mid.bufRightOut}
    modifies ent, ent.hugetlbOut, mid, mid.bufRightIn, mid.bufRightOut
    ensures ent.Follows() && mid.Valid()
    ensures ent.rx.wire == old(ent.rx.wire) && ent.rx.Reported() == old(ent.rx.Reported())
    ensures r == FaultOutcome(AdvanceFault(old(PageOf(ent)), old(LensOf(ent, mid, 0)), m))
    ensures old(Synced(ent.tx.c)) ==> ent.Valid()
    ensures r.Done? ==> Answers(old(PageOf(ent)), old(ent.rx), old(ent.tx), m.newIn, m.output, ent.Cursor(), ent.rx, ent.tx)
    ensures r.Done? && old(Synced(ent.tx.c)) ==> Settled(ent)
    ensures r.Done? ==>
              && mid.In() == old(mid.In()) + m.feed
              && mid.Out() == (if m.sentRight then [] else old(mid.Out()))
              && ent.isReady == m.ready && ent.inBlocked == m.blocked
  {
    hide WorldInv, RxInv, Losses.Loose, Answers, CommitFault;
    r := AdvanceLeft(ent, m.newIn, m.output);
    if r.Panicked? { return; }
    r := mid.AddRightIn(m.feed);
    if r.Panicked? { return; }
    if m.sentRight { mid.AllSentRightOut(); }
    ent.SetReady(m.ready);
    ent.SetLeftInBlocked(m.blocked);
  }

  method AppAdvance(mid: IntermedBuf, m: AppMove) returns (r: Outcome<()>)
    requires mid.Valid() && m.newIn <= |mid.In()|
    modifies mid, mid.bufRightOut
    ensures mid.Valid()
    ensures r == if |old(mid.Out())| + |m.output| <= MID_SIZE then Done(()) else Panicked(SliceOutOfRange)
    ensures r.Done? ==> mid.In() == old(mid.In())[..m.newIn] && mid.Out() == old(mid.Out()) + m.output
  {
    r := mid.AddRightOut(m.output);
    if r.Panicked? { return; }
    mid.LeftSetLens(m.newIn, mid.rightOutLen);
  }

  ghost predicate AppConsumesLeft(app: (nat, Drive) -> AppMove) {
    forall n, d :: app(n, d).newIn <= d.leftIn
  }

  /** A run consumes only reported input, appends only to the output, and submits nothing. */
  ghost predicate Onward(rx0: Rx, tx0: Tx, rx: Rx, tx: Tx) {
    && rx.wire == rx0.wire && rx.Reported() == rx0.Reported()
    && tx0.committed <= tx.committed && tx.submitted == tx0.submitted
  }

  lemma OnwardStarts(rx: Rx, tx: Tx)
    ensures Onward(rx, tx, rx, tx)
  {}

  lemma OnwardGoesOn(rx0: Rx, tx0: Tx, rx1: Rx, tx1: Tx, rx2: Rx, tx2: Tx)
    requires Onward(rx0, tx0, rx1, tx1) && Onward(rx1, tx1, rx2, tx2)
    ensures Onward(rx0, tx0, rx2, tx2)
  {}

  ghost function BuffersOf(ent: EntHugeTlb, mid: IntermedBuf): Buffers
    reads ent, mid, mid.bufRightIn, mid.bufRightOut
    requires mid.Valid() && ent.posInStart <= ent.posInEnd && ent.posOutStart <= ent.posOutEnd
  { Buffers(ent.posInEnd - ent.posInStart, ent.posOutEnd - ent.posOutStart, mid.In(), mid.Out()) }

  /** The arm of the loop for level 0. next: the level to go on with, None to return. */
  method LayerArm(ent: EntHugeTlb, intermed: IntermedBuf, d: Drive, m: LayerMove)
    returns (r: Outcome<()>, next: Option<nat>)
    requires Ready(ent) && intermed.Valid()
    requires {ent.hugetlbIn, ent.hugetlbOut} !! {intermed.bufRightIn, intermed.bufRightOut}
    requires d == LensOf(ent, intermed, 0) && DriveInv(d) && LayerOk(d, m)
    modifies ent, ent.hugetlbOut, intermed, intermed.bufRightIn, intermed.bufRightOut
    ensures ent.Follows() && intermed.Valid()
    ensures r == FaultOutcome(LayerFault(old(PageOf(ent)), d, m))
    ensures old(Synced(ent.tx.c)) ==> ent.Valid()
    ensures r.Done? ==> Answers(old(PageOf(ent)), old(ent.rx), old(ent.tx), m.newIn, m.output, ent.Cursor(), ent.rx, ent.tx)
    ensures r.Done? ==> Onward(old(ent.rx), old(ent.tx), ent.rx, ent.tx)
    ensures r.Done? ==> ent.tx.committed == old(ent.tx.committed) + m.output
    ensures r.Done? && old(Synced(ent.tx.c)) ==> Settled(ent)
    ensures next.Some? ==> r.Done? && (old(Synced(ent.tx.c)) || Fills(old(PageOf(ent)), d, m))
    ensures r.Done? ==>
              && ent.posOutStart <= ent.posOutEnd
              && LayerTurnTo(d, m, ent.posOutEnd - ent.posOutStart)
              == if next.None? then None else Some(LensOf(ent, intermed, next.value))
    ensures next.Some? && old(Synced(ent.tx.c)) ==>
              var d' := LensOf(ent, intermed, next.value); DriveInv(d') && Rank(d') < Rank(d)
    ensures r.Done? ==>
              var call := LayerCall(old(BuffersOf(ent, intermed)), m, BuffersOf(ent, intermed));
              Effect(call, old(Synced(ent.tx.c))) && Decides(call, next)
  {
    hide WorldInv, RxInv, Losses.Loose, Answers, AdvanceFault, Rank, Effect, Decides, LayerTurnTo, Fills, LayerOk;
    StaleIsPending(ent);
    ent.ValidFollows();
    ghost var p, rx, tx, before := PageOf(ent), ent.rx, ent.tx, BuffersOf(ent, intermed);
    assert d == LensAt(0, before);
    var preLens := ent.LeftLens();
    MoveFits(d, m);
    r := LayerAdvance(ent, intermed, m);
    if r.Panicked? { return r, None; }
    AnswersOnward(p, rx, tx, m.newIn, m.output, ent.Cursor(), ent.rx, ent.tx);
    r, next := LayerReturned(ent, intermed, preLens.value.0, p, before, m, Synced(tx.c));
  }

  /** What the loop does when a layer call has returned. before: the buffers it met. */
  method LayerReturned(ent: EntHugeTlb, intermed: IntermedBuf, preLenIn: nat, ghost p: Page, ghost before: Buffers,
                       ghost m: LayerMove, ghost synced: bool)
    returns (r: Outcome<()>, next: Option<nat>)
    requires ent.Follows() && intermed.Valid() && preLenIn == before.leftIn
    requires DriveInv(LensAt(0, before)) && LayerOk(LensAt(0, before), m)
    requires intermed.In() == before.midIn + m.feed
    requires intermed.Out() == if m.sentRight then [] else before.midOut
    requires ent.isReady == m.ready && ent.inBlocked == m.blocked
    requires LenIn(ent) == m.newIn && ent.posOutEnd - ent.posOutStart == LeftAfter(p, before.leftOut, |m.output|)
    requires (synced <==> p.outBase == p.outStart) && (!synced ==> before.leftOut > 0) && (synced ==> ent.Valid())
    ensures r == FaultOutcome(if LeftAfter(p, before.leftOut, |m.output|) < 0 then Some(Underflow) else None)
    ensures next.Some? ==> r.Done? && next.value <= 1 && (synced || Fills(p, LensAt(0, before), m))
    ensures r.Done? ==>
              && ent.posOutStart <= ent.posOutEnd && ent.posInStart <= ent.posInEnd
              && var after := BuffersOf(ent, intermed);
                 && Effect(LayerCall(before, m, after), synced) && Decides(LayerCall(before, m, after), next)
                 && LayerTurnTo(LensAt(0, before), m, after.leftOut)
                 == (if next.None? then None else Some(LensOf(ent, intermed, next.value)))
                 && (next.Some? && synced ==>
                       DriveInv(LensOf(ent, intermed, next.value))
                       && Rank(LensOf(ent, intermed, next.value)) < Rank(LensAt(0, before)))
  {
    hide RxInv, WorldInv, Losses.Loose, Effect, Decides, LayerTurnTo, Fills, Rank;
    assert |intermed.In()| == |before.midIn| + |m.feed|;
    var lens := ent.LeftLens();
    if lens.Panicked? { return Panicked(lens.why), None; }
    next := AfterLayer(ent.isReady, ent.inBlocked, preLenIn, lens.value.0, lens.value.1);
    LayerCalled(p, before, m, BuffersOf(ent, intermed), synced, next);
    return Done(()), next;
  }

  lemma MoveFits(d: Drive, m: LayerMove)
    requires LayerOk(d, m)
    ensures m.newIn <= d.leftIn
  {}

  /** Whether the loop goes on after a layer call, and with what. */
  method AfterLayer(isReady: bool, inBlocked: bool, preLenIn: nat, lenIn: nat, lenOut: nat) returns (next: Option<nat>)
    ensures next == Some(0) <==> lenOut == 0 && !isReady && !inBlocked && preLenIn != lenIn
    ensures next == Some(1) <==> lenOut == 0 && isReady
    ensures next.None? <==> lenOut > 0 || (!isReady && (inBlocked || preLenIn == lenIn))
  {
    if lenOut != 0 {
      return None;
    }
    if isReady == false && !inBlocked && preLenIn != lenIn {
      return Some(0);
    }
    if isReady == false {
      return None;
    }
    return Some(1);
  }

  /** Only unsent output can be behind a stale slice. */
  lemma StaleIsPending(ent: EntHugeTlb)
    requires ent.Valid()
    ensures Synced(ent.tx.c) <==> PageOf(ent).outBase == PageOf(ent).outStart
    ensures PageOf(ent).outBase <= PageOf(ent).outStart
    ensures !Synced(ent.tx.c) ==> ent.posOutStart < ent.posOutEnd
  {}

  /** The arm of the loop for level 1. */
  method AppArm(intermed: IntermedBuf, ghost d: Drive, m: AppMove) returns (r: Outcome<()>, next: Option<nat>)
    requires intermed.Valid()
    requires d.level == 1 && DriveInv(d) && AppOk(d, m)
    requires d.midIn == intermed.rightInLen && d.midOut == intermed.rightOutLen
    modifies intermed, intermed.bufRightOut
    ensures intermed.Valid()
    ensures r == FaultOutcome(AppFault(d, m))
    ensures r.Done? ==>
              AppTurn(d, m) == if next.None? then None
                               else Some(Drive(next.value, d.leftIn, d.leftOut, intermed.rightInLen, intermed.rightOutLen))
    ensures next.Some? ==>
              var d' := Drive(next.value, d.leftIn, d.leftOut, intermed.rightInLen, intermed.rightOutLen);
              r.Done? && DriveInv(d') && Rank(d') < Rank(d)
    ensures r.Done? ==>
              var call := AppCall(Buffers(d.leftIn, d.leftOut, old(intermed.In()), old(intermed.Out())), m,
                                  Buffers(d.leftIn, d.leftOut, intermed.In(), intermed.Out()));
              Effect(call, true) && Decides(call, next)
  {
    var preLeftLenIn, preLeftLenOut := intermed.rightInLen, intermed.rightOutLen;
    assert |intermed.Out()| == d.midOut;
    r := AppAdvance(intermed, m);
    if r.Panicked? { return r, None; }
    AppDescends(d, m);
    assert |intermed.In()| == m.newIn && |intermed.Out()| == d.midOut + |m.output|;
    var leftLenIn, leftLenOut := intermed.rightInLen, intermed.rightOutLen;
    if leftLenIn == 0 && leftLenOut == 0 {
      return r, None;
    }
    if leftLenOut == 0 && preLeftLenIn == leftLenIn && preLeftLenOut == leftLenOut {
      return r, None;
    }
    return r, Some(0);
  }

  /** The run ended as DriveFrom says: with this outcome after this many calls and, if it did not panic, with this much
      input left and this output appended. */
  ghost predicate Drove(p: Page, d: Drive, layer: (nat, Drive) -> LayerMove, app: (nat, Drive) -> AppMove,
                        tx: Tx, ent: EntHugeTlb, r: Outcome<()>, calls: nat)
    reads ent
    requires OrbitsOk(layer, app) && DriveInv(d) && Steady(p, d, 0, layer)
  {
    var run := DriveFrom(p, d, 0, layer, app);
    && r == run.outcome && calls == run.calls
    && (r.Done? ==> LenIn(ent) == run.left && ent.tx.committed == tx.committed + run.output)
  }

  /** layers: the LAYERS constant. The orbits may choose any move at any call, within their contracts.
      calls: how many times an orbit was entered. trace: the calls that did not panic, with the buffers they met. */
  method RunBlueprints(ent: EntHugeTlb, layers: nat, layer: (nat, Drive) -> LayerMove, app: (nat, Drive) -> AppMove)
    returns (r: Outcome<()>, calls: nat, ghost trace: seq<Call>)
    requires Ready(ent)
    requires if layers == 0 then AppConsumesLeft(app) else OrbitsOk(layer, app)
    requires Synced(ent.tx.c) || layers == 0 || !Fills(PageOf(ent), StartOf(ent), layer(0, StartOf(ent)))
    modifies ent, ent.hugetlbOut
    ensures ent.Follows() && (r.Done? ==> Onward(old(ent.rx), old(ent.tx), ent.rx, ent.tx))
    ensures old(Synced(ent.tx.c)) ==> ent.Valid() && (r.Done? ==> Settled(ent))
    ensures calls <= 3 * (MID_SIZE + 1) * old(LenIn(ent)) + 3
    ensures layers > 0 ==> Drove(old(PageOf(ent)), old(StartOf(ent)), layer, app, old(ent.tx), ent, r, calls)
    ensures layers > 0 ==>
              var d := old(StartOf(ent));
              Traced(trace, Buffers(d.leftIn, d.leftOut, [], []), old(Synced(ent.tx.c)), layer, app, r, calls)
    ensures layers > 0 && r.Done? ==>
              var b := trace[|trace| - 1].after;
              b.midOut == [] || 0 < b.leftOut == ent.posOutEnd - ent.posOutStart
    ensures layers == 0 ==>
              && calls == 1
              && var d := old(StartOf(ent));
                 && r == FaultOutcome(CommitFault(old(PageOf(ent)), d.leftOut, app(0, d).newIn, |app(0, d).output|))
                 && (r.Done? ==>
                       Answers(old(PageOf(ent)), old(ent.rx), old(ent.tx), app(0, d).newIn, app(0, d).output,
                               ent.Cursor(), ent.rx, ent.tx))
  {
    hide WorldInv, RxInv, Losses.Loose, Answers, CommitFault, DriveFrom;
    ghost var p, rx, tx := PageOf(ent), ent.rx, ent.tx;
    StaleIsPending(ent);
    var intermed := new IntermedBuf();
    if layers == 0 {
      assert intermed.rightInLen == |intermed.In()| == 0 && intermed.rightOutLen == |intermed.Out()| == 0;
      var m := app(0, LensOf(ent, intermed, 0));
      r := AdvanceLeft(ent, m.newIn, m.output);
      if r.Done? { AnswersOnward(p, rx, tx, m.newIn, m.output, ent.Cursor(), ent.rx, ent.tx); }
      return r, 1, [];
    }
    r, calls, trace := RunLayers(ent, intermed, layer, app);
  }

  /** One pass through the loop: the match on cur_level. */
  method Turn(ent: EntHugeTlb, intermed: IntermedBuf, d: Drive, call: nat,
              layer: (nat, Drive) -> LayerMove, app: (nat, Drive) -> AppMove)
    returns (r: Outcome<()>, next: Option<nat>, ghost c: Call)
    requires Ready(ent) && intermed.Valid()
    requires {ent.hugetlbIn, ent.hugetlbOut} !! {intermed.bufRightIn, intermed.bufRightOut}
    requires d == LensOf(ent, intermed, d.level) && DriveInv(d)
    requires OrbitsOk(layer, app) && Steady(PageOf(ent), d, call, layer)
    modifies ent, ent.hugetlbOut, intermed, intermed.bufRightIn, intermed.bufRightOut
    ensures ent.Follows() && intermed.Valid() && (r.Done? ==> Onward(old(ent.rx), old(ent.tx), ent.rx, ent.tx))
    ensures old(Synced(ent.tx.c)) ==> ent.Valid() && (r.Done? ==> Settled(ent))
    ensures next.Some? ==> old(Synced(ent.tx.c)) && r.Done? && ent.tx.committed == old(ent.tx.committed)
    ensures OneTurn(old(PageOf(ent)), d, call, layer, app) ==
            if next.Some? then Go(PageOf(ent), LensOf(ent, intermed, next.value))
            else Stop(r, if r.Done? then LenIn(ent) else d.leftIn,
                      if r.Done? then ent.tx.committed[|old(ent.tx.committed)|..] else [])
    ensures c.before == old(BuffersOf(ent, intermed))
    ensures next.Some? ==> next.value <= 1
    ensures r.Done? ==> old(ent.tx.committed) <= ent.tx.committed
    ensures r.Done? ==>
              && ent.posOutStart <= ent.posOutEnd && c.after == BuffersOf(ent, intermed)
              && (c.LayerCall? <==> d.level == 0)
              && Made(c, call, layer, app) && Effect(c, old(Synced(ent.tx.c))) && Decides(c, next)
  {
    hide WorldInv, RxInv, Losses.Loose, Answers, AdvanceFault, Rank, Effect, Decides;
    StaleIsPending(ent);
    ent.ValidFollows();
    ghost var before := BuffersOf(ent, intermed);
    if d.level == 0 {
      ghost var p, rx, tx, m := PageOf(ent), ent.rx, ent.tx, layer(call, d);
      r, next := LayerArm(ent, intermed, d, layer(call, d));
      c := LayerCall(before, m, if r.Done? then BuffersOf(ent, intermed) else before);
      if r.Done? { AnswersOnward(p, rx, tx, m.newIn, m.output, ent.Cursor(), ent.rx, ent.tx); }
    } else {
      assert d.level == 1;  // the todo!() arms are never taken
      r, next := AppArm(intermed, d, app(call, d));
      c := AppCall(before, app(call, d), BuffersOf(ent, intermed));
    }
    if r.Panicked? { next := None; }
  }

  method RunLayers(ent: EntHugeTlb, intermed: IntermedBuf, layer: (nat, Drive) -> LayerMove, app: (nat, Drive) -> AppMove)
    returns (r: Outcome<()>, calls: nat, ghost trace: seq<Call>)
    requires Ready(ent) && intermed.Valid() && intermed.In() == [] == intermed.Out()
    requires {ent.hugetlbIn, ent.hugetlbOut} !! {intermed.bufRightIn, intermed.bufRightOut}
    requires OrbitsOk(layer, app) && Steady(PageOf(ent), StartOf(ent), 0, layer)
    modifies ent, ent.hugetlbOut, intermed, intermed.bufRightIn, intermed.bufRightOut
    ensures ent.Follows() && (r.Done? ==> Onward(old(ent.rx), old(ent.tx), ent.rx, ent.tx))
    ensures old(Synced(ent.tx.c)) ==> ent.Valid() && (r.Done? ==> Settled(ent))
    ensures calls <= 3 * (MID_SIZE + 1) * old(LenIn(ent)) + 3
    ensures Drove(old(PageOf(ent)), old(StartOf(ent)), layer, app, old(ent.tx), ent, r, calls)
    ensures intermed.Valid() && Traced(trace, old(BuffersOf(ent, intermed)), old(Synced(ent.tx.c)), layer, app, r, calls)
    ensures r.Done? ==>
              && ent.posOutStart <= ent.posOutEnd && trace[|trace| - 1].after == BuffersOf(ent, intermed)
              && (intermed.Out() == [] || ent.posOutStart < ent.posOutEnd)
  {
    hide WorldInv, RxInv, Losses.Loose, SoFar, Ended, OneTurn, Made, Effect, Decides, OrbitsOk, DriveInv, Steady, Rank,
      Traced, Onward, DriveFrom;
    ghost var start := Run0(PageOf(ent), StartOf(ent), BuffersOf(ent, intermed), Synced(ent.tx.c), ent.rx, ent.tx);
    trace := [];
    calls := 0;
    var curLevel := 0;
    var d := LensOf(ent, intermed, curLevel);
    assert intermed.rightInLen == |intermed.In()| == 0;
    SoFarStarts(start, layer, app);
    while true
      invariant Ready(ent) && intermed.Valid() && Synced(ent.tx.c) == start.synced
      invariant d == LensOf(ent, intermed, curLevel) && ent.posOutStart <= ent.posOutEnd
      invariant SoFar(start, layer, app, PageOf(ent), d, calls, trace, BuffersOf(ent, intermed), ent.rx, ent.tx)
      decreases Rank(d)
    {
      SoFarGives(start, layer, app, PageOf(ent), d, calls, trace, BuffersOf(ent, intermed), ent.rx, ent.tx);
      var next;
      ghost var c;
      ghost var p, rx, tx := PageOf(ent), ent.rx, ent.tx;
      r, next, c := Turn(ent, intermed, d, calls, layer, app);
      if next.None? {
        trace := RunEnds(start, layer, app, p, d, calls, trace, rx, tx, c, r, LenIn(ent), ent.rx, ent.tx);
        calls := calls + 1;
        EndedGives(start, layer, app, trace, calls, r, LenIn(ent), c.after, ent.rx, ent.tx);
        return;
      }
      curLevel := next.value;
      RunGoesOn(start, layer, app, p, d, calls, trace, rx, tx, c, PageOf(ent), LensOf(ent, intermed, curLevel), ent.rx, ent.tx);
      trace := trace + [c];
      calls := calls + 1;
      d := LensOf(ent, intermed, curLevel);
    }
  }

  /** Where a run of the loop starts. */
  datatype Run0 = Run0(p: Page, d: Drive, buffers: Buffers, synced: bool, rx: Rx, tx: Tx)

  /** Where it has come to after some calls. */
  ghost predicate SoFar(start: Run0, layer: (nat, Drive) -> LayerMove, app: (nat, Drive) -> AppMove,
                        p: Page, d: Drive, calls: nat, trace: seq<Call>, now: Buffers, rx: Rx, tx: Tx)
  {
    && OrbitsOk(layer, app)
    && DriveInv(start.d) && Steady(start.p, start.d, 0, layer)
    && DriveInv(d) && Steady(p, d, calls, layer)
    && (start.synced || (calls == 0 && start.buffers.midOut == []))
    && calls + Rank(d) <= Rank(start.d)
    && DriveFrom(start.p, start.d, 0, layer, app) == DriveFrom(p, d, calls, layer, app)
    && Onward(start.rx, start.tx, rx, tx) && tx.committed == start.tx.committed
    && Chained(trace, start.buffers, start.synced, layer, app) && |trace| == calls
    && Reached(trace, start.buffers, now, d.level)
  }

  /** How it ends. */
  ghost predicate Ended(start: Run0, layer: (nat, Drive) -> LayerMove, app: (nat, Drive) -> AppMove,
                        trace: seq<Call>, calls: nat, r: Outcome<()>, left: int, after: Buffers, rx: Rx, tx: Tx)
  {
    && OrbitsOk(layer, app) && DriveInv(start.d) && Steady(start.p, start.d, 0, layer)
    && calls <= Rank(start.d) + 1
    && Traced(trace, start.buffers, start.synced, layer, app, r, calls)
    && var run := DriveFrom(start.p, start.d, 0, layer, app);
       && r == run.outcome && calls == run.calls
       && (r.Done? ==>
             && left == run.left && tx.committed == start.tx.committed + run.output
             && Onward(start.rx, start.tx, rx, tx)
             && trace[|trace| - 1].after == after && (after.midOut == [] || after.leftOut > 0))
  }

  lemma SoFarStarts(start: Run0, layer: (nat, Drive) -> LayerMove, app: (nat, Drive) -> AppMove)
    requires OrbitsOk(layer, app) && start.d.level == 0 && start.d.midIn == 0 && Steady(start.p, start.d, 0, layer)
    requires start.buffers.midOut == []
    ensures SoFar(start, layer, app, start.p, start.d, 0, [], start.buffers, start.rx, start.tx)
  {
    StartRank(start.d);
    ChainStarts(start.buffers, start.synced, layer, app);
  }

  lemma SoFarGives(start: Run0, layer: (nat, Drive) -> LayerMove, app: (nat, Drive) -> AppMove,
                   p: Page, d: Drive, calls: nat, trace: seq<Call>, now: Buffers, rx: Rx, tx: Tx)
    requires SoFar(start, layer, app, p, d, calls, trace, now, rx, tx)
    ensures OrbitsOk(layer, app) && DriveInv(d) && Steady(p, d, calls, layer)
  {}

  lemma RunGoesOn(start: Run0, layer: (nat, Drive) -> LayerMove, app: (nat, Drive) -> AppMove,
                  p: Page, d: Drive, calls: nat, trace: seq<Call>, rx: Rx, tx: Tx,
                  c: Call, p': Page, d': Drive, rx': Rx, tx': Tx)
    requires SoFar(start, layer, app, p, d, calls, trace, c.before, rx, tx)
    requires DriveInv(d) && OrbitsOk(layer, app) && Steady(p, d, calls, layer)
    requires OneTurn(p, d, calls, layer, app) == Go(p', d')
    requires start.synced && d'.level <= 1 && (c.LayerCall? <==> d.level == 0)
    requires Made(c, calls, layer, app) && Effect(c, start.synced) && Decides(c, Some(d'.level))
    requires Onward(rx, tx, rx', tx') && tx'.committed == tx.committed
    ensures SoFar(start, layer, app, p', d', calls + 1, trace + [c], c.after, rx', tx') && Rank(d') < Rank(d)
  {
    hide OneTurn, Made, Effect, Decides, Chained;
    ChainGrows(trace, c, start.buffers, start.synced, layer, app, d.level);
  }

  lemma RunEnds(start: Run0, layer: (nat, Drive) -> LayerMove, app: (nat, Drive) -> AppMove,
                p: Page, d: Drive, calls: nat, trace: seq<Call>, rx: Rx, tx: Tx,
                c: Call, r: Outcome<()>, left: int, rx': Rx, tx': Tx)
    returns (whole: seq<Call>)
    requires SoFar(start, layer, app, p, d, calls, trace, c.before, rx, tx)
    requires DriveInv(d) && OrbitsOk(layer, app) && Steady(p, d, calls, layer)
    requires var t := OneTurn(p, d, calls, layer, app);
             t.Stop? && t.outcome == r && (r.Done? ==> left == t.left && tx'.committed == tx.committed + t.output)
    requires r.Done? ==>
               && (c.LayerCall? <==> d.level == 0)
               && Made(c, calls, layer, app) && Effect(c, start.synced) && Decides(c, None) && Onward(rx, tx, rx', tx')
    ensures Ended(start, layer, app, whole, calls + 1, r, left, c.after, rx', tx')
  {
    hide OneTurn, Made, Effect, Decides, Chained, Traced;
    whole := TraceEnds(trace, start.buffers, start.synced, layer, app, c, r, d.level);
  }

  lemma EndedGives(start: Run0, layer: (nat, Drive) -> LayerMove, app: (nat, Drive) -> AppMove,
                   trace: seq<Call>, calls: nat, r: Outcome<()>, left: int, after: Buffers, rx: Rx, tx: Tx)
    requires Ended(start, layer, app, trace, calls, r, left, after, rx, tx)
    requires start.d.level == 0 && start.d.midIn == 0
    ensures OrbitsOk(layer, app) && DriveInv(start.d) && Steady(start.p, start.d, 0, layer)
    ensures calls <= 3 * (MID_SIZE + 1) * start.d.leftIn + 3
    ensures Traced(trace, start.buffers, start.synced, layer, app, r, calls)
    ensures var run := DriveFrom(start.p, start.d, 0, layer, app);
            && r == run.outcome && calls == run.calls
            && (r.Done? ==>
                  && left == run.left && tx.committed == start.tx.committed + run.output
                  && Onward(start.rx, start.tx, rx, tx)
                  && trace != [] && trace[|trace| - 1].after == after && (after.midOut == [] || after.leftOut > 0))
  {
    StartRank(start.d);
  }
}
