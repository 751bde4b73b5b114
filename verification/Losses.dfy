// What becomes of the output when layers write anywhere and commit anything, also between a refused submission and
// its repetition.

module Losses {
  import opened Common
  import opened Transmit

  /** What happens to the send side, in any order and with any arguments: a write at an offset of the borrowed slice,
      left_set_lens, send_all_out, sent_zc. */
  datatype Move =
    | Put(off: nat, output: seq<byte>)
    | Commit(newOut: nat)
    | Submit(accepts: nat)
    | Retire(sentOut: nat, more: bool)

  /** Bytes committed that are neither submitted nor pending. The end can lie before the start. */
  function Missing(s: Tx): int { |s.committed| - |s.submitted| - (s.c.end - s.c.start) }

  /** What no move breaks. */
  ghost predicate Loose(s: Tx) { |s.region| == REGION && SaneTx(s.c) && Missing(s) >= 0 }

  /** Every byte the layers have committed was submitted, in order, or is still pending. */
  ghost predicate Kept(s: Tx) {
    s.c.start <= s.c.end <= |s.region| && s.committed == s.submitted + s.Pending()
  }

  /** How far the borrowed slice starts before the unsent output. */
  function Gap(c: TxCursor): nat
    requires c.idx * BUF_SIZE <= c.start
  { c.start - c.idx * BUF_SIZE }

  function Moved(s: Tx, m: Move): Outcome<Tx>
    requires Loose(s)
  {
    match m
    case Put(off, output) =>
      var at := s.c.idx * BUF_SIZE + off;
      if at + |output| > REGION then Panicked(SliceOutOfRange)
      else Done(s.(region := Overwrite(s.region, at, output)))
    case Commit(newOut) =>
      if s.c.end < s.c.start then Panicked(Underflow)
      else if newOut + s.c.start > REGION then Panicked(OutOverCapacity)
      else Done(TxSetLen(s, newOut))
    case Submit(accepts) =>
      if s.c.end < s.c.start then Panicked(Underflow) else Done(TxSend(s, accepts))
    case Retire(sentOut, more) =>
      (match SentZc(s.c, sentOut, more)
       case Done(c) => Done(s.(c := c))
       case Panicked(why) => Panicked(why))
  }

  // ---------------------------------------------------------------- how many bytes

  /** A commit that changes the length while idx_out_cur is stale drops as many bytes as it is behind. */
  function Dropped(s: Tx, m: Move): nat
    requires s.c.idx * BUF_SIZE <= s.c.start
  { if m.Commit? && m.newOut != s.c.end - s.c.start then Gap(s.c) else 0 }

  lemma SubmitKeeps(s: Tx, accepts: nat)
    requires Cursor(s)
    ensures var t := TxSend(s, accepts);
            Cursor(t) && Missing(t) == Missing(s) && (Kept(t) <==> Kept(s))
  {
    var r := SendAllOut(s.c, accepts);
    SendShape(s.c, accepts);
    ApplySplitsPending(s, r);
    var k := CutBytes(s.Len(), |r.submitted|);
    SplitJoin(s.submitted, s.Pending(), k);
  }

  lemma MovedDrops(s: Tx, m: Move)
    requires Loose(s) && Moved(s, m).Done?
    ensures Loose(Moved(s, m).value) && Missing(Moved(s, m).value) == Missing(s) + Dropped(s, m)
  {
    if m.Submit? { SubmitKeeps(s, m.accepts); }
  }

  lemma WriteStaysLoose(s: Tx, at: nat, output: seq<byte>)
    requires Loose(s) && at + |output| <= REGION
    ensures Loose(s.(region := Overwrite(s.region, at, output)))
    ensures s.c.start <= s.c.end && at == WriteAt(s) ==> Loose(TxWrite(s, output))
  {}

  lemma CommitMoves(s: Tx, newOut: nat)
    requires Loose(s) && s.c.start <= s.c.end && newOut + s.c.start <= REGION
    ensures s.Len() <= |s.committed| && s.c.idx * BUF_SIZE + newOut <= |s.region| == REGION
    ensures Loose(TxSetLen(s, newOut))
  {
    MovedDrops(s, Commit(newOut));
  }

  ghost function RunMoves(s: Tx, ms: seq<Move>): Outcome<Tx>
    requires Loose(s)
    decreases |ms|
  {
    if ms == [] then Done(s)
    else match Moved(s, ms[0])
      case Panicked(why) => Panicked(why)
      case Done(t) => MovedDrops(s, ms[0]); RunMoves(t, ms[1..])
  }

  ghost function AllDropped(s: Tx, ms: seq<Move>): nat
    requires Loose(s)
    decreases |ms|
  {
    if ms == [] || Moved(s, ms[0]).Panicked? then 0
    else
      MovedDrops(s, ms[0]);
      Dropped(s, ms[0]) + AllDropped(Moved(s, ms[0]).value, ms[1..])
  }

  /** Over any run, the number of bytes missing grows by exactly the gaps of the stale commits. */
  lemma {:induction false} LostExactly(s: Tx, ms: seq<Move>)
    requires Loose(s) && RunMoves(s, ms).Done?
    ensures Missing(RunMoves(s, ms).value) == Missing(s) + AllDropped(s, ms)
    decreases |ms|
  {
    if ms != [] {
      MovedDrops(s, ms[0]);
      LostExactly(Moved(s, ms[0]).value, ms[1..]);
    }
  }

  // ---------------------------------------------------------------- which bytes

  /** The write reaches a pending byte and changes it. */
  ghost predicate Spoils(s: Tx, off: nat, output: seq<byte>)
    requires |s.region| == REGION && s.c.end <= REGION
  {
    var at := s.c.idx * BUF_SIZE + off;
    exists i :: s.c.start <= i < s.c.end && at <= i < at + |output| && s.region[i] != output[i - at]
  }

  /** A stale commit of another length, or a write that spoils pending bytes. */
  ghost predicate Harms(s: Tx, m: Move)
    requires Loose(s)
  {
    match m
    case Put(off, output) => Spoils(s, off, output)
    case Commit(newOut) => newOut != s.c.end - s.c.start && !Synced(s.c)
    case _ => false
  }

  lemma PutKeepsIff(s: Tx, off: nat, output: seq<byte>)
    requires Loose(s) && Kept(s) && s.c.idx * BUF_SIZE + off + |output| <= REGION
    ensures Kept(Moved(s, Put(off, output)).value) <==> !Spoils(s, off, output)
  {
    var at, t := s.c.idx * BUF_SIZE + off, Moved(s, Put(off, output)).value;
    assert forall i :: 0 <= i < REGION ==>
             t.region[i] == if at <= i < at + |output| then output[i - at] else s.region[i];
    if Kept(t) {
      assert t.Pending() == (t.submitted + t.Pending())[|t.submitted|..] == s.Pending();
      forall i | s.c.start <= i < s.c.end ensures t.region[i] == s.region[i] {
        assert t.Pending()[i - s.c.start] == s.Pending()[i - s.c.start];
      }
    }
    if !Spoils(s, off, output) { assert t.Pending() == s.Pending(); }
  }

  lemma CommitKeepsIff(s: Tx, newOut: nat)
    requires Loose(s) && Kept(s) && newOut + s.c.start <= REGION
    ensures Kept(Moved(s, Commit(newOut)).value) <==> (newOut == s.Len() || Synced(s.c))
  {
    var t := Moved(s, Commit(newOut)).value;
    MovedDrops(s, Commit(newOut));
    if Synced(s.c) && newOut > s.Len() {
      SliceJoin(s.region, s.c.start, s.c.end, t.c.end);
    } else if Synced(s.c) && newOut < s.Len() {
      SliceJoin(s.region, s.c.start, t.c.end, s.c.end);
      assert t.committed == t.submitted + t.Pending();
    }
  }

  /** One move breaks output that was kept so far exactly when it harms. */
  lemma MovedKeepsIff(s: Tx, m: Move)
    requires Loose(s) && Kept(s) && Moved(s, m).Done?
    ensures Kept(Moved(s, m).value) <==> !Harms(s, m)
  {
    match m
    case Put(off, output) => PutKeepsIff(s, off, output);
    case Commit(newOut) => CommitKeepsIff(s, newOut);
    case Submit(accepts) => SubmitKeeps(s, accepts);
    case Retire(_, _) => assert Moved(s, m).value.Pending() == s.Pending();
  }

  /** Every state the run passes through keeps the output. */
  ghost predicate KeptThroughout(s: Tx, ms: seq<Move>)
    requires Loose(s)
    decreases |ms|
  {
    Kept(s) &&
    (ms != [] && Moved(s, ms[0]).Done? ==>
       (MovedDrops(s, ms[0]); KeptThroughout(Moved(s, ms[0]).value, ms[1..])))
  }

  /** No move of the run harms in the state it meets. */
  ghost predicate Harmless(s: Tx, ms: seq<Move>)
    requires Loose(s)
    decreases |ms|
  {
    ms != [] && Moved(s, ms[0]).Done? ==>
      !Harms(s, ms[0]) && (MovedDrops(s, ms[0]); Harmless(Moved(s, ms[0]).value, ms[1..]))
  }

  /** A run keeps every byte of its output in order, all the way, if and only if no commit is stale and no write
      spoils a pending byte. */
  lemma {:induction false} KeptThroughoutIff(s: Tx, ms: seq<Move>)
    requires Loose(s) && Kept(s)
    ensures KeptThroughout(s, ms) <==> Harmless(s, ms)
    decreases |ms|
  {
    if ms != [] && Moved(s, ms[0]).Done? {
      MovedDrops(s, ms[0]);
      MovedKeepsIff(s, ms[0]);
      if Kept(Moved(s, ms[0]).value) { KeptThroughoutIff(Moved(s, ms[0]).value, ms[1..]); }
    }
  }

  /** Some commit of the run changes the length while idx_out_cur is stale. */
  ghost predicate CommitsStale(s: Tx, ms: seq<Move>)
    requires Loose(s)
    decreases |ms|
  {
    ms != [] && Moved(s, ms[0]).Done? &&
    (|| (ms[0].Commit? && Harms(s, ms[0]))
     || (MovedDrops(s, ms[0]); CommitsStale(Moved(s, ms[0]).value, ms[1..])))
  }

  lemma {:induction false} DroppedIffStale(s: Tx, ms: seq<Move>)
    requires Loose(s)
    ensures AllDropped(s, ms) > 0 <==> CommitsStale(s, ms)
    decreases |ms|
  {
    if ms != [] && Moved(s, ms[0]).Done? {
      MovedDrops(s, ms[0]);
      DroppedIffStale(Moved(s, ms[0]).value, ms[1..]);
    }
  }

  /** What a stale commit loses it loses for good: no later move brings the number of bytes back. */
  lemma StaleIsForEver(s: Tx, ms: seq<Move>)
    requires Loose(s) && RunMoves(s, ms).Done? && CommitsStale(s, ms)
    ensures !Kept(RunMoves(s, ms).value)
  {
    LostExactly(s, ms);
    DroppedIffStale(s, ms);
  }

  /** A layer's answer to a borrow: output behind the pending length, then the length raised by it. */
  function Answered(s: Tx, output: seq<byte>): Tx
    requires |s.region| == REGION && s.c.start <= s.c.end && s.Len() <= |s.committed|
    requires s.c.idx * BUF_SIZE + s.Len() + |output| <= REGION
  {
    TxSetLen(s.(region := Overwrite(s.region, s.c.idx * BUF_SIZE + s.Len(), output)), s.Len() + |output|)
  }

  lemma AnsweredAppends(s: Tx, output: seq<byte>)
    requires |s.region| == REGION && s.c.start <= s.c.end && s.Len() <= |s.committed|
    requires s.c.idx * BUF_SIZE + s.Len() + |output| <= REGION
    ensures var t := Answered(s, output); t.committed == s.committed + output && t.submitted == s.submitted
  {
    var at := s.c.idx * BUF_SIZE + s.Len();
    assert Overwrite(s.region, at, output)[at..at + |output|] == output;
  }

  /** What is pending after a layer's answer, for every gap: the pending bytes lose as many at their end as the slice
      starts early, and the output follows; with a wider gap the output loses its first bytes; with one wider still
      the end comes before the start. The layer has committed exactly its output. */
  lemma AnsweredBytes(s: Tx, output: seq<byte>)
    requires Loose(s) && s.c.start <= s.c.end && output != []
    requires s.c.idx * BUF_SIZE + s.Len() + |output| <= REGION
    ensures s.Len() <= |s.committed|
    ensures var t, g := Answered(s, output), Gap(s.c);
            && t.committed == s.committed + output
            && (t.c.end < t.c.start <==> g > s.Len() + |output|)
            && t.c.start == s.c.start && t.c.end <= REGION == |t.region|
            && (g <= s.Len() ==> t.Pending() == s.Pending()[..s.Len() - g] + output)
            && (s.Len() < g <= s.Len() + |output| ==> t.Pending() == output[g - s.Len()..])
  {
    var t, g, at := Answered(s, output), Gap(s.c), s.c.idx * BUF_SIZE + s.Len();
    var region := Overwrite(s.region, at, output);
    assert region == t.region;
    assert region[at..at + |output|] == output;
    AnsweredAppends(s, output);
    if g <= s.Len() {
      assert t.region[s.c.start..at] == s.Pending()[..s.Len() - g];
      SliceJoin(t.region, s.c.start, at, at + |output|);
    } else if g <= s.Len() + |output| {
      assert t.Pending() == t.region[at..at + |output|][g - s.Len()..];
    }
  }

  /** A run of two moves. */
  lemma TwoMoves(s: Tx, a: Move, b: Move)
    requires Loose(s) && Moved(s, a).Done? && Loose(Moved(s, a).value) && Moved(Moved(s, a).value, b).Done?
    requires Loose(Moved(Moved(s, a).value, b).value)
    ensures RunMoves(s, [a, b]) == Moved(Moved(s, a).value, b)
    ensures !a.Commit? && !b.Commit? ==> !CommitsStale(s, [a, b])
  {
    var ms, t := [a, b], Moved(s, a).value;
    assert ms[0] == a && ms[1..] == [b];
    assert [b][0] == b && [b][1..] == [];
    assert RunMoves(t, [b]) == RunMoves(Moved(t, b).value, []) by { MovedDrops(t, b); }
    assert RunMoves(s, ms) == RunMoves(t, [b]);
    if !b.Commit? {
      assert !CommitsStale(Moved(t, b).value, []);
      assert !CommitsStale(t, [b]);
    }
  }

  /** Two buffers are pending when a submission is refused after the first; then a byte is written where layers write.
      A pending byte is gone, though no length was set. */
  lemma WriteAloneSpoils(region: seq<byte>)
    requires |region| == REGION && region[BUF_SIZE] != 7
    ensures var s := TxInit(region).(c := TxCursor(0, 2 * BUF_SIZE, 0, 0, 0), committed := region[..2 * BUF_SIZE]);
            && Loose(s) && Kept(s)
            && var ms := [Submit(1), Put(BUF_SIZE, [7])];
               RunMoves(s, ms).Done? && !Kept(RunMoves(s, ms).value) && !CommitsStale(s, ms)
  {
    var s := TxInit(region).(c := TxCursor(0, 2 * BUF_SIZE, 0, 0, 0), committed := region[..2 * BUF_SIZE]);
    assert s.submitted + s.Pending() == s.committed;
    SubmitKeeps(s, 1);
    var s1 := Moved(s, Submit(1)).value;
    assert s1.c == TxCursor(BUF_SIZE, 2 * BUF_SIZE, 0, BUF_SIZE, 1) && s1.region == region;
    hide Moved, TxSend;
    SpoilsAt(s1);
    TwoMoves(s, Submit(1), Put(BUF_SIZE, [7]));
  }

  lemma SpoilsAt(s: Tx)
    requires Loose(s) && Kept(s) && s.c == TxCursor(BUF_SIZE, 2 * BUF_SIZE, 0, BUF_SIZE, 1) && s.region[BUF_SIZE] != 7
    ensures var r := Moved(s, Put(BUF_SIZE, [7])); r.Done? && Loose(r.value) && !Kept(r.value)
  {
    assert Spoils(s, BUF_SIZE, [7]) by { assert s.region[BUF_SIZE] != [7 as byte][0]; }
    PutKeepsIff(s, BUF_SIZE, [7]);
  }
}
