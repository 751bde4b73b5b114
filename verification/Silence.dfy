// When can a connection never send again?

module Silence {
  import opened Common
  import opened Receive
  import opened Transmit
  import opened Engine

  /** No run, of whatever steps, submits another byte. */
  ghost predicate SilentForEver(w: World)
    requires WorldInv(w)
  {
    forall es :: Legal(w, es, None) && Run(w, es, None).Done? ==> Run(w, es, None).value.tx.submitted == w.tx.submitted
  }

  // ---------------------------------------------------------------- what is stuck stays stuck

  lemma SilencedStep(w: World, e: Event)
    requires WorldInv(w) && Admissible(w, e) && Silenced(w.tx) && Step(w, e).Done?
    ensures Silenced(Step(w, e).value.tx) && Step(w, e).value.tx.submitted == w.tx.submitted
  {
    match e
    case Send(accepts) => SilencedSendsNothing(w.tx, accepts);
    case Ack(i, n, more) => AckKeepsStuck(w.tx, i, n, more);
    case Fail(i, more) => FailAddsStuck(w.tx, i, more);
    case _ =>
  }

  lemma {:induction false} SilencedForever(w: World, es: seq<Event>, pace: Option<nat>)
    requires WorldInv(w) && Legal(w, es, pace) && Silenced(w.tx)
    ensures Run(w, es, pace).Done? ==> Run(w, es, pace).value.tx.submitted == w.tx.submitted
    decreases |es|
  {
    if es != [] && Step(w, es[0]).Done? {
      StepKeeps(w, es[0]);
      SilencedStep(w, es[0]);
      SilencedForever(Step(w, es[0]).value, es[1..], pace);
    }
  }

  // ---------------------------------------------------------------- what is not stuck can be retired

  /** Nothing but the in-flight accounts differs. */
  ghost predicate SameOutput(s: Tx, t: Tx) {
    && t.region == s.region && t.scratch == s.scratch && t.submitted == s.submitted
    && t.c.start == s.c.start && t.c.end == s.c.end && t.c.idx == s.c.idx
  }

  /** The kernel can acknowledge everything that has not failed and notify all that is not lost; that leaves only what
      is stuck. */
  lemma {:induction false} AckAll(w: World, i: nat) returns (es: seq<Event>, w': World)
    requires WorldInv(w) && i <= |w.tx.flights|
    requires Drained(w.tx.flights[..i])
    ensures Legal(w, es, None) && Run(w, es, None) == Done(w')
    ensures WorldInv(w') && w'.rx == w.rx && SameOutput(w.tx, w'.tx) && Drained(w'.tx.flights)
    ensures Stuck(w'.tx.flights) == Stuck(w.tx.flights) && LostCount(w'.tx.flights) == LostCount(w.tx.flights)
    decreases |w.tx.flights| - i
  {
    var fs := w.tx.flights;
    if i == |fs| {
      assert fs[..i] == fs;
      es, w' := [], w;
    } else if fs[i].open && !fs[i].lost {
      var n := if fs[i].failed then 0 else fs[i].len - fs[i].acked;
      var e := Ack(i, n, false);
      StepKeeps(w, e);
      AckKeepsStuck(w.tx, i, n, false);
      var w1 := Step(w, e).value;
      assert w1.tx.flights[..i + 1] == fs[..i] + [w1.tx.flights[i]];
      var rest;
      rest, w' := AckAll(w1, i + 1);
      RunCons(w, e, rest, None);
      es := [e] + rest;
    } else {
      assert fs[..i + 1] == fs[..i] + [fs[i]];
      es, w' := AckAll(w, i + 1);
    }
  }

  lemma OneChunk(w: World) returns (w': World)
    requires WorldInv(w) && !Throttled(w.tx.c) && w.tx.Len() > 0
    ensures Legal(w, [Send(1)], None) && Run(w, [Send(1)], None) == Done(w')
    ensures |w'.tx.submitted| > |w.tx.submitted|
  {
    hide SendAllOut, TxInv, RxInv;
    StepKeeps(w, Send(1));
    assert TxInv(w.tx) && Cursor(w.tx) by { CursorOf(w); }
    SendShape(w.tx.c, 1);
    ApplySplitsPending(w.tx, Transmit.SendAllOut(w.tx.c, 1));
    w' := Step(w, Send(1)).value;
    RunCons(w, Send(1), [], None);
  }

  lemma CursorOf(w: World)
    requires WorldInv(w)
    ensures TxInv(w.tx) && Cursor(w.tx)
  {}

  /** An open gate can be used: if nothing is pending, a layer can commit one more byte. */
  lemma OneMoreByte(w: World) returns (es: seq<Event>, w': World)
    requires WorldInv(w) && !Throttled(w.tx.c)
    ensures Legal(w, es, None) && Run(w, es, None) == Done(w')
    ensures |w'.tx.submitted| > |w.tx.submitted|
  {
    if w.tx.Len() > 0 {
      w' := OneChunk(w);
      es := [Send(1)];
    } else {
      StepKeeps(w, Borrow);
      RevolveKeeps(w.rx);
      var w1 := Step(w, Borrow).value;
      var w2, rest := CommitOne(w1);
      w' := OneChunk(w2);
      RunAppend(w1, rest, w2, [Send(1)]);
      RunCons(w, Borrow, rest + [Send(1)], None);
      es := [Borrow] + (rest + [Send(1)]);
    }
  }

  lemma CommitOne(w: World) returns (w': World, es: seq<Event>)
    requires WorldInv(w) && w.tx.Len() == 0 && w.rx.c.start <= REGION
    ensures Legal(w, es, None) && Run(w, es, None) == Done(w') && WorldInv(w')
    ensures w'.tx.Len() == 1 && w'.tx.submitted == w.tx.submitted
    ensures w'.tx.c.sends == w.tx.c.sends && w'.tx.c.bufs == w.tx.c.bufs
  {
    if w.tx.scratch == [] {
      StepKeeps(w, Write([0]));
      var w1 := Step(w, Write([0])).value;
      var rest;
      w', rest := CommitScratch(w1);
      RunCons(w, Write([0]), rest, None);
      es := [Write([0])] + rest;
    } else {
      w', es := CommitScratch(w);
    }
  }

  lemma CommitScratch(w: World) returns (w': World, es: seq<Event>)
    requires WorldInv(w) && w.tx.Len() == 0 && w.rx.c.start <= REGION && w.tx.scratch != []
    ensures Legal(w, es, None) && Run(w, es, None) == Done(w') && WorldInv(w')
    ensures w'.tx.Len() == 1 && w'.tx.submitted == w.tx.submitted
    ensures w'.tx.c.sends == w.tx.c.sends && w'.tx.c.bufs == w.tx.c.bufs
  {
    var e := SetLens(0, 1);
    StepKeeps(w, e);
    SetLenKeeps(w.tx, 1);
    w' := Step(w, e).value;
    RunCons(w, e, [], None);
    es := [e] + [];
  }

  // ---------------------------------------------------------------- the exact condition

  /** A connection can never send again exactly when more than 8192 bytes, or six buffers, in flight are stuck:
      the bytes and buffers of failed sends, and the bytes that short acknowledgements left behind. */
  lemma SilentIff(w: World)
    requires WorldInv(w)
    ensures SilentForEver(w) <==> Silenced(w.tx)
  {
    if Silenced(w.tx) {
      forall es | Legal(w, es, None) && Run(w, es, None).Done?
        ensures Run(w, es, None).value.tx.submitted == w.tx.submitted
      {
        SilencedForever(w, es, None);
      }
    } else {
      var es, w1 := AckAll(w, 0);
      QuietGate(w1.tx);
      var fs, w2 := OneMoreByte(w1);
      RunAppend(w, es, w1, fs);
      assert Run(w, es + fs, None).value.tx.submitted != w.tx.submitted;
    }
  }

  // ---------------------------------------------------------------- two failed sends are enough

  function TwoBuffers(): seq<byte> { seq(2 * BUF_SIZE, _ => 0) }

  function TwoLost(): seq<Event> {
    [Write(TwoBuffers())] + ([SetLens(0, 2 * BUF_SIZE)] + ([Send(2)] + ([Fail(0, false)] + ([Fail(1, false)] + []))))
  }

  /** Two full buffers go out and both fail: the byte gate stays shut for good. */
  lemma TwoLostSilence(inRegion: seq<byte>, outRegion: seq<byte>)
    requires |inRegion| == REGION == |outRegion|
    ensures var w := InitWorld(inRegion, outRegion);
            && Legal(w, TwoLost(), None)
            && var r := Run(w, TwoLost(), None);
               r.Done? && LostCount(r.value.tx.flights) == 2 && Silenced(r.value.tx)
  {
    var w0 := InitWorld(inRegion, outRegion);
    StepKeeps(w0, Write(TwoBuffers()));
    var w1 := Step(w0, Write(TwoBuffers())).value;
    StepKeeps(w1, SetLens(0, 2 * BUF_SIZE));
    var w2 := Step(w1, SetLens(0, 2 * BUF_SIZE)).value;
    assert w2.tx.c == TxCursor(0, 2 * BUF_SIZE, 0, 0, 0) && w2.tx.flights == [];
    var w5 := LoseTwo(w2);
    RunCons(w1, SetLens(0, 2 * BUF_SIZE), [Send(2)] + ([Fail(0, false)] + ([Fail(1, false)] + [])), None);
    RunCons(w0, Write(TwoBuffers()), [SetLens(0, 2 * BUF_SIZE)] + ([Send(2)] + ([Fail(0, false)] + ([Fail(1, false)] + []))), None);
  }

  const FLYING := Flight(BUF_SIZE, 0, true, false, false)
  const GONE := Flight(BUF_SIZE, 0, true, true, true)

  lemma TwoFlying(w: World)
    requires WorldInv(w) && w.tx.c == TxCursor(0, 2 * BUF_SIZE, 0, 0, 0) && w.tx.flights == []
    ensures Step(w, Send(2)).value.tx.flights == [FLYING, FLYING]
  {
    var cs := Transmit.SendAllOut(w.tx.c, 2).submitted;
    assert cs == [ChunkAt(0, 2 * BUF_SIZE, 0), ChunkAt(0, 2 * BUF_SIZE, 1)];
  }

  lemma TwoGone()
    ensures LostCount([GONE, GONE]) == 2 && Stuck([GONE, GONE]) == 2 * BUF_SIZE
  {
    assert LostTo([GONE, GONE], 1) == 1 && StuckTo([GONE, GONE], 1) == BUF_SIZE;
  }

  lemma LoseTwo(w: World) returns (w': World)
    requires WorldInv(w) && w.tx.c == TxCursor(0, 2 * BUF_SIZE, 0, 0, 0) && w.tx.flights == []
    ensures var es := [Send(2)] + ([Fail(0, false)] + ([Fail(1, false)] + []));
            Legal(w, es, None) && Run(w, es, None) == Done(w')
    ensures LostCount(w'.tx.flights) == 2 && Silenced(w'.tx)
  {
    TwoFlying(w);
    TwoGone();
    hide WorldInv, TxSend;
    StepKeeps(w, Send(2));
    var w1 := Step(w, Send(2)).value;
    StepKeeps(w1, Fail(0, false));
    var w2 := Step(w1, Fail(0, false)).value;
    assert w2.tx.flights == [GONE, FLYING];
    StepKeeps(w2, Fail(1, false));
    w' := Step(w2, Fail(1, false)).value;
    assert w'.tx.flights == [GONE, GONE];
    RunCons(w2, Fail(1, false), [], None);
    RunCons(w1, Fail(0, false), [Fail(1, false)] + [], None);
    RunCons(w, Send(2), [Fail(0, false)] + ([Fail(1, false)] + []), None);
  }

  // ---------------------------------------------------------------- six failures, with and without a notification

  /** count times: one byte is committed and sent, and that send fails; with more, its notification arrives. */
  function Failures(k: nat, count: nat, more: bool): seq<Event>
    decreases count
  {
    if count == 0 then []
    else
      var rest := Failures(k + 1, count - 1, more);
      [Write([0])] + ([SetLens(0, 1)] + ([Send(1)] + ([Fail(k, more)] + if more then [Ack(k, 0, false)] + rest else rest)))
  }

  /** After k such failures. */
  ghost predicate AfterFailures(w: World, k: nat, more: bool) {
    && WorldInv(w) && w.tx.scratch == [] && w.rx.c == RxCursor(0, 0, 0)
    && w.tx.c == TxCursor(k * BUF_SIZE, k * BUF_SIZE, k, k, if more then 0 else k)
    && |w.tx.flights| == k && Stuck(w.tx.flights) == k && LostCount(w.tx.flights) == if more then 0 else k
  }

  /** A step of a run that goes on from w' as rest does. */
  ghost predicate Leads(w: World, e: Event, w': World)
    requires WorldInv(w)
  { Admissible(w, e) && Step(w, e) == Done(w') && WorldInv(w') }

  lemma LeadsCons(w: World, e: Event, w': World, rest: seq<Event>)
    requires WorldInv(w) && Leads(w, e, w') && Legal(w', rest, None)
    ensures Legal(w, [e] + rest, None) && Run(w, [e] + rest, None) == Run(w', rest, None)
  {
    RunCons(w, e, rest, None);
  }

  lemma WriteOne(w: World) returns (w': World)
    requires WorldInv(w) && w.tx.scratch == [] && Synced(w.tx.c) && w.tx.c.start == w.tx.c.end < REGION
    ensures Leads(w, Write([0]), w') && WorldInv(w') && w'.rx == w.rx
    ensures w'.tx.c == w.tx.c && w'.tx.scratch == [0] && w'.tx.flights == w.tx.flights
  {
    StepKeeps(w, Write([0]));
    w' := Step(w, Write([0])).value;
  }

  lemma CommitTheOne(w: World) returns (w': World)
    requires WorldInv(w) && w.tx.scratch == [0] && Synced(w.tx.c) && w.tx.c.start == w.tx.c.end < REGION
    requires w.rx.c == RxCursor(0, 0, 0)
    ensures Leads(w, SetLens(0, 1), w') && WorldInv(w') && w'.rx.c == w.rx.c
    ensures w'.tx.c == w.tx.c.(end := w.tx.c.end + 1) && w'.tx.scratch == [] && w'.tx.flights == w.tx.flights
  {
    StepKeeps(w, SetLens(0, 1));
    SetLenKeeps(w.tx, 1);
    w' := Step(w, SetLens(0, 1)).value;
  }

  lemma SendTheOne(w: World, k: nat) returns (w': World)
    requires WorldInv(w) && w.tx.scratch == [] && !Throttled(w.tx.c) && k < 6
    requires w.tx.c.start == k * BUF_SIZE && w.tx.c.end == k * BUF_SIZE + 1
    ensures Leads(w, Send(1), w') && WorldInv(w') && w'.rx == w.rx && w'.tx.scratch == []
    ensures w'.tx.c == TxCursor((k + 1) * BUF_SIZE, (k + 1) * BUF_SIZE, k + 1, w.tx.c.sends + 1, w.tx.c.bufs + 1)
    ensures w'.tx.flights == w.tx.flights + [Flight(1, 0, true, false, false)]
  {
    hide Gather;
    StepKeeps(w, Send(1));
    w' := Step(w, Send(1)).value;
    var cs := Transmit.SendAllOut(w.tx.c, 1).submitted;
    assert cs == [ChunkAt(k, 1, 0)];
    assert NewFlights(cs) == [Flight(1, 0, true, false, false)];
  }

  lemma OneMoreFlight(fs: seq<Flight>)
    ensures var gs := fs + [Flight(1, 0, true, false, false)];
            Stuck(gs) == Stuck(fs) && LostCount(gs) == LostCount(fs)
  {
    FlightsAppend(fs, [Flight(1, 0, true, false, false)], 1);
  }

  /** A byte is committed, sent, and reported as failed. */
  lemma OneFails(w: World, k: nat, more: bool, rest: seq<Event>) returns (w': World)
    requires AfterFailures(w, k, more) && k < 6
    ensures WorldInv(w') && w'.tx.scratch == [] && w'.rx.c == RxCursor(0, 0, 0)
    ensures w'.tx.c == TxCursor((k + 1) * BUF_SIZE, (k + 1) * BUF_SIZE, k + 1, k + 1, if more then 1 else k + 1)
    ensures |w'.tx.flights| == k + 1 && w'.tx.flights[k] == Flight(1, 0, true, true, !more)
    ensures Stuck(w'.tx.flights) == k + 1 && LostCount(w'.tx.flights) == if more then 0 else k + 1
    ensures Legal(w', rest, None) ==>
              var es := [Write([0])] + ([SetLens(0, 1)] + ([Send(1)] + ([Fail(k, more)] + rest)));
              Legal(w, es, None) && Run(w, es, None) == Run(w', rest, None)
  {
    hide Leads, WorldInv, Legal, Run, Stuck, LostCount;
    var w1 := WriteOne(w);
    var w2 := CommitTheOne(w1);
    var w3 := SendTheOne(w2, k);
    OneMoreFlight(w.tx.flights);
    w' := FailTheOne(w3, k, more);
    if Legal(w', rest, None) {
      LeadsCons(w3, Fail(k, more), w', rest);
      LeadsCons(w2, Send(1), w3, [Fail(k, more)] + rest);
      LeadsCons(w1, SetLens(0, 1), w2, [Send(1)] + ([Fail(k, more)] + rest));
      LeadsCons(w, Write([0]), w1, [SetLens(0, 1)] + ([Send(1)] + ([Fail(k, more)] + rest)));
    }
  }

  lemma FailTheOne(w: World, k: nat, more: bool) returns (w': World)
    requires WorldInv(w) && |w.tx.flights| == k + 1 && w.tx.flights[k] == Flight(1, 0, true, false, false)
    ensures Leads(w, Fail(k, more), w') && WorldInv(w') && w'.rx == w.rx && w'.tx.c == w.tx.c && w'.tx.scratch == w.tx.scratch
    ensures |w'.tx.flights| == k + 1 && w'.tx.flights[k] == Flight(1, 0, true, true, !more)
    ensures Stuck(w'.tx.flights) == Stuck(w.tx.flights) + 1
    ensures LostCount(w'.tx.flights) == LostCount(w.tx.flights) + if more then 0 else 1
  {
    StepKeeps(w, Fail(k, more));
    FailAddsStuck(w.tx, k, more);
    w' := Step(w, Fail(k, more)).value;
  }

  lemma NotifyTheOne(w: World, k: nat) returns (w': World)
    requires WorldInv(w) && |w.tx.flights| == k + 1 && w.tx.flights[k] == Flight(1, 0, true, true, false)
    requires w.tx.c.bufs == 1
    ensures Leads(w, Ack(k, 0, false), w') && WorldInv(w') && w'.rx == w.rx && w'.tx.c == w.tx.c.(bufs := 0)
    ensures w'.tx.scratch == w.tx.scratch && |w'.tx.flights| == k + 1
    ensures Stuck(w'.tx.flights) == Stuck(w.tx.flights) && LostCount(w'.tx.flights) == LostCount(w.tx.flights)
  {
    StepKeeps(w, Ack(k, 0, false));
    AckKeepsStuck(w.tx, k, 0, false);
    w' := Step(w, Ack(k, 0, false)).value;
  }

  lemma NoSteps(w: World)
    requires WorldInv(w)
    ensures Legal(w, [], None) && Run(w, [], None) == Done(w)
  {}

  lemma {:induction false} FailuresRun(w: World, k: nat, more: bool) returns (w': World)
    requires AfterFailures(w, k, more) && k <= 6
    ensures AfterFailures(w', 6, more)
    ensures Legal(w, Failures(k, 6 - k, more), None) && Run(w, Failures(k, 6 - k, more), None) == Done(w')
    decreases 6 - k
  {
    hide WorldInv, Leads, Stuck, LostCount, Legal, Run;
    if k == 6 {
      NoSteps(w);
      return w;
    }
    var rest := Failures(k + 1, 5 - k, more);
    if more {
      var w1 := OneFails(w, k, more, [Ack(k, 0, false)] + rest);
      var w2 := NotifyTheOne(w1, k);
      w' := FailuresRun(w2, k + 1, more);
      LeadsCons(w1, Ack(k, 0, false), w2, rest);
    } else {
      var w1 := OneFails(w, k, more, rest);
      w' := FailuresRun(w1, k + 1, more);
    }
  }

  /** Six sends of one byte that fail without a notification to come silence the connection; six that are notified
      leave nothing but their six bytes in flight. */
  lemma SixFailures(inRegion: seq<byte>, outRegion: seq<byte>, more: bool)
    requires |inRegion| == REGION == |outRegion|
    ensures var w := InitWorld(inRegion, outRegion);
            && Legal(w, Failures(0, 6, more), None)
            && var r := Run(w, Failures(0, 6, more), None);
               r.Done? && WorldInv(r.value) && (SilentForEver(r.value) <==> !more)
               && r.value.tx.c.sends == 6 && r.value.tx.c.bufs == if more then 0 else 6
  {
    var w' := FailuresRun(InitWorld(inRegion, outRegion), 0, more);
    SilentIff(w');
  }
}
