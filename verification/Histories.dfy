// What the cursor of a pooled stream stands for: the history of one stream. Everything a pool does to a stream is a run
// of that stream's own state machine.

module Histories {
  import opened Common
  import opened Receive
  import opened Transmit
  import opened Engine
  import opened Streams

  function CursorOf(w: World): StreamCursor { StreamCursor(w.rx.c, w.tx.c) }

  /** w is a possible history of the stream. */
  ghost predicate Holds(s: TcpStream, w: World) {
    s.StreamingHugeTlb? && WorldInv(w) && s.cursor == CursorOf(w)
  }

  /** The last send was not refused, and nothing is written but uncommitted. */
  ghost predicate Calm(w: World) { Synced(w.tx.c) && w.tx.scratch == [] }

  ghost predicate Tracks(s: TcpStream, w: World) { Holds(s, w) && Calm(w) }

  // ---------------------------------------------------------------- callbacks

  function EventOf(op: LayerOp): Event {
    match op
    case BorrowBufs => Borrow
    case WriteBytes(_, output) => Write(output)
    case SetBoth(newIn, newOut) => SetLens(newIn, newOut)
  }

  function EventsOf(ops: seq<LayerOp>): seq<Event> {
    if ops == [] then [] else [EventOf(ops[0])] + EventsOf(ops[1..])
  }

  /** The layers are trusted with each operation, write behind what they wrote, and commit all of it in the end. */
  ghost predicate OpsOk(w: World, ops: seq<LayerOp>)
    requires WorldInv(w)
    decreases |ops|
  {
    if ops == [] then Calm(w)
    else
      && OpOk(w, ops[0])
      && (Step(w, EventOf(ops[0])).Done? ==>
            (StepKeeps(w, EventOf(ops[0])); OpsOk(Step(w, EventOf(ops[0])).value, ops[1..])))
  }

  ghost predicate OpOk(w: World, op: LayerOp)
    requires WorldInv(w)
  { Admissible(w, EventOf(op)) && (op.WriteBytes? ==> op.off == w.tx.Len() + |w.tx.scratch|) }

  /** At every call and on every stream, the callback keeps the layers' contract. */
  ghost predicate LayersOk(env: Env) {
    forall t, s, shutdown, w :: Tracks(s, w) ==> OpsOk(w, env.ops(t, s, shutdown))
  }

  lemma OpIsStep(w: World, op: LayerOp)
    requires WorldInv(w) && OpOk(w, op)
    ensures var r := Step(w, EventOf(op));
            ApplyOp(CursorOf(w), op) == if r.Done? then Done(CursorOf(r.value)) else Panicked(r.why)
  {
    if op.SetBoth? { SetLenKeeps(w.tx, op.newOut); }
  }

  lemma {:induction false} OpsAreRun(w: World, ops: seq<LayerOp>)
    requires WorldInv(w) && OpsOk(w, ops)
    ensures Legal(w, EventsOf(ops), None)
    ensures var r := Run(w, EventsOf(ops), None);
            && ApplyOps(CursorOf(w), ops) == (if r.Done? then Done(CursorOf(r.value)) else Panicked(r.why))
            && (r.Done? ==> WorldInv(r.value) && Calm(r.value))
    decreases |ops|
  {
    if ops != [] {
      var e := EventOf(ops[0]);
      StepKeeps(w, e);
      OpIsStep(w, ops[0]);
      if Step(w, e).Panicked? {
        RunPanics(w, e, EventsOf(ops[1..]), None);
      } else {
        OpsAreRun(Step(w, e).value, ops[1..]);
        RunCons(w, e, EventsOf(ops[1..]), None);
      }
    }
  }

  /** What a stream's run of events ends in, against what the code replied. */
  ghost predicate Ends(w: World, es: seq<Event>, s: TcpStream, reply: Reply<()>)
    requires WorldInv(w)
  {
    && Legal(w, es, None)
    && var r := Run(w, es, None);
       if reply.Panics? then r == Panicked(reply.why)
       else r.Done? && Holds(s, r.value) && (reply.Ok? ==> Calm(r.value))
  }

  /** One more step in front. */
  lemma EndsCons(w: World, e: Event, es: seq<Event>, s: TcpStream, reply: Reply<()>)
    requires WorldInv(w) && Admissible(w, e) && Step(w, e).Done? && WorldInv(Step(w, e).value)
    requires Ends(Step(w, e).value, es, s, reply)
    ensures Ends(w, [e] + es, s, reply)
  {
    RunCons(w, e, es, None);
  }

  lemma EndsNow(w: World, s: TcpStream, reply: Reply<()>)
    requires Holds(s, w) && !reply.Panics? && (reply.Ok? ==> Calm(w))
    ensures Ends(w, [], s, reply)
  {}

  /** A run that goes well, and the world to go on from. */
  lemma EndsIn(w: World, es: seq<Event>, s: TcpStream) returns (w': World)
    requires WorldInv(w) && Ends(w, es, s, Ok(()))
    ensures Legal(w, es, None) && Run(w, es, None) == Done(w') && Tracks(s, w')
  {
    w' := Run(w, es, None).value;
  }

  /** One run after another. */
  lemma EndsAppend(w: World, es: seq<Event>, w1: World, fs: seq<Event>, s: TcpStream, reply: Reply<()>)
    requires WorldInv(w) && Legal(w, es, None) && Run(w, es, None) == Done(w1) && WorldInv(w1)
    requires Ends(w1, fs, s, reply)
    ensures Ends(w, es + fs, s, reply)
  {
    RunAppend(w, es, w1, fs);
  }

  lemma CallbackIsRun(env: Env, t: nat, s: TcpStream, shutdown: bool, w: World)
    requires LayersOk(env) && Tracks(s, w)
    ensures var cb := Callback(env, t, s, shutdown);
            Ends(w, EventsOf(env.ops(t, s, shutdown)), if cb.Done? then cb.value else s,
                 if cb.Done? then Ok(()) else Panics(cb.why))
  {
    OpsAreRun(w, env.ops(t, s, shutdown));
  }

  // ---------------------------------------------------------------- sending

  lemma SendIsStep(s: TcpStream, w: World, accepts: nat)
    requires Tracks(s, w) && Sane(s)
    ensures var op, r := SendOut(s, accepts), Step(w, Send(accepts));
            r.Done? && Holds(op.stream, r.value) && !op.reply.Panics? && (op.reply.Ok? ==> Calm(r.value))
  {
    StepKeeps(w, Send(accepts));
    SendShape(w.tx.c, accepts);
  }

  // ---------------------------------------------------------------- what every completion ends with

  /** After the callbacks a stream's buffers are freed, unless they failed. */
  function FreeEvents(reply: Reply<()>): seq<Event> { if reply.Ok? then [Free] else [] }

  /** The stream when its completion is done with, and the reply if it stays in the pool. */
  function AfterFree(s: TcpStream, reply: Reply<()>): Op<()> { if reply.Ok? then FreeBufs(s) else Op(s, reply) }

  lemma FreeIsStep(w: World, es: seq<Event>, s: TcpStream, reply: Reply<()>)
    requires WorldInv(w) && Ends(w, es, s, reply)
    ensures Ends(w, es + FreeEvents(reply), AfterFree(s, reply).stream, AfterFree(s, reply).reply)
  {
    if reply.Ok? {
      var w1 := EndsIn(w, es, s);
      StepKeeps(w1, Free);
      if RxFree(w1.rx).Done? {
        EndsNow(Step(w1, Free).value, AfterFree(s, reply).stream, Ok(()));
        RunCons(w1, Free, [], None);
      }
      RunAppend(w, es, w1, [Free]);
    } else {
      assert es + [] == es;
    }
  }

  /** The kernel has the credit for these bytes and has then written what it reports. */
  ghost predicate MayReport(rx: Rx, dma: seq<byte>, bufId: Option<nat>, bufLen: nat) {
    HasCredit(rx, |dma|) && (bufId.Some? ==> rx.Reported() + bufLen <= |rx.wire| + |dma|)
  }

  /** The kernel writes, then reports. */
  lemma ReportIsRun(s: TcpStream, w: World, dma: seq<byte>, bufId: Option<nat>, bufLen: nat) returns (w': World)
    requires Tracks(s, w) && MayReport(w.rx, dma, bufId, bufLen)
    ensures var op, es := OnRecv(s, bufId, bufLen), [Dma(dma)] + ([Recv(bufId, bufLen)] + []);
            if op.reply.Ok? then
              Legal(w, es, None) && Run(w, es, None) == Done(w') && Tracks(op.stream, w')
            else
              Ends(w, es, op.stream, op.reply)
  {
    var d, e := Dma(dma), Recv(bufId, bufLen);
    StepKeeps(w, d);
    var w1 := Step(w, d).value;
    StepKeeps(w1, e);
    if OnRecv(s, bufId, bufLen).reply.Ok? {
      w' := Step(w1, e).value;
      RunCons(w1, e, [], None);
    } else {
      w' := w;
      RunPanics(w1, e, [], None);
    }
    RunCons(w, d, [e] + [], None);
  }

  /** The kernel acknowledges. */
  lemma AckIsRun(s: TcpStream, w: World, flight: nat, sentOut: nat, more: bool) returns (w': World)
    requires Tracks(s, w) && CanAck(w.tx, flight, sentOut)
    ensures var op, es := OnSent(s, sentOut, more), [Ack(flight, sentOut, more)] + [];
            op.reply.Ok? && Legal(w, es, None) && Run(w, es, None) == Done(w') && Tracks(op.stream, w')
  {
    var e := Ack(flight, sentOut, more);
    StepKeeps(w, e);
    AckKeeps(w.tx, flight, sentOut, more);
    w' := Step(w, e).value;
    RunCons(w, e, [], None);
  }

  /** A failed send is history only: the pool just prints it. */
  lemma FailIsRun(s: TcpStream, w: World, flight: nat, more: bool)
    requires Tracks(s, w) && CanFail(w.tx, flight)
    ensures Ends(w, [Fail(flight, more)] + [], s, Ok(()))
  {
    var e := Fail(flight, more);
    StepKeeps(w, e);
    EndsNow(Step(w, e).value, s, Ok(()));
    EndsCons(w, e, [], s, Ok(()));
  }

  // ---------------------------------------------------------------- a new stream

  function Blank(): seq<byte> { seq(REGION, _ => 0) }

  ghost function Newborn(): (w: World)
    ensures WorldInv(w) && w == InitWorld(Blank(), Blank())
  { InitWorld(Blank(), Blank()) }

  ghost function GreetEvents(s: TcpStream, t: nat, env: Env): seq<Event> {
    EventsOf(env.ops(t, s, false)) + ([Send(env.accepts(t + 2))] + [])
  }

  lemma CallbackNoUnderflow(env: Env, t: nat, s: TcpStream, w: World)
    requires LayersOk(env) && Tracks(s, w)
    ensures Callback(env, t, s, false) != Panicked(Underflow)
  {
    CallbackIsRun(env, t, s, false, w);
    RunKeeps(w, EventsOf(env.ops(t, s, false)), None);
  }

  /** A callback and a send. */
  lemma FirstSendIsRun(env: Env, t: nat, s: TcpStream, w: World)
    requires LayersOk(env) && Tracks(s, w) && Sane(s) && Callback(env, t, s, false).Done?
    ensures var s1 := Callback(env, t, s, false).value;
            && Sane(s1) && !SendOut(s1, env.accepts(t + 2)).reply.Panics?
            && (SendOut(s1, env.accepts(t + 2)).reply.Ok? ==>
                  Ends(w, GreetEvents(s, t, env), SendOut(s1, env.accepts(t + 2)).stream, Ok(())))
  {
    hide Ends, Step, SendOut, Callback, EventsOf, Calm, WorldInv;
    CallbackIsRun(env, t, s, false, w);
    CallbackKeeps(env, t, s, false);
    var s1, es, e := Callback(env, t, s, false).value, EventsOf(env.ops(t, s, false)), Send(env.accepts(t + 2));
    var w1 := EndsIn(w, es, s1);
    SendIsStep(s1, w1, env.accepts(t + 2));
    var op := SendOut(s1, env.accepts(t + 2));
    if op.reply.Ok? {
      EndsNow(Step(w1, e).value, op.stream, Ok(()));
      EndsCons(w1, e, [], op.stream, Ok(()));
      EndsAppend(w, es, w1, [e] + [], op.stream, Ok(()));
    }
  }

  lemma NewbornTracks(fd: nat)
    ensures var newcomer := StreamingHugeTlb(fd, FRESH_CURSOR); Tracks(newcomer, Newborn()) && Sane(newcomer)
  {}

  /** Some run of a new stream leads to w. */
  ghost predicate Born(w: World) { exists es :: Reaches(es, w) }

  ghost predicate Reaches(es: seq<Event>, w: World) {
    Legal(Newborn(), es, None) && Run(Newborn(), es, None) == Done(w)
  }

  ghost function Moved(w: World, es: seq<Event>): World
    requires WorldInv(w)
  { if Legal(w, es, None) && Run(w, es, None).Done? then Run(w, es, None).value else w }

  lemma BornOn(w: World, es: seq<Event>, s: TcpStream, reply: Reply<()>)
    requires WorldInv(w) && Born(w) && Ends(w, es, s, reply) && reply.Ok?
    ensures Tracks(s, Moved(w, es)) && Born(Moved(w, es))
  {
    var es0 :| Reaches(es0, w);
    RunAppend(Newborn(), es0, w, es);
    assert Reaches(es0 + es, Moved(w, es));
  }

  lemma NewbornBorn()
    ensures Born(Newborn())
  {
    assert Reaches([], Newborn());
  }

  lemma EndsNoUnderflow(w: World, es: seq<Event>, s: TcpStream, reply: Reply<()>)
    requires WorldInv(w) && Ends(w, es, s, reply)
    ensures reply != Panics(Underflow)
  {
    RunKeeps(w, es, None);
  }

  // ---------------------------------------------------------------- what a history is good for

  /** What the run es of its own makes true of a pooled stream: a borrow shows what the reference queue still holds,
      nothing committed is lost or reordered, and the counters are exactly what is in flight. */
  ghost predicate Exact(s: TcpStream, w: World, es: seq<Event>) {
    && Reaches(es, w)
    && Shows(RxBorrow(w.rx), QueueRun(Queue([], []), es).waiting)
    && w.tx.c.start <= w.tx.c.end <= |w.tx.region|
    && w.tx.committed == w.tx.submitted + w.tx.Pending()
    && s.StreamingHugeTlb? && s.cursor == CursorOf(w)
    && s.cursor.tx.bufs == OpenCount(w.tx.flights) <= MAX_BUFS
    && s.cursor.tx.sends == Unacked(w.tx.flights) <= MAX_SENDS
  }

  lemma BackedExact(s: TcpStream, w: World)
    requires Tracks(s, w) && Born(w)
    ensures exists es :: Exact(s, w, es)
  {
    var es :| Reaches(es, w);
    RingIsFifo(Newborn(), es, None);
    assert QueueOf(Newborn().rx) == Queue([], []);
    assert Exact(s, w, es);
  }

  /** Once the kernel owes nothing, everything committed has been sent, unless the stream is silenced. */
  ghost predicate Delivered(s: Tx) { Drained(s.flights) && !Silenced(s) ==> s.committed == s.submitted }

  lemma IdleDelivers(s: TcpStream, w: World)
    requires Tracks(s, w) && Idle(s)
    ensures Delivered(w.tx)
  {
    if Drained(w.tx.flights) && !Silenced(w.tx) {
      QuietGate(w.tx);
      assert w.tx.Pending() == [];
    }
  }
}
