// What the cursor of a pooled stream stands for: every completion the listener handles is a run of that stream's own
// state machine, so what holds of all its runs holds of the server's streams.

module Pooled {
  import opened Common
  import opened Receive
  import opened Transmit
  import opened Engine
  import opened Streams
  import opened Histories
  import opened ListenerModel

  // ---------------------------------------------------------------- the send loop

  ghost function LoopEvents(env: Env, t: nat, s: TcpStream): seq<Event>
    requires Sane(s)
    decreases Gate(s)
  {
    var es := EventsOf(env.ops(t, s, false));
    match Callback(env, t, s, false)
    case Panicked(_) => es
    case Done(s1) =>
      CallbackKeeps(env, t, s, false);
      SendOutKeeps(s1, env.accepts(t));
      var op := SendOut(s1, env.accepts(t));
      es + ([Send(env.accepts(t))] +
            if op.reply.Ok? && op.reply.value != 0 && env.ok(t + 1) then LoopEvents(env, t + 2, op.stream) else [])
  }

  /** The callback and send loop of the listener is a run of the stream. */
  lemma {:induction false} LoopIsRun(env: Env, t: nat, s: TcpStream, w: World)
    requires LayersOk(env) && Tracks(s, w) && Sane(s)
    ensures Ends(w, LoopEvents(env, t, s), SendLoop(env, t, s).stream, SendLoop(env, t, s).reply)
    decreases Gate(s)
  {
    hide Ends, Step, SendOut, Callback, EventsOf, Calm, WorldInv;
    CallbackIsRun(env, t, s, false, w);
    CallbackKeeps(env, t, s, false);
    if Callback(env, t, s, false).Done? {
      var s1 := Callback(env, t, s, false).value;
      var es := EventsOf(env.ops(t, s, false));
      var w1 := EndsIn(w, es, s1);
      SendOutKeeps(s1, env.accepts(t));
      SendIsStep(s1, w1, env.accepts(t));
      var op, e := SendOut(s1, env.accepts(t)), Send(env.accepts(t));
      var w2 := Step(w1, e).value;
      var l := SendLoop(env, t, s);
      if op.reply.Ok? && op.reply.value != 0 && env.ok(t + 1) {
        LoopIsRun(env, t + 2, op.stream, w2);
        var rest := LoopEvents(env, t + 2, op.stream);
        EndsCons(w1, e, rest, l.stream, l.reply);
        EndsAppend(w, es, w1, [e] + rest, l.stream, l.reply);
      } else {
        EndsNow(w2, l.stream, l.reply);
        EndsCons(w1, e, [], l.stream, l.reply);
        EndsAppend(w, es, w1, [e] + [], l.stream, l.reply);
      }
    }
  }

  // ---------------------------------------------------------------- one completion

  ghost function SentEvents(s: TcpStream, flight: nat, sentOut: nat, more: bool, t: nat, env: Env): seq<Event>
    requires Sane(s)
  {
    var op := OnSent(s, sentOut, more);
    var rest := if op.reply.Ok?
                then LoopEvents(env, t, op.stream) + FreeEvents(SendLoop(env, t, op.stream).reply)
                else [];
    ([Ack(flight, sentOut, more)] + []) + rest
  }

  /** Handling a send completion that the kernel may report is a run of the stream. */
  lemma SentIsRun(s: State, k: nat, flight: nat, sentOut: nat, more: bool, env: Env, w: World)
    requires PoolInv(s) && k in s.pool && LayersOk(env)
    requires Tracks(s.pool[k].s, w) && CanAck(w.tx, flight, sentOut)
    ensures var r := OnSentZc(s, k, sentOut, more, env);
            && k in r.state.pool && r.state.pool[k].Accepted?
            && Ends(w, SentEvents(s.pool[k].s, flight, sentOut, more, s.t, env), r.state.pool[k].s, r.reply)
  {
    hide Ends, WorldInv, CanAck, Legal, Run, LayersOk;
    var stream := s.pool[k].s;
    var w1 := AckIsRun(stream, w, flight, sentOut, more);
    var op := OnSent(stream, sentOut, more);
    var l, es := SendLoop(env, s.t, op.stream), LoopEvents(env, s.t, op.stream);
    LoopIsRun(env, s.t, op.stream, w1);
    FreeIsStep(w1, es, l.stream, l.reply);
    var done := AfterFree(l.stream, l.reply);
    EndsAppend(w, [Ack(flight, sentOut, more)] + [], w1, es + FreeEvents(l.reply), done.stream, done.reply);
  }

  ghost function AfterEvents(env: Env, t: nat, s: TcpStream, shutdown: bool): seq<Event>
    requires Sane(s)
  { if shutdown then EventsOf(env.ops(t, s, true)) else LoopEvents(env, t, s) }

  lemma AfterIsRun(env: Env, t: nat, s: TcpStream, shutdown: bool, w: World)
    requires LayersOk(env) && Tracks(s, w) && Sane(s)
    ensures var l := AfterRecv(env, t, s, shutdown); Ends(w, AfterEvents(env, t, s, shutdown), l.stream, l.reply)
  {
    if shutdown { CallbackIsRun(env, t, s, true, w); } else { LoopIsRun(env, t, s, w); }
  }

  /** A receive completion: the kernel writes, the completion reports, the callbacks run, buffers are freed. */
  ghost function RecvEvents(s: TcpStream, dma: seq<byte>, bufId: Option<nat>, bufLen: nat, shutdown: bool,
                            t: nat, env: Env): seq<Event>
    requires Sane(s)
  {
    var op := OnRecv(s, bufId, bufLen);
    var rest := if op.reply.Ok?
                then AfterEvents(env, t, op.stream, shutdown) + FreeEvents(AfterRecv(env, t, op.stream, shutdown).reply)
                else [];
    ([Dma(dma)] + ([Recv(bufId, bufLen)] + [])) + rest
  }

  /** Where it leaves the stream, before a slot whose peer is gone is dropped. */
  function Received(s: TcpStream, bufId: Option<nat>, bufLen: nat, shutdown: bool, t: nat, env: Env): Op<()>
    requires Sane(s)
  {
    var op := OnRecv(s, bufId, bufLen);
    if op.reply.Ok? then
      var l := AfterRecv(env, t, op.stream, shutdown);
      AfterFree(l.stream, l.reply)
    else op
  }

  lemma ReceivedIsRun(s: TcpStream, dma: seq<byte>, bufId: Option<nat>, bufLen: nat, shutdown: bool,
                      t: nat, env: Env, w: World)
    requires Tracks(s, w) && Sane(s) && LayersOk(env) && MayReport(w.rx, dma, bufId, bufLen)
    ensures var op := Received(s, bufId, bufLen, shutdown, t, env);
            Ends(w, RecvEvents(s, dma, bufId, bufLen, shutdown, t, env), op.stream, op.reply)
  {
    hide Ends, WorldInv, MayReport, Legal, Run, LayersOk;
    var arrived := [Dma(dma)] + ([Recv(bufId, bufLen)] + []);
    var w1 := ReportIsRun(s, w, dma, bufId, bufLen);
    var op := OnRecv(s, bufId, bufLen);
    if op.reply.Ok? {
      var l, es := AfterRecv(env, t, op.stream, shutdown), AfterEvents(env, t, op.stream, shutdown);
      AfterIsRun(env, t, op.stream, shutdown, w1);
      FreeIsStep(w1, es, l.stream, l.reply);
      var done := AfterFree(l.stream, l.reply);
      EndsAppend(w, arrived, w1, es + FreeEvents(l.reply), done.stream, done.reply);
    } else {
      assert arrived + [] == arrived;
    }
  }

  /** What the pool makes of it. */
  lemma ReceivedInPool(s: State, k: nat, bufId: Option<nat>, bufLen: nat, shutdown: bool, env: Env)
    requires PoolInv(s) && k in s.pool
    ensures var op := Received(s.pool[k].s, bufId, bufLen, shutdown, s.t, env);
            var r := OnRecvMulti(s, k, bufId, bufLen, shutdown, env);
            if shutdown && op.reply.Ok? then
              k !in r.state.pool && (r.reply.Ok? || r.reply == Panics(UnwrapFailed))
            else
              k in r.state.pool && r.state.pool[k].Accepted? && r.state.pool[k].s == op.stream && r.reply == op.reply
  {
    hide SendLoop, AfterRecv, FreeBuffers;
    var op := OnRecv(s.pool[k].s, bufId, bufLen);
    assert Sane(op.stream);
  }

  /** A connection that is greeted without error has had its first callback and send. */
  lemma GreetIsRun(s: State, fd: nat, env: Env)
    requires LayersOk(env)
    ensures var r, newcomer := Greet(s, fd, env), StreamingHugeTlb(fd, FRESH_CURSOR);
            && (r.reply.Ok? ==> fd in r.state.pool && r.state.pool[fd].Accepted?
                                && Ends(Newborn(), GreetEvents(newcomer, s.t, env), r.state.pool[fd].s, Ok(())))
            && r.reply != Panics(Underflow)
  {
    var newcomer, w := StreamingHugeTlb(fd, FRESH_CURSOR), Newborn();
    hide SendOut, Callback, Ends, GreetEvents, Newborn, Tracks, Sane, LayersOk;
    NewbornTracks(fd);
    CallbackNoUnderflow(env, s.t, newcomer, w);
    if Callback(env, s.t, newcomer, false).Done? {
      FirstSendIsRun(env, s.t, newcomer, w);
    }
  }

  // ---------------------------------------------------------------- the whole pool, over whole runs

  /** A completion of the batch, what the kernel wrote into its stream's page before it, and the submission it is
      about; or a send of stream fd that failed, which the collection closure only prints. */
  datatype Arrival = Reported(m: Mixed, dma: seq<byte>, flight: nat) | SendFailed(fd: nat, flight: nat, more: bool)

  /** Every pooled stream is where some run of a new stream leads. */
  ghost predicate Backed(s: State, ws: map<nat, World>) {
    && PoolInv(s) && RingInv(s) && ws.Keys == s.pool.Keys
    && forall k :: k in s.pool ==> Tracks(s.pool[k].s, ws[k]) && Born(ws[k])
  }

  /** The kernel reports only what it did, and only for streams in the pool. */
  ghost predicate Honest(ws: map<nat, World>, a: Arrival) {
    match a
    case Reported(Nothing, _, _) => false
    case Reported(MapSentZc(fd, sentOut, _), _, flight) => fd in ws && CanAck(ws[fd].tx, flight, sentOut)
    case Reported(MapRecvMulti(fd, bufId, bufLen, _), dma, _) => fd in ws && MayReport(ws[fd].rx, dma, bufId, bufLen)
    case Reported(MapAccepted(_), _, _) => true
    case SendFailed(fd, flight, _) => fd in ws && CanFail(ws[fd].tx, flight)
  }

  ghost function SentWorlds(s: State, ws: map<nat, World>, fd: nat, flight: nat, sentOut: nat, more: bool,
                            env: Env): map<nat, World>
    requires Backed(s, ws) && fd in ws
  { ws[fd := Moved(ws[fd], SentEvents(s.pool[fd].s, flight, sentOut, more, s.t, env))] }

  ghost function RecvWorlds(s: State, ws: map<nat, World>, fd: nat, dma: seq<byte>, bufId: Option<nat>, bufLen: nat,
                            shutdown: bool, env: Env): map<nat, World>
    requires Backed(s, ws) && fd in ws
  {
    if shutdown then ws - {fd}
    else ws[fd := Moved(ws[fd], RecvEvents(s.pool[fd].s, dma, bufId, bufLen, false, s.t, env))]
  }

  ghost function AcceptWorlds(s: State, ws: map<nat, World>, result: int, env: Env): map<nat, World> {
    if result < 0 then ws
    else ws[result := Moved(Newborn(), GreetEvents(StreamingHugeTlb(result, FRESH_CURSOR), s.t + 5, env))]
  }

  ghost function FailWorlds(s: State, ws: map<nat, World>, fd: nat, flight: nat, more: bool): map<nat, World>
    requires Backed(s, ws) && fd in ws
  { ws[fd := Moved(ws[fd], [Fail(flight, more)] + [])] }

  ghost function NextWorlds(s: State, ws: map<nat, World>, a: Arrival, env: Env): map<nat, World>
    requires Backed(s, ws) && Honest(ws, a)
  {
    match a
    case Reported(MapSentZc(fd, sentOut, more), _, flight) => SentWorlds(s, ws, fd, flight, sentOut, more, env)
    case Reported(MapRecvMulti(fd, bufId, bufLen, shutdown), dma, _) =>
      RecvWorlds(s, ws, fd, dma, bufId, bufLen, shutdown, env)
    case Reported(MapAccepted(result), _, _) => AcceptWorlds(s, ws, result, env)
    case SendFailed(fd, flight, more) => FailWorlds(s, ws, fd, flight, more)
  }

  /** All slots but k are as they were; slot k holds a backed stream. */
  lemma BackedPut(s: State, ws: map<nat, World>, s': State, k: nat, w: World)
    requires Backed(s, ws) && PoolInv(s') && RingInv(s')
    requires s'.pool.Keys == s.pool.Keys + {k}
    requires forall j :: j in s.pool && j != k ==> s'.pool[j] == s.pool[j]
    requires Tracks(s'.pool[k].s, w) && Born(w)
    ensures Backed(s', ws[k := w])
  {
    hide Tracks, Born, PoolInv, RingInv;
  }

  lemma SentBacked(s: State, ws: map<nat, World>, fd: nat, flight: nat, sentOut: nat, more: bool, env: Env)
    requires PoolSane(s) && Backed(s, ws) && LayersOk(env) && fd in ws && CanAck(ws[fd].tx, flight, sentOut)
    ensures var r := OnSentZc(s, fd, sentOut, more, env);
            && r.reply != Panics(Underflow)
            && (r.reply.Ok? ==> Backed(r.state, SentWorlds(s, ws, fd, flight, sentOut, more, env)))
  {
    hide Ends, LayersOk, Born, WorldInv, OnSentZc, SentEvents, Moved, CanAck, Quiet, Calm;
    SentIsRun(s, fd, flight, sentOut, more, env, ws[fd]);
    SentZcOwes(s, fd, sentOut, more, env);
    SentZcQuiets(s, fd, sentOut, more, env);
    var r, es := OnSentZc(s, fd, sentOut, more, env), SentEvents(s.pool[fd].s, flight, sentOut, more, s.t, env);
    EndsNoUnderflow(ws[fd], es, r.state.pool[fd].s, r.reply);
    if r.reply.Ok? {
      BornOn(ws[fd], es, r.state.pool[fd].s, r.reply);
      BackedPut(s, ws, r.state, fd, Moved(ws[fd], es));
    }
  }

  lemma RecvBacked(s: State, ws: map<nat, World>, fd: nat, dma: seq<byte>, bufId: Option<nat>, bufLen: nat,
                   shutdown: bool, env: Env)
    requires PoolSane(s) && Backed(s, ws) && LayersOk(env) && fd in ws && MayReport(ws[fd].rx, dma, bufId, bufLen)
    ensures var r := OnRecvMulti(s, fd, bufId, bufLen, shutdown, env);
            && r.reply != Panics(Underflow)
            && (r.reply.Ok? ==> Backed(r.state, RecvWorlds(s, ws, fd, dma, bufId, bufLen, shutdown, env)))
  {
    hide Ends, LayersOk, Born, WorldInv, OnRecvMulti, RecvEvents, Received, Moved, MayReport, Quiet, Calm;
    ReceivedIsRun(s.pool[fd].s, dma, bufId, bufLen, shutdown, s.t, env, ws[fd]);
    ReceivedInPool(s, fd, bufId, bufLen, shutdown, env);
    RecvOwes(s, fd, bufId, bufLen, shutdown, env);
    RecvQuiets(s, fd, bufId, bufLen, shutdown, env);
    var op := Received(s.pool[fd].s, bufId, bufLen, shutdown, s.t, env);
    var es := RecvEvents(s.pool[fd].s, dma, bufId, bufLen, shutdown, s.t, env);
    EndsNoUnderflow(ws[fd], es, op.stream, op.reply);
    var r := OnRecvMulti(s, fd, bufId, bufLen, shutdown, env);
    if r.reply.Ok? && !shutdown {
      BornOn(ws[fd], es, op.stream, op.reply);
      BackedPut(s, ws, r.state, fd, Moved(ws[fd], es));
    }
  }

  lemma AcceptBacked(s: State, ws: map<nat, World>, result: int, hugetlb: bool, env: Env)
    requires Backed(s, ws) && LayersOk(env)
    ensures var r := OnAccepted(s, result, hugetlb, env);
            && r.reply != Panics(Underflow)
            && (r.reply.Ok? ==> Backed(r.state, AcceptWorlds(s, ws, result, env)))
  {
    hide Ends, LayersOk, Born, WorldInv, Greet, GreetEvents, Newborn, Moved;
    AcceptedOwes(s, result, hugetlb, env);
    AcceptedLeaves(s, result, hugetlb, env);
    var r := OnAccepted(s, result, hugetlb, env);
    if result >= 0 {
      var s1 := s.(rings := s.rings + {result}, t := s.t + 5);
      GreetIsRun(s1, result, env);
      if r.reply.Ok? {
        var es := GreetEvents(StreamingHugeTlb(result, FRESH_CURSOR), s.t + 5, env);
        NewbornBorn();
        BornOn(Newborn(), es, r.state.pool[result].s, Ok(()));
        BackedPut(s, ws, r.state, result, Moved(Newborn(), es));
      }
    }
  }

  lemma FailBacked(s: State, ws: map<nat, World>, fd: nat, flight: nat, more: bool)
    requires Backed(s, ws) && fd in ws && CanFail(ws[fd].tx, flight)
    ensures Backed(s, FailWorlds(s, ws, fd, flight, more))
  {
    hide Ends, Born, WorldInv, Moved, Calm, CanFail;
    FailIsRun(s.pool[fd].s, ws[fd], flight, more);
    BornOn(ws[fd], [Fail(flight, more)] + [], s.pool[fd].s, Ok(()));
    BackedPut(s, ws, s, fd, Moved(ws[fd], [Fail(flight, more)] + []));
  }

  /** What the listener does about it. */
  function Handled(s: State, a: Arrival, hugetlb: bool, env: Env): Result
    requires PoolSane(s)
  { if a.Reported? then Handle(s, a.m, hugetlb, env) else Result(s, Ok(())) }

  lemma HandleBacked(s: State, ws: map<nat, World>, a: Arrival, hugetlb: bool, env: Env)
    requires Backed(s, ws) && LayersOk(env) && Honest(ws, a)
    ensures var r := Handled(s, a, hugetlb, env);
            r.reply != Panics(Underflow) && (r.reply.Ok? ==> Backed(r.state, NextWorlds(s, ws, a, env)))
  {
    hide LayersOk, OnSentZc, OnRecvMulti, OnAccepted, SentWorlds, RecvWorlds, AcceptWorlds, FailWorlds;
    hide CanAck, CanFail, MayReport, Tracks, Born;
    match a
    case Reported(MapSentZc(fd, sentOut, more), _, flight) => SentBacked(s, ws, fd, flight, sentOut, more, env);
    case Reported(MapRecvMulti(fd, bufId, bufLen, shutdown), dma, _) =>
      RecvBacked(s, ws, fd, dma, bufId, bufLen, shutdown, env);
    case Reported(MapAccepted(result), _, _) => AcceptBacked(s, ws, result, hugetlb, env);
    case SendFailed(fd, flight, more) => FailBacked(s, ws, fd, flight, more);
  }

  /** The kernel is honest as long as the run lasts. */
  ghost predicate HonestRun(s: State, ws: map<nat, World>, arrivals: seq<Arrival>, hugetlb: bool, env: Env)
    requires Backed(s, ws) && LayersOk(env)
    decreases |arrivals|
  {
    arrivals == [] ||
    (&& Honest(ws, arrivals[0])
     && (HandleBacked(s, ws, arrivals[0], hugetlb, env);
         var r := Handled(s, arrivals[0], hugetlb, env);
         r.reply.Ok? ==> HonestRun(r.state, NextWorlds(s, ws, arrivals[0], env), arrivals[1..], hugetlb, env)))
  }

  /** What the collection closure makes of them. */
  function Completions(arrivals: seq<Arrival>): seq<Mixed> {
    if arrivals == [] then []
    else if arrivals[0].Reported? then [arrivals[0].m] + Completions(arrivals[1..])
    else Completions(arrivals[1..])
  }

  ghost predicate AllSome(ms: seq<Mixed>) { forall i :: 0 <= i < |ms| ==> !ms[i].Nothing? }

  /** The first arrival, then the rest. */
  lemma DrainHead(s: State, arrivals: seq<Arrival>, hugetlb: bool, env: Env)
    requires PoolInv(s) && RingInv(s) && arrivals != [] && AllSome(Completions(arrivals))
    ensures AllSome(Completions(arrivals[1..]))
    ensures var r := Handled(s, arrivals[0], hugetlb, env);
            && (r.reply.Ok? ==> PoolInv(r.state) && RingInv(r.state))
            && Drain(s, Completions(arrivals), hugetlb, env)
            == if r.reply.Ok? then Drain(r.state, Completions(arrivals[1..]), hugetlb, env) else r
  {
    var ms, rest := Completions(arrivals), Completions(arrivals[1..]);
    if arrivals[0].Reported? {
      assert ms[0] == arrivals[0].m && ms[1..] == rest;
      HandleOwes(s, ms[0], hugetlb, env);
      hide Handle, PoolInv, RingInv, Completions;
      forall i | 0 <= i < |rest| ensures !rest[i].Nothing? {
        assert rest[i] == ms[i + 1];
      }
    }
  }

  /** With an honest kernel and layers within their contract, after any sequence of completions handled without error
      every pooled stream is where some legal run of a new stream leads; and no completion ever underflows. */
  lemma {:induction false} DrainBacked(s: State, ws: map<nat, World>, arrivals: seq<Arrival>, hugetlb: bool, env: Env)
    returns (ws': map<nat, World>)
    requires Backed(s, ws) && LayersOk(env) && HonestRun(s, ws, arrivals, hugetlb, env)
    requires AllSome(Completions(arrivals))
    ensures var r := Drain(s, Completions(arrivals), hugetlb, env);
            r.reply != Panics(Underflow) && (r.reply.Ok? ==> Backed(r.state, ws'))
    decreases |arrivals|
  {
    hide Backed, PoolInv, RingInv, HonestRun, LayersOk, Handled, NextWorlds, Honest;
    ws' := ws;
    if arrivals != [] {
      HonestHead(s, ws, arrivals, hugetlb, env);
      DrainHead(s, arrivals, hugetlb, env);
      var r := Handled(s, arrivals[0], hugetlb, env);
      hide Completions, Drain, AllSome;
      if r.reply.Ok? {
        ws' := DrainBacked(r.state, NextWorlds(s, ws, arrivals[0], env), arrivals[1..], hugetlb, env);
      }
    }
  }

  lemma HonestHead(s: State, ws: map<nat, World>, arrivals: seq<Arrival>, hugetlb: bool, env: Env)
    requires Backed(s, ws) && LayersOk(env) && arrivals != [] && HonestRun(s, ws, arrivals, hugetlb, env)
    ensures PoolInv(s) && RingInv(s) && Honest(ws, arrivals[0])
    ensures var r := Handled(s, arrivals[0], hugetlb, env);
            && r.reply != Panics(Underflow)
            && (r.reply.Ok? ==>
                  && Backed(r.state, NextWorlds(s, ws, arrivals[0], env))
                  && HonestRun(r.state, NextWorlds(s, ws, arrivals[0], env), arrivals[1..], hugetlb, env))
  {
    HandleBacked(s, ws, arrivals[0], hugetlb, env);
  }

  function Flatten(batches: seq<seq<Mixed>>): seq<Mixed> {
    if batches == [] then [] else batches[0] + Flatten(batches[1..])
  }

  lemma {:induction false} DrainAppend(s: State, ms: seq<Mixed>, rest: seq<Mixed>, hugetlb: bool, env: Env)
    requires PoolInv(s) && RingInv(s) && AllSome(ms) && AllSome(rest)
    ensures AllSome(ms + rest)
    ensures var r := Drain(s, ms, hugetlb, env);
            && (r.reply.Ok? ==> PoolInv(r.state) && RingInv(r.state))
            && Drain(s, ms + rest, hugetlb, env) == if r.reply.Ok? then Drain(r.state, rest, hugetlb, env) else r
    decreases |ms|
  {
    if ms == [] {
      assert ms + rest == rest;
    } else {
      assert (ms + rest)[1..] == ms[1..] + rest;
      HandleOwes(s, ms[0], hugetlb, env);
      var r := Handle(s, ms[0], hugetlb, env);
      hide Handle, PoolInv, RingInv;
      if r.reply.Ok? { DrainAppend(r.state, ms[1..], rest, hugetlb, env); }
    }
  }

  /** A run of checks does what one batch of all their completions would do. */
  lemma {:induction false} ServeIsDrain(s: State, batches: seq<seq<Mixed>>, hugetlb: bool, env: Env)
    requires PoolInv(s) && RingInv(s) && NoNothing(batches)
    ensures AllSome(Flatten(batches)) && Serve(s, batches, hugetlb, env) == Drain(s, Flatten(batches), hugetlb, env)
    decreases |batches|
  {
    if batches != [] {
      var rest := batches[1..];
      assert NoNothing(rest) by {
        forall i, j | 0 <= i < |rest| && 0 <= j < |rest[i]| ensures !rest[i][j].Nothing? {
          assert rest[i] == batches[i + 1];
        }
      }
      DrainOwes(s, batches[0], hugetlb, env);
      ServeIsDrain(s, rest, hugetlb, env);
      DrainAppend(s, batches[0], Flatten(rest), hugetlb, env);
      var r := Drain(s, batches[0], hugetlb, env);
      if r.reply.Ok? { ServeIsDrain(r.state, rest, hugetlb, env); }
    }
  }

  // ---------------------------------------------------------------- nothing is left behind an open gate

  /** No pooled stream has anything it could send. */
  ghost predicate AllIdle(s: State) {
    forall k :: k in s.pool ==> s.pool[k].Accepted? && Idle(s.pool[k].s)
  }

  lemma HandleIdle(s: State, m: Mixed, hugetlb: bool, env: Env)
    requires PoolInv(s) && RingInv(s) && AllIdle(s) && !m.Nothing? && Handle(s, m, hugetlb, env).reply.Ok?
    ensures AllIdle(Handle(s, m, hugetlb, env).state)
  {
    hide OnSentZc, OnRecvMulti, OnAccepted, Idle, Sane;
    HandleOwes(s, m, hugetlb, env);
    match m
    case MapSentZc(fd, sentOut, more) => SentZcQuiets(s, fd, sentOut, more, env);
    case MapRecvMulti(fd, bufId, bufLen, shutdown) => RecvQuiets(s, fd, bufId, bufLen, shutdown, env);
    case MapAccepted(result) => AcceptedLeaves(s, result, hugetlb, env);
  }

  lemma {:induction false} DrainIdle(s: State, ms: seq<Mixed>, hugetlb: bool, env: Env)
    requires PoolInv(s) && RingInv(s) && AllSome(ms) && AllIdle(s)
    ensures Drain(s, ms, hugetlb, env).reply.Ok? ==> AllIdle(Drain(s, ms, hugetlb, env).state)
    decreases |ms|
  {
    hide Handle, PoolInv, RingInv, AllIdle, PoolSane;
    if ms != [] {
      InvSane(s);
      HandleOwes(s, ms[0], hugetlb, env);
      var r := Handle(s, ms[0], hugetlb, env);
      if r.reply.Ok? {
        OwesKeeps(s, r, Lost(ms[0]), env);
        HandleIdle(s, ms[0], hugetlb, env);
        DrainIdle(r.state, ms[1..], hugetlb, env);
      }
    }
  }

  lemma InvSane(s: State)
    requires PoolInv(s)
    ensures PoolSane(s)
  {}

  lemma OwesKeeps(s: State, r: Result, lost: int, env: Env)
    requires Owes(s, r, lost, env)
    ensures PoolInv(r.state) && RingInv(r.state)
  {}

  /** A listener that has just replenished its accepts. */
  ghost function Replenished(replCc: nat, t: nat): (s: State)
    ensures Backed(s, map[]) && AllIdle(s)
  { State(map[], {}, replCc, t) }

  /** Over any run of Ok checks from there, with an honest kernel and layers within their contract, every pooled stream
      is exact, idle, and delivered once the kernel owes nothing, unless it is silenced. No run, whatever its outcome,
      underflows a counter or a length. */
  lemma ServedStreamsAreExact(replCc: nat, t: nat, batches: seq<seq<Mixed>>, arrivals: seq<Arrival>,
                              hugetlb: bool, env: Env)
    returns (ws: map<nat, World>)
    requires NoNothing(batches) && Flatten(batches) == Completions(arrivals) && LayersOk(env)
    requires HonestRun(Replenished(replCc, t), map[], arrivals, hugetlb, env)
    ensures var r := Serve(Replenished(replCc, t), batches, hugetlb, env);
            && r.reply != Panics(Underflow)
            && (r.reply.Ok? ==>
                  && ws.Keys == r.state.pool.Keys
                  && forall k :: k in r.state.pool ==>
                       && r.state.pool[k].Accepted? && Idle(r.state.pool[k].s)
                       && Delivered(ws[k].tx) && exists es :: Exact(r.state.pool[k].s, ws[k], es))
  {
    var s := Replenished(replCc, t);
    ServeIsDrain(s, batches, hugetlb, env);
    ws := DrainBacked(s, map[], arrivals, hugetlb, env);
    DrainIdle(s, Completions(arrivals), hugetlb, env);
    var r := Drain(s, Completions(arrivals), hugetlb, env);
    if r.reply.Ok? {
      hide Exact, Delivered;
      forall k | k in r.state.pool
        ensures Delivered(ws[k].tx) && exists es :: Exact(r.state.pool[k].s, ws[k], es)
      {
        IdleDelivers(r.state.pool[k].s, ws[k]);
        BackedExact(r.state.pool[k].s, ws[k]);
      }
    }
  }
}
