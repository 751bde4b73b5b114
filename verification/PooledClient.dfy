// The client pool's streams: every completion it handles is a run of one stream too. Unlike the listener it does not
// send when a send completes, so output can stay behind an open gate.

module PooledClient {
  import opened Common
  import opened Receive
  import opened Transmit
  import opened Engine
  import opened Streams
  import opened Histories
  import opened ClientModel

  // ---------------------------------------------------------------- one completion

  /** One callback, one send, and freeing buffers if the submit went well. */
  ghost function AnswerEvents(env: Env, t: nat, s: TcpStream): seq<Event>
    requires Sane(s)
  {
    var es := EventsOf(env.ops(t, s, false));
    match Callback(env, t, s, false)
    case Panicked(_) => es
    case Done(s1) =>
      CallbackKeeps(env, t, s, false);
      var sent := SendOut(s1, env.accepts(t + 1));
      es + ([Send(env.accepts(t + 1))] + if sent.reply.Ok? && env.ok(t + 2) then [Free] else [])
  }

  /** What the callback and the send leave, before buffers are freed. */
  lemma AnswerSends(env: Env, t: nat, s: TcpStream, w: World) returns (w': World)
    requires LayersOk(env) && Tracks(s, w) && Sane(s) && Callback(env, t, s, false).Done?
    ensures var s1 := Callback(env, t, s, false).value;
            && Sane(s1) && !SendOut(s1, env.accepts(t + 1)).reply.Panics?
            && var es := EventsOf(env.ops(t, s, false)) + ([Send(env.accepts(t + 1))] + []);
               Legal(w, es, None) && Run(w, es, None) == Done(w') && Holds(SendOut(s1, env.accepts(t + 1)).stream, w')
               && (SendOut(s1, env.accepts(t + 1)).reply.Ok? ==> Calm(w'))
  {
    hide Ends, Step, SendOut, Callback, EventsOf, Calm, WorldInv;
    CallbackIsRun(env, t, s, false, w);
    CallbackKeeps(env, t, s, false);
    var s1, es, e := Callback(env, t, s, false).value, EventsOf(env.ops(t, s, false)), Send(env.accepts(t + 1));
    var w1 := EndsIn(w, es, s1);
    SendIsStep(s1, w1, env.accepts(t + 1));
    w' := Step(w1, e).value;
    RunCons(w1, e, [], None);
    RunAppend(w, es, w1, [e] + []);
  }

  lemma AnswerIsRun(s: State, k: nat, stream: TcpStream, env: Env, w: World)
    requires k in s.pool && s.pool[k].Stream() == Some(stream) && Sane(stream) && LayersOk(env) && Tracks(stream, w)
    ensures var r := Answer(s, k, stream, env);
            && k in r.state.pool && r.state.pool[k].Stream().Some?
            && Ends(w, AnswerEvents(env, s.t, stream), r.state.pool[k].Stream().value, r.reply)
  {
    hide Ends, Step, SendOut, Callback, EventsOf, Calm, WorldInv, FreeBufs, Legal, Run, LayersOk;
    var es, t := EventsOf(env.ops(s.t, stream, false)), s.t;
    CallbackIsRun(env, t, stream, false, w);
    CallbackKeeps(env, t, stream, false);
    if Callback(env, t, stream, false).Done? {
      var w1 := AnswerSends(env, t, stream, w);
      var sent := SendOut(Callback(env, t, stream, false).value, env.accepts(t + 1));
      var e := Send(env.accepts(t + 1));
      var reply: Reply<()> := if sent.reply.Err? then Err(sent.reply.error)
                              else if env.ok(t + 2) then Ok(()) else Err(Bearer);
      EndsNow(w1, sent.stream, reply);
      EndsAppend(w, es + ([e] + []), w1, [], sent.stream, reply);
      FreeIsStep(w, es + ([e] + []) + [], sent.stream, reply);
      assert es + ([e] + []) + [] + FreeEvents(reply) == AnswerEvents(env, t, stream);
      var done, r := AfterFree(sent.stream, reply), Answer(s, k, stream, env);
      assert r.state.pool[k].Stream() == Some(done.stream) && r.reply == done.reply;
    }
  }

  ghost function RecvEvents(s: TcpStream, dma: seq<byte>, bufId: Option<nat>, bufLen: nat, t: nat, env: Env): seq<Event>
    requires Sane(s)
  {
    var op := OnRecv(s, bufId, bufLen);
    ([Dma(dma)] + ([Recv(bufId, bufLen)] + [])) + if op.reply.Ok? then AnswerEvents(env, t, op.stream) else []
  }

  /** Handling a receive completion that the kernel may report is a run of the stream. */
  lemma RecvIsRun(s: State, k: nat, dma: seq<byte>, bufId: Option<nat>, bufLen: nat, env: Env, w: World)
    requires PoolSane(s) && k in s.pool && s.pool[k].Stream().Some? && LayersOk(env)
    requires Tracks(s.pool[k].Stream().value, w) && MayReport(w.rx, dma, bufId, bufLen)
    ensures var r := OnRecvMulti(s, k, bufId, bufLen, env);
            && k in r.state.pool && r.state.pool[k].Stream().Some?
            && Ends(w, RecvEvents(s.pool[k].Stream().value, dma, bufId, bufLen, s.t, env),
                    r.state.pool[k].Stream().value, r.reply)
  {
    hide Ends, WorldInv, MayReport, Legal, Run, LayersOk, Answer, AnswerEvents;
    var stream := s.pool[k].Stream().value;
    var arrived := [Dma(dma)] + ([Recv(bufId, bufLen)] + []);
    var w1 := ReportIsRun(stream, w, dma, bufId, bufLen);
    var op := OnRecv(stream, bufId, bufLen);
    var s0 := Put(s, k, s.pool[k].With(op.stream));
    if op.reply.Ok? {
      AnswerIsRun(s0, k, op.stream, env, w1);
      var r := Answer(s0, k, op.stream, env);
      EndsAppend(w, arrived, w1, AnswerEvents(env, s.t, op.stream), r.state.pool[k].Stream().value, r.reply);
    } else {
      assert arrived + [] == arrived;
    }
  }

  /** So is a send completion: the acknowledgement, and nothing else. */
  lemma SentIsRun(s: State, k: nat, flight: nat, sentOut: nat, more: bool, w: World)
    requires k in s.pool && s.pool[k].Stream().Some?
    requires Tracks(s.pool[k].Stream().value, w) && CanAck(w.tx, flight, sentOut)
    ensures var r := OnSentZc(s, k, sentOut, more);
            && k in r.state.pool && r.state.pool[k].Stream().Some? && r.reply.Ok?
            && Ends(w, [Ack(flight, sentOut, more)] + [], r.state.pool[k].Stream().value, r.reply)
  {
    hide WorldInv, CanAck, Legal, Run;
    var w1 := AckIsRun(s.pool[k].Stream().value, w, flight, sentOut, more);
  }

  /** A connection that is greeted without error has had its first callback and send. */
  lemma GreetIsRun(s: State, k: nat, env: Env)
    requires LayersOk(env)
    ensures var newcomer := StreamingHugeTlb(k, FRESH_CURSOR);
            var r := Greet(s, k, newcomer, env);
            && (r.reply.Ok? ==> k in r.state.pool && r.state.pool[k].Connected?
                                && Ends(Newborn(), GreetEvents(newcomer, s.t, env), r.state.pool[k].s, Ok(())))
            && r.reply != Panics(Underflow)
  {
    hide SendOut, Callback, Ends, GreetEvents, Newborn, Tracks, LayersOk;
    var newcomer, w := StreamingHugeTlb(k, FRESH_CURSOR), Newborn();
    NewbornTracks(k);
    CallbackNoUnderflow(env, s.t, newcomer, w);
    if Callback(env, s.t, newcomer, false).Done? {
      FirstSendIsRun(env, s.t, newcomer, w);
    }
  }

  // ---------------------------------------------------------------- the whole pool, over whole runs

  /** A completion of the batch, what the kernel wrote into its stream's page before it, and the submission it is
      about; or a send of stream fd that failed, which the collection closure only prints. */
  datatype Arrival = Reported(m: Mixed, dma: seq<byte>, flight: nat) | SendFailed(fd: nat, flight: nat, more: bool)

  /** The counters are right, and every connected slot's stream is where some run of a new stream leads. */
  ghost predicate Backed(s: State, n: nat, ws: map<nat, World>) {
    && ClientInv(s, n) && ws.Keys == StreamSlots(s.pool)
    && forall k :: k in ws ==>
         k in s.pool && s.pool[k].Stream().Some? && Tracks(s.pool[k].Stream().value, ws[k]) && Born(ws[k])
  }

  /** The kernel completes a connect once per slot and reports of a stream only what it did. */
  ghost predicate Honest(s: State, ws: map<nat, World>, a: Arrival) {
    match a
    case Reported(Nothing, _, _) => false
    case Reported(MapConnected(fd, _), _, _) => fd in s.pool && s.pool[fd].Connecting?
    case Reported(MapRecvMulti(fd, bufId, bufLen), dma, _) => fd in ws && MayReport(ws[fd].rx, dma, bufId, bufLen)
    case Reported(MapSentZc(fd, sentOut, _), _, flight) => fd in ws && CanAck(ws[fd].tx, flight, sentOut)
    case SendFailed(fd, flight, _) => fd in ws && CanFail(ws[fd].tx, flight)
  }

  /** What the pool does about it. */
  function Handled(s: State, a: Arrival, hugetlb: bool, env: Env): Result
    requires PoolSane(s)
  { if a.Reported? then Handle(s, a.m, hugetlb, env) else Result(s, Ok(())) }

  ghost function RecvWorlds(s: State, n: nat, ws: map<nat, World>, fd: nat, dma: seq<byte>, bufId: Option<nat>,
                            bufLen: nat, env: Env): map<nat, World>
    requires PoolSane(s) && Backed(s, n, ws) && fd in ws
  { ws[fd := Moved(ws[fd], RecvEvents(s.pool[fd].Stream().value, dma, bufId, bufLen, s.t, env))] }

  /** The worlds after one more event on stream fd. */
  ghost function OneMore(s: State, n: nat, ws: map<nat, World>, fd: nat, e: Event): map<nat, World>
    requires Backed(s, n, ws) && fd in ws
  { ws[fd := Moved(ws[fd], [e] + [])] }

  ghost function ConnectWorlds(s: State, ws: map<nat, World>, fd: nat, result: int, env: Env): map<nat, World> {
    if result != 0 then ws
    else ws[fd := Moved(Newborn(), GreetEvents(StreamingHugeTlb(fd, FRESH_CURSOR), s.t + 3, env))]
  }

  ghost function NextWorlds(s: State, n: nat, ws: map<nat, World>, a: Arrival, env: Env): map<nat, World>
    requires PoolSane(s) && Backed(s, n, ws) && Honest(s, ws, a)
  {
    match a
    case Reported(MapConnected(fd, result), _, _) => ConnectWorlds(s, ws, fd, result, env)
    case Reported(MapRecvMulti(fd, bufId, bufLen), dma, _) => RecvWorlds(s, n, ws, fd, dma, bufId, bufLen, env)
    case Reported(MapSentZc(fd, sentOut, more), _, flight) => OneMore(s, n, ws, fd, Ack(flight, sentOut, more))
    case SendFailed(fd, flight, more) => OneMore(s, n, ws, fd, Fail(flight, more))
  }

  /** All slots but k are as they were; slot k holds a backed stream. */
  lemma BackedPut(s: State, n: nat, ws: map<nat, World>, s': State, k: nat, w: World)
    requires Backed(s, n, ws) && ClientInv(s', n) && k in s.pool && OnlySlot(s.pool, s'.pool, k)
    requires k in s'.pool && s'.pool[k].Stream().Some? && Tracks(s'.pool[k].Stream().value, w) && Born(w)
    ensures Backed(s', n, ws[k := w])
  {
    hide Tracks, Born, ClientInv;
    SlotMoves(s.pool, k, s'.pool[k]);
    assert s'.pool == s.pool[k := s'.pool[k]];
  }

  lemma RecvBacked(s: State, n: nat, ws: map<nat, World>, fd: nat, dma: seq<byte>, bufId: Option<nat>, bufLen: nat,
                   env: Env)
    requires PoolSane(s) && Backed(s, n, ws) && LayersOk(env) && fd in ws && MayReport(ws[fd].rx, dma, bufId, bufLen)
    ensures var r := OnRecvMulti(s, fd, bufId, bufLen, env);
            && r.reply != Panics(Underflow)
            && (r.reply.Ok? ==> Backed(r.state, n, RecvWorlds(s, n, ws, fd, dma, bufId, bufLen, env)))
  {
    hide Ends, LayersOk, Born, WorldInv, OnRecvMulti, RecvEvents, Moved, MayReport, Quiet, Calm, ClientInv;
    var stream := s.pool[fd].Stream().value;
    RecvIsRun(s, fd, dma, bufId, bufLen, env, ws[fd]);
    RecvSettles(s, n, fd, bufId, bufLen, env);
    RecvQuiets(s, fd, bufId, bufLen, env);
    var r, es := OnRecvMulti(s, fd, bufId, bufLen, env), RecvEvents(stream, dma, bufId, bufLen, s.t, env);
    EndsNoUnderflow(ws[fd], es, r.state.pool[fd].Stream().value, r.reply);
    if r.reply.Ok? {
      BornOn(ws[fd], es, r.state.pool[fd].Stream().value, r.reply);
      BackedPut(s, n, ws, r.state, fd, Moved(ws[fd], es));
    }
  }

  lemma SentBacked(s: State, n: nat, ws: map<nat, World>, fd: nat, flight: nat, sentOut: nat, more: bool)
    requires Backed(s, n, ws) && fd in ws && CanAck(ws[fd].tx, flight, sentOut)
    ensures var r := OnSentZc(s, fd, sentOut, more);
            r.reply.Ok? && Backed(r.state, n, OneMore(s, n, ws, fd, Ack(flight, sentOut, more)))
  {
    hide Ends, Born, WorldInv, OnSentZc, Moved, CanAck, Calm, ClientInv;
    SentIsRun(s, fd, flight, sentOut, more, ws[fd]);
    SentSettles(s, n, fd, sentOut, more);
    SentRetires(s, fd, sentOut, more);
    var r, es := OnSentZc(s, fd, sentOut, more), [Ack(flight, sentOut, more)] + [];
    BornOn(ws[fd], es, r.state.pool[fd].Stream().value, r.reply);
    BackedPut(s, n, ws, r.state, fd, Moved(ws[fd], es));
  }

  lemma FailBacked(s: State, n: nat, ws: map<nat, World>, fd: nat, flight: nat, more: bool)
    requires Backed(s, n, ws) && fd in ws && CanFail(ws[fd].tx, flight)
    ensures Backed(s, n, OneMore(s, n, ws, fd, Fail(flight, more)))
  {
    hide Ends, Born, WorldInv, Moved, CanFail, Calm, ClientInv;
    var stream, es := s.pool[fd].Stream().value, [Fail(flight, more)] + [];
    FailIsRun(stream, ws[fd], flight, more);
    BornOn(ws[fd], es, stream, Ok(()));
    BackedPut(s, n, ws, s, fd, Moved(ws[fd], es));
  }

  lemma ConnectBacked(s: State, n: nat, ws: map<nat, World>, fd: nat, result: int, hugetlb: bool, env: Env)
    requires Backed(s, n, ws) && LayersOk(env) && fd in s.pool && s.pool[fd].Connecting?
    ensures var r := OnConnected(s, fd, result, hugetlb, env);
            && r.reply != Panics(Underflow)
            && (r.reply.Ok? ==> Backed(r.state, n, ConnectWorlds(s, ws, fd, result, env)))
  {
    hide Ends, LayersOk, Born, Tracks, Greet, GreetEvents, Newborn, Moved, ClientInv, Idle;
    ConnectedSettles(s, n, fd, result, hugetlb, env);
    ConnectedMoves(s, fd, result, hugetlb, env);
    LeaveConnecting(s, n, fd, ConnectingError(result));
    var r := OnConnected(s, fd, result, hugetlb, env);
    if result != 0 {
      SlotMoves(s.pool, fd, ConnectingError(result));
      assert fd !in StreamSlots(s.pool);
    } else {
      var s1 := s.(connecting := s.connecting - 1, connected := s.connected + 1, t := s.t + 3);
      GreetIsRun(s1, fd, env);
      if r.reply.Ok? {
        var es := GreetEvents(StreamingHugeTlb(fd, FRESH_CURSOR), s.t + 3, env);
        NewbornBorn();
        BornOn(Newborn(), es, r.state.pool[fd].s, Ok(()));
        BackedPut(s, n, ws, r.state, fd, Moved(Newborn(), es));
      }
    }
  }

  lemma HandleBacked(s: State, n: nat, ws: map<nat, World>, a: Arrival, hugetlb: bool, env: Env)
    requires PoolSane(s) && Backed(s, n, ws) && LayersOk(env) && Honest(s, ws, a)
    ensures var r := Handled(s, a, hugetlb, env);
            r.reply != Panics(Underflow) && (r.reply.Ok? ==> Backed(r.state, n, NextWorlds(s, n, ws, a, env)))
  {
    hide LayersOk, OnSentZc, OnRecvMulti, OnConnected, RecvWorlds, OneMore, ConnectWorlds, Backed, PoolSane;
    hide CanAck, CanFail, MayReport, Tracks, Born, ClientInv;
    match a
    case Reported(MapConnected(fd, result), _, _) => ConnectBacked(s, n, ws, fd, result, hugetlb, env);
    case Reported(MapRecvMulti(fd, bufId, bufLen), dma, _) => RecvBacked(s, n, ws, fd, dma, bufId, bufLen, env);
    case Reported(MapSentZc(fd, sentOut, more), _, flight) => SentBacked(s, n, ws, fd, flight, sentOut, more);
    case SendFailed(fd, flight, more) => FailBacked(s, n, ws, fd, flight, more);
  }

  /** The kernel is honest as long as the run lasts. */
  ghost predicate HonestRun(s: State, n: nat, ws: map<nat, World>, arrivals: seq<Arrival>, hugetlb: bool, env: Env)
    requires PoolSane(s) && Backed(s, n, ws) && LayersOk(env)
    decreases |arrivals|
  {
    arrivals == [] ||
    (&& Honest(s, ws, arrivals[0])
     && (HandleBacked(s, n, ws, arrivals[0], hugetlb, env);
         var r := Handled(s, arrivals[0], hugetlb, env);
         r.reply.Ok? ==>
           (BackedSane(r.state, n, NextWorlds(s, n, ws, arrivals[0], env));
            HonestRun(r.state, n, NextWorlds(s, n, ws, arrivals[0], env), arrivals[1..], hugetlb, env))))
  }

  lemma BackedSane(s: State, n: nat, ws: map<nat, World>)
    requires Backed(s, n, ws)
    ensures PoolSane(s)
  {
    SlotsSane(s, n);
  }

  /** What the collection closure makes of them. */
  function Completions(arrivals: seq<Arrival>): seq<Mixed> {
    if arrivals == [] then []
    else if arrivals[0].Reported? then [arrivals[0].m] + Completions(arrivals[1..])
    else Completions(arrivals[1..])
  }

  /** The first arrival, then the rest. */
  lemma DrainHead(s: State, arrivals: seq<Arrival>, hugetlb: bool, env: Env)
    requires PoolSane(s) && arrivals != []
    ensures var r := Handled(s, arrivals[0], hugetlb, env);
            && PoolSane(r.state)
            && Drain(s, Completions(arrivals), hugetlb, env)
            == if r.reply.Ok? then Drain(r.state, Completions(arrivals[1..]), hugetlb, env) else r
  {
    var ms, rest := Completions(arrivals), Completions(arrivals[1..]);
    if arrivals[0].Reported? {
      assert ms[0] == arrivals[0].m && ms[1..] == rest;
      HandleSane(s, ms[0], hugetlb, env);
    }
  }

  lemma HonestHead(s: State, n: nat, ws: map<nat, World>, arrivals: seq<Arrival>, hugetlb: bool, env: Env)
    requires PoolSane(s) && Backed(s, n, ws) && LayersOk(env) && arrivals != []
    requires HonestRun(s, n, ws, arrivals, hugetlb, env)
    ensures Honest(s, ws, arrivals[0])
    ensures var r := Handled(s, arrivals[0], hugetlb, env);
            && r.reply != Panics(Underflow)
            && (r.reply.Ok? ==>
                  && PoolSane(r.state) && Backed(r.state, n, NextWorlds(s, n, ws, arrivals[0], env))
                  && HonestRun(r.state, n, NextWorlds(s, n, ws, arrivals[0], env), arrivals[1..], hugetlb, env))
  {
    hide Handled, NextWorlds, PoolSane, LayersOk;
    HandleBacked(s, n, ws, arrivals[0], hugetlb, env);
    var r := Handled(s, arrivals[0], hugetlb, env);
    if r.reply.Ok? { BackedSane(r.state, n, NextWorlds(s, n, ws, arrivals[0], env)); }
  }

  /** With an honest kernel and layers within their contract, after any sequence of completions handled without error
      every connected stream is where some legal run of a new stream leads; and no completion ever underflows. */
  lemma {:induction false} DrainBacked(s: State, n: nat, ws: map<nat, World>, arrivals: seq<Arrival>,
                                       hugetlb: bool, env: Env)
    returns (ws': map<nat, World>)
    requires PoolSane(s) && Backed(s, n, ws) && LayersOk(env) && HonestRun(s, n, ws, arrivals, hugetlb, env)
    ensures var r := Drain(s, Completions(arrivals), hugetlb, env);
            r.reply != Panics(Underflow) && (r.reply.Ok? ==> Backed(r.state, n, ws'))
    decreases |arrivals|
  {
    hide Backed, PoolSane, HonestRun, LayersOk, Handled, NextWorlds, Honest;
    ws' := ws;
    if arrivals != [] {
      HonestHead(s, n, ws, arrivals, hugetlb, env);
      DrainHead(s, arrivals, hugetlb, env);
      var r := Handled(s, arrivals[0], hugetlb, env);
      if r.reply.Ok? {
        ws' := DrainBacked(r.state, n, NextWorlds(s, n, ws, arrivals[0], env), arrivals[1..], hugetlb, env);
      }
    }
  }

  function Flatten(batches: seq<Batch>): seq<Mixed> {
    if batches == [] then [] else batches[0].bundle + Flatten(batches[1..])
  }

  lemma {:induction false} DrainAppend(s: State, ms: seq<Mixed>, rest: seq<Mixed>, hugetlb: bool, env: Env)
    requires PoolSane(s)
    ensures var r := Drain(s, ms, hugetlb, env);
            && PoolSane(r.state)
            && Drain(s, ms + rest, hugetlb, env) == if r.reply.Ok? then Drain(r.state, rest, hugetlb, env) else r
    decreases |ms|
  {
    hide Handle, PoolSane;
    if ms == [] {
      assert ms + rest == rest;
    } else {
      assert (ms + rest)[1..] == ms[1..] + rest;
      HandleSane(s, ms[0], hugetlb, env);
      var r := Handle(s, ms[0], hugetlb, env);
      if r.reply.Ok? { DrainAppend(r.state, ms[1..], rest, hugetlb, env); }
    }
  }

  /** A run of checks does what one batch of all their completions would do. */
  lemma {:induction false} ServeIsDrain(s: State, batches: seq<Batch>, hugetlb: bool, env: Env)
    requires PoolSane(s)
    ensures Serve(s, batches, hugetlb, env).last == Drain(s, Flatten(batches), hugetlb, env)
    decreases |batches|
  {
    hide PoolSane;
    if batches != [] {
      DrainSane(s, batches[0].bundle, hugetlb, env);
      DrainAppend(s, batches[0].bundle, Flatten(batches[1..]), hugetlb, env);
      var r := Drain(s, batches[0].bundle, hugetlb, env);
      if r.reply.Ok? { ServeIsDrain(r.state, batches[1..], hugetlb, env); }
    }
  }

  /** A pool whose n slots all connect. */
  ghost predicate Opening(s: State, n: nat) {
    PoolSane(s) && Backed(s, n, map[])
  }

  lemma OpenedOpening(s: State, n: nat, opIdx: nat -> nat)
    requires Opened(s.pool, n, opIdx, {}) && s.connecting == n && s.errors == s.connected == 0
    ensures Opening(s, n)
  {
    AllConnecting(s, n, opIdx);
    SlotsSane(s, n);
  }

  /** Over any run of Ok checks from there, with an honest kernel and layers within their contract, every connected
      slot's stream is exact. No run, whatever its outcome, underflows a counter or a length. */
  lemma ServedStreamsAreExact(s: State, n: nat, batches: seq<Batch>, arrivals: seq<Arrival>, hugetlb: bool, env: Env)
    returns (ws: map<nat, World>)
    requires Opening(s, n) && Flatten(batches) == Completions(arrivals) && LayersOk(env)
    requires HonestRun(s, n, map[], arrivals, hugetlb, env)
    ensures var r := Serve(s, batches, hugetlb, env).last;
            && r.reply != Panics(Underflow)
            && (r.reply.Ok? ==>
                  && ClientInv(r.state, n) && ws.Keys == StreamSlots(r.state.pool)
                  && forall k :: k in ws ==>
                       && k in r.state.pool && r.state.pool[k].Stream().Some?
                       && exists es :: Exact(r.state.pool[k].Stream().value, ws[k], es))
  {
    ServeIsDrain(s, batches, hugetlb, env);
    ws := DrainBacked(s, n, map[], arrivals, hugetlb, env);
    var r := Drain(s, Completions(arrivals), hugetlb, env);
    if r.reply.Ok? {
      hide Exact;
      forall k | k in ws ensures exists es :: Exact(r.state.pool[k].Stream().value, ws[k], es) {
        BackedExact(r.state.pool[k].Stream().value, ws[k]);
      }
    }
  }

  // ---------------------------------------------------------------- output behind an open gate

  /** After an Ok send completion the stream has nothing it could send if and only if it had nothing pending or the
      gate is still closed: the pool does not send here. */
  lemma SentIdleIff(s: State, k: nat, sentOut: nat, more: bool)
    requires OnSentZc(s, k, sentOut, more).reply.Ok?
    ensures k in s.pool && s.pool[k].Stream().Some? && s.pool[k].s.StreamingHugeTlb?
    ensures var c, r := s.pool[k].s.cursor.tx, OnSentZc(s, k, sentOut, more);
            && k in r.state.pool && r.state.pool[k].Stream().Some?
            && (Idle(r.state.pool[k].s) <==>
                  c.start == c.end || c.sends > BUF_SIZE + sentOut || c.bufs > if more then 5 else 6)
  {
    SentRetires(s, k, sentOut, more);
  }

  function Zeros(n: nat): seq<byte> { seq(n, _ => 0) }

  /** Everything succeeds. The first callback commits two buffers, every later one a single byte. */
  function Stranding(): Env {
    Env(_ => true, _ => true, _ => 2,
        (t, s, shutdown) => if t == 3 then [WriteBytes(0, Zeros(2 * BUF_SIZE)), SetBoth(0, 2 * BUF_SIZE)]
                            else [WriteBytes(0, [0]), SetBoth(1, 1)])
  }

  const OUT_FLYING := TxCursor(2 * BUF_SIZE, 2 * BUF_SIZE, 2, 2 * BUF_SIZE, 2)

  /** The two buffers are out and a byte waits. */
  const OUT_WAITING := OUT_FLYING.(end := 2 * BUF_SIZE + 1)

  function Slot(rx: RxCursor, tx: TxCursor): ClientSlotCtx {
    ClientSlotCtx.Connected(StreamingHugeTlb(0, StreamCursor(rx, tx)))
  }

  lemma FirstCallback()
    ensures var newcomer := StreamingHugeTlb(0, FRESH_CURSOR);
            Callback(Stranding(), 3, newcomer, false)
            == Done(newcomer.(cursor := newcomer.cursor.(tx := TxCursor(0, 2 * BUF_SIZE, 0, 0, 0))))
  {
    var c, ops := FRESH_CURSOR, [WriteBytes(0, Zeros(2 * BUF_SIZE)), SetBoth(0, 2 * BUF_SIZE)];
    assert Stranding().ops(3, StreamingHugeTlb(0, c), false) == ops;
    var c1 := c.(tx := TxCursor(0, 2 * BUF_SIZE, 0, 0, 0));
    assert ops[1..] == [SetBoth(0, 2 * BUF_SIZE)] && ops[1..][1..] == [];
    assert ApplyOp(c, ops[0]) == Done(c);
    assert ApplyOp(c, ops[1]) == Done(c1);
    assert ApplyOps(c1, []) == Done(c1);
    assert ApplyOps(c, ops[1..]) == Done(c1);
    assert ApplyOps(c, ops) == ApplyOps(c, ops[1..]);
  }

  lemma LaterCallback(t: nat)
    requires t != 3
    ensures var s := StreamingHugeTlb(0, StreamCursor(RxCursor(0, 1, 0), OUT_FLYING));
            Callback(Stranding(), t, s, false) == Done(s.(cursor := s.cursor.(tx := OUT_WAITING)))
  {
    var c, ops := StreamCursor(RxCursor(0, 1, 0), OUT_FLYING), [WriteBytes(0, [0]), SetBoth(1, 1)];
    assert Stranding().ops(t, StreamingHugeTlb(0, c), false) == ops;
    assert ops[1..] == [SetBoth(1, 1)] && ops[1..][1..] == [];
    assert ApplyOp(c, ops[0]) == Done(c);
    assert ApplyOps(c, ops) == ApplyOps(c, ops[1..]);
  }

  /** A pool of one slot that connects. */
  function OneSlot(): State { State(map[0 := Connecting(1)], 1, 0, 0, 0) }

  lemma ConnectSends()
    ensures OnConnected(OneSlot(), 0, 0, true, Stranding())
         == Result(State(map[0 := Slot(RxCursor(0, 0, 0), OUT_FLYING)], 0, 0, 1, 7), Ok(()))
  {
    hide Callback;
    FirstCallback();
    var s1 := StreamingHugeTlb(0, StreamCursor(RxCursor(0, 0, 0), TxCursor(0, 2 * BUF_SIZE, 0, 0, 0)));
    assert SendOut(s1, 2).reply.Ok?;
    assert SendOut(s1, 2).stream == StreamingHugeTlb(0, StreamCursor(RxCursor(0, 0, 0), OUT_FLYING));
    var slot := Slot(RxCursor(0, 0, 0), OUT_FLYING);
    assert map[0 := Connecting(1)][0 := slot] == map[0 := slot];
  }

  lemma ReceiveWaits(s: State)
    requires s == State(map[0 := Slot(RxCursor(0, 0, 0), OUT_FLYING)], 0, 0, 1, 7)
    ensures PoolSane(s) && OnRecvMulti(s, 0, Some(0), 1, Stranding())
         == Result(State(map[0 := Slot(RxCursor(0, 1, 0), OUT_WAITING)], 0, 0, 1, 10), Ok(()))
  {
    hide Callback;
    LaterCallback(7);
    var s1 := StreamingHugeTlb(0, StreamCursor(RxCursor(0, 1, 0), OUT_WAITING));
    assert SendOut(s1, 2) == Op(s1, Ok(0));
    assert FreeBufs(s1).stream == s1 && FreeBufs(s1).reply.Ok?;
  }

  /** Two sends of a full buffer and a byte committed behind them: when both are acknowledged, nothing is in flight and
      the gate is open, and the byte is still there. */
  lemma ByteStranded()
    ensures PoolSane(OneSlot())
    ensures var ms := [MapConnected(0, 0), MapRecvMulti(0, Some(0), 1),
                       MapSentZc(0, BUF_SIZE, false), MapSentZc(0, BUF_SIZE, false)];
            var r := Drain(OneSlot(), ms, true, Stranding());
            && r.reply.Ok? && 0 in r.state.pool
            && r.state.pool[0] == Slot(RxCursor(0, 1, 0), TxCursor(2 * BUF_SIZE, 2 * BUF_SIZE + 1, 2, 0, 0))
            && !Idle(r.state.pool[0].s)
  {
    hide OnConnected, OnRecvMulti, OnSentZc;
    var env := Stranding();
    var m1, m2, m3 := MapConnected(0, 0), MapRecvMulti(0, Some(0), 1), MapSentZc(0, BUF_SIZE, false);
    ConnectSends();
    var s1 := OnConnected(OneSlot(), 0, 0, true, env).state;
    ReceiveWaits(s1);
    var s2 := OnRecvMulti(s1, 0, Some(0), 1, env).state;
    AckWaits(s2, 1);
    var s3 := OnSentZc(s2, 0, BUF_SIZE, false).state;
    AckWaits(s3, 0);
    DrainCons(s3, m3, [], true, env);
    DrainCons(s2, m3, [m3], true, env);
    DrainCons(s1, m2, [m3] + [m3], true, env);
    DrainCons(OneSlot(), m1, [m2] + ([m3] + [m3]), true, env);
    assert [m1] + ([m2] + ([m3] + [m3])) == [m1, m2, m3, m3] && [m3] + [] == [m3];
  }

  lemma AckWaits(s: State, left: nat)
    requires left <= 1
    requires var slot := Slot(RxCursor(0, 1, 0), OUT_WAITING.(sends := (left + 1) * BUF_SIZE, bufs := left + 1));
             s.pool == map[0 := slot]
    ensures var slot := Slot(RxCursor(0, 1, 0), OUT_WAITING.(sends := left * BUF_SIZE, bufs := left));
            OnSentZc(s, 0, BUF_SIZE, false) == Result(s.(pool := map[0 := slot]), Ok(()))
  {}

  lemma DrainCons(s: State, m: Mixed, rest: seq<Mixed>, hugetlb: bool, env: Env)
    requires PoolSane(s)
    ensures var r := Handle(s, m, hugetlb, env);
            && PoolSane(r.state)
            && Drain(s, [m] + rest, hugetlb, env) == if r.reply.Ok? then Drain(r.state, rest, hugetlb, env) else r
  {
    HandleSane(s, m, hugetlb, env);
    assert ([m] + rest)[1..] == rest;
  }
}
