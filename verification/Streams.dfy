// TcpStream as the pools hold it: a value owned by its slot, driven by completions and callbacks.

module Streams {
  import opened Common
  import opened Receive
  import opened Transmit
  import opened Engine

  datatype TcpStream = Connected(fixedFd: nat) | StreamingHugeTlb(fixedFd: nat, cursor: StreamCursor)

  /** An operation on a stream leaves it changed even when it fails. */
  datatype Op<+T> = Op(stream: TcpStream, reply: Reply<T>)

  // ---------------------------------------------------------------- the environment

  /** What a callback does to the stream it is lent: run_blueprints reaches it only through these. */
  datatype LayerOp = BorrowBufs | WriteBytes(off: nat, output: seq<byte>) | SetBoth(newIn: nat, newOut: nat)

  /** Every choice of the world, indexed by a clock that ticks at each foreign call:
      ok - the call succeeds; accepts - how many submissions the ring takes; ops - what the callback does. */
  datatype Env = Env(ok: nat -> bool, unregisters: nat -> bool, accepts: nat -> nat,
                     ops: (nat, TcpStream, bool) -> seq<LayerOp>)

  function ApplyOp(c: StreamCursor, op: LayerOp): Outcome<StreamCursor> {
    match op
    case BorrowBufs => Done(c.(rx := Revolve(c.rx)))
    case WriteBytes(off, output) =>
      if c.tx.idx * BUF_SIZE + off + |output| > REGION then Panicked(SliceOutOfRange) else Done(c)
    case SetBoth(newIn, newOut) => SetLeftLens(c, newIn, newOut)
  }

  function ApplyOps(c: StreamCursor, ops: seq<LayerOp>): Outcome<StreamCursor>
    decreases |ops|
  {
    if ops == [] then Done(c)
    else match ApplyOp(c, ops[0])
      case Done(c') => ApplyOps(c', ops[1..])
      case Panicked(why) => Panicked(why)
  }

  /** On a Connected stream run_blueprints only returns an error to the callback. */
  function Callback(env: Env, t: nat, s: TcpStream, shutdown: bool): Outcome<TcpStream> {
    match s
    case Connected(_) => Done(s)
    case StreamingHugeTlb(fd, c) =>
      match ApplyOps(c, env.ops(t, s, shutdown))
      case Done(c') => Done(StreamingHugeTlb(fd, c'))
      case Panicked(why) => Panicked(why)
  }

  // ---------------------------------------------------------------- the stream's own operations

  function SlotU16(fd: nat): Reply<nat> { SlotU16FromFixedFd(Some(fd)) }

  predicate Sane(s: TcpStream) { s.StreamingHugeTlb? ==> SaneTx(s.cursor.tx) }

  function StartRecv(s: TcpStream, ringOk: bool): Reply<()> {
    if s.Connected? then Err(BpNeedBuffers)
    else match SlotU16(s.fixedFd)
      case Ok(_) => if ringOk then Ok(()) else Err(Bearer)
      case Err(e) => Err(e)
      case Panics(why) => Panics(why)
  }

  function OnRecv(s: TcpStream, bufId: Option<nat>, bufLen: nat): Op<()> {
    if s.Connected? then Op(s, Err(BpNeedBuffers))
    else match RecvMulti(s.cursor.rx, bufId, bufLen)
      case Done(rx) => Op(s.(cursor := s.cursor.(rx := rx)), Ok(()))
      case Panicked(why) => Op(s, Panics(why))
  }

  function OnSent(s: TcpStream, sentOut: nat, more: bool): Op<()> {
    if s.Connected? then Op(s, Err(BpNeedBuffers))
    else match SentZc(s.cursor.tx, sentOut, more)
      case Done(tx) => Op(s.(cursor := s.cursor.(tx := tx)), Ok(()))
      case Panicked(why) => Op(s, Panics(why))
  }

  function SendOut(s: TcpStream, accepts: nat): Op<nat>
    requires Sane(s)
  {
    if s.Connected? then Op(s, Err(BpNeedBuffers))
    else if s.cursor.tx.end < s.cursor.tx.start then Op(s, Panics(Underflow))
    else
      var r := SendAllOut(s.cursor.tx, accepts);
      Op(s.(cursor := s.cursor.(tx := r.c)), match r.chunks case Some(n) => Ok(n) case None => Err(Bearer))
  }

  function FreeBufs(s: TcpStream): Op<()> {
    if s.Connected? then Op(s, Err(BpNeedBuffers))
    else match FreeBuffers(s.cursor.rx)
      case Done(f) => Op(s.(cursor := s.cursor.(rx := f.c)), Ok(()))
      case Panicked(why) => Op(s, Panics(why))
  }

  /** Returning buffers panics. */
  predicate FreeFails(s: TcpStream) {
    && s.StreamingHugeTlb? && !WrapsRecycling(s.cursor.rx)
    && s.cursor.rx.reused > s.cursor.rx.start / BUF_SIZE
  }

  // ---------------------------------------------------------------- what every operation keeps

  predicate SameStream(s: TcpStream, s': TcpStream) {
    s'.fixedFd == s.fixedFd && (s.StreamingHugeTlb? <==> s'.StreamingHugeTlb?)
  }

  /** Panics that start inside a stream, as opposed to the pool's own todo!() and unreachable!(). */
  predicate StreamPanic(why: Panic) { why != Unreachable && why != ToDo }

  /** A callback can neither retire nor start a send, whatever it does. */
  lemma {:induction false} OpsKeep(c: StreamCursor, ops: seq<LayerOp>)
    requires SaneTx(c.tx)
    ensures match ApplyOps(c, ops)
            case Done(c') => SaneTx(c'.tx) && c'.tx.bufs == c.tx.bufs && c'.tx.sends == c.tx.sends
            case Panicked(why) => StreamPanic(why)
    decreases |ops|
  {
    if ops != [] && ApplyOp(c, ops[0]).Done? {
      OpsKeep(ApplyOp(c, ops[0]).value, ops[1..]);
    }
  }

  lemma CallbackKeeps(env: Env, t: nat, s: TcpStream, shutdown: bool)
    requires Sane(s)
    ensures match Callback(env, t, s, shutdown)
            case Done(s') => SameStream(s, s') && Sane(s') && Bufs(s') == Bufs(s)
            case Panicked(why) => StreamPanic(why)
  {
    if s.StreamingHugeTlb? { OpsKeep(s.cursor, env.ops(t, s, shutdown)); }
  }

  function Bufs(s: TcpStream): nat { if s.Connected? then 0 else s.cursor.tx.bufs }

  /** Nothing more can be sent now: the out region is empty or too much is in flight. */
  predicate Idle(s: TcpStream) {
    s.StreamingHugeTlb? ==> s.cursor.tx.start == s.cursor.tx.end || Throttled(s.cursor.tx)
  }

  /** Idle, and the cursor counts every wholly consumed buffer of this lap as returned. */
  predicate Quiet(s: TcpStream) {
    Idle(s) && (s.StreamingHugeTlb? ==> s.cursor.rx.reused == s.cursor.rx.start / BUF_SIZE)
  }

  lemma FreeBufsQuiets(s: TcpStream)
    requires Idle(s) && FreeBufs(s).reply.Ok?
    ensures Quiet(FreeBufs(s).stream)
  {}

  lemma SendOutKeeps(s: TcpStream, accepts: nat)
    requires Sane(s)
    ensures var op := SendOut(s, accepts);
            && SameStream(s, op.stream) && Sane(op.stream)
            && (op.reply.Panics? ==> StreamPanic(op.reply.why))
            && (op.reply.Ok? && op.reply.value != 0 ==> Bufs(s) <= 5 && Bufs(op.stream) >= Bufs(s) + 1)
            && (op.reply.Ok? ==> Idle(op.stream))
  {
    if s.StreamingHugeTlb? && s.cursor.tx.start <= s.cursor.tx.end {
      SendShape(s.cursor.tx, accepts);
    }
  }

  /** The ring takes fewer submissions than the pending output needs, and the gate is open. */
  predicate Refused(c: TxCursor, accepts: nat) {
    c.start < c.end && !Throttled(c) && accepts * BUF_SIZE < c.end - c.start
  }

  /** The reply of a send for every stream and ring: an error without huge pages, an underflow when the end lies before
      the start, an error when the ring refuses, else the number of new submissions; and how many there are. */
  lemma SendOutReply(s: TcpStream, accepts: nat)
    requires Sane(s)
    ensures var op := SendOut(s, accepts);
            && (s.Connected? ==> op == Op(s, Err(BpNeedBuffers)))
            && (s.StreamingHugeTlb? ==>
                  var c := s.cursor.tx;
                  && (op.reply == Panics(Underflow) <==> c.end < c.start)
                  && (op.reply == Err(Bearer) <==> Refused(c, accepts))
                  && (op.reply.Ok? <==> c.start <= c.end && !Refused(c, accepts))
                  && (op.reply.Ok? ==>
                        && Bufs(op.stream) == Bufs(s) + op.reply.value
                        && (op.reply.value == 0 <==> Idle(s))
                        && (op.reply.value > 0 ==> op.reply.value == CeilDiv(c.end - c.start)))
                  && (Refused(c, accepts) ==> Bufs(op.stream) == Bufs(s) + accepts))
  {
    if s.StreamingHugeTlb? && s.cursor.tx.start <= s.cursor.tx.end { SendShape(s.cursor.tx, accepts); }
  }

  // ---------------------------------------------------------------- greeting a new connection

  /** What the first callback makes of a new stream on descriptor fd. */
  function Greeted(fd: nat, t: nat, env: Env): Outcome<TcpStream> {
    Callback(env, t, StreamingHugeTlb(fd, FRESH_CURSOR), false)
  }

  /** The first callback, the receive request and the first send go well: the stream is stored. */
  ghost predicate Stored(fd: nat, t: nat, env: Env) {
    && Greeted(fd, t, env).Done? && Sane(Greeted(fd, t, env).value)
    && env.ok(t + 1)
    && Greeted(fd, t, env).value.StreamingHugeTlb?
    && var c := Greeted(fd, t, env).value.cursor.tx;
       c.start <= c.end && !Refused(c, env.accepts(t + 2))
  }

  /** And the submit. */
  ghost predicate Greets(fd: nat, t: nat, env: Env) { Stored(fd, t, env) && env.ok(t + 3) }

  /** The stream as callback and send leave it. */
  ghost function StoredStream(fd: nat, t: nat, env: Env): TcpStream
    requires Stored(fd, t, env)
  { SendOut(Greeted(fd, t, env).value, env.accepts(t + 2)).stream }

  /** The reply of a greeting that does not come to Ok. */
  ghost predicate GreetFails(fd: nat, t: nat, env: Env, reply: Reply<()>) {
    match Greeted(fd, t, env)
    case Panicked(why) => reply == Panics(why)
    case Done(s1) =>
      if env.ok(t + 1) && s1.StreamingHugeTlb? && s1.cursor.tx.end < s1.cursor.tx.start then reply == Panics(Underflow)
      else reply == Err(Bearer)
  }

  // ---------------------------------------------------------------- the callback and send loop

  /** t: the clock afterwards; calls: how often the callback ran. */
  datatype Loop = Loop(stream: TcpStream, t: nat, calls: nat, reply: Reply<()>)

  /** How many more sends the buffer gate lets through. */
  function Gate(s: TcpStream): nat { if Bufs(s) < 6 then 6 - Bufs(s) else 0 }

  /** The inner loop of TcpListener::check. */
  function SendLoop(env: Env, t: nat, s: TcpStream): Loop
    requires Sane(s)
    decreases Gate(s)
  {
    match Callback(env, t, s, false)
    case Panicked(why) => Loop(s, t + 1, 1, Panics(why))
    case Done(s1) =>
      CallbackKeeps(env, t, s, false);
      SendOutKeeps(s1, env.accepts(t));
      var op := SendOut(s1, env.accepts(t));
      match op.reply
      case Err(e) => Loop(op.stream, t + 1, 1, Err(e))
      case Panics(why) => Loop(op.stream, t + 1, 1, Panics(why))
      case Ok(n) =>
        if n == 0 then Loop(op.stream, t + 1, 1, Ok(()))
        else if !env.ok(t + 1) then Loop(op.stream, t + 2, 1, Err(Bearer))
        else
          var rest := SendLoop(env, t + 2, op.stream);
          rest.(calls := rest.calls + 1)
  }

  /** The stream before callback number i, if the loop gets that far. */
  function Before(env: Env, t: nat, s: TcpStream, i: nat): (r: TcpStream)
    requires Sane(s)
    ensures Sane(r)
    decreases i
  {
    if i == 0 then s
    else
      var s0 := Before(env, t, s, i - 1);
      match Callback(env, t + 2 * (i - 1), s0, false)
      case Panicked(_) => s0
      case Done(s1) =>
        CallbackKeeps(env, t + 2 * (i - 1), s0, false);
        SendOutKeeps(s1, env.accepts(t + 2 * (i - 1)));
        SendOut(s1, env.accepts(t + 2 * (i - 1))).stream
  }

  /** A round after which the loop goes on: the callback returns, there is output to send and the gate is open, the ring
      takes all of it, and the submit succeeds. */
  predicate GoesOn(env: Env, t: nat, s: TcpStream) {
    && Callback(env, t, s, false).Done?
    && var s1 := Callback(env, t, s, false).value;
       && s1.StreamingHugeTlb? && s1.cursor.tx.start < s1.cursor.tx.end && !Throttled(s1.cursor.tx)
       && !Refused(s1.cursor.tx, env.accepts(t)) && env.ok(t + 1)
  }

  /** A round that ends the loop well: the callback returns, and there is nothing to send or the gate is closed. */
  predicate Rests(env: Env, t: nat, s: TcpStream) {
    && Callback(env, t, s, false).Done?
    && var s1 := Callback(env, t, s, false).value;
       s1.StreamingHugeTlb? && s1.cursor.tx.start <= s1.cursor.tx.end && Idle(s1)
  }

  /** The reply of a round after which the loop does not go on. */
  ghost predicate EndsRound(env: Env, t: nat, s: TcpStream, reply: Reply<()>) {
    var cb := Callback(env, t, s, false);
    && (reply.Ok? <==> Rests(env, t, s))
    && (cb.Panicked? ==> reply == Panics(cb.why))
    && (cb.Done? && cb.value.Connected? ==> reply == Err(BpNeedBuffers))
    && (cb.Done? && cb.value.StreamingHugeTlb? ==>
          && (cb.value.cursor.tx.end < cb.value.cursor.tx.start <==> reply == Panics(Underflow))
          && (cb.value.cursor.tx.start <= cb.value.cursor.tx.end && !Idle(cb.value) ==> reply == Err(Bearer)))
  }

  /** Which rounds a loop has, the reply of its last, and the stream it leaves. */
  ghost predicate LoopEnds(env: Env, t: nat, s: TcpStream, l: Loop)
    requires Sane(s)
  {
    && l.calls > 0
    && (forall i :: 0 <= i < l.calls - 1 ==> GoesOn(env, t + 2 * i, Before(env, t, s, i)))
    && var n := l.calls - 1;
       && !GoesOn(env, t + 2 * n, Before(env, t, s, n))
       && EndsRound(env, t + 2 * n, Before(env, t, s, n), l.reply)
       && l.stream == Before(env, t, s, l.calls)
       && (l.reply.Ok? ==> l.t == t + 2 * n + 1)
  }

  lemma {:induction false} BeforeNext(env: Env, t: nat, s: TcpStream, i: nat)
    requires Sane(s) && Sane(Before(env, t, s, 1))
    ensures Before(env, t, s, i + 1) == Before(env, t + 2, Before(env, t, s, 1), i)
  {
    if i > 0 { BeforeNext(env, t, s, i - 1); }
  }

  /** One round: whether the loop goes on, and its reply if not. */
  lemma RoundReplies(env: Env, t: nat, s: TcpStream)
    requires Sane(s)
    ensures var l := SendLoop(env, t, s);
            && (GoesOn(env, t, s) ==>
                  Sane(Before(env, t, s, 1)) && l == SendLoop(env, t + 2, Before(env, t, s, 1)).(calls := l.calls)
                  && l.calls == SendLoop(env, t + 2, Before(env, t, s, 1)).calls + 1
                  && Gate(Before(env, t, s, 1)) < Gate(s))
            && (!GoesOn(env, t, s) ==>
                  l.calls == 1 && EndsRound(env, t, s, l.reply) && l.stream == Before(env, t, s, 1)
                  && (l.reply.Ok? ==> l.t == t + 1))
  {
    hide SendOut, Callback;
    CallbackKeeps(env, t, s, false);
    assert Before(env, t, s, 0) == s && t + 2 * 0 == t;
    if Callback(env, t, s, false).Done? {
      var s1 := Callback(env, t, s, false).value;
      SendOutKeeps(s1, env.accepts(t));
      SendOutReply(s1, env.accepts(t));
      assert Before(env, t, s, 0) == s && Before(env, t, s, 1) == SendOut(s1, env.accepts(t)).stream;
    }
  }

  lemma LoopGrows(env: Env, t: nat, s: TcpStream, l: Loop)
    requires Sane(s) && GoesOn(env, t, s) && LoopEnds(env, t + 2, Before(env, t, s, 1), l)
    ensures LoopEnds(env, t, s, l.(calls := l.calls + 1))
  {
    hide GoesOn, EndsRound, Callback, SendOut;
    forall i: nat | i < l.calls ensures GoesOn(env, t + 2 * i, Before(env, t, s, i)) {
      if i == 0 {
        assert Before(env, t, s, 0) == s && t + 2 * i == t;
      } else {
        BeforeNext(env, t, s, i - 1);
        assert GoesOn(env, t + 2 + 2 * (i - 1), Before(env, t + 2, Before(env, t, s, 1), i - 1));
        assert t + 2 + 2 * (i - 1) == t + 2 * i;
      }
    }
    BeforeNext(env, t, s, l.calls - 1);
    BeforeNext(env, t, s, l.calls);
    assert t + 2 + 2 * (l.calls - 1) == t + 2 * l.calls;
  }

  /** The loop goes on exactly as long as each round finds something to send and sends it, and its reply is Ok exactly
      when it stops because nothing is left to send: no callback panicked, no submission was refused, no length
      underflowed, and every submit succeeded. */
  lemma {:induction false} LoopReplies(env: Env, t: nat, s: TcpStream)
    requires Sane(s)
    ensures LoopEnds(env, t, s, SendLoop(env, t, s))
    decreases Gate(s)
  {
    hide GoesOn, EndsRound, Callback, SendOut, SendLoop;
    RoundReplies(env, t, s);
    if GoesOn(env, t, s) {
      var s2 := Before(env, t, s, 1);
      LoopReplies(env, t + 2, s2);
      LoopGrows(env, t, s, SendLoop(env, t + 2, s2));
    } else {
      assert Before(env, t, s, 0) == s;
    }
  }

  /** Whatever the callback writes, it runs at most once more than the gate lets sends through: at most 7 times.
      When the loop ends well there is nothing left that could be sent. */
  lemma {:induction false} SendLoopBounded(env: Env, t: nat, s: TcpStream)
    requires Sane(s)
    ensures var l := SendLoop(env, t, s);
            && 1 <= l.calls <= Gate(s) + 1 <= 7
            && SameStream(s, l.stream) && Sane(l.stream)
            && (l.reply.Panics? ==> StreamPanic(l.reply.why))
            && (l.reply.Ok? ==> Idle(l.stream))
    decreases Gate(s)
  {
    CallbackKeeps(env, t, s, false);
    if Callback(env, t, s, false).Done? {
      var s1 := Callback(env, t, s, false).value;
      SendOutKeeps(s1, env.accepts(t));
      var op := SendOut(s1, env.accepts(t));
      if op.reply.Ok? && op.reply.value != 0 && env.ok(t + 1) {
        SendLoopBounded(env, t + 2, op.stream);
      }
    }
  }

  /** A world in which the callback always commits one byte and everything succeeds. */
  function Chatty(): Env {
    Env(_ => true, _ => true, _ => 1, (t, s, shutdown) => [SetBoth(0, 1)])
  }

  function ChattyStream(k: nat): TcpStream {
    StreamingHugeTlb(1, StreamCursor(RxCursor(0, 0, 0), TxCursor(k * BUF_SIZE, k * BUF_SIZE, k, k, k)))
  }

  function OneByte(k: nat): TcpStream {
    var s := ChattyStream(k);
    s.(cursor := s.cursor.(tx := s.cursor.tx.(end := k * BUF_SIZE + 1)))
  }

  lemma ChattyCallback(t: nat, k: nat)
    requires k <= 6
    ensures Callback(Chatty(), t, ChattyStream(k), false) == Done(OneByte(k))
  {
    var c, ops := ChattyStream(k).cursor, [SetBoth(0, 1)];
    assert Chatty().ops(t, ChattyStream(k), false) == ops;
    assert ApplyOp(c, ops[0]) == Done(OneByte(k).cursor) && ops[1..] == [];
  }

  lemma ChattySend(k: nat)
    requires k <= 6
    ensures Sane(OneByte(k)) && SendOut(OneByte(k), 1) == if k < 6 then Op(ChattyStream(k + 1), Ok(1)) else Op(OneByte(k), Ok(0))
  {}

  /** The bound is met: seven callbacks from a fresh stream. */
  lemma {:induction false} SendLoopTight(t: nat, k: nat)
    requires k <= 6
    ensures Sane(ChattyStream(k)) && SendLoop(Chatty(), t, ChattyStream(k)).calls == 7 - k
    decreases 6 - k
  {
    hide SendOut, Callback;
    ChattyCallback(t, k);
    ChattySend(k);
    if k < 6 {
      SendLoopTight(t + 2, k + 1);
    }
  }
}
