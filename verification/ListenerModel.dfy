// What TcpListener::check does to its pool, completion by completion, and what every run of checks keeps.

module ListenerModel {
  import opened Common
  import opened Engine
  import opened Streams

  datatype ListenerSlotCtx =
    | Created
    | Accepted(s: TcpStream)
    | Reading(s: TcpStream)
    | Writing(s: TcpStream)
    | ReadingAndWriting(s: TcpStream)
    | ShutdownOk
  {
    function Stream(): Option<TcpStream> {
      match this
      case Created => None
      case ShutdownOk => None
      case _ => Some(this.s)
    }

    /** The slot with its stream updated in place. */
    function With(stream: TcpStream): ListenerSlotCtx
      requires Stream().Some?
    { this.(s := stream) }
  }

  /** A completion as the ring reports it. */
  datatype Completion =
    | AcceptDone(result: int)
    | SendZcDone(fixedFd: nat, result: int, more: bool)
    | RecvMultiDone(fixedFd: nat, result: int, bufId: Option<nat>, more: bool)
    | OtherDone

  /** ServerMapMixed: a completion in the bounded batch. */
  datatype Mixed =
    | Nothing
    | MapAccepted(result: int)
    | MapSentZc(fixedFd: nat, sentOut: nat, more: bool)
    | MapRecvMulti(fixedFd: nat, bufId: Option<nat>, bufLen: nat, shutdown: bool)

  /** rings - buffer groups registered with the kernel; outstanding - accept requests not yet completed;
      t - the clock of foreign calls. */
  datatype State = State(pool: map<nat, ListenerSlotCtx>, rings: set<nat>, outstanding: int, t: nat)

  datatype Result = Result(state: State, reply: Reply<()>)

  // ---------------------------------------------------------------- collecting a batch

  /** What the collection closure pushes for one completion. */
  function Convert(c: Completion): Outcome<seq<Mixed>> {
    match c
    case AcceptDone(result) => Done([MapAccepted(result)])
    case SendZcDone(fd, result, more) => if result < 0 then Done([]) else Done([MapSentZc(fd, result, more)])
    case RecvMultiDone(fd, result, bufId, more) =>
      if result < 0 then Panicked(BadCompletion) else Done([MapRecvMulti(fd, bufId, result, !more)])
    case OtherDone => Panicked(BadCompletion)
  }

  function Collected(cs: seq<Completion>): Outcome<seq<Mixed>> {
    if cs == [] then Done([])
    else match Collected(cs[..|cs| - 1])
      case Panicked(why) => Panicked(why)
      case Done(bundle) =>
        match Convert(cs[|cs| - 1])
        case Panicked(why) => Panicked(why)
        case Done(more) => Done(bundle + more)
  }

  /** A batch never outgrows the completions it came from and never holds Nothing. */
  lemma {:induction false} CollectedFits(cs: seq<Completion>)
    ensures var r := Collected(cs);
            r.Done? ==> |r.value| <= |cs| && forall i :: 0 <= i < |r.value| ==> !r.value[i].Nothing?
  {
    if cs != [] { CollectedFits(cs[..|cs| - 1]); }
  }

  /** The completions that reach the batch: all but the failed sends. */
  function Kept(cs: seq<Completion>): seq<Completion> {
    if cs == [] then []
    else
      var c := cs[|cs| - 1];
      Kept(cs[..|cs| - 1]) + if c.SendZcDone? && c.result < 0 then [] else [c]
  }

  /** A receive that failed, or a completion of any other kind. */
  predicate Bad(c: Completion) { c.OtherDone? || (c.RecvMultiDone? && c.result < 0) }

  /** The item tells what the completion does: the same descriptor and results, and a peer that is gone if and only if no
      more receives are announced. */
  predicate Describes(c: Completion, m: Mixed) {
    match c
    case AcceptDone(result) => m == MapAccepted(result)
    case SendZcDone(fd, result, more) => result >= 0 && m == MapSentZc(fd, result, more)
    case RecvMultiDone(fd, result, bufId, more) =>
      m.MapRecvMulti? && m.fixedFd == fd && m.bufLen == result && m.bufId == bufId && (m.shutdown <==> !more)
    case OtherDone => false
  }

  /** A batch is collected if and only if no completion is bad; it then holds, in order, one item for each completion
      that is not a failed send, and each item describes its completion. */
  ghost predicate Batched(cs: seq<Completion>, r: Outcome<seq<Mixed>>) {
    && (r.Done? <==> forall i :: 0 <= i < |cs| ==> !Bad(cs[i]))
    && (r.Panicked? ==> r.why == BadCompletion)
    && (r.Done? ==>
          |r.value| == |Kept(cs)| && forall i :: 0 <= i < |r.value| ==> Describes(Kept(cs)[i], r.value[i]))
  }

  lemma {:induction false} CollectedIs(cs: seq<Completion>)
    ensures Batched(cs, Collected(cs))
  {
    if cs != [] { CollectedIs(cs[..|cs| - 1]); }
  }

  /** What reaches the batch was a completion, and every other one is a failed send. */
  lemma {:induction false} KeptAre(cs: seq<Completion>)
    ensures forall i :: 0 <= i < |Kept(cs)| ==> Kept(cs)[i] in cs
    ensures forall i :: 0 <= i < |cs| ==> cs[i] in Kept(cs) || (cs[i].SendZcDone? && cs[i].result < 0)
  {
    if cs != [] { KeptAre(cs[..|cs| - 1]); }
  }

  /** A completion that cannot be converted fails the whole batch, whatever follows it. */
  lemma {:induction false} CollectedFails(cs: seq<Completion>, i: nat)
    requires i < |cs| && Collected(cs[..i]).Done? && Convert(cs[i]).Panicked?
    ensures Collected(cs) == Panicked(Convert(cs[i]).why)
  {
    var n := |cs| - 1;
    if i < n {
      assert cs[..n][..i] == cs[..i];
      CollectedFails(cs[..n], i);
    }
  }

  // ---------------------------------------------------------------- draining it

  function Fail(s: State, e: Error): Result { Result(s, Err(e)) }
  function Crash(s: State, why: Panic): Result { Result(s, Panics(why)) }

  predicate PoolSane(s: State) {
    forall k :: k in s.pool && s.pool[k].Stream().Some? ==> Sane(s.pool[k].Stream().value)
  }

  function Put(s: State, k: nat, stream: TcpStream): State
    requires k in s.pool && s.pool[k].Stream().Some?
  { s.(pool := s.pool[k := s.pool[k].With(stream)]) }

  /** A send completion: retire it, then let the callback write and send until the gate closes. */
  function OnSentZc(s: State, k: nat, sentOut: nat, more: bool, env: Env): Result
    requires PoolSane(s)
  {
    if k !in s.pool then Crash(s, ToDo)
    else match s.pool[k].Stream()
      case None => Crash(s, Unreachable)
      case Some(stream) =>
        var op := OnSent(stream, sentOut, more);
        if !op.reply.Ok? then Result(Put(s, k, op.stream), op.reply)
        else
          Settle(s, k, SendLoop(env, s.t, op.stream), false, env)
  }

  /** After the callbacks: free buffers, and when the peer is gone drop the slot. */
  function Settle(s: State, k: nat, l: Loop, shutdown: bool, env: Env): Result
    requires k in s.pool && s.pool[k].Stream().Some?
  {
    var s1 := Put(s, k, l.stream).(t := l.t);
    if !l.reply.Ok? then Result(s1, l.reply)
    else
      var f := FreeBufs(l.stream);
      var s2 := Put(s1, k, f.stream);
      if !f.reply.Ok? then Result(s2, f.reply)
      else if shutdown then Remove(s2, k, f.stream, env)
      else Result(s2, Ok(()))
  }

  /** The callback part of a receive completion: one call when the peer is gone, the send loop otherwise. */
  function AfterRecv(env: Env, t: nat, stream: TcpStream, shutdown: bool): Loop
    requires Sane(stream)
  {
    if shutdown then
      match Callback(env, t, stream, true)
      case Panicked(why) => Loop(stream, t + 1, 1, Panics(why))
      case Done(s1) => Loop(s1, t + 1, 1, Ok(()))
    else SendLoop(env, t, stream)
  }

  function OnRecvMulti(s: State, k: nat, bufId: Option<nat>, bufLen: nat, shutdown: bool, env: Env): Result
    requires PoolSane(s)
  {
    if k !in s.pool then Crash(s, ToDo)
    else match s.pool[k].Stream()
      case None => Crash(s, Unreachable)
      case Some(stream) =>
        var op := OnRecv(stream, bufId, bufLen);
        if !op.reply.Ok? then Result(Put(s, k, op.stream), op.reply)
        else
          Settle(s, k, AfterRecv(env, s.t, op.stream, shutdown), shutdown, env)
  }

  /** Take the slot out of the pool, unregister its ring (a failure is ignored) and clear the fixed file. */
  function Remove(s: State, k: nat, stream: TcpStream, env: Env): Result {
    var unregistered := stream.StreamingHugeTlb? && env.unregisters(s.t);
    var s1 := State(s.pool - {k}, if unregistered then s.rings - {stream.fixedFd} else s.rings, s.outstanding, s.t + 2);
    if env.ok(s.t + 1) then Result(s1, Ok(())) else Crash(s1, UnwrapFailed)
  }

  /** An accept completes: unless it failed, its request is replaced and the connection opened. */
  function OnAccepted(s: State, result: int, hugetlb: bool, env: Env): Result {
    var s1 := s.(outstanding := s.outstanding - 1);
    if result < 0 then Result(s1, Ok(()))
    else if !env.ok(s.t) then Fail(s1.(t := s.t + 1), Bearer)
    else if !env.ok(s.t + 1) then Fail(s.(t := s.t + 2), Bearer)
    else Open(s.(t := s.t + 2), result, hugetlb, env)
  }

  /** A new connection's buffers and ring. The kernel refuses to register a buffer group twice. */
  function Open(s: State, fd: nat, hugetlb: bool, env: Env): Result {
    if !hugetlb then Fail(s.(t := s.t + 1), BpNeedBuffers)    // the callback runs, then recv_multi refuses
    else if !env.ok(s.t) || !env.ok(s.t + 1) then Fail(s.(t := s.t + 2), HugeTlb)
    else if SlotU16(fd).Err? then Fail(s.(t := s.t + 2), LimitHugeTlbU16)
    else if !env.ok(s.t + 2) || fd in s.rings then Fail(s.(t := s.t + 3), RingBuf)
    else Greet(s.(rings := s.rings + {fd}, t := s.t + 3), fd, env)
  }

  /** The fresh stream's first callback, receive request and send; then it enters the pool. */
  function Greet(s: State, fd: nat, env: Env): Result {
    match Callback(env, s.t, StreamingHugeTlb(fd, FRESH_CURSOR), false)
    case Panicked(why) => Crash(s.(t := s.t + 1), why)
    case Done(stream) =>
      CallbackKeeps(env, s.t, StreamingHugeTlb(fd, FRESH_CURSOR), false);
      var r := StartRecv(stream, env.ok(s.t + 1));
      if !r.Ok? then Result(s.(t := s.t + 2), r)
      else
        var op := SendOut(stream, env.accepts(s.t + 2));
        match op.reply
        case Err(e) => Fail(s.(t := s.t + 3), e)
        case Panics(why) => Crash(s.(t := s.t + 3), why)
        case Ok(_) =>
          var s1 := s.(pool := s.pool[fd := Accepted(op.stream)], t := s.t + 4);
          if env.ok(s.t + 3) then Result(s1, Ok(())) else Fail(s1, Bearer)
  }

  function Handle(s: State, m: Mixed, hugetlb: bool, env: Env): Result
    requires PoolSane(s)
  {
    match m
    case Nothing => Crash(s, Unreachable)
    case MapSentZc(fd, sentOut, more) => OnSentZc(s, fd, sentOut, more, env)
    case MapRecvMulti(fd, bufId, bufLen, shutdown) => OnRecvMulti(s, fd, bufId, bufLen, shutdown, env)
    case MapAccepted(result) => OnAccepted(s, result, hugetlb, env)
  }

  // ---------------------------------------------------------------- what every completion keeps

  /** Every slot holds a huge-page stream whose fixed descriptor is the slot's key and fits a buffer group id. */
  predicate PoolInv(s: State) {
    forall k :: k in s.pool ==>
      && s.pool[k].Accepted? && s.pool[k].s.StreamingHugeTlb?
      && s.pool[k].s.fixedFd == k < U16_MAX && Sane(s.pool[k].s)
  }

  /** Every pooled stream's ring is registered. */
  predicate RingInv(s: State) { s.pool.Keys <= s.rings }

  lemma PutKeeps(s: State, k: nat, stream: TcpStream)
    requires PoolInv(s) && k in s.pool && SameStream(s.pool[k].s, stream) && Sane(stream)
    ensures PoolInv(Put(s, k, stream)) && Put(s, k, stream).pool.Keys == s.pool.Keys
    ensures Put(s, k, stream).pool[k].s == stream
  {}

  /** What a result owes to the state it came from: the pool's shape always; after Ok also the balance of
      rings, unless unregistering one failed, and of accept requests. lost: accept requests that completed with an error. */
  ghost predicate Owes(s: State, r: Result, lost: int, env: Env) {
    && PoolInv(r.state) && RingInv(r.state)
    && (r.reply.Ok? && Unregisters(env) && s.rings == s.pool.Keys ==> r.state.rings == r.state.pool.Keys)
    && (r.reply.Ok? ==> r.state.outstanding == s.outstanding - lost)
    && (r.reply.Panics? ==> r.reply.why != Unreachable)
  }

  /** Ring unregistration never fails. */
  ghost predicate Unregisters(env: Env) { forall t :: env.unregisters(t) }

  lemma RemoveOwes(s: State, k: nat, env: Env)
    requires PoolInv(s) && RingInv(s) && k in s.pool
    ensures Owes(s, Remove(s, k, s.pool[k].s, env), 0, env)
  {}

  lemma SettleOwes(s: State, k: nat, l: Loop, shutdown: bool, env: Env)
    requires PoolInv(s) && RingInv(s)
    requires k in s.pool && SameStream(s.pool[k].s, l.stream) && Sane(l.stream)
    requires l.reply.Panics? ==> StreamPanic(l.reply.why)
    ensures Owes(s, Settle(s, k, l, shutdown, env), 0, env)
  {
    PutKeeps(s, k, l.stream);
    var s1 := Put(s, k, l.stream).(t := l.t);
    PutKeeps(s1, k, FreeBufs(l.stream).stream);
    RemoveOwes(Put(s1, k, FreeBufs(l.stream).stream), k, env);
  }

  lemma SentZcOwes(s: State, k: nat, sentOut: nat, more: bool, env: Env)
    requires PoolInv(s) && RingInv(s)
    ensures Owes(s, OnSentZc(s, k, sentOut, more, env), 0, env)
  {
    if k in s.pool {
      var op := OnSent(s.pool[k].s, sentOut, more);
      PutKeeps(s, k, op.stream);
      if op.reply.Ok? {
        SendLoopBounded(env, s.t, op.stream);
        SettleOwes(s, k, SendLoop(env, s.t, op.stream), false, env);
      }
    }
  }

  lemma RecvOwes(s: State, k: nat, bufId: Option<nat>, bufLen: nat, shutdown: bool, env: Env)
    requires PoolInv(s) && RingInv(s)
    ensures Owes(s, OnRecvMulti(s, k, bufId, bufLen, shutdown, env), 0, env)
  {
    if k in s.pool {
      var op := OnRecv(s.pool[k].s, bufId, bufLen);
      PutKeeps(s, k, op.stream);
      if op.reply.Ok? {
        SendLoopBounded(env, s.t, op.stream);
        CallbackKeeps(env, s.t, op.stream, true);
        SettleOwes(s, k, AfterRecv(env, s.t, op.stream, shutdown), shutdown, env);
      }
    }
  }

  /** Handled without error, a send or receive completion leaves its stream with nothing it could still send and
      its consumed buffers returned, drops the slot exactly when the peer is gone, and touches no other slot. */
  ghost predicate Quiets(s: State, k: nat, gone: bool, r: Result) {
    r.reply.Ok? ==>
      && k in s.pool
      && r.state.pool.Keys == (if gone then s.pool.Keys - {k} else s.pool.Keys)
      && (!gone ==> r.state.pool[k].Stream().Some? && Quiet(r.state.pool[k].s))
      && forall j :: j in s.pool && j != k ==> r.state.pool[j] == s.pool[j]
  }

  lemma SettleQuiets(s: State, k: nat, l: Loop, shutdown: bool, env: Env)
    requires k in s.pool && s.pool[k].Stream().Some? && (l.reply.Ok? && !shutdown ==> Idle(l.stream))
    ensures Quiets(s, k, shutdown, Settle(s, k, l, shutdown, env))
  {
    if l.reply.Ok? && FreeBufs(l.stream).reply.Ok? && !shutdown { FreeBufsQuiets(l.stream); }
  }

  lemma SentZcQuiets(s: State, k: nat, sentOut: nat, more: bool, env: Env)
    requires PoolSane(s)
    ensures Quiets(s, k, false, OnSentZc(s, k, sentOut, more, env))
  {
    if k in s.pool && s.pool[k].Stream().Some? {
      var op := OnSent(s.pool[k].s, sentOut, more);
      if op.reply.Ok? {
        hide Settle, Quiets;
        SendLoopBounded(env, s.t, op.stream);
        SettleQuiets(s, k, SendLoop(env, s.t, op.stream), false, env);
      }
    }
  }

  lemma RecvQuiets(s: State, k: nat, bufId: Option<nat>, bufLen: nat, shutdown: bool, env: Env)
    requires PoolSane(s)
    ensures Quiets(s, k, shutdown, OnRecvMulti(s, k, bufId, bufLen, shutdown, env))
  {
    if k in s.pool && s.pool[k].Stream().Some? {
      var op := OnRecv(s.pool[k].s, bufId, bufLen);
      if op.reply.Ok? {
        hide Settle, Quiets;
        SendLoopBounded(env, s.t, op.stream);
        SettleQuiets(s, k, AfterRecv(env, s.t, op.stream, shutdown), shutdown, env);
      }
    }
  }

  lemma GreetOwes(s: State, fd: nat, env: Env)
    requires PoolInv(s) && RingInv(s) && fd < U16_MAX && fd in s.rings
    ensures var r := Greet(s, fd, env);
            && PoolInv(r.state) && RingInv(r.state)
            && r.state.rings == s.rings && r.state.outstanding == s.outstanding
            && (r.reply.Ok? ==> r.state.pool.Keys == s.pool.Keys + {fd})
            && (r.reply.Panics? ==> r.reply.why != Unreachable)
  {
    hide SendOut, Callback;
    var newcomer := StreamingHugeTlb(fd, FRESH_CURSOR);
    CallbackKeeps(env, s.t, newcomer, false);
    if Callback(env, s.t, newcomer, false).Done? {
      SendOutKeeps(Callback(env, s.t, newcomer, false).value, env.accepts(s.t + 2));
    }
  }

  /** The slot is untouched, or holds an idle stream of its own descriptor. */
  ghost predicate StoresOnly(pool: map<nat, ListenerSlotCtx>, pool': map<nat, ListenerSlotCtx>, fd: nat) {
    || pool' == pool
    || (&& fd in pool' && pool'[fd].Accepted? && pool'[fd].s.StreamingHugeTlb? && pool'[fd].s.fixedFd == fd
        && Idle(pool'[fd].s) && pool' == pool[fd := pool'[fd]])
  }

  lemma GreetStores(s: State, fd: nat, env: Env)
    ensures var r := Greet(s, fd, env);
            && StoresOnly(s.pool, r.state.pool, fd)
            && r.state.rings == s.rings && r.state.outstanding == s.outstanding
            && (r.reply.Ok? ==> fd in r.state.pool && fd < U16_MAX)
  {
    hide SendOut, Callback;
    var newcomer := StreamingHugeTlb(fd, FRESH_CURSOR);
    CallbackKeeps(env, s.t, newcomer, false);
    if Callback(env, s.t, newcomer, false).Done? {
      SendOutKeeps(Callback(env, s.t, newcomer, false).value, env.accepts(s.t + 2));
    }
  }

  /** A stream is pooled only with its ring newly registered; a ring can be left registered without a pooled stream
      only when the reply is not Ok. */
  ghost predicate Opens(s: State, fd: nat, hugetlb: bool, r: Result) {
    && StoresOnly(s.pool, r.state.pool, fd)
    && s.rings <= r.state.rings <= s.rings + {fd}
    && (r.state.pool != s.pool ==> fd !in s.rings && fd in r.state.rings)
    && (r.reply.Ok? ==> hugetlb && fd < U16_MAX && fd in r.state.pool && fd !in s.rings && fd in r.state.rings)
  }

  lemma OpenOpens(s: State, fd: nat, hugetlb: bool, env: Env)
    ensures Opens(s, fd, hugetlb, Open(s, fd, hugetlb, env))
    ensures Open(s, fd, hugetlb, env).state.outstanding == s.outstanding
  {
    hide Greet;
    if fd < U16_MAX && fd !in s.rings {
      GreetStores(State(s.pool, s.rings + {fd}, s.outstanding, s.t + 3), fd, env);
    }
  }

  /** What each way of ending an accept leaves behind: a refused accept only costs its request; otherwise the request
      is replaced if the ring takes it, and the connection opened. */
  ghost predicate Leaves(s: State, result: int, hugetlb: bool, env: Env, r: Result) {
    && r.state.outstanding == s.outstanding - (if result >= 0 && env.ok(s.t) then 0 else 1)
    && (result < 0 ==> r.reply.Ok? && r.state.pool == s.pool && r.state.rings == s.rings)
    && (result >= 0 ==> Opens(s, result, hugetlb, r))
  }

  lemma AcceptedLeaves(s: State, result: int, hugetlb: bool, env: Env)
    ensures Leaves(s, result, hugetlb, env, OnAccepted(s, result, hugetlb, env))
  {
    hide Open;
    if result >= 0 { OpenOpens(s.(t := s.t + 2), result, hugetlb, env); }
  }

  lemma OpenOwes(s: State, fd: nat, hugetlb: bool, env: Env)
    requires PoolInv(s) && RingInv(s)
    ensures Owes(s, Open(s, fd, hugetlb, env), 0, env)
    ensures !hugetlb ==> !Open(s, fd, hugetlb, env).reply.Ok?
  {
    hide Greet;
    if fd < U16_MAX && fd !in s.rings {
      GreetOwes(State(s.pool, s.rings + {fd}, s.outstanding, s.t + 3), fd, env);
    }
  }

  lemma AcceptedOwes(s: State, result: int, hugetlb: bool, env: Env)
    requires PoolInv(s) && RingInv(s)
    ensures Owes(s, OnAccepted(s, result, hugetlb, env), if result < 0 then 1 else 0, env)
    ensures !hugetlb && result >= 0 ==> !OnAccepted(s, result, hugetlb, env).reply.Ok?
  {
    hide Open;
    if result >= 0 { OpenOwes(s.(t := s.t + 2), result, hugetlb, env); }
  }

  // ---------------------------------------------------------------- what every completion replies

  /** What follows the callbacks: their own reply if it is not Ok, a panic if buffers cannot be returned, and for a peer
      that is gone a panic if its fixed file cannot be cleared. */
  predicate Tails(l: Loop, shutdown: bool, env: Env, reply: Reply<()>) {
    && (!l.reply.Ok? ==> reply == l.reply)
    && (l.reply.Ok? && FreeFails(l.stream) ==> reply == Panics(RecycledAhead))
    && (l.reply.Ok? && !FreeFails(l.stream) && shutdown && !env.ok(l.t + 1) ==> reply == Panics(UnwrapFailed))
    && (l.reply.Ok? && !FreeFails(l.stream) && (shutdown ==> env.ok(l.t + 1)) ==> reply == Ok(()))
  }

  lemma SettleTails(s: State, k: nat, l: Loop, shutdown: bool, env: Env)
    requires k in s.pool && s.pool[k].Stream().Some? && l.stream.StreamingHugeTlb?
    ensures Tails(l, shutdown, env, Settle(s, k, l, shutdown, env).reply)
  {}

  /** The reply when the callback and send loop runs on this stream. */
  ghost predicate LoopThenTail(env: Env, t: nat, stream: TcpStream, reply: Reply<()>)
    requires Sane(stream)
  { exists l :: LoopEnds(env, t, stream, l) && Tails(l, false, env, reply) }

  lemma SettledLoop(s: State, k: nat, stream: TcpStream, env: Env)
    requires k in s.pool && s.pool[k].Stream().Some? && stream.StreamingHugeTlb? && Sane(stream)
    ensures LoopThenTail(env, s.t, stream, Settle(s, k, SendLoop(env, s.t, stream), false, env).reply)
  {
    hide Settle, SendLoop, LoopEnds, Tails;
    var l := SendLoop(env, s.t, stream);
    SendLoopBounded(env, s.t, stream);
    LoopReplies(env, s.t, stream);
    SettleTails(s, k, l, false, env);
    assert LoopEnds(env, s.t, stream, l) && Tails(l, false, env, Settle(s, k, l, false, env).reply);
  }

  /** The reply to a send completion for slot k. */
  ghost predicate SentReplies(s: State, k: nat, sentOut: nat, more: bool, env: Env, reply: Reply<()>)
    requires PoolInv(s)
  {
    if k !in s.pool then reply == Panics(ToDo)
    else
      var c := s.pool[k].s.cursor;
      if sentOut > c.tx.sends || (!more && c.tx.bufs == 0) then reply == Panics(Underflow)
      else
        var tx := c.tx.(sends := c.tx.sends - sentOut, bufs := if more then c.tx.bufs else c.tx.bufs - 1);
        LoopThenTail(env, s.t, StreamingHugeTlb(k, c.(tx := tx)), reply)
  }

  lemma SentZcReplies(s: State, k: nat, sentOut: nat, more: bool, env: Env)
    requires PoolInv(s) && PoolSane(s)
    ensures SentReplies(s, k, sentOut, more, env, OnSentZc(s, k, sentOut, more, env).reply)
  {
    hide Settle, SendLoop, LoopThenTail, Tails;
    if k in s.pool {
      var op := OnSent(s.pool[k].s, sentOut, more);
      if op.reply.Ok? { SettledLoop(s, k, op.stream, env); }
    }
  }

  /** The reply when the last callback runs for a peer that is gone. */
  ghost predicate LastThenTail(env: Env, t: nat, stream: TcpStream, reply: Reply<()>) {
    match Callback(env, t, stream, true)
    case Panicked(why) => reply == Panics(why)
    case Done(s1) => Tails(Loop(s1, t + 1, 1, Ok(())), true, env, reply)
  }

  /** The reply to a receive completion for slot k. */
  ghost predicate RecvReplies(s: State, k: nat, bufId: Option<nat>, bufLen: nat, shutdown: bool, env: Env, reply: Reply<()>)
    requires PoolInv(s)
  {
    if k !in s.pool then reply == Panics(ToDo)
    else
      var c := s.pool[k].s.cursor;
      if bufId.Some? && bufLen == 0 then reply == Panics(RevolutionDetected) || reply == Panics(EndNotUpdated)
      else
        var got := StreamingHugeTlb(k, c.(rx := c.rx.(end := c.rx.end + if bufId.Some? then bufLen else 0)));
        if shutdown then LastThenTail(env, s.t, got, reply) else LoopThenTail(env, s.t, got, reply)
  }

  lemma SettledLast(s: State, k: nat, stream: TcpStream, env: Env)
    requires k in s.pool && s.pool[k].Stream().Some? && stream.StreamingHugeTlb? && Sane(stream)
    ensures LastThenTail(env, s.t, stream, Settle(s, k, AfterRecv(env, s.t, stream, true), true, env).reply)
  {
    CallbackKeeps(env, s.t, stream, true);
    hide Settle, Tails, Callback;
    var l := AfterRecv(env, s.t, stream, true);
    SettleTails(s, k, l, true, env);
    TailsOf(l, env, Settle(s, k, l, true, env).reply);
  }

  lemma TailsOf(l: Loop, env: Env, reply: Reply<()>)
    requires Tails(l, true, env, reply)
    ensures !l.reply.Ok? ==> reply == l.reply
  {}

  lemma RecvMultiReplies(s: State, k: nat, bufId: Option<nat>, bufLen: nat, shutdown: bool, env: Env)
    requires PoolInv(s) && PoolSane(s)
    ensures RecvReplies(s, k, bufId, bufLen, shutdown, env, OnRecvMulti(s, k, bufId, bufLen, shutdown, env).reply)
  {
    hide Settle, SendLoop, LoopThenTail, LastThenTail, Callback;
    if k in s.pool {
      var op := OnRecv(s.pool[k].s, bufId, bufLen);
      if op.reply.Ok? {
        if shutdown { SettledLast(s, k, op.stream, env); } else { SettledLoop(s, k, op.stream, env); }
      }
    }
  }

  lemma GreetReplies(s: State, fd: nat, env: Env)
    requires fd < U16_MAX
    ensures Greeted(fd, s.t, env).Done? ==> Greeted(fd, s.t, env).value.StreamingHugeTlb?
    ensures var r := Greet(s, fd, env);
            && (r.reply.Ok? <==> Greets(fd, s.t, env))
            && (!r.reply.Ok? ==> GreetFails(fd, s.t, env, r.reply))
            && r.state.pool == (if Stored(fd, s.t, env) then s.pool[fd := Accepted(StoredStream(fd, s.t, env))] else s.pool)
  {
    hide SendOut, Callback, Refused;
    var newcomer := StreamingHugeTlb(fd, FRESH_CURSOR);
    CallbackKeeps(env, s.t, newcomer, false);
    if Callback(env, s.t, newcomer, false).Done? {
      SendOutReply(Callback(env, s.t, newcomer, false).value, env.accepts(s.t + 2));
    }
  }

  /** From time t on everything a new connection needs succeeds: huge pages are set and two can be had, the ring of a
      descriptor that is small enough and not in use is registered, and the greeting goes well. */
  ghost predicate Connects(rings: set<nat>, t: nat, fd: nat, hugetlb: bool, env: Env) {
    && hugetlb
    && env.ok(t) && env.ok(t + 1)
    && fd < U16_MAX
    && env.ok(t + 2) && fd !in rings
    && Greets(fd, t + 3, env)
  }

  /** The ring of an accepted connection is registered: the replacing request and its submit, two pages and the
      registration succeed. */
  predicate Registers(s: State, fd: nat, hugetlb: bool, env: Env) {
    && env.ok(s.t) && env.ok(s.t + 1)
    && hugetlb
    && env.ok(s.t + 2) && env.ok(s.t + 3)
    && fd < U16_MAX
    && env.ok(s.t + 4) && fd !in s.rings
  }

  /** And so do the replacing accept request and its submit. */
  ghost predicate Accepts(s: State, fd: nat, hugetlb: bool, env: Env) {
    env.ok(s.t) && env.ok(s.t + 1) && Connects(s.rings, s.t + 2, fd, hugetlb, env)
  }

  lemma OpenReplies(s: State, fd: nat, hugetlb: bool, env: Env)
    ensures Open(s, fd, hugetlb, env).reply.Ok? <==> Connects(s.rings, s.t, fd, hugetlb, env)
  {
    hide Greet, Greets, GreetFails, Greeted, SendOut;
    if fd < U16_MAX { GreetReplies(State(s.pool, s.rings + {fd}, s.outstanding, s.t + 3), fd, env); }
  }

  /** The reply to a completed accept: Ok for one that failed, else exactly when everything it needs succeeds; otherwise
      the error of the first thing that does not. The ring is registered exactly when everything up to it succeeds, and
      the slot holds the stream, as callback and send left it, exactly when everything up to the send does. */
  ghost predicate AcceptReplies(s: State, result: int, hugetlb: bool, env: Env, r: Result) {
    && (result < 0 ==> r.reply == Ok(()))
    && (result >= 0 ==>
          && (r.reply.Ok? <==> Accepts(s, result, hugetlb, env))
          && (!(env.ok(s.t) && env.ok(s.t + 1)) ==> r.reply == Err(Bearer))
          && (env.ok(s.t) && env.ok(s.t + 1) ==>
                && (!hugetlb ==> r.reply == Err(BpNeedBuffers))
                && (hugetlb && !(env.ok(s.t + 2) && env.ok(s.t + 3)) ==> r.reply == Err(HugeTlb))
                && (hugetlb && env.ok(s.t + 2) && env.ok(s.t + 3) ==>
                      && (result >= U16_MAX ==> r.reply == Err(LimitHugeTlbU16))
                      && (result < U16_MAX && (!env.ok(s.t + 4) || result in s.rings) ==> r.reply == Err(RingBuf))
                      && (result < U16_MAX && env.ok(s.t + 4) && result !in s.rings && !Greets(result, s.t + 5, env) ==>
                            GreetFails(result, s.t + 5, env, r.reply))))
          && r.state.rings == (if Registers(s, result, hugetlb, env) then s.rings + {result} else s.rings)
          && r.state.pool == (if Registers(s, result, hugetlb, env) && Stored(result, s.t + 5, env)
                              then s.pool[result := Accepted(StoredStream(result, s.t + 5, env))] else s.pool))
  }

  lemma AcceptedReplies(s: State, result: int, hugetlb: bool, env: Env)
    ensures AcceptReplies(s, result, hugetlb, env, OnAccepted(s, result, hugetlb, env))
  {
    hide Greet, Greets, GreetFails, Greeted, SendOut, Stored;
    if 0 <= result < U16_MAX && result !in s.rings {
      GreetReplies(State(s.pool, s.rings + {result}, s.outstanding, s.t + 5), result, env);
      GreetStores(State(s.pool, s.rings + {result}, s.outstanding, s.t + 5), result, env);
    }
  }

  function LostAccepts(ms: seq<Mixed>): nat {
    if ms == [] then 0 else Lost(ms[0]) + LostAccepts(ms[1..])
  }

  function Lost(m: Mixed): nat { if m.MapAccepted? && m.result < 0 then 1 else 0 }

  lemma HandleOwes(s: State, m: Mixed, hugetlb: bool, env: Env)
    requires PoolInv(s) && RingInv(s) && !m.Nothing?
    ensures Owes(s, Handle(s, m, hugetlb, env), Lost(m), env)
  {
    match m
    case MapSentZc(fd, sentOut, more) => SentZcOwes(s, fd, sentOut, more, env);
    case MapRecvMulti(fd, bufId, bufLen, shutdown) => RecvOwes(s, fd, bufId, bufLen, shutdown, env);
    case MapAccepted(result) => AcceptedOwes(s, result, hugetlb, env);
  }

  // ---------------------------------------------------------------- batches and runs

  /** The drain loop: completions in order until one does not return Ok. */
  ghost function Drain(s: State, ms: seq<Mixed>, hugetlb: bool, env: Env): Result
    requires PoolInv(s) && RingInv(s)
    requires forall i :: 0 <= i < |ms| ==> !ms[i].Nothing?
    decreases |ms|
  {
    if ms == [] then Result(s, Ok(()))
    else
      HandleOwes(s, ms[0], hugetlb, env);
      var r := Handle(s, ms[0], hugetlb, env);
      if r.reply.Ok? then Drain(r.state, ms[1..], hugetlb, env) else r
  }

  lemma {:induction false} DrainOwes(s: State, ms: seq<Mixed>, hugetlb: bool, env: Env)
    requires PoolInv(s) && RingInv(s)
    requires forall i :: 0 <= i < |ms| ==> !ms[i].Nothing?
    ensures Owes(s, Drain(s, ms, hugetlb, env), LostAccepts(ms), env)
    decreases |ms|
  {
    if ms != [] {
      HandleOwes(s, ms[0], hugetlb, env);
      var r := Handle(s, ms[0], hugetlb, env);
      if r.reply.Ok? { DrainOwes(r.state, ms[1..], hugetlb, env); }
    }
  }

  /** The completion says that slot k's peer is gone. */
  predicate SaysGone(m: Mixed, k: nat) { m.MapRecvMulti? && m.fixedFd == k && m.shutdown }

  ghost predicate NewlyAccepted(ms: seq<Mixed>, k: nat) { exists i :: 0 <= i < |ms| && ms[i] == MapAccepted(k) }

  ghost predicate Ended(ms: seq<Mixed>, k: nat) { exists i :: 0 <= i < |ms| && SaysGone(ms[i], k) }

  lemma HandleGone(s: State, m: Mixed, hugetlb: bool, env: Env, k: nat)
    requires PoolInv(s) && RingInv(s) && !m.Nothing? && PoolSane(s) && Handle(s, m, hugetlb, env).reply.Ok? && m != MapAccepted(k)
    ensures k in Handle(s, m, hugetlb, env).state.pool <==> k in s.pool && !SaysGone(m, k)
  {
    hide OnSentZc, OnRecvMulti, OnAccepted, Quiet, Idle, Sane;
    match m
    case MapSentZc(fd, sentOut, more) => SentZcQuiets(s, fd, sentOut, more, env);
    case MapRecvMulti(fd, bufId, bufLen, shutdown) => RecvQuiets(s, fd, bufId, bufLen, shutdown, env);
    case MapAccepted(result) => AcceptedLeaves(s, result, hugetlb, env);
  }

  /** Handled without error, a batch drops exactly the slots whose peer it says is gone, of those it does not accept
      anew. */
  lemma {:induction false} DrainGone(s: State, ms: seq<Mixed>, hugetlb: bool, env: Env, k: nat)
    requires PoolInv(s) && RingInv(s) && (forall i :: 0 <= i < |ms| ==> !ms[i].Nothing?)
    requires Drain(s, ms, hugetlb, env).reply.Ok? && !NewlyAccepted(ms, k)
    ensures k in Drain(s, ms, hugetlb, env).state.pool <==> k in s.pool && !Ended(ms, k)
    decreases |ms|
  {
    if ms != [] {
      HandleOwes(s, ms[0], hugetlb, env);
      var r := Handle(s, ms[0], hugetlb, env);
      assert ms[0] != MapAccepted(k);
      HandleGone(s, ms[0], hugetlb, env, k);
      TailEnds(ms, k);
      hide Handle, NewlyAccepted, Ended, SaysGone, PoolInv, RingInv;
      DrainGone(r.state, ms[1..], hugetlb, env, k);
    }
  }

  lemma TailEnds(ms: seq<Mixed>, k: nat)
    requires ms != []
    ensures Ended(ms, k) <==> SaysGone(ms[0], k) || Ended(ms[1..], k)
    ensures NewlyAccepted(ms[1..], k) ==> NewlyAccepted(ms, k)
  {
    if Ended(ms, k) && !SaysGone(ms[0], k) {
      var i :| 0 <= i < |ms| && SaysGone(ms[i], k);
      assert ms[1..][i - 1] == ms[i];
    }
    if Ended(ms[1..], k) {
      var i :| 0 <= i < |ms[1..]| && SaysGone(ms[1..][i], k);
      assert ms[i + 1] == ms[1..][i];
    }
    if NewlyAccepted(ms[1..], k) {
      var i :| 0 <= i < |ms[1..]| && ms[1..][i] == MapAccepted(k);
      assert ms[i + 1] == MapAccepted(k);
    }
  }

  /** Among the completions of a check: the receive that says slot k's peer is gone, and an accept into it. */
  ghost predicate PeerGone(cs: seq<Completion>, k: nat) {
    exists i :: 0 <= i < |cs| && cs[i].RecvMultiDone? && cs[i].fixedFd == k && !cs[i].more
  }

  ghost predicate AcceptsAnew(cs: seq<Completion>, k: nat) { AcceptDone(k) in cs }

  lemma CollectedEnds(cs: seq<Completion>, k: nat)
    requires Collected(cs).Done?
    ensures Ended(Collected(cs).value, k) <==> PeerGone(cs, k)
    ensures NewlyAccepted(Collected(cs).value, k) <==> AcceptsAnew(cs, k)
  {
    CollectedIs(cs);
    KeptAre(cs);
    var ms, kept := Collected(cs).value, Kept(cs);
    if Ended(ms, k) {
      var i :| 0 <= i < |ms| && SaysGone(ms[i], k);
      assert Describes(kept[i], ms[i]) && kept[i] in cs;
    }
    if PeerGone(cs, k) {
      var i :| 0 <= i < |cs| && cs[i].RecvMultiDone? && cs[i].fixedFd == k && !cs[i].more;
      assert cs[i] in kept;
      var j :| 0 <= j < |kept| && kept[j] == cs[i];
      assert Describes(kept[j], ms[j]);
    }
    if NewlyAccepted(ms, k) {
      var i :| 0 <= i < |ms| && ms[i] == MapAccepted(k);
      assert Describes(kept[i], ms[i]) && kept[i] in cs;
    }
    if AcceptsAnew(cs, k) {
      var j :| 0 <= j < |kept| && kept[j] == AcceptDone(k);
      assert Describes(kept[j], ms[j]);
    }
  }

  /** A check that ends Ok drops exactly the slots whose peer a completion says is gone, of those it does not accept
      anew. */
  lemma SlotsGone(s: State, cs: seq<Completion>, hugetlb: bool, env: Env)
    requires PoolInv(s) && RingInv(s) && Collected(cs).Done?
    ensures forall i :: 0 <= i < |Collected(cs).value| ==> !Collected(cs).value[i].Nothing?
    ensures var r := Drain(s, Collected(cs).value, hugetlb, env);
            r.reply.Ok? ==>
              forall k :: k in s.pool && !AcceptsAnew(cs, k) ==> (k !in r.state.pool <==> PeerGone(cs, k))
  {
    hide PoolInv, RingInv, Handle, NewlyAccepted, Ended, PeerGone, AcceptsAnew;
    CollectedFits(cs);
    var ms := Collected(cs).value;
    var r := Drain(s, ms, hugetlb, env);
    if r.reply.Ok? {
      forall k | k in s.pool && !AcceptsAnew(cs, k) ensures k !in r.state.pool <==> PeerGone(cs, k) {
        CollectedEnds(cs, k);
        DrainGone(s, ms, hugetlb, env, k);
      }
    }
  }

  /** A run of checks, as the serving loop makes them, until one does not return Ok. */
  ghost function Serve(s: State, batches: seq<seq<Mixed>>, hugetlb: bool, env: Env): Result
    requires PoolInv(s) && RingInv(s) && NoNothing(batches)
    decreases |batches|
  {
    if batches == [] then Result(s, Ok(()))
    else
      DrainOwes(s, batches[0], hugetlb, env);
      var r := Drain(s, batches[0], hugetlb, env);
      if r.reply.Ok? then Serve(r.state, batches[1..], hugetlb, env) else r
  }

  ghost predicate NoNothing(batches: seq<seq<Mixed>>) {
    forall i, j :: 0 <= i < |batches| && 0 <= j < |batches[i]| ==> !batches[i][j].Nothing?
  }

  function AllLost(batches: seq<seq<Mixed>>): nat {
    if batches == [] then 0 else LostAccepts(batches[0]) + AllLost(batches[1..])
  }

  lemma {:induction false} ServeOwes(s: State, batches: seq<seq<Mixed>>, hugetlb: bool, env: Env)
    requires PoolInv(s) && RingInv(s) && NoNothing(batches)
    ensures Owes(s, Serve(s, batches, hugetlb, env), AllLost(batches), env)
    decreases |batches|
  {
    if batches != [] {
      DrainOwes(s, batches[0], hugetlb, env);
      var r := Drain(s, batches[0], hugetlb, env);
      if r.reply.Ok? { ServeOwes(r.state, batches[1..], hugetlb, env); }
    }
  }

  /** The buffer group a stream registers: its fixed descriptor as a u16. */
  function BufGroup(s: TcpStream): nat { s.fixedFd % 65536 }

  /** From a listener that has just replenished, over any run of Ok checks: registered rings are exactly the
      pooled streams', their buffer groups are pairwise distinct, and the accept requests in flight are the initial
      ones less the failed accepts. */
  lemma ListenerBalance(replCc: nat, t: nat, batches: seq<seq<Mixed>>, hugetlb: bool, env: Env)
    requires NoNothing(batches)
    ensures var r := Serve(State(map[], {}, replCc, t), batches, hugetlb, env);
            && (r.reply.Panics? ==> r.reply.why != Unreachable)
            && (forall k1, k2 :: k1 in r.state.pool && k2 in r.state.pool && k1 != k2 ==>
                  r.state.pool[k1].Accepted? && r.state.pool[k2].Accepted? &&
                  BufGroup(r.state.pool[k1].s) != BufGroup(r.state.pool[k2].s))
            && (r.reply.Ok? ==> r.state.outstanding == replCc - AllLost(batches))
            && (r.reply.Ok? && Unregisters(env) ==> r.state.rings == r.state.pool.Keys)
  {
    ServeOwes(State(map[], {}, replCc, t), batches, hugetlb, env);
  }
}
