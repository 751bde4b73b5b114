// TcpListener: the object that accepts connections and drives the pooled streams.

module Listener {
  import opened Common
  import Engine
  import opened Streams
  import opened ListenerModel

  /** The callback and send loop of check, for one stream. */
  method DriveSends(env: Env, t: nat, stream: TcpStream) returns (l: Loop)
    requires Sane(stream)
    ensures l == SendLoop(env, t, stream)
    ensures l.calls <= Gate(stream) + 1 <= 7
    ensures LoopEnds(env, t, stream, l)
  {
    hide SendOut, Callback, LoopEnds;
    LoopReplies(env, t, stream);
    SendLoopBounded(env, t, stream);
    var s, clock, calls := stream, t, 0;
    while true
      invariant Sane(s)
      invariant SendLoop(env, t, stream) == var rest := SendLoop(env, clock, s); rest.(calls := rest.calls + calls)
      decreases Gate(s)
    {
      calls := calls + 1;
      CallbackKeeps(env, clock, s, false);
      var cb := Callback(env, clock, s, false);
      if cb.Panicked? {
        return Loop(s, clock + 1, calls, Panics(cb.why));
      }
      SendOutKeeps(cb.value, env.accepts(clock));
      var op := SendOut(cb.value, env.accepts(clock));
      s, clock := op.stream, clock + 1;
      if op.reply.Err? {
        return Loop(s, clock, calls, Err(op.reply.error));
      }
      if op.reply.Panics? {
        return Loop(s, clock, calls, Panics(op.reply.why));
      }
      if op.reply.value != 0 {
        var submitted := env.ok(clock);
        clock := clock + 1;
        if !submitted {
          return Loop(s, clock, calls, Err(Bearer));
        }
      } else {
        return Loop(s, clock, calls, Ok(()));
      }
    }
  }

  class TcpListener {
    var pool: map<nat, ListenerSlotCtx>
    const hugetlb: bool
    // the kernel's side
    var rings: set<nat>
    ghost var outstanding: int
    var clock: nat

    ghost function Abstract(): State
      reads this
    { State(pool, rings, outstanding, clock) }

    ghost predicate Valid()
      reads this
    { PoolInv(Abstract()) && RingInv(Abstract()) }

    constructor (hugetlb: bool)
      ensures Valid() && Abstract() == State(map[], {}, 0, 0) && this.hugetlb == hugetlb
    {
      this.hugetlb := hugetlb;
      pool, rings, outstanding, clock := map[], {}, 0, 0;
    }

    /** accept_replenish_cc: replCc single-shot accept requests, then one submit. */
    method AcceptReplenish(replCc: nat, env: Env) returns (r: Reply<()>)
      requires Valid()
      modifies this`outstanding, this`clock
      ensures Valid() && (r == Ok(()) || r == Err(Bearer))
      ensures old(outstanding) <= outstanding <= old(outstanding) + replCc
      ensures r.Ok? ==> outstanding == old(outstanding) + replCc
      ensures r.Ok? <==> forall i :: old(clock) <= i <= old(clock) + replCc ==> env.ok(i)
    {
      for x := 0 to replCc
        invariant outstanding == old(outstanding) + x && clock == old(clock) + x
        invariant forall i :: old(clock) <= i < clock ==> env.ok(i)
      {
        var added := env.ok(clock);
        clock := clock + 1;
        if !added { return Err(Bearer); }
        outstanding := outstanding + 1;
      }
      var submitted := env.ok(clock);
      clock := clock + 1;
      if !submitted { return Err(Bearer); }
      return Ok(());
    }

    /** The collection closure over at most n completions: every push fits the bounded queue. */
    method Collect(n: nat, completions: seq<Completion>) returns (r: Outcome<seq<Mixed>>)
      requires |completions| <= n
      ensures r == Collected(completions)
      ensures r.Done? ==> |r.value| <= n
      ensures Batched(completions, r)
    {
      hide Batched;
      var bundle: seq<Mixed> := [];
      CollectedFits(completions);
      CollectedIs(completions);
      for i := 0 to |completions|
        invariant Collected(completions[..i]) == Done(bundle) && |bundle| <= i
      {
        assert completions[..i + 1][..i] == completions[..i];
        var pushed := Convert(completions[i]);
        if pushed.Panicked? {
          CollectedFails(completions, i);
          return Panicked(pushed.why);
        }
        assert |bundle| + |pushed.value| <= n;    // push never finds the queue full
        bundle := bundle + pushed.value;
      }
      assert completions[..|completions|] == completions;
      return Done(bundle);
    }

    /** Check for at most n events. completions: those the ring hands over; ringOk: it then reports no error. */
    method Check(n: nat, completions: seq<Completion>, ringOk: bool, env: Env) returns (r: Reply<()>)
      requires Valid() && |completions| <= n
      modifies this
      ensures Valid()
      ensures match Collected(completions)
              case Panicked(why) => r == Panics(why) && Abstract() == old(Abstract())
              case Done(bundle) =>
                if !ringOk then r == Err(Bearer) && Abstract() == old(Abstract()) else
                && (forall i :: 0 <= i < |bundle| ==> !bundle[i].Nothing?)
                && Result(Abstract(), r) == Drain(old(Abstract()), bundle, hugetlb, env)
                && Owes(old(Abstract()), Result(Abstract(), r), LostAccepts(bundle), env)
      ensures r.Ok? ==>
                forall k :: k in old(pool) && !AcceptsAnew(completions, k) ==> (k !in pool <==> PeerGone(completions, k))
    {
      hide Handle, Owes, NewlyAccepted, Ended, PeerGone, AcceptsAnew, Batched;
      var collected := Collect(n, completions);
      CollectedFits(completions);
      if collected.Panicked? {
        return Panics(collected.why);
      }
      if !ringOk {
        return Err(Bearer);
      }
      var bundle := collected.value;
      DrainOwes(Abstract(), bundle, hugetlb, env);
      SlotsGone(Abstract(), completions, hugetlb, env);
      while bundle != []
        invariant Valid()
        invariant forall i :: 0 <= i < |bundle| ==> !bundle[i].Nothing?
        invariant Drain(old(Abstract()), collected.value, hugetlb, env) == Drain(Abstract(), bundle, hugetlb, env)
        decreases |bundle|
      {
        var mixed := bundle[0];
        HandleOwes(Abstract(), mixed, hugetlb, env);
        r := HandleMixed(mixed, env);
        if !r.Ok? {
          return r;
        }
        bundle := bundle[1..];
      }
      return Ok(());
    }

    method HandleMixed(mixed: Mixed, env: Env) returns (r: Reply<()>)
      requires Valid() && !mixed.Nothing?
      modifies this
      ensures Result(Abstract(), r) == Handle(old(Abstract()), mixed, hugetlb, env)
    {
      match mixed
      case Nothing => assert false;
      case MapSentZc(fd, sentOut, more) => r := HandleSentZc(fd, sentOut, more, env);
      case MapRecvMulti(fd, bufId, bufLen, shutdown) => r := HandleRecv(fd, bufId, bufLen, shutdown, env);
      case MapAccepted(result) => r := HandleAccepted(result, env);
    }

    method HandleSentZc(slot: nat, sentOut: nat, more: bool, env: Env) returns (r: Reply<()>)
      requires Valid()
      modifies this
      ensures Result(Abstract(), r) == OnSentZc(old(Abstract()), slot, sentOut, more, env)
      ensures Owes(old(Abstract()), Result(Abstract(), r), 0, env)
      ensures Quiets(old(Abstract()), slot, false, Result(Abstract(), r))
      ensures SentReplies(old(Abstract()), slot, sentOut, more, env, r)
    {
      hide SentReplies, Tails;
      SentZcReplies(Abstract(), slot, sentOut, more, env);
      SentZcOwes(Abstract(), slot, sentOut, more, env);
      SentZcQuiets(Abstract(), slot, sentOut, more, env);
      hide Owes, Quiets, Settle;
      if slot !in pool { return Panics(ToDo); }
      var stream := pool[slot].Stream();
      if stream.None? { return Panics(Unreachable); }
      var op := OnSent(stream.value, sentOut, more);
      if !op.reply.Ok? {
        pool := pool[slot := pool[slot].With(op.stream)];
        return op.reply;
      }
      SendLoopBounded(env, clock, op.stream);
      var l := DriveSends(env, clock, op.stream);
      r := Finish(slot, l, false, env);
    }

    method HandleRecv(slot: nat, bufId: Option<nat>, bufLen: nat, shutdown: bool, env: Env) returns (r: Reply<()>)
      requires Valid()
      modifies this
      ensures Result(Abstract(), r) == OnRecvMulti(old(Abstract()), slot, bufId, bufLen, shutdown, env)
      ensures Owes(old(Abstract()), Result(Abstract(), r), 0, env)
      ensures Quiets(old(Abstract()), slot, shutdown, Result(Abstract(), r))
      ensures RecvReplies(old(Abstract()), slot, bufId, bufLen, shutdown, env, r)
    {
      hide RecvReplies, Tails;
      RecvMultiReplies(Abstract(), slot, bufId, bufLen, shutdown, env);
      RecvOwes(Abstract(), slot, bufId, bufLen, shutdown, env);
      RecvQuiets(Abstract(), slot, bufId, bufLen, shutdown, env);
      hide Owes, Quiets, Settle, AfterRecv, SendLoop, Callback;
      if slot !in pool { return Panics(ToDo); }
      var stream := pool[slot].Stream();
      if stream.None? { return Panics(Unreachable); }
      var op := OnRecv(stream.value, bufId, bufLen);
      if !op.reply.Ok? {
        pool := pool[slot := pool[slot].With(op.stream)];
        return op.reply;
      }
      SendLoopBounded(env, clock, op.stream);
      CallbackKeeps(env, clock, op.stream, true);
      var l := RunCallbacks(op.stream, shutdown, env);
      r := Finish(slot, l, shutdown, env);
    }

    /** One callback and no send when the peer is gone, else the send loop. */
    method RunCallbacks(stream: TcpStream, shutdown: bool, env: Env) returns (l: Loop)
      requires Sane(stream)
      ensures l == AfterRecv(env, clock, stream, shutdown)
    {
      if shutdown {
        var cb := Callback(env, clock, stream, true);
        match cb
        case Done(s) => return Loop(s, clock + 1, 1, Ok(()));
        case Panicked(why) => return Loop(stream, clock + 1, 1, Panics(why));
      } else {
        l := DriveSends(env, clock, stream);
      }
    }

    /** What follows the callbacks: store the stream, free its buffers, and drop the slot on shutdown. */
    method Finish(slot: nat, l: Loop, shutdown: bool, env: Env) returns (r: Reply<()>)
      requires slot in pool && pool[slot].Stream().Some?
      modifies this
      ensures Result(Abstract(), r) == Settle(old(Abstract()), slot, l, shutdown, env)
    {
      hide FreeBufs;
      pool := pool[slot := pool[slot].With(l.stream)];
      clock := l.t;
      if !l.reply.Ok? { return l.reply; }
      var f := FreeBufs(l.stream);
      pool := pool[slot := pool[slot].With(f.stream)];
      if !f.reply.Ok? { return f.reply; }
      if shutdown {
        var stream := f.stream;
        pool := pool - {slot};
        if stream.StreamingHugeTlb? && env.unregisters(clock) {
          rings := rings - {stream.fixedFd};
        }
        pool := pool - {slot};    // line 429 removes it once more
        clock := clock + 2;
        if !env.ok(clock - 1) { return Panics(UnwrapFailed); }
      }
      return Ok(());
    }

    method HandleAccepted(result: int, env: Env) returns (r: Reply<()>)
      requires Valid()
      modifies this
      ensures Result(Abstract(), r) == OnAccepted(old(Abstract()), result, hugetlb, env)
      ensures Owes(old(Abstract()), Result(Abstract(), r), if result < 0 then 1 else 0, env)
      ensures Leaves(old(Abstract()), result, hugetlb, env, Result(Abstract(), r))
      ensures AcceptReplies(old(Abstract()), result, hugetlb, env, Result(Abstract(), r))
    {
      hide Open, PoolInv, RingInv, Owes, Leaves, AcceptReplies;
      AcceptedReplies(Abstract(), result, hugetlb, env);
      AcceptedOwes(Abstract(), result, hugetlb, env);
      AcceptedLeaves(Abstract(), result, hugetlb, env);
      outstanding := outstanding - 1;
      if result < 0 { return Ok(()); }
      var start := clock;
      clock := start + 1;
      if !env.ok(start) { return Err(Bearer); }
      outstanding := outstanding + 1;
      clock := start + 2;
      if !env.ok(start + 1) { return Err(Bearer); }
      r := OpenStream(result, env);
    }

    /** The buffers and ring of a new connection. */
    method OpenStream(fd: nat, env: Env) returns (r: Reply<()>)
      modifies this
      ensures Result(Abstract(), r) == Open(old(Abstract()), fd, hugetlb, env)
      ensures Opens(old(Abstract()), fd, hugetlb, Result(Abstract(), r)) && outstanding == old(outstanding)
      ensures r.Ok? <==> Connects(old(rings), old(clock), fd, hugetlb, env)
    {
      hide Connects;
      OpenReplies(Abstract(), fd, hugetlb, env);
      OpenOpens(Abstract(), fd, hugetlb, env);
      hide Greet, Opens;
      var start := clock;
      if !hugetlb {
        clock := start + 1;
        return Err(BpNeedBuffers);
      }
      clock := start + 2;
      if !env.ok(start) || !env.ok(start + 1) { return Err(HugeTlb); }
      if SlotU16(fd).Err? { return Err(LimitHugeTlbU16); }
      clock := start + 3;
      if !env.ok(start + 2) || fd in rings { return Err(RingBuf); }
      rings := rings + {fd};
      r := Welcome(fd, env);
    }

    /** The fresh stream's callback, receive request and first send; then it enters the pool. */
    method Welcome(fd: nat, env: Env) returns (r: Reply<()>)
      modifies this
      ensures Result(Abstract(), r) == Greet(old(Abstract()), fd, env)
      ensures StoresOnly(old(pool), pool, fd) && rings == old(rings) && outstanding == old(outstanding)
      ensures r.Ok? ==> fd in pool
    {
      GreetStores(Abstract(), fd, env);
      hide SendOut, Callback, StoresOnly;
      var start := clock;
      var newcomer := StreamingHugeTlb(fd, Engine.FRESH_CURSOR);
      CallbackKeeps(env, start, newcomer, false);
      var cb := Callback(env, start, newcomer, false);
      clock := start + 1;
      if cb.Panicked? { return Panics(cb.why); }
      var started := StartRecv(cb.value, env.ok(start + 1));
      clock := start + 2;
      if !started.Ok? { return started; }
      var op := SendOut(cb.value, env.accepts(start + 2));
      clock := start + 3;
      if op.reply.Err? { return Err(op.reply.error); }
      if op.reply.Panics? { return Panics(op.reply.why); }
      pool := pool[fd := Accepted(op.stream)];
      clock := start + 4;
      if !env.ok(start + 3) { return Err(Bearer); }
      return Ok(());
    }
  }
}
