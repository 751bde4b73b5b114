// TcpClientPool: the object that opens a fixed number of connections and drives them in batches.

module ClientPool {
  import opened Common
  import Engine
  import opened Streams
  import opened ClientModel

  class TcpClientPool {
    var pool: map<nat, ClientSlotCtx>
    const poolCount: nat
    const hugetlb: bool
    var stateConnecting: nat
    var stateError: nat
    var stateConnected: nat
    var clock: nat

    ghost function Abstract(): State
      reads this
    { State(pool, stateConnecting, stateError, stateConnected, clock) }

    ghost predicate Valid()
      reads this
    { PoolSane(Abstract()) }

    constructor WithCapacity(poolCap: nat, hugetlb: bool)
      ensures Valid() && Abstract() == State(map[], 0, 0, 0, 0)
      ensures poolCount == poolCap && this.hugetlb == hugetlb
    {
      poolCount, this.hugetlb := poolCap, hugetlb;
      pool, stateConnecting, stateError, stateConnected, clock := map[], 0, 0, 0, 0;
    }

    /** Request a socket and a connect for every slot. pushes: whether each unwrapped push succeeds;
        opIdx: the request number a push returns. */
    method ConnectWithCb(pushes: nat -> bool, opIdx: nat -> nat) returns (r: Outcome<nat>)
      requires Valid()
      modifies this
      ensures Valid() && (r == Done(poolCount) || r == Panicked(UnwrapFailed))
      ensures r.Done? <==> forall i :: 0 <= i <= 2 * poolCount ==> pushes(i)
      ensures r.Done? ==>
                && stateConnecting == old(stateConnecting) + poolCount
                && stateError == old(stateError) && stateConnected == old(stateConnected)
                && Opened(pool, poolCount, opIdx, old(pool).Keys)
      ensures r.Done? && old(pool) == map[] && old(stateConnecting) == old(stateError) == old(stateConnected) == 0 ==>
                && ClientInv(Abstract(), poolCount)
                && stateConnecting == poolCount
                && forall k :: k in pool ==> pool[k] == Connecting(opIdx(2 * k + 1))
    {
      hide PoolSane, ClientInv, Opened;
      var submitted := 0;
      OpenNone(pool, opIdx);
      for x := 0 to poolCount
        invariant forall i :: 0 <= i < 2 * x ==> pushes(i)
        invariant submitted == x && stateConnecting == old(stateConnecting) + x && PoolSane(Abstract())
        invariant unchanged(this`stateError, this`stateConnected)
        invariant Opened(pool, x, opIdx, old(pool).Keys)
      {
        if !pushes(2 * x) || !pushes(2 * x + 1) { return Panicked(UnwrapFailed); }
        PutConnecting(Abstract(), x, opIdx(2 * x + 1));
        OpenNext(pool, x, opIdx, old(pool).Keys);
        submitted := submitted + 1;
        stateConnecting := stateConnecting + 1;
        pool := pool[x := Connecting(opIdx(2 * x + 1))];
      }
      if !pushes(2 * poolCount) { return Panicked(UnwrapFailed); }
      if old(pool) == map[] && old(stateConnecting) == old(stateError) == old(stateConnected) == 0 {
        assert old(pool).Keys == {};
        AllConnecting(Abstract(), poolCount, opIdx);
      }
      return Done(submitted);
    }

    /** The collection closure over at most n completions: every push fits the bounded queue. */
    method Collect(n: nat, completions: seq<Completion>) returns (r: Outcome<Batch>)
      requires |completions| <= n
      ensures r == Collected(completions)
      ensures r.Done? ==> |r.value.bundle| <= n && r.value.e == Connects(r.value.bundle)
      ensures Batched(completions, r)
    {
      hide Batched;
      CollectedIs(completions);
      var user := Batch([], 0);
      CollectedFits(completions);
      for i := 0 to |completions|
        invariant Collected(completions[..i]) == Done(user) && |user.bundle| <= i
      {
        assert completions[..i + 1][..i] == completions[..i];
        var next := Convert(user, completions[i]);
        if next.Panicked? {
          CollectedFails(completions, i);
          return next;
        }
        user := next.value;
      }
      assert completions[..|completions|] == completions;
      return Done(user);
    }

    /** Check in at most n events; Ok carries the number of connect completions. completions: those the ring hands
        over; ringOk: it then reports no error, as the program takes for granted. */
    method Check(n: nat, completions: seq<Completion>, ringOk: bool, env: Env) returns (r: Reply<nat>)
      requires Valid() && |completions| <= n
      modifies this
      ensures Valid()
      ensures match Collected(completions)
              case Panicked(why) => r == Panics(why) && Abstract() == old(Abstract())
              case Done(batch) =>
                if !ringOk then r == Panics(UnwrapFailed) && Abstract() == old(Abstract()) else
                var d := Drain(old(Abstract()), batch.bundle, hugetlb, env);
                Abstract() == d.state && r == (match d.reply
                                               case Ok(_) => Ok(batch.e)
                                               case Err(e) => Err(e)
                                               case Panics(why) => Panics(why))
      ensures r.Ok? && old(ClientInv(Abstract(), poolCount)) &&
              AllExpected(old(Abstract()), Collected(completions).value.bundle, hugetlb, env) ==>
                ClientInv(Abstract(), poolCount) && r.value == old(stateConnecting) - stateConnecting
    {
      var collected := Collect(n, completions);
      if collected.Panicked? {
        return Panics(collected.why);
      }
      if !ringOk {
        return Panics(UnwrapFailed);
      }
      DrainSane(Abstract(), collected.value.bundle, hugetlb, env);
      if ClientInv(Abstract(), poolCount) && AllExpected(Abstract(), collected.value.bundle, hugetlb, env) {
        DrainSettles(Abstract(), poolCount, collected.value.bundle, hugetlb, env);
      }
      var drained := DrainBundle(collected.value.bundle, env);
      match drained
      case Ok(_) => return Ok(collected.value.e);
      case Err(e) => return Err(e);
      case Panics(why) => return Panics(why);
    }

    /** The drain loop of check. */
    method DrainBundle(bundle0: seq<Mixed>, env: Env) returns (r: Reply<()>)
      requires Valid()
      modifies this
      ensures Result(Abstract(), r) == Drain(old(Abstract()), bundle0, hugetlb, env)
    {
      hide Handle;
      var bundle := bundle0;
      while bundle != []
        invariant Valid()
        invariant Drain(old(Abstract()), bundle0, hugetlb, env) == Drain(Abstract(), bundle, hugetlb, env)
        decreases |bundle|
      {
        var mixed := bundle[0];
        HandleSane(Abstract(), mixed, hugetlb, env);
        r := HandleMixed(mixed, env);
        if !r.Ok? {
          return r;
        }
        bundle := bundle[1..];
      }
      return Ok(());
    }

    method HandleMixed(mixed: Mixed, env: Env) returns (r: Reply<()>)
      requires Valid()
      modifies this
      ensures Result(Abstract(), r) == Handle(old(Abstract()), mixed, hugetlb, env)
    {
      match mixed
      case Nothing => return Panics(Unreachable);
      case MapRecvMulti(fd, bufId, bufLen) => r := HandleRecv(fd, bufId, bufLen, env);
      case MapSentZc(fd, sentOut, more) => r := HandleSentZc(fd, sentOut, more);
      case MapConnected(fd, result) => r := HandleConnected(fd, result, env);
    }

    method HandleRecv(slot: nat, bufId: Option<nat>, bufLen: nat, env: Env) returns (r: Reply<()>)
      requires Valid()
      modifies this
      ensures Result(Abstract(), r) == OnRecvMulti(old(Abstract()), slot, bufId, bufLen, env)
      ensures Quiets(old(Abstract()), slot, Result(Abstract(), r))
      ensures RecvReplies(old(Abstract()), slot, bufId, bufLen, env, r)
      ensures Counts(old(Abstract()), poolCount, MapRecvMulti(slot, bufId, bufLen)) ==>
                Settles(old(Abstract()), poolCount, Result(Abstract(), r), 0)
    {
      hide RecvReplies;
      RecvMultiReplies(Abstract(), slot, bufId, bufLen, env);
      RecvQuiets(Abstract(), slot, bufId, bufLen, env);
      if Counts(Abstract(), poolCount, MapRecvMulti(slot, bufId, bufLen)) {
        RecvSettles(Abstract(), poolCount, slot, bufId, bufLen, env);
      }
      hide Quiets, Settles, Counts, Answer;
      if slot !in pool { return Panics(ToDo); }
      var stream := pool[slot].Stream();
      if stream.None? { return Panics(Unreachable); }
      var op := OnRecv(stream.value, bufId, bufLen);
      pool := pool[slot := pool[slot].With(op.stream)];
      if !op.reply.Ok? { return op.reply; }
      r := AnswerRecv(slot, op.stream, env);
    }

    /** The callback, one send, a submit, and freeing buffers. */
    method AnswerRecv(slot: nat, stream: TcpStream, env: Env) returns (r: Reply<()>)
      requires slot in pool && pool[slot].Stream() == Some(stream) && Sane(stream)
      modifies this
      ensures Result(Abstract(), r) == Answer(old(Abstract()), slot, stream, env)
    {
      hide SendOut, Callback, FreeBufs;
      var entry, start := pool[slot], clock;
      CallbackKeeps(env, start, stream, false);
      var cb := Callback(env, start, stream, false);
      clock := start + 1;
      if cb.Panicked? { return Panics(cb.why); }
      var sent := SendOut(cb.value, env.accepts(start + 1));
      pool := pool[slot := entry.With(sent.stream)];
      clock := start + 3;
      if sent.reply.Err? { return Err(sent.reply.error); }
      if sent.reply.Panics? { return Panics(sent.reply.why); }
      if !env.ok(start + 2) { return Err(Bearer); }
      var f := FreeBufs(sent.stream);
      pool := pool[slot := entry.With(f.stream)];
      return f.reply;
    }

    method HandleSentZc(slot: nat, sentOut: nat, more: bool) returns (r: Reply<()>)
      modifies this`pool
      ensures Result(Abstract(), r) == OnSentZc(old(Abstract()), slot, sentOut, more)
      ensures Retires(old(Abstract()), slot, sentOut, more, Result(Abstract(), r))
      ensures Counts(old(Abstract()), poolCount, MapSentZc(slot, sentOut, more)) ==>
                Settles(old(Abstract()), poolCount, Result(Abstract(), r), 0)
    {
      SentRetires(Abstract(), slot, sentOut, more);
      if Counts(Abstract(), poolCount, MapSentZc(slot, sentOut, more)) {
        SentSettles(Abstract(), poolCount, slot, sentOut, more);
      }
      hide Retires, Settles, Counts;
      if slot !in pool { return Panics(ToDo); }
      var stream := pool[slot].Stream();
      if stream.None? { return Panics(Unreachable); }
      var op := OnSent(stream.value, sentOut, more);
      pool := pool[slot := pool[slot].With(op.stream)];
      return op.reply;
    }

    method HandleConnected(slot: nat, result: int, env: Env) returns (r: Reply<()>)
      modifies this
      ensures Result(Abstract(), r) == OnConnected(old(Abstract()), slot, result, hugetlb, env)
      ensures Moves(old(Abstract()), slot, result, Result(Abstract(), r))
      ensures ConnectReplies(old(Abstract()), slot, result, hugetlb, env, Result(Abstract(), r))
      ensures Counts(old(Abstract()), poolCount, MapConnected(slot, result)) ==>
                Settles(old(Abstract()), poolCount, Result(Abstract(), r), 1)
    {
      hide ConnectReplies;
      ConnectedReplies(Abstract(), slot, result, hugetlb, env);
      ConnectedMoves(Abstract(), slot, result, hugetlb, env);
      if Counts(Abstract(), poolCount, MapConnected(slot, result)) {
        ConnectedSettles(Abstract(), poolCount, slot, result, hugetlb, env);
      }
      hide Open, Moves, Settles, Counts;
      if slot !in pool { return Panics(ToDo); }
      if result == 0 {
        r := OpenStream(slot, env);
      } else {
        if stateConnecting == 0 { return Panics(Underflow); }
        stateConnecting := stateConnecting - 1;
        stateError := stateError + 1;
        pool := pool[slot := ConnectingError(result)];
        return Ok(());
      }
    }

    /** The buffers and ring of a connected slot; the counters move once they are there. */
    method OpenStream(slot: nat, env: Env) returns (r: Reply<()>)
      modifies this
      ensures Result(Abstract(), r) == Open(old(Abstract()), slot, hugetlb, env)
    {
      hide Greet;
      var start := clock;
      var stream := Streams.Connected(slot);
      if hugetlb {
        clock := start + 2;
        if !env.ok(start) || !env.ok(start + 1) { return Err(HugeTlb); }
        if SlotU16(slot).Err? { return Err(LimitHugeTlbU16); }
        clock := start + 3;
        if !env.ok(start + 2) { return Err(RingBuf); }
        stream := StreamingHugeTlb(slot, Engine.FRESH_CURSOR);
      }
      clock := start + 3;
      if stateConnecting == 0 { return Panics(Underflow); }
      stateConnecting := stateConnecting - 1;
      stateConnected := stateConnected + 1;
      r := Welcome(slot, stream, env);
    }

    /** The callback, receive request and first send of a new connection; only then is it stored. */
    method Welcome(slot: nat, newcomer: TcpStream, env: Env) returns (r: Reply<()>)
      requires Sane(newcomer)
      modifies this
      ensures Result(Abstract(), r) == Greet(old(Abstract()), slot, newcomer, env)
      ensures Stores(old(Abstract()), slot, newcomer, Result(Abstract(), r))
    {
      GreetStores(Abstract(), slot, newcomer, env);
      hide SendOut, Callback, Stores;
      var start := clock;
      CallbackKeeps(env, start, newcomer, false);
      var cb := Callback(env, start, newcomer, false);
      clock := start + 1;
      if cb.Panicked? { return Panics(cb.why); }
      var started := StartRecv(cb.value, env.ok(start + 1));
      clock := start + 2;
      if !started.Ok? { return started; }
      var op := SendOut(cb.value, env.accepts(start + 2));
      clock := start + 3;
      if op.reply.Err? { return Err(op.reply.error); }
      if op.reply.Panics? { return Panics(op.reply.why); }
      pool := pool[slot := ClientSlotCtx.Connected(op.stream)];
      clock := start + 4;
      if !env.ok(start + 3) { return Err(Bearer); }
      return Ok(());
    }
  }
}
