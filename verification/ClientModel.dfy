// What TcpClientPool does to its slots and counters, and what every run of checks keeps.

module ClientModel {
  import opened Common
  import opened Engine
  import opened Streams

  datatype ClientSlotCtx =
    | Created
    | Connecting(op: nat)
    | ConnectingError(code: int)
    | Connected(s: TcpStream)
    | Reading(s: TcpStream)
    | Writing(s: TcpStream)
    | ReadingAndWriting(s: TcpStream)
    | ShutdownOk
  {
    function Stream(): Option<TcpStream> {
      match this
      case Created => None
      case Connecting(_) => None
      case ConnectingError(_) => None
      case ShutdownOk => None
      case _ => Some(this.s)
    }

    function With(stream: TcpStream): ClientSlotCtx
      requires Stream().Some?
    { this.(s := stream) }
  }

  /** A completion as the ring reports it. */
  datatype Completion =
    | SocketDone
    | ConnectDone(fixedFd: nat, result: int)
    | RecvMultiDone(fixedFd: nat, result: int, bufId: Option<nat>)
    | SendZcDone(fixedFd: nat, result: int, more: bool)
    | OtherDone

  /** ClientMapMixed: a completion in the bounded batch. */
  datatype Mixed =
    | Nothing
    | MapConnected(fixedFd: nat, result: int)
    | MapRecvMulti(fixedFd: nat, bufId: Option<nat>, bufLen: nat)
    | MapSentZc(fixedFd: nat, sentOut: nat, more: bool)

  datatype State = State(pool: map<nat, ClientSlotCtx>, connecting: nat, errors: nat, connected: nat, t: nat)

  datatype Result = Result(state: State, reply: Reply<()>)

  /** The bounded queue and the count of connect completions (user.bundle, user.e). */
  datatype Batch = Batch(bundle: seq<Mixed>, e: nat)

  // ---------------------------------------------------------------- collecting a batch

  function Convert(b: Batch, c: Completion): Outcome<Batch> {
    match c
    case SocketDone => Done(b)
    case ConnectDone(fd, result) => Done(Batch(b.bundle + [MapConnected(fd, result)], b.e + 1))
    case RecvMultiDone(fd, result, bufId) =>
      if result < 0 || bufId.None? then Panicked(BadCompletion)
      else Done(b.(bundle := b.bundle + [MapRecvMulti(fd, bufId, result)]))
    case SendZcDone(fd, result, more) =>
      if result < 0 then Done(b) else Done(b.(bundle := b.bundle + [MapSentZc(fd, result, more)]))
    case OtherDone => Panicked(BadCompletion)
  }

  /** Collecting in order; a completion that cannot be converted fails the batch. */
  function Collected(cs: seq<Completion>): Outcome<Batch> {
    if cs == [] then Done(Batch([], 0))
    else match Collected(cs[..|cs| - 1])
      case Panicked(why) => Panicked(why)
      case Done(b) => Convert(b, cs[|cs| - 1])
  }

  function Connects(ms: seq<Mixed>): nat {
    if ms == [] then 0 else (if ms[0].MapConnected? then 1 else 0) + Connects(ms[1..])
  }

  lemma {:induction false} ConnectsSnoc(ms: seq<Mixed>, m: Mixed)
    ensures Connects(ms + [m]) == Connects(ms) + if m.MapConnected? then 1 else 0
  {
    if ms == [] {
      assert [] + [m] == [m];
    } else {
      assert (ms + [m])[1..] == ms[1..] + [m];
      ConnectsSnoc(ms[1..], m);
    }
  }

  /** A batch never outgrows its completions, and its counter counts its connect completions. */
  lemma {:induction false} CollectedFits(cs: seq<Completion>)
    ensures var r := Collected(cs);
            r.Done? ==> |r.value.bundle| <= |cs| && r.value.e == Connects(r.value.bundle)
  {
    if cs != [] {
      CollectedFits(cs[..|cs| - 1]);
      var r := Collected(cs[..|cs| - 1]);
      if r.Done? {
        forall m { ConnectsSnoc(r.value.bundle, m); }
      }
    }
  }

  /** The completions that reach the batch: all but sockets and failed sends. */
  function Kept(cs: seq<Completion>): seq<Completion> {
    if cs == [] then []
    else
      var c := cs[|cs| - 1];
      Kept(cs[..|cs| - 1]) + if c.SocketDone? || (c.SendZcDone? && c.result < 0) then [] else [c]
  }

  /** A receive that failed or named no buffer, or a completion of any other kind. */
  predicate Bad(c: Completion) { c.OtherDone? || (c.RecvMultiDone? && (c.result < 0 || c.bufId.None?)) }

  /** The item tells what the completion does: the same descriptor and results. */
  predicate Describes(c: Completion, m: Mixed) {
    match c
    case ConnectDone(fd, result) => m == MapConnected(fd, result)
    case RecvMultiDone(fd, result, bufId) =>
      m.MapRecvMulti? && m.fixedFd == fd && m.bufLen == result && m.bufId == bufId
    case SendZcDone(fd, result, more) => result >= 0 && m == MapSentZc(fd, result, more)
    case _ => false
  }

  /** A batch is collected if and only if no completion is bad; it then holds, in order, one item for each completion
      that is neither a socket nor a failed send, and each item describes its completion. */
  ghost predicate Batched(cs: seq<Completion>, r: Outcome<Batch>) {
    && (r.Done? <==> forall i :: 0 <= i < |cs| ==> !Bad(cs[i]))
    && (r.Panicked? ==> r.why == BadCompletion)
    && (r.Done? ==>
          && |r.value.bundle| == |Kept(cs)|
          && forall i :: 0 <= i < |Kept(cs)| ==> Describes(Kept(cs)[i], r.value.bundle[i]))
  }

  lemma {:induction false} CollectedIs(cs: seq<Completion>)
    ensures Batched(cs, Collected(cs))
  {
    if cs != [] { CollectedIs(cs[..|cs| - 1]); }
  }

  lemma {:induction false} CollectedFails(cs: seq<Completion>, i: nat)
    requires i < |cs| && Collected(cs[..i]).Done? && Convert(Collected(cs[..i]).value, cs[i]).Panicked?
    ensures Collected(cs) == Panicked(Convert(Collected(cs[..i]).value, cs[i]).why)
  {
    var n := |cs| - 1;
    if i < n {
      assert cs[..n][..i] == cs[..i];
      CollectedFails(cs[..n], i);
    }
  }

  // ---------------------------------------------------------------- draining it

  function Put(s: State, k: nat, slot: ClientSlotCtx): State { s.(pool := s.pool[k := slot]) }

  predicate PoolSane(s: State) {
    forall k :: k in s.pool && s.pool[k].Stream().Some? ==> Sane(s.pool[k].Stream().value)
  }

  /** A receive completion: report, call back once, send once, submit, free. */
  function OnRecvMulti(s: State, k: nat, bufId: Option<nat>, bufLen: nat, env: Env): Result
    requires PoolSane(s)
  {
    if k !in s.pool then Result(s, Panics(ToDo))
    else match s.pool[k].Stream()
      case None => Result(s, Panics(Unreachable))
      case Some(stream) =>
        var op := OnRecv(stream, bufId, bufLen);
        var s0 := Put(s, k, s.pool[k].With(op.stream));
        if op.reply.Ok? then Answer(s0, k, op.stream, env) else Result(s0, op.reply)
  }

  /** What follows a receive: the callback, one send, a submit, and freeing buffers. */
  function Answer(s: State, k: nat, stream: TcpStream, env: Env): Result
    requires k in s.pool && s.pool[k].Stream() == Some(stream) && Sane(stream)
  {
    match Callback(env, s.t, stream, false)
    case Panicked(why) => Result(s.(t := s.t + 1), Panics(why))
    case Done(s1) =>
      CallbackKeeps(env, s.t, stream, false);
      var sent := SendOut(s1, env.accepts(s.t + 1));
      var st := Put(s, k, s.pool[k].With(sent.stream)).(t := s.t + 3);
      match sent.reply
      case Err(e) => Result(st, Err(e))
      case Panics(why) => Result(st, Panics(why))
      case Ok(_) =>
        if !env.ok(s.t + 2) then Result(st, Err(Bearer))
        else
          var f := FreeBufs(sent.stream);
          Result(Put(st, k, s.pool[k].With(f.stream)), f.reply)
  }

  function OnSentZc(s: State, k: nat, sentOut: nat, more: bool): Result {
    if k !in s.pool then Result(s, Panics(ToDo))
    else match s.pool[k].Stream()
      case None => Result(s, Panics(Unreachable))
      case Some(stream) =>
        var op := OnSent(stream, sentOut, more);
        Result(Put(s, k, s.pool[k].With(op.stream)), op.reply)
  }

  function OnConnected(s: State, k: nat, result: int, hugetlb: bool, env: Env): Result {
    if k !in s.pool then Result(s, Panics(ToDo))
    else if result != 0 then
      if s.connecting == 0 then Result(s, Panics(Underflow))
      else Result(Put(s, k, ConnectingError(result)).(connecting := s.connecting - 1, errors := s.errors + 1), Ok(()))
    else Open(s, k, hugetlb, env)
  }

  /** A connected slot's buffers and ring; the counters move once they are there. */
  function Open(s: State, k: nat, hugetlb: bool, env: Env): Result {
    if hugetlb && (!env.ok(s.t) || !env.ok(s.t + 1)) then Result(s.(t := s.t + 2), Err(HugeTlb))
    else if hugetlb && SlotU16(k).Err? then Result(s.(t := s.t + 2), Err(LimitHugeTlbU16))
    else if hugetlb && !env.ok(s.t + 2) then Result(s.(t := s.t + 3), Err(RingBuf))
    else if s.connecting == 0 then Result(s.(t := s.t + 3), Panics(Underflow))
    else
      var s1 := s.(connecting := s.connecting - 1, connected := s.connected + 1, t := s.t + 3);
      Greet(s1, k, if hugetlb then StreamingHugeTlb(k, FRESH_CURSOR) else Streams.Connected(k), env)
  }

  /** The first callback, receive request and send of a connected slot; only then is the stream stored. */
  function Greet(s: State, k: nat, stream: TcpStream, env: Env): Result
    requires Sane(stream)
  {
    match Callback(env, s.t, stream, false)
    case Panicked(why) => Result(s.(t := s.t + 1), Panics(why))
    case Done(s1) =>
      CallbackKeeps(env, s.t, stream, false);
      var r := StartRecv(s1, env.ok(s.t + 1));
      if !r.Ok? then Result(s.(t := s.t + 2), r)
      else
        var op := SendOut(s1, env.accepts(s.t + 2));
        match op.reply
        case Err(e) => Result(s.(t := s.t + 3), Err(e))
        case Panics(why) => Result(s.(t := s.t + 3), Panics(why))
        case Ok(_) =>
          var s2 := Put(s, k, ClientSlotCtx.Connected(op.stream)).(t := s.t + 4);
          if env.ok(s.t + 3) then Result(s2, Ok(())) else Result(s2, Err(Bearer))
  }

  function Handle(s: State, m: Mixed, hugetlb: bool, env: Env): Result
    requires PoolSane(s)
  {
    match m
    case Nothing => Result(s, Panics(Unreachable))
    case MapRecvMulti(fd, bufId, bufLen) => OnRecvMulti(s, fd, bufId, bufLen, env)
    case MapSentZc(fd, sentOut, more) => OnSentZc(s, fd, sentOut, more)
    case MapConnected(fd, result) => OnConnected(s, fd, result, hugetlb, env)
  }

  // ---------------------------------------------------------------- what every completion keeps

  function ConnectingSlots(pool: map<nat, ClientSlotCtx>): set<nat> { set k | k in pool && pool[k].Connecting? }
  function ErrorSlots(pool: map<nat, ClientSlotCtx>): set<nat> { set k | k in pool && pool[k].ConnectingError? }
  function StreamSlots(pool: map<nat, ClientSlotCtx>): set<nat> { set k | k in pool && pool[k].Stream().Some? }

  /** The counters are the sizes of the slot sets they are named after. */
  ghost predicate Counted(s: State) {
    && s.connecting == |ConnectingSlots(s.pool)|
    && s.errors == |ErrorSlots(s.pool)|
    && s.connected == |StreamSlots(s.pool)|
  }

  /** Slots 0..n-1 exist, each connecting, failed, or holding a huge-page stream for its own descriptor. */
  ghost predicate Slots(s: State, n: nat) {
    && (forall k: nat :: k in s.pool <==> k < n)
    && (forall k :: k in s.pool ==> Known(k, s.pool[k]))
  }

  ghost predicate Known(k: nat, slot: ClientSlotCtx) {
    || slot.Connecting? || slot.ConnectingError?
    || (&& slot.Stream().Some?
        && slot.Stream().value.StreamingHugeTlb? && slot.Stream().value.fixedFd == k && Sane(slot.Stream().value))
  }

  ghost predicate ClientInv(s: State, n: nat) { Slots(s, n) && Counted(s) }

  lemma SlotsSane(s: State, n: nat)
    requires Slots(s, n)
    ensures PoolSane(s)
  {
    forall k | k in s.pool && s.pool[k].Stream().Some? ensures Sane(s.pool[k].Stream().value) {
      assert Known(k, s.pool[k]);
    }
  }

  /** Every slot is in exactly one of the three sets. */
  lemma SlotsPartition(s: State, n: nat)
    requires Slots(s, n)
    ensures var c, e, d := ConnectingSlots(s.pool), ErrorSlots(s.pool), StreamSlots(s.pool);
            c + e + d == Below(n) && c !! e && (c + e) !! d
  {
    forall k | k in s.pool ensures s.pool[k].Connecting? || s.pool[k].ConnectingError? || s.pool[k].Stream().Some? {
      assert Known(k, s.pool[k]);
    }
  }

  /** The three counters account for every slot. */
  lemma CountersSum(s: State, n: nat)
    requires ClientInv(s, n)
    ensures s.connecting + s.errors + s.connected == n
  {
    hide Slots, ConnectingSlots, ErrorSlots, StreamSlots;
    SlotsPartition(s, n);
    BelowSize(n);
    var c, e, d := ConnectingSlots(s.pool), ErrorSlots(s.pool), StreamSlots(s.pool);
    assert |c + e + d| == |c + e| + |d| == |c| + |e| + |d|;
  }

  function Below(n: nat): (ks: set<nat>)
    ensures forall k: nat :: k in ks <==> k < n
  { if n == 0 then {} else Below(n - 1) + {n - 1} }

  lemma {:induction false} BelowSize(n: nat)
    ensures |Below(n)| == n
  {
    if n > 0 { BelowSize(n - 1); }
  }

  lemma PutConnecting(s: State, k: nat, op: nat)
    requires PoolSane(s)
    ensures PoolSane(Put(s, k, Connecting(op)).(connecting := s.connecting + 1))
  {}

  /** Slots 0..n-1 connect with the request numbers of their second push; before: the slots there already were. */
  ghost predicate Opened(pool: map<nat, ClientSlotCtx>, n: nat, opIdx: nat -> nat, before: set<nat>) {
    && (forall k: nat :: k < n ==> k in pool && pool[k] == Connecting(opIdx(2 * k + 1)))
    && (forall k: nat :: k in pool ==> k < n || k in before)
  }

  lemma OpenNone(pool: map<nat, ClientSlotCtx>, opIdx: nat -> nat)
    ensures Opened(pool, 0, opIdx, pool.Keys)
  {}

  lemma OpenNext(pool: map<nat, ClientSlotCtx>, n: nat, opIdx: nat -> nat, before: set<nat>)
    requires Opened(pool, n, opIdx, before)
    ensures Opened(pool[n := Connecting(opIdx(2 * n + 1))], n + 1, opIdx, before)
  {}

  lemma OpenedSets(pool: map<nat, ClientSlotCtx>, n: nat, opIdx: nat -> nat)
    requires Opened(pool, n, opIdx, {})
    ensures ConnectingSlots(pool) == Below(n) && ErrorSlots(pool) == {} && StreamSlots(pool) == {}
  {}

  /** A pool whose n slots all connect is counted by n. */
  lemma AllConnecting(s: State, n: nat, opIdx: nat -> nat)
    requires Opened(s.pool, n, opIdx, {})
    requires s.connecting == n && s.errors == s.connected == 0
    ensures ClientInv(s, n) && forall k :: k in s.pool ==> s.pool[k] == Connecting(opIdx(2 * k + 1))
  {
    hide ConnectingSlots, ErrorSlots, StreamSlots;
    BelowSize(n);
    OpenedSets(s.pool, n, opIdx);
  }

  /** Replacing one slot moves it between the slot sets. */
  lemma SlotMoves(pool: map<nat, ClientSlotCtx>, k: nat, slot: ClientSlotCtx)
    requires k in pool
    ensures ConnectingSlots(pool[k := slot]) == if slot.Connecting? then ConnectingSlots(pool) + {k} else ConnectingSlots(pool) - {k}
    ensures ErrorSlots(pool[k := slot]) == if slot.ConnectingError? then ErrorSlots(pool) + {k} else ErrorSlots(pool) - {k}
    ensures StreamSlots(pool[k := slot]) == if slot.Stream().Some? then StreamSlots(pool) + {k} else StreamSlots(pool) - {k}
  {}

  /** The kernel completes a connect once per slot, and reports nothing for slots that never connected. */
  ghost predicate Expected(s: State, m: Mixed) {
    match m
    case Nothing => false
    case MapConnected(fd, _) => fd in s.pool && s.pool[fd].Connecting?
    case MapRecvMulti(fd, _, _) => fd in s.pool && s.pool[fd].Stream().Some?
    case MapSentZc(fd, _, _) => fd in s.pool && s.pool[fd].Stream().Some?
  }

  ghost predicate Counts(s: State, n: nat, m: Mixed) { ClientInv(s, n) && Expected(s, m) }

  /** After Ok the counters still agree with the map; connects: how many slots left Connecting. */
  ghost predicate Settles(s: State, n: nat, r: Result, connects: nat) {
    && (r.reply.Ok? ==> ClientInv(r.state, n) && r.state.connecting == s.connecting - connects)
    && (r.reply.Panics? ==> r.reply.why != Unreachable)
  }

  lemma StreamPutKeeps(s: State, n: nat, k: nat, slot: ClientSlotCtx)
    requires ClientInv(s, n) && k in s.pool && s.pool[k].Stream().Some?
    requires slot.Stream().Some? && Known(k, slot)
    ensures ClientInv(Put(s, k, slot), n) && Put(s, k, slot).connecting == s.connecting
  {
    SlotMoves(s.pool, k, slot);
    assert k in StreamSlots(s.pool) && k !in ConnectingSlots(s.pool) && k !in ErrorSlots(s.pool);
    assert StreamSlots(s.pool) + {k} == StreamSlots(s.pool);
    assert ConnectingSlots(s.pool) - {k} == ConnectingSlots(s.pool);
    assert ErrorSlots(s.pool) - {k} == ErrorSlots(s.pool);
  }

  lemma RecvSettles(s: State, n: nat, k: nat, bufId: Option<nat>, bufLen: nat, env: Env)
    requires ClientInv(s, n) && k in s.pool && s.pool[k].Stream().Some?
    ensures PoolSane(s) && Settles(s, n, OnRecvMulti(s, k, bufId, bufLen, env), 0)
  {
    hide SendOut, Callback;
    SlotsSane(s, n);
    assert Known(k, s.pool[k]);
    var slot := s.pool[k];
    var op := OnRecv(slot.Stream().value, bufId, bufLen);
    if op.reply.Ok? {
      CallbackKeeps(env, s.t, op.stream, false);
      if Callback(env, s.t, op.stream, false).Done? {
        var s1 := Callback(env, s.t, op.stream, false).value;
        SendOutKeeps(s1, env.accepts(s.t + 1));
        var sent := SendOut(s1, env.accepts(s.t + 1));
        var f := FreeBufs(sent.stream);
        var final := slot.With(f.stream);
        StreamPutKeeps(s, n, k, final);
        assert s.pool[k := slot.With(op.stream)][k := slot.With(sent.stream)][k := final] == s.pool[k := final];
      }
    }
  }

  /** Handled without error, a receive completion leaves its stream with nothing it could still send and its consumed
      buffers returned; however it ends, it moves no counter and touches no other slot. */
  ghost predicate Quiets(s: State, k: nat, r: Result) {
    && SameCounters(s, r.state) && OnlySlot(s.pool, r.state.pool, k)
    && (r.reply.Ok? ==> k in r.state.pool && r.state.pool[k].Stream().Some? && Quiet(r.state.pool[k].Stream().value))
  }

  predicate SameCounters(s: State, s': State) {
    s'.connecting == s.connecting && s'.errors == s.errors && s'.connected == s.connected
  }

  ghost predicate OnlySlot(pool: map<nat, ClientSlotCtx>, pool': map<nat, ClientSlotCtx>, k: nat) {
    pool' == pool || (k in pool' && pool' == pool[k := pool'[k]])
  }

  lemma RecvQuiets(s: State, k: nat, bufId: Option<nat>, bufLen: nat, env: Env)
    requires PoolSane(s)
    ensures Quiets(s, k, OnRecvMulti(s, k, bufId, bufLen, env))
  {
    if k in s.pool && s.pool[k].Stream().Some? {
      var op := OnRecv(s.pool[k].Stream().value, bufId, bufLen);
      if op.reply.Ok? {
        hide Answer;
        AnswerQuiets(Put(s, k, s.pool[k].With(op.stream)), k, op.stream, env);
      }
    }
  }

  lemma AnswerQuiets(s: State, k: nat, stream: TcpStream, env: Env)
    requires k in s.pool && s.pool[k].Stream() == Some(stream) && Sane(stream)
    ensures Quiets(s, k, Answer(s, k, stream, env))
  {
    hide SendOut, Callback, Quiet, Idle;
    CallbackKeeps(env, s.t, stream, false);
    if Callback(env, s.t, stream, false).Done? {
      var s1 := Callback(env, s.t, stream, false).value;
      SendOutKeeps(s1, env.accepts(s.t + 1));
      var sent := SendOut(s1, env.accepts(s.t + 1)).stream;
      if Idle(sent) && FreeBufs(sent).reply.Ok? { FreeBufsQuiets(sent); }
    }
  }

  /** A send completion succeeds exactly when its slot holds a huge-page stream with that much in flight. Then it takes
      its bytes, and with the last notification its buffer, out of flight; it changes nothing else. */
  ghost predicate Retires(s: State, k: nat, sentOut: nat, more: bool, r: Result) {
    && SameCounters(s, r.state) && OnlySlot(s.pool, r.state.pool, k)
    && (r.reply.Ok? <==>
          && k in s.pool && s.pool[k].Stream().Some? && s.pool[k].s.StreamingHugeTlb?
          && sentOut <= s.pool[k].s.cursor.tx.sends && (more || s.pool[k].s.cursor.tx.bufs > 0))
    && (!r.reply.Ok? ==> r.state == s)
    && (r.reply.Ok? ==>
          && k in r.state.pool && r.state.pool[k].Stream().Some? && SameStream(s.pool[k].s, r.state.pool[k].s)
          && var before, after := s.pool[k].s.cursor, r.state.pool[k].s.cursor;
             && after.rx == before.rx && after.tx.sends + sentOut == before.tx.sends
             && after.tx.bufs + (if more then 0 else 1) == before.tx.bufs
             && after.tx.start == before.tx.start && after.tx.end == before.tx.end && after.tx.idx == before.tx.idx)
  }

  lemma SentRetires(s: State, k: nat, sentOut: nat, more: bool)
    ensures Retires(s, k, sentOut, more, OnSentZc(s, k, sentOut, more))
  {}

  lemma SentSettles(s: State, n: nat, k: nat, sentOut: nat, more: bool)
    requires ClientInv(s, n) && k in s.pool && s.pool[k].Stream().Some?
    ensures Settles(s, n, OnSentZc(s, k, sentOut, more), 0)
  {
    assert Known(k, s.pool[k]);
    StreamPutKeeps(s, n, k, s.pool[k].With(OnSent(s.pool[k].Stream().value, sentOut, more).stream));
  }

  /** Greeting moves no counter and stores nothing, or an idle stream of the same descriptor in slot k. */
  lemma GreetStores(s: State, k: nat, newcomer: TcpStream, env: Env)
    requires Sane(newcomer)
    ensures Stores(s, k, newcomer, Greet(s, k, newcomer, env))
  {
    hide SendOut, Callback;
    CallbackKeeps(env, s.t, newcomer, false);
    if Callback(env, s.t, newcomer, false).Done? {
      SendOutKeeps(Callback(env, s.t, newcomer, false).value, env.accepts(s.t + 2));
    }
  }

  ghost predicate Stores(s: State, k: nat, newcomer: TcpStream, r: Result) {
    && SameCounters(s, r.state)
    && (r.state.pool == s.pool || StoredAt(s.pool, r.state.pool, k, newcomer))
    && (r.reply.Ok? ==> newcomer.StreamingHugeTlb? && StoredAt(s.pool, r.state.pool, k, newcomer))
  }

  ghost predicate StoredAt(pool: map<nat, ClientSlotCtx>, pool': map<nat, ClientSlotCtx>, k: nat, newcomer: TcpStream) {
    && k in pool' && pool'[k].Connected? && pool' == pool[k := pool'[k]]
    && SameStream(newcomer, pool'[k].s) && Idle(pool'[k].s)
  }

  /** A connect completion leaves every counter as it was, or takes one from state_connecting and counts it as an error
      if it failed and as connected otherwise. No slot changes before that. After Ok it has been counted, and its slot
      holds the error code or an idle huge-page stream of its own descriptor. */
  ghost predicate Moves(s: State, k: nat, result: int, r: Result) {
    && (SameCounters(s, r.state) ==> r.state.pool == s.pool && !r.reply.Ok?)
    && (!SameCounters(s, r.state) ==>
          && k in s.pool && r.state.connecting + 1 == s.connecting
          && (if result != 0 then
                r.reply.Ok? && r.state.errors == s.errors + 1 && r.state.connected == s.connected
                && r.state.pool == s.pool[k := ConnectingError(result)]
              else
                r.state.errors == s.errors && r.state.connected == s.connected + 1
                && (r.state.pool == s.pool || PooledAt(s.pool, r.state.pool, k))
                && (r.reply.Ok? ==> PooledAt(s.pool, r.state.pool, k) && r.state.pool[k].s.StreamingHugeTlb?)))
  }

  ghost predicate PooledAt(pool: map<nat, ClientSlotCtx>, pool': map<nat, ClientSlotCtx>, k: nat) {
    && k in pool' && pool'[k].Connected? && pool' == pool[k := pool'[k]]
    && pool'[k].s.fixedFd == k && Idle(pool'[k].s)
  }

  lemma ConnectedMoves(s: State, k: nat, result: int, hugetlb: bool, env: Env)
    ensures Moves(s, k, result, OnConnected(s, k, result, hugetlb, env))
  {
    hide Greet, Idle;
    if s.connecting > 0 {
      GreetStores(s.(connecting := s.connecting - 1, connected := s.connected + 1, t := s.t + 3), k,
                  if hugetlb then StreamingHugeTlb(k, FRESH_CURSOR) else Streams.Connected(k), env);
    }
  }

  // ---------------------------------------------------------------- what every completion replies

  lemma GreetReplies(s: State, k: nat, env: Env)
    requires k < U16_MAX
    ensures Greeted(k, s.t, env).Done? ==> Greeted(k, s.t, env).value.StreamingHugeTlb?
    ensures var r := Greet(s, k, StreamingHugeTlb(k, FRESH_CURSOR), env);
            && (r.reply.Ok? <==> Greets(k, s.t, env))
            && (!r.reply.Ok? ==> GreetFails(k, s.t, env, r.reply))
            && SameCounters(s, r.state)
            && r.state.pool == (if Stored(k, s.t, env) then s.pool[k := ClientSlotCtx.Connected(StoredStream(k, s.t, env))]
                                else s.pool)
  {
    hide SendOut, Callback, Refused;
    var newcomer := StreamingHugeTlb(k, FRESH_CURSOR);
    CallbackKeeps(env, s.t, newcomer, false);
    if Callback(env, s.t, newcomer, false).Done? {
      SendOutReply(Callback(env, s.t, newcomer, false).value, env.accepts(s.t + 2));
    }
  }

  /** Everything a connected slot needs succeeds: two pages, the ring of a descriptor that is small enough, a slot still
      counted as connecting, and the greeting. */
  ghost predicate MayConnect(s: State, k: nat, hugetlb: bool, env: Env) {
    && hugetlb
    && env.ok(s.t) && env.ok(s.t + 1)
    && k < U16_MAX
    && env.ok(s.t + 2)
    && s.connecting > 0
    && Greets(k, s.t + 3, env)
  }

  /** The connection is counted as connected: its pages and its ring, if it is to have them, are there. */
  predicate CountsAsConnected(s: State, k: nat, hugetlb: bool, env: Env) {
    (hugetlb ==> env.ok(s.t) && env.ok(s.t + 1) && k < U16_MAX && env.ok(s.t + 2)) && s.connecting > 0
  }

  /** The reply to a connect completion. A connection that failed is counted and its code stored, and the batch goes
      on. One that succeeded is Ok exactly when everything it needs succeeds, and otherwise ends in the error of the
      first thing that does not. It is counted as connected once its ring is there, and stored, as callback and send
      left it, once the send went well. */
  ghost predicate ConnectReplies(s: State, k: nat, result: int, hugetlb: bool, env: Env, r: Result) {
    && (k !in s.pool ==> r.reply == Panics(ToDo) && r.state == s)
    && (k in s.pool && result != 0 ==>
          && (s.connecting == 0 ==> r.reply == Panics(Underflow) && r.state == s)
          && (s.connecting > 0 ==>
                && r.reply == Ok(())
                && r.state.pool == s.pool[k := ConnectingError(result)]
                && r.state.connecting + 1 == s.connecting && r.state.errors == s.errors + 1
                && r.state.connected == s.connected))
    && (k in s.pool && result == 0 ==>
          && (r.reply.Ok? <==> MayConnect(s, k, hugetlb, env))
          && (hugetlb && !(env.ok(s.t) && env.ok(s.t + 1)) ==> r.reply == Err(HugeTlb))
          && (hugetlb && env.ok(s.t) && env.ok(s.t + 1) && k >= U16_MAX ==> r.reply == Err(LimitHugeTlbU16))
          && (hugetlb && env.ok(s.t) && env.ok(s.t + 1) && k < U16_MAX && !env.ok(s.t + 2) ==> r.reply == Err(RingBuf))
          && ((hugetlb ==> env.ok(s.t) && env.ok(s.t + 1) && k < U16_MAX && env.ok(s.t + 2)) ==>
                && (s.connecting == 0 ==> r.reply == Panics(Underflow))
                && (s.connecting > 0 && !hugetlb ==> r.reply == Err(BpNeedBuffers))
                && (s.connecting > 0 && hugetlb && !Greets(k, s.t + 3, env) ==> GreetFails(k, s.t + 3, env, r.reply)))
          && (if CountsAsConnected(s, k, hugetlb, env)
              then r.state.connecting + 1 == s.connecting && r.state.connected == s.connected + 1 && r.state.errors == s.errors
              else SameCounters(s, r.state))
          && r.state.pool == (if hugetlb && CountsAsConnected(s, k, hugetlb, env) && Stored(k, s.t + 3, env)
                              then s.pool[k := ClientSlotCtx.Connected(StoredStream(k, s.t + 3, env))] else s.pool))
  }

  /** Without huge pages a connection is refused. */
  lemma PlainIsRefused(s: State, k: nat, env: Env)
    ensures var r := Greet(s, k, Streams.Connected(k), env);
            r.reply == Err(BpNeedBuffers) && r.state.pool == s.pool && SameCounters(s, r.state)
  {}

  lemma ConnectedReplies(s: State, k: nat, result: int, hugetlb: bool, env: Env)
    ensures ConnectReplies(s, k, result, hugetlb, env, OnConnected(s, k, result, hugetlb, env))
  {
    hide Greets, GreetFails, Greeted, SendOut, Stored, Greet;
    if s.connecting > 0 {
      var s1 := s.(connecting := s.connecting - 1, connected := s.connected + 1, t := s.t + 3);
      if k < U16_MAX { GreetReplies(s1, k, env); }
      PlainIsRefused(s1, k, env);
    }
  }

  /** The reply to a receive completion for slot k. */
  ghost predicate RecvReplies(s: State, k: nat, bufId: Option<nat>, bufLen: nat, env: Env, reply: Reply<()>) {
    if k !in s.pool then reply == Panics(ToDo)
    else if s.pool[k].Stream().None? then reply == Panics(Unreachable)
    else if s.pool[k].s.Connected? then reply == Err(BpNeedBuffers)
    else if bufId.Some? && bufLen == 0 then reply == Panics(RevolutionDetected) || reply == Panics(EndNotUpdated)
    else
      var c := s.pool[k].s.cursor;
      var got := s.pool[k].s.(cursor := c.(rx := c.rx.(end := c.rx.end + if bufId.Some? then bufLen else 0)));
      Answers(got, s.t, env, reply)
  }

  /** One callback, one send, a submit, and freeing buffers; and the reply is Ok exactly when all of them go well. */
  ghost predicate Answers(stream: TcpStream, t: nat, env: Env, reply: Reply<()>) {
    match Callback(env, t, stream, false)
    case Panicked(why) => reply == Panics(why)
    case Done(s1) =>
      s1.StreamingHugeTlb? &&
      var c := s1.cursor.tx;
      && (c.end < c.start <==> reply == Panics(Underflow))
      && (c.start <= c.end && (Refused(c, env.accepts(t + 1)) || !env.ok(t + 2)) <==> reply == Err(Bearer))
      && (c.start <= c.end && !Refused(c, env.accepts(t + 1)) && env.ok(t + 2) && FreeFails(s1)
          <==> reply == Panics(RecycledAhead))
      && (c.start <= c.end && !Refused(c, env.accepts(t + 1)) && env.ok(t + 2) && !FreeFails(s1) <==> reply == Ok(()))
  }

  lemma AnswerReplies(s: State, k: nat, stream: TcpStream, env: Env)
    requires k in s.pool && s.pool[k].Stream() == Some(stream) && Sane(stream) && stream.StreamingHugeTlb?
    ensures Answers(stream, s.t, env, Answer(s, k, stream, env).reply)
  {
    hide SendOut, Callback, Refused;
    CallbackKeeps(env, s.t, stream, false);
    if Callback(env, s.t, stream, false).Done? {
      var s1 := Callback(env, s.t, stream, false).value;
      SendOutReply(s1, env.accepts(s.t + 1));
      SendOutKeeps(s1, env.accepts(s.t + 1));
      SendKeepsInput(s1, env.accepts(s.t + 1));
    }
  }

  lemma SendKeepsInput(s: TcpStream, accepts: nat)
    requires Sane(s) && s.StreamingHugeTlb?
    ensures SendOut(s, accepts).stream.StreamingHugeTlb? && SendOut(s, accepts).stream.cursor.rx == s.cursor.rx
  {}

  lemma RecvMultiReplies(s: State, k: nat, bufId: Option<nat>, bufLen: nat, env: Env)
    requires PoolSane(s)
    ensures RecvReplies(s, k, bufId, bufLen, env, OnRecvMulti(s, k, bufId, bufLen, env).reply)
  {
    hide Answer, Answers;
    if k in s.pool && s.pool[k].Stream().Some? {
      var op := OnRecv(s.pool[k].Stream().value, bufId, bufLen);
      if op.reply.Ok? {
        AnswerReplies(Put(s, k, s.pool[k].With(op.stream)), k, op.stream, env);
      }
    }
  }

  /** A batch of connections that were refused, each in a slot of its own that is still connecting. */
  ghost predicate Refusals(s: State, ms: seq<Mixed>) {
    && (forall i :: 0 <= i < |ms| ==>
          ms[i].MapConnected? && ms[i].result != 0 && ms[i].fixedFd in s.pool && s.pool[ms[i].fixedFd].Connecting?)
    && (forall i, j :: 0 <= i < j < |ms| ==> ms[i].fixedFd != ms[j].fixedFd)
  }

  /** Refused connections never stop a batch: from a pool whose counters are right it ends Ok, every one of them is
      counted, and every slot holds its code. */
  lemma {:induction false} RefusalsAreCounted(s: State, n: nat, ms: seq<Mixed>, hugetlb: bool, env: Env)
    requires PoolSane(s) && ClientInv(s, n) && Refusals(s, ms)
    ensures var r := Drain(s, ms, hugetlb, env);
            && r.reply == Ok(()) && ClientInv(r.state, n)
            && r.state.errors == s.errors + |ms| && r.state.connecting == s.connecting - |ms|
            && r.state.connected == s.connected
            && (forall i :: 0 <= i < |ms| ==>
                  ms[i].fixedFd in r.state.pool && r.state.pool[ms[i].fixedFd] == ConnectingError(ms[i].result))
            && (forall k :: k in s.pool && (forall i :: 0 <= i < |ms| ==> ms[i].fixedFd != k) ==>
                  k in r.state.pool && r.state.pool[k] == s.pool[k])
    decreases |ms|
  {
    hide ClientInv, PoolSane;
    if ms != [] {
      var k, code, rest := ms[0].fixedFd, ms[0].result, ms[1..];
      LeaveConnecting(s, n, k, ConnectingError(code));
      ConnectedReplies(s, k, code, hugetlb, env);
      HandleSane(s, ms[0], hugetlb, env);
      var s1 := Handle(s, ms[0], hugetlb, env).state;
      assert s1.pool == s.pool[k := ConnectingError(code)];
      RefusalsAreCounted(s1, n, rest, hugetlb, env);
      var r := Drain(s1, rest, hugetlb, env);
      assert forall i :: 0 <= i < |rest| ==> rest[i] == ms[i + 1];
      forall i | 0 <= i < |ms|
        ensures ms[i].fixedFd in r.state.pool && r.state.pool[ms[i].fixedFd] == ConnectingError(ms[i].result)
      {
        if i > 0 { assert rest[i - 1] == ms[i]; }
      }
    }
  }

  lemma LeaveCounts(pool: map<nat, ClientSlotCtx>, k: nat, slot: ClientSlotCtx)
    requires k in pool && pool[k].Connecting? && !slot.Connecting?
    ensures |ConnectingSlots(pool[k := slot])| == |ConnectingSlots(pool)| - 1
    ensures |ErrorSlots(pool[k := slot])| == |ErrorSlots(pool)| + if slot.ConnectingError? then 1 else 0
    ensures |StreamSlots(pool[k := slot])| == |StreamSlots(pool)| + if slot.Stream().Some? then 1 else 0
  {
    SlotMoves(pool, k, slot);
    assert k in ConnectingSlots(pool) && k !in ErrorSlots(pool) && k !in StreamSlots(pool);
    assert ErrorSlots(pool) - {k} == ErrorSlots(pool);
    assert StreamSlots(pool) - {k} == StreamSlots(pool);
  }

  /** A slot that leaves Connecting is counted where it went. */
  lemma LeaveConnecting(s: State, n: nat, k: nat, slot: ClientSlotCtx)
    requires ClientInv(s, n) && k in s.pool && s.pool[k].Connecting?
    requires !slot.Connecting? && Known(k, slot)
    ensures s.connecting > 0
    ensures ClientInv(Put(s, k, slot).(connecting := s.connecting - 1,
                                       errors := if slot.ConnectingError? then s.errors + 1 else s.errors,
                                       connected := if slot.Stream().Some? then s.connected + 1 else s.connected), n)
  {
    LeaveCounts(s.pool, k, slot);
    assert k in ConnectingSlots(s.pool);
  }

  /** A connection that was counted and greeted leaves the counters right; until then nothing is stored. */
  lemma GreetSettles(s: State, n: nat, k: nat, t: nat, env: Env)
    requires ClientInv(s, n) && k in s.pool && s.pool[k].Connecting? && s.connecting > 0
    ensures var s1 := s.(connecting := s.connecting - 1, connected := s.connected + 1, t := t);
            var r := Greet(s1, k, StreamingHugeTlb(k, FRESH_CURSOR), env);
            && (r.reply.Ok? ==> ClientInv(r.state, n) && r.state.connecting == s.connecting - 1)
            && (r.reply.Panics? ==> r.reply.why != Unreachable)
  {
    hide SendOut, Callback;
    var newcomer := StreamingHugeTlb(k, FRESH_CURSOR);
    CallbackKeeps(env, t, newcomer, false);
    if Callback(env, t, newcomer, false).Done? {
      var s1 := Callback(env, t, newcomer, false).value;
      SendOutKeeps(s1, env.accepts(t + 2));
      LeaveConnecting(s, n, k, ClientSlotCtx.Connected(SendOut(s1, env.accepts(t + 2)).stream));
    }
  }

  lemma ConnectedSettles(s: State, n: nat, k: nat, result: int, hugetlb: bool, env: Env)
    requires ClientInv(s, n) && k in s.pool && s.pool[k].Connecting?
    ensures Settles(s, n, OnConnected(s, k, result, hugetlb, env), 1)
    ensures !hugetlb && result == 0 ==> OnConnected(s, k, result, hugetlb, env).reply == Err(BpNeedBuffers)
  {
    hide ClientInv;
    LeaveConnecting(s, n, k, ConnectingError(result));
    if result == 0 && hugetlb {
      hide Greet;
      GreetSettles(s, n, k, s.t + 3, env);
    }
  }

  lemma HandleSettles(s: State, n: nat, m: Mixed, hugetlb: bool, env: Env)
    requires ClientInv(s, n) && Expected(s, m)
    ensures PoolSane(s) && Settles(s, n, Handle(s, m, hugetlb, env), if m.MapConnected? then 1 else 0)
  {
    SlotsSane(s, n);
    match m
    case MapConnected(fd, result) => ConnectedSettles(s, n, fd, result, hugetlb, env);
    case MapRecvMulti(fd, bufId, bufLen) => RecvSettles(s, n, fd, bufId, bufLen, env);
    case MapSentZc(fd, sentOut, more) => SentSettles(s, n, fd, sentOut, more);
  }

  lemma RecvSane(s: State, k: nat, bufId: Option<nat>, bufLen: nat, env: Env)
    requires PoolSane(s)
    ensures PoolSane(OnRecvMulti(s, k, bufId, bufLen, env).state)
  {
    hide SendOut, Callback;
    if k in s.pool && s.pool[k].Stream().Some? {
      var op := OnRecv(s.pool[k].Stream().value, bufId, bufLen);
      CallbackKeeps(env, s.t, op.stream, false);
      if Callback(env, s.t, op.stream, false).Done? {
        SendOutKeeps(Callback(env, s.t, op.stream, false).value, env.accepts(s.t + 1));
      }
    }
  }

  lemma GreetSane(s: State, k: nat, newcomer: TcpStream, env: Env)
    requires PoolSane(s) && Sane(newcomer)
    ensures PoolSane(Greet(s, k, newcomer, env).state)
  {
    hide SendOut, Callback;
    CallbackKeeps(env, s.t, newcomer, false);
    if Callback(env, s.t, newcomer, false).Done? {
      SendOutKeeps(Callback(env, s.t, newcomer, false).value, env.accepts(s.t + 2));
    }
  }

  lemma ConnectedSane(s: State, k: nat, result: int, hugetlb: bool, env: Env)
    requires PoolSane(s)
    ensures PoolSane(OnConnected(s, k, result, hugetlb, env).state)
  {
    hide Greet;
    if s.connecting > 0 {
      GreetSane(s.(connecting := s.connecting - 1, connected := s.connected + 1, t := s.t + 3), k,
                if hugetlb then StreamingHugeTlb(k, FRESH_CURSOR) else Streams.Connected(k), env);
    }
  }

  /** Whatever completions arrive and however the check ends, the streams stay usable. */
  lemma HandleSane(s: State, m: Mixed, hugetlb: bool, env: Env)
    requires PoolSane(s)
    ensures PoolSane(Handle(s, m, hugetlb, env).state)
  {
    hide OnRecvMulti, OnConnected;
    match m
    case Nothing =>
    case MapSentZc(_, _, _) =>
    case MapRecvMulti(fd, bufId, bufLen) => RecvSane(s, fd, bufId, bufLen, env);
    case MapConnected(fd, result) => ConnectedSane(s, fd, result, hugetlb, env);
  }

  // ---------------------------------------------------------------- batches and runs

  function Drain(s: State, ms: seq<Mixed>, hugetlb: bool, env: Env): Result
    requires PoolSane(s)
    decreases |ms|
  {
    if ms == [] then Result(s, Ok(()))
    else
      HandleSane(s, ms[0], hugetlb, env);
      var r := Handle(s, ms[0], hugetlb, env);
      if r.reply.Ok? then Drain(r.state, ms[1..], hugetlb, env) else r
  }

  ghost predicate AllExpected(s: State, ms: seq<Mixed>, hugetlb: bool, env: Env)
    requires PoolSane(s)
    decreases |ms|
  {
    ms == [] ||
    (&& Expected(s, ms[0])
     && (HandleSane(s, ms[0], hugetlb, env);
         var r := Handle(s, ms[0], hugetlb, env);
         r.reply.Ok? ==> AllExpected(r.state, ms[1..], hugetlb, env)))
  }

  lemma {:induction false} DrainSettles(s: State, n: nat, ms: seq<Mixed>, hugetlb: bool, env: Env)
    requires PoolSane(s) && ClientInv(s, n) && AllExpected(s, ms, hugetlb, env)
    ensures Settles(s, n, Drain(s, ms, hugetlb, env), Connects(ms))
    ensures PoolSane(Drain(s, ms, hugetlb, env).state)
    decreases |ms|
  {
    if ms != [] {
      HandleSane(s, ms[0], hugetlb, env);
      HandleSettles(s, n, ms[0], hugetlb, env);
      var r := Handle(s, ms[0], hugetlb, env);
      if r.reply.Ok? { DrainSettles(r.state, n, ms[1..], hugetlb, env); }
    }
  }

  /** A run of checks until one does not return Ok; sum adds up what the checks returned. */
  datatype Served = Served(last: Result, sum: nat)

  ghost function Serve(s: State, batches: seq<Batch>, hugetlb: bool, env: Env): Served
    requires PoolSane(s)
    decreases |batches|
  {
    if batches == [] then Served(Result(s, Ok(())), 0)
    else
      DrainSane(s, batches[0].bundle, hugetlb, env);
      var r := Drain(s, batches[0].bundle, hugetlb, env);
      if !r.reply.Ok? then Served(r, 0)
      else
        var rest := Serve(r.state, batches[1..], hugetlb, env);
        rest.(sum := rest.sum + batches[0].e)
  }

  lemma {:induction false} DrainSane(s: State, ms: seq<Mixed>, hugetlb: bool, env: Env)
    requires PoolSane(s)
    ensures PoolSane(Drain(s, ms, hugetlb, env).state)
    decreases |ms|
  {
    if ms != [] {
      HandleSane(s, ms[0], hugetlb, env);
      var r := Handle(s, ms[0], hugetlb, env);
      if r.reply.Ok? { DrainSane(r.state, ms[1..], hugetlb, env); }
    }
  }

  /** Every batch was collected, and the kernel reports only what it owes. */
  ghost predicate GoodBatches(s: State, batches: seq<Batch>, hugetlb: bool, env: Env)
    requires PoolSane(s)
    decreases |batches|
  {
    batches == [] ||
    (&& batches[0].e == Connects(batches[0].bundle)
     && AllExpected(s, batches[0].bundle, hugetlb, env)
     && (DrainSane(s, batches[0].bundle, hugetlb, env);
         var r := Drain(s, batches[0].bundle, hugetlb, env);
         r.reply.Ok? ==> GoodBatches(r.state, batches[1..], hugetlb, env)))
  }

  /** Over any run of Ok checks the counters agree with the slots, add up to the pool size, and the values the
      checks returned sum to the number of slots that left Connecting. */
  lemma {:induction false} ServeCounts(s: State, n: nat, batches: seq<Batch>, hugetlb: bool, env: Env)
    requires PoolSane(s) && ClientInv(s, n) && GoodBatches(s, batches, hugetlb, env)
    ensures var r := Serve(s, batches, hugetlb, env);
            && (r.last.reply.Ok? ==>
                  && ClientInv(r.last.state, n)
                  && r.last.state.connecting + r.last.state.errors + r.last.state.connected == n
                  && r.sum == s.connecting - r.last.state.connecting)
            && (r.last.reply.Panics? ==> r.last.reply.why != Unreachable)
    decreases |batches|
  {
    if batches == [] {
      CountersSum(s, n);
    } else {
      DrainSane(s, batches[0].bundle, hugetlb, env);
      DrainSettles(s, n, batches[0].bundle, hugetlb, env);
      var r := Drain(s, batches[0].bundle, hugetlb, env);
      if r.reply.Ok? { ServeCounts(r.state, n, batches[1..], hugetlb, env); }
    }
  }
}
