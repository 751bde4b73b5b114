// A connection's life at the listener, from the completions the ring reports: accept, a request with its reply, the
// acknowledgement of the reply, and the end.

module ListenerRuns {
  import opened Common
  import opened Receive
  import opened Transmit
  import opened Engine
  import opened Streams
  import opened ListenerModel

  /** Everything succeeds. The callback that meets the request consumes it and commits a reply of one byte. */
  function Serving(): Env {
    Env(_ => true, _ => true, _ => 1,
        (t, s, shutdown) => if t == 9 then [BorrowBufs, WriteBytes(0, [7]), SetBoth(0, 1)] else [])
  }

  function Slot(rx: RxCursor, tx: TxCursor): ListenerSlotCtx { Accepted(StreamOf(rx, tx)) }

  function StreamOf(rx: RxCursor, tx: TxCursor): TcpStream { StreamingHugeTlb(5, StreamCursor(rx, tx)) }

  /** The listener while the connection is pooled. */
  function Holding(rx: RxCursor, tx: TxCursor, t: nat): State { State(map[5 := Slot(rx, tx)], {5}, 1, t) }

  const FRESH_TX := TxCursor(0, 0, 0, 0, 0)
  const READ_RX := RxCursor(1, 1, 0)

  /** The send cursor after the reply, with so much of it in flight. */
  function Replied(sends: nat, bufs: nat): TxCursor { TxCursor(BUF_SIZE, BUF_SIZE, 1, sends, bufs) }

  lemma QuietCallback(t: nat, s: TcpStream, shutdown: bool)
    requires t != 9
    ensures Callback(Serving(), t, s, shutdown) == Done(s)
  {
    if s.StreamingHugeTlb? {
      assert Serving().ops(t, s, shutdown) == [];
      assert ApplyOps(s.cursor, []) == Done(s.cursor);
    }
  }

  lemma RequestCallback()
    ensures Callback(Serving(), 9, StreamOf(RxCursor(0, 1, 0), FRESH_TX), false)
         == Done(StreamOf(READ_RX, TxCursor(0, 1, 0, 0, 0)))
  {
    var c, ops := StreamCursor(RxCursor(0, 1, 0), FRESH_TX), [BorrowBufs, WriteBytes(0, [7]), SetBoth(0, 1)];
    var c1 := StreamCursor(READ_RX, TxCursor(0, 1, 0, 0, 0));
    assert Serving().ops(9, StreamOf(c.rx, c.tx), false) == ops;
    assert ops[1..] == [WriteBytes(0, [7]), SetBoth(0, 1)] && ops[1..][1..] == [SetBoth(0, 1)] && ops[1..][1..][1..] == [];
    assert ApplyOp(c, ops[0]) == Done(c) && ApplyOp(c, ops[1]) == Done(c) && ApplyOp(c, ops[2]) == Done(c1);
    assert ApplyOps(c, [SetBoth(0, 1)]) == Done(c1);
    assert ApplyOps(c, ops[1..]) == Done(c1);
    assert ApplyOps(c, ops) == Done(c1);
  }

  /** With nothing to send the loop runs once. */
  lemma LoopRests(t: nat, s: TcpStream)
    requires t != 9 && Sane(s) && s.StreamingHugeTlb? && s.cursor.tx.start == s.cursor.tx.end
    ensures SendLoop(Serving(), t, s) == Loop(s, t + 1, 1, Ok(()))
  {
    hide Callback;
    QuietCallback(t, s, false);
    assert SendOut(s, 1) == Op(s, Ok(0));
  }

  lemma LoopReplies()
    ensures Sane(StreamOf(RxCursor(0, 1, 0), FRESH_TX))
    ensures SendLoop(Serving(), 9, StreamOf(RxCursor(0, 1, 0), FRESH_TX)) == Loop(StreamOf(READ_RX, Replied(1, 1)), 12, 2, Ok(()))
  {
    hide Callback;
    RequestCallback();
    var s1, s2 := StreamOf(READ_RX, TxCursor(0, 1, 0, 0, 0)), StreamOf(READ_RX, Replied(1, 1));
    assert SendOut(s1, 1) == Op(s2, Ok(1));
    LoopRests(11, s2);
  }

  lemma GreetPools()
    ensures Greet(State(map[], {5}, 1, 5), 5, Serving())
         == Result(Holding(RxCursor(0, 0, 0), FRESH_TX, 9), Ok(()))
  {
    hide Callback, SendOut;
    var s := StreamingHugeTlb(5, FRESH_CURSOR);
    QuietCallback(5, s, false);
    FreshSends(s);
    assert map[][5 := Accepted(s)] == map[5 := Accepted(s)];
  }

  lemma FreshSends(s: TcpStream)
    requires s == StreamingHugeTlb(5, FRESH_CURSOR)
    ensures Sane(s) && SendOut(s, 1) == Op(s, Ok(0)) && s == StreamOf(RxCursor(0, 0, 0), FRESH_TX)
  {}

  lemma AcceptPools()
    ensures OnAccepted(State(map[], {}, 1, 0), 5, true, Serving())
         == Result(Holding(RxCursor(0, 0, 0), FRESH_TX, 9), Ok(()))
  {
    hide Greet;
    GreetPools();
    assert {} + {5} == {5};
  }

  lemma RequestReplies()
    ensures var s := Holding(RxCursor(0, 0, 0), FRESH_TX, 9);
            && PoolSane(s)
            && OnRecvMulti(s, 5, Some(0), 1, false, Serving())
            == Result(Holding(READ_RX, Replied(1, 1), 12), Ok(()))
  {
    hide SendLoop;
    LoopReplies();
    var s2 := StreamOf(READ_RX, Replied(1, 1));
    assert FreeBufs(s2).stream == s2 && FreeBufs(s2).reply.Ok?;
  }

  lemma AckRetires(sends: nat, bufs: nat, sentOut: nat, more: bool, t: nat)
    requires t > 9 && sentOut <= sends && (more || bufs > 0)
    ensures var s := Holding(READ_RX, Replied(sends, bufs), t);
            && PoolSane(s)
            && OnSentZc(s, 5, sentOut, more, Serving())
            == Result(Holding(READ_RX, Replied(sends - sentOut, if more then bufs else bufs - 1), t + 1), Ok(()))
  {
    hide SendLoop;
    var s2 := StreamOf(READ_RX, Replied(sends - sentOut, if more then bufs else bufs - 1));
    LoopRests(t, s2);
    assert FreeBufs(s2).stream == s2 && FreeBufs(s2).reply.Ok?;
  }

  lemma EndDrops()
    ensures var s := Holding(READ_RX, Replied(0, 0), 14);
            && PoolSane(s)
            && OnRecvMulti(s, 5, None, 0, true, Serving()) == Result(State(map[], {}, 1, 17), Ok(()))
  {
    hide Callback;
    var s2 := StreamOf(READ_RX, Replied(0, 0));
    QuietCallback(14, s2, true);
    assert FreeBufs(s2).stream == s2 && FreeBufs(s2).reply.Ok?;
    assert map[5 := Slot(READ_RX, Replied(0, 0))] - {5} == map[];
  }

  /** What a check does to the pool when the ring hands over these completions. */
  ghost predicate Checks(s: State, cs: seq<Completion>, s': State) {
    && PoolInv(s) && RingInv(s)
    && Collected(cs).Done?
    && (forall i :: 0 <= i < |Collected(cs).value| ==> !Collected(cs).value[i].Nothing?)
    && Drain(s, Collected(cs).value, true, Serving()) == Result(s', Ok(()))
  }

  lemma OneCheck(s: State, c: Completion, m: Mixed, s': State)
    requires PoolInv(s) && RingInv(s) && PoolSane(s) && !m.Nothing? && Convert(c) == Done([m])
    requires Handle(s, m, true, Serving()) == Result(s', Ok(()))
    ensures Checks(s, [c], s')
  {
    HandleOwes(s, m, true, Serving());
    assert [c][..0] == [] && [c][..|[c]| - 1] == [];
    assert Collected([]) == Done([]) && [] + [m] == [m];
    assert Collected([c]) == Done([] + [m]);
    assert [m][1..] == [];
    assert Drain(s', [], true, Serving()) == Result(s', Ok(()));
  }

  /** Five checks that all end Ok: the connection is pooled with its ring, its request is answered, the reply is
      acknowledged so that nothing is in flight, and when the peer has gone nothing of it is left. */
  lemma ConnectionServed()
    ensures var s0, s1 := State(map[], {}, 1, 0), Holding(RxCursor(0, 0, 0), FRESH_TX, 9);
            var s2, s3 := Holding(READ_RX, Replied(1, 1), 12), Holding(READ_RX, Replied(0, 1), 13);
            var s4, s5 := Holding(READ_RX, Replied(0, 0), 14), State(map[], {}, 1, 17);
            && Checks(s0, [AcceptDone(5)], s1)
            && Checks(s1, [RecvMultiDone(5, 1, Some(0), true)], s2)
            && Checks(s2, [SendZcDone(5, 1, true)], s3)
            && Checks(s3, [SendZcDone(5, 0, false)], s4)
            && Checks(s4, [RecvMultiDone(5, 0, None, false)], s5)
  {
    hide OnAccepted, OnRecvMulti, OnSentZc, Checks;
    var s0, s1 := State(map[], {}, 1, 0), Holding(RxCursor(0, 0, 0), FRESH_TX, 9);
    var s2, s3 := Holding(READ_RX, Replied(1, 1), 12), Holding(READ_RX, Replied(0, 1), 13);
    var s4, s5 := Holding(READ_RX, Replied(0, 0), 14), State(map[], {}, 1, 17);
    AcceptPools();
    RequestReplies();
    AckRetires(1, 1, 1, true, 12);
    AckRetires(0, 1, 0, false, 13);
    EndDrops();
    OneCheck(s0, AcceptDone(5), MapAccepted(5), s1);
    OneCheck(s1, RecvMultiDone(5, 1, Some(0), true), MapRecvMulti(5, Some(0), 1, false), s2);
    OneCheck(s2, SendZcDone(5, 1, true), MapSentZc(5, 1, true), s3);
    OneCheck(s3, SendZcDone(5, 0, false), MapSentZc(5, 0, false), s4);
    OneCheck(s4, RecvMultiDone(5, 0, None, false), MapRecvMulti(5, None, 0, true), s5);
  }
}
