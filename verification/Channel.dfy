// The send side without its memory: what layers commit, what has been sent, and what is in flight.

module ChannelModel {
  import opened Common
  import opened Transmit
  import opened Engine

  /** The reference: unbounded sequences instead of a wrapping page with chunks and buffer indices.
      draft: written but not committed; sends, bufs: bytes and submissions in flight. */
  datatype Channel = Channel(sent: seq<byte>, pending: seq<byte>, draft: seq<byte>, sends: int, bufs: int)

  function Committed(ch: Channel, newLen: nat): Channel {
    var n := newLen - |ch.pending|;
    if 0 < n <= |ch.draft| then ch.(pending := ch.pending + ch.draft[..n], draft := ch.draft[n..])
    else if n < 0 then ch.(pending := ch.pending[..newLen], draft := [])
    else ch
  }

  /** At most accepts chunks of 8192 bytes leave the front of the queue, unless too much is in flight. */
  function Sending(ch: Channel, accepts: nat): Channel {
    if ch.sends > BUF_SIZE || ch.bufs > 5 || accepts == 0 || ch.pending == [] then ch
    else
      var k := Min(accepts, CeilDiv(|ch.pending|));
      var n := Min(k * BUF_SIZE, |ch.pending|);
      Channel(ch.sent + ch.pending[..n], ch.pending[n..], [], ch.sends + n, ch.bufs + k)
  }

  function ChannelStep(ch: Channel, e: Event): Channel {
    match e
    case Write(output) => ch.(draft := ch.draft + output)
    case SetLens(_, newOut) => Committed(ch, newOut)
    case Send(accepts) => Sending(ch, accepts)
    case Ack(_, sentOut, more) => ch.(sends := ch.sends - sentOut, bufs := if more then ch.bufs else ch.bufs - 1)
    case _ => ch
  }

  function ChannelRun(ch: Channel, es: seq<Event>): Channel
    decreases |es|
  {
    if es == [] then ch else ChannelRun(ChannelStep(ch, es[0]), es[1..])
  }

  ghost function ChannelOf(s: Tx): Channel
    requires s.c.start <= s.c.end <= |s.region|
  { Channel(s.submitted, s.Pending(), s.scratch, s.c.sends, s.c.bufs) }

  lemma WriteSimulates(s: Tx, output: seq<byte>)
    requires TxInv(s) && Synced(s.c) && WriteAt(s) + |output| <= REGION
    ensures TxInv(TxWrite(s, output))
    ensures ChannelOf(TxWrite(s, output)) == ChannelStep(ChannelOf(s), Write(output))
  {
    WriteKeeps(s, output);
  }

  lemma CommitSimulates(s: Tx, newIn: nat, newLen: nat)
    requires TxInv(s) && (newLen == s.Len() || Synced(s.c)) && newLen <= s.Len() + |s.scratch|
    ensures s.Len() <= |s.committed| && s.c.idx * BUF_SIZE + newLen <= |s.region| && TxInv(TxSetLen(s, newLen))
    ensures ChannelOf(TxSetLen(s, newLen)) == ChannelStep(ChannelOf(s), SetLens(newIn, newLen))
  {
    SetLenKeeps(s, newLen);
    var t := TxSetLen(s, newLen);
    if newLen > s.Len() {
      var n := newLen - s.Len();
      SubSlice(s.region, s.c.end, s.c.end + |s.scratch|, n);
      SliceJoin(s.region, s.c.start, s.c.end, t.c.end);
    } else if newLen < s.Len() {
      SubSlice(s.region, s.c.start, s.c.end, newLen);
    }
  }

  lemma ApplySimulates(s: Tx, r: Sent, accepts: nat)
    requires Cursor(s) && Shape(s.c, r)
    requires |r.submitted| == if Throttled(s.c) then 0 else Min(accepts, CeilDiv(s.Len()))
    ensures AllInRegion(s.region, r.submitted) && Cursor(TxApply(s, r))
    ensures ChannelOf(TxApply(s, r)) == Sending(ChannelOf(s), accepts)
  {
    ApplySplitsPending(s, r);
    hide Gather;
    var k := CutBytes(s.Len(), |r.submitted|);
    if r.submitted == [] {
      assert s.Pending()[..k] == [] && s.Pending()[k..] == s.Pending();
    }
  }

  lemma SendSimulates(s: Tx, accepts: nat)
    requires TxInv(s)
    ensures TxInv(TxSend(s, accepts))
    ensures ChannelOf(TxSend(s, accepts)) == ChannelStep(ChannelOf(s), Send(accepts))
  {
    hide SendAllOut, Shape, Sending;
    SendKeeps(s, accepts);
    SendShape(s.c, accepts);
    ApplySimulates(s, SendAllOut(s.c, accepts), accepts);
  }

  lemma ChannelStepSimulates(w: World, e: Event)
    requires WorldInv(w) && Admissible(w, e) && Step(w, e).Done?
    ensures TxInv(Step(w, e).value.tx)
    ensures ChannelOf(Step(w, e).value.tx) == ChannelStep(ChannelOf(w.tx), e)
  {
    match e
    case Write(output) => WriteSimulates(w.tx, output);
    case SetLens(newIn, newOut) => CommitSimulates(w.tx, newIn, newOut);
    case Send(accepts) => SendSimulates(w.tx, accepts);
    case Ack(i, n, more) => AckKeeps(w.tx, i, n, more);
    case Fail(i, more) => FailKeeps(w.tx, i, more);
    case _ =>
  }

  /** After any run, however it throttles, wraps, is refused or acknowledged, the stream has sent and still holds
      exactly what the reference channel has. */
  lemma {:induction false} SendsLikeAChannel(w: World, es: seq<Event>, pace: Option<nat>)
    requires WorldInv(w) && Legal(w, es, pace) && Run(w, es, pace).Done?
    ensures TxInv(Run(w, es, pace).value.tx)
    ensures ChannelOf(Run(w, es, pace).value.tx) == ChannelRun(ChannelOf(w.tx), es)
    decreases |es|
  {
    if es != [] {
      StepKeeps(w, es[0]);
      ChannelStepSimulates(w, es[0]);
      SendsLikeAChannel(Step(w, es[0]).value, es[1..], pace);
    }
  }
}
