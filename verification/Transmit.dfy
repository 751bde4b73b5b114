// The send half of a hugepage stream: layers append output, send_all_out cuts it into buffer-sized chunks.

module Transmit {
  import opened Common

  /** The send fields of CursorLeft: pos_out_start, pos_out_end, idx_out_cur, pending_sends, pending_bufs. */
  datatype TxCursor = TxCursor(start: nat, end: nat, idx: nat, sends: nat, bufs: nat)

  /** One submission: len bytes from the start of buffer buf, tagged with bufRef. */
  datatype Chunk = Chunk(buf: nat, len: nat, bufRef: nat)

  /** What one send_all_out call did; chunks.None? is the error return. */
  datatype Sent = Sent(c: TxCursor, submitted: seq<Chunk>, chunks: Option<nat>)

  // ---------------------------------------------------------------- the program's decisions

  predicate Throttled(c: TxCursor) { c.sends > BUF_SIZE || c.bufs > 5 }

  function CeilDiv(n: nat): nat { (n + BUF_SIZE - 1) / BUF_SIZE }

  /** The length of chunk number i of a send of total bytes. */
  function ChunkLen(total: nat, i: nat): nat {
    if total <= i * BUF_SIZE then 0 else Min(total - i * BUF_SIZE, BUF_SIZE)
  }

  function ChunkAt(first: nat, total: nat, i: nat): Chunk {
    Chunk(first + i, ChunkLen(total, i), (first + i) * BUF_SIZE)
  }

  /** A send of total bytes has at least k chunks. */
  predicate Covers(total: nat, k: nat) { k == 0 || (k - 1) * BUF_SIZE < total }

  /** The first k chunks of a send of total bytes from buffer first. */
  function Cut(first: nat, total: nat, k: nat): (cs: seq<Chunk>)
    ensures |cs| == k
  { seq(k, i requires 0 <= i < k => ChunkAt(first, total, i)) }

  function CutBytes(total: nat, k: nat): nat { Min(k * BUF_SIZE, total) }

  /** The cursor is on a buffer boundary and inside the region. */
  predicate Aligned(c: TxCursor) {
    && c.start % BUF_SIZE == 0
    && c.start <= c.end <= REGION
    && c.start < REGION
  }

  /** What no operation of any caller breaks; the length may still have underflowed after a stale commit. */
  predicate SaneTx(c: TxCursor) {
    c.start % BUF_SIZE == 0 && c.idx * BUF_SIZE <= c.start < REGION && c.end <= REGION
  }

  /** idx_out_cur names the buffer at which unsent output starts; false only after a failed submission. */
  predicate Synced(c: TxCursor) { c.start == c.idx * BUF_SIZE }

  /** send_all_out when the ring accepts that many submissions and refuses the next. */
  function SendAllOut(c: TxCursor, accepts: nat): Sent
    requires Aligned(c)
  {
    var total := c.end - c.start;
    if Throttled(c) || total == 0 then Sent(c, [], Some(0))
    else
      var first := c.start / BUF_SIZE;
      var n := CeilDiv(total);
      var k := Min(accepts, n);
      var counted := c.(sends := c.sends + CutBytes(total, k), bufs := c.bufs + k);
      if k < n then Sent(counted.(start := (first + k) * BUF_SIZE), Cut(first, total, k), None)
      else if first + n == BUF_COUNT then
        Sent(counted.(start := 0, end := 0, idx := 0), Cut(first, total, n), Some(n))
      else
        var pos := (first + n) * BUF_SIZE;
        Sent(counted.(start := pos, end := pos, idx := first + n), Cut(first, total, n), Some(n))
  }

  function SentZc(c: TxCursor, sentOut: nat, more: bool): Outcome<TxCursor> {
    if c.sends < sentOut then Panicked(Underflow)
    else if more then Done(c.(sends := c.sends - sentOut))
    else if c.bufs == 0 then Panicked(Underflow)
    else Done(c.(sends := c.sends - sentOut, bufs := c.bufs - 1))
  }

  function SetLenOut(c: TxCursor, newLen: nat): TxCursor
    requires c.start <= c.end
  {
    if newLen != c.end - c.start then c.(end := c.idx * BUF_SIZE + newLen) else c
  }

  // ---------------------------------------------------------------- the cursor with its memory and history

  /** A submission as the kernel sees it. open: the notification without the more flag is still due.
      failed: its completion reported an error, so its bytes will not be acknowledged any more.
      lost: that completion came without the more flag, so no notification will ever come either. */
  datatype Flight = Flight(len: nat, acked: nat, open: bool, failed: bool, lost: bool)

  /** region    - the bytes of hugetlb_out
      scratch   - bytes the layer has written after the pending output but not yet committed
      committed - all output committed through left_set_lens, in order
      submitted - the bytes of all successful submissions, in order
      flights   - one record per submission
      lap       - the chunks submitted since the cursor last returned to buffer 0 */
  datatype Tx = Tx(c: TxCursor, region: seq<byte>, scratch: seq<byte>, committed: seq<byte>,
                   submitted: seq<byte>, flights: seq<Flight>, lap: seq<Chunk>)
  {
    function Len(): nat requires c.start <= c.end { c.end - c.start }

    /** Committed but not yet submitted output. */
    function Pending(): seq<byte>
      requires c.start <= c.end <= |region|
    { region[c.start..c.end] }
  }

  function TxInit(region: seq<byte>): Tx { Tx(TxCursor(0, 0, 0, 0, 0), region, [], [], [], [], []) }

  function Overwrite(region: seq<byte>, pos: nat, bytes: seq<byte>): (r: seq<byte>)
    requires pos + |bytes| <= |region|
    ensures |r| == |region|
  { region[..pos] + bytes + region[pos + |bytes|..] }

  /** Where the next scratch byte goes: the borrowed slice starts at idx_out_cur * 8192. */
  function WriteAt(s: Tx): nat
    requires s.c.start <= s.c.end
  { s.c.idx * BUF_SIZE + s.Len() + |s.scratch| }

  function TxWrite(s: Tx, bytes: seq<byte>): Tx
    requires s.c.start <= s.c.end && WriteAt(s) + |bytes| <= |s.region|
  {
    s.(region := Overwrite(s.region, WriteAt(s), bytes), scratch := s.scratch + bytes)
  }

  /** Growing the length commits what lies in the borrowed slice behind the pending length; shrinking it takes
      uncommitted tail bytes back. */
  function TxSetLen(s: Tx, newLen: nat): Tx
    requires s.c.start <= s.c.end
    requires s.c.idx * BUF_SIZE + newLen <= |s.region|
    requires s.Len() <= |s.committed|
  {
    var c, at := SetLenOut(s.c, newLen), s.c.idx * BUF_SIZE;
    if newLen > s.Len() then
      var n := newLen - s.Len();
      s.(c := c, committed := s.committed + s.region[at + s.Len()..at + newLen],
         scratch := if n <= |s.scratch| then s.scratch[n..] else [])
    else if newLen < s.Len() then
      s.(c := c, committed := s.committed[..|s.committed| - (s.Len() - newLen)], scratch := [])
    else s
  }

  predicate InRegion(region: seq<byte>, ch: Chunk) { ch.buf * BUF_SIZE + ch.len <= |region| }

  predicate AllInRegion(region: seq<byte>, chunks: seq<Chunk>) {
    forall i :: 0 <= i < |chunks| ==> InRegion(region, chunks[i])
  }

  function ChunkBytes(region: seq<byte>, ch: Chunk): seq<byte>
    requires InRegion(region, ch)
  { region[ch.buf * BUF_SIZE..ch.buf * BUF_SIZE + ch.len] }

  /** The bytes of the first n chunks, laid end to end. */
  function Gather(region: seq<byte>, chunks: seq<Chunk>, n: nat): seq<byte>
    requires AllInRegion(region, chunks) && n <= |chunks|
  {
    if n == 0 then [] else Gather(region, chunks, n - 1) + ChunkBytes(region, chunks[n - 1])
  }

  function NewFlights(chunks: seq<Chunk>): (fs: seq<Flight>)
    ensures |fs| == |chunks|
  { seq(|chunks|, i requires 0 <= i < |chunks| => Flight(chunks[i].len, 0, true, false, false)) }

  /** Carry out a call whose decisions were r. */
  function TxApply(s: Tx, r: Sent): Tx
    requires AllInRegion(s.region, r.submitted)
  {
    s.(c := r.c,
       scratch := if r.submitted == [] then s.scratch else [],
       submitted := s.submitted + Gather(s.region, r.submitted, |r.submitted|),
       flights := s.flights + NewFlights(r.submitted),
       lap := if r.submitted != [] && r.submitted[|r.submitted| - 1].buf == 255 then [] else s.lap + r.submitted)
  }

  function TxSend(s: Tx, accepts: nat): Tx
    requires Cursor(s)
  {
    SendShape(s.c, accepts);
    ShapeInRegion(s, SendAllOut(s.c, accepts));
    TxApply(s, SendAllOut(s.c, accepts))
  }

  function TxAck(s: Tx, i: nat, sentOut: nat, more: bool): Outcome<Tx>
    requires i < |s.flights|
  {
    match SentZc(s.c, sentOut, more)
    case Panicked(why) => Panicked(why)
    case Done(c) =>
      var f := s.flights[i];
      Done(s.(c := c, flights := s.flights[i := f.(acked := f.acked + sentOut, open := more)]))
  }

  /** A completion with a negative result is only printed: nothing is retired. With the more flag its record is
      kept, and the notification is still to come. */
  function TxFail(s: Tx, i: nat, more: bool): Tx
    requires i < |s.flights|
  { s.(flights := s.flights[i := s.flights[i].(failed := true, lost := !more)]) }

  // ---------------------------------------------------------------- invariants

  /** Counters over the first n flights: bytes not acknowledged, notifications not arrived, those that never will. */
  function UnackedTo(fs: seq<Flight>, n: nat): int
    requires n <= |fs|
  { if n == 0 then 0 else UnackedTo(fs, n - 1) + fs[n - 1].len - fs[n - 1].acked }

  function OpenTo(fs: seq<Flight>, n: nat): nat
    requires n <= |fs|
  { if n == 0 then 0 else OpenTo(fs, n - 1) + if fs[n - 1].open then 1 else 0 }

  function LostTo(fs: seq<Flight>, n: nat): nat
    requires n <= |fs|
  { if n == 0 then 0 else LostTo(fs, n - 1) + if fs[n - 1].lost then 1 else 0 }

  /** Bytes no acknowledgement can retire any more: those of failed sends, and what short ones left behind. */
  function StuckBytes(f: Flight): int { if f.failed || !f.open then f.len - f.acked else 0 }

  function StuckTo(fs: seq<Flight>, n: nat): int
    requires n <= |fs|
  { if n == 0 then 0 else StuckTo(fs, n - 1) + StuckBytes(fs[n - 1]) }

  function Unacked(fs: seq<Flight>): int { UnackedTo(fs, |fs|) }
  function OpenCount(fs: seq<Flight>): nat { OpenTo(fs, |fs|) }
  function LostCount(fs: seq<Flight>): nat { LostTo(fs, |fs|) }
  function Stuck(fs: seq<Flight>): int { StuckTo(fs, |fs|) }

  const MAX_BUFS: nat := 261
  const MAX_SENDS: nat := 2105344

  ghost predicate Cursor(s: Tx) {
    && |s.region| == REGION
    && Aligned(s.c) && s.c.idx * BUF_SIZE <= s.c.start
  }

  /** Only unsent output can be out of step with idx_out_cur. */
  predicate Resting(c: TxCursor) { c.start == c.end ==> Synced(c) }

  /** Nothing is lost or reordered: what was committed is what was submitted plus what is pending. */
  ghost predicate Stream(s: Tx) {
    && s.c.start <= s.c.end <= |s.region|
    && s.committed == s.submitted + s.Pending()
    && s.c.end + |s.scratch| <= |s.region|
    && s.scratch == s.region[s.c.end..s.c.end + |s.scratch|]
    && (s.scratch != [] ==> Synced(s.c))
  }

  ghost predicate FlightsOk(fs: seq<Flight>) {
    forall i :: 0 <= i < |fs| ==> fs[i].acked <= fs[i].len && (fs[i].lost ==> fs[i].open && fs[i].failed)
  }

  /** The in-flight counters count exactly what is in flight, and stay within the gates. */
  ghost predicate Accounted(s: Tx) {
    && FlightsOk(s.flights)
    && s.c.sends == Unacked(s.flights) <= MAX_SENDS
    && s.c.bufs == OpenCount(s.flights) <= MAX_BUFS
  }

  /** Chunks of one lap are buffer-aligned, inside the region, and in strictly increasing buffers below the cursor. */
  ghost predicate LapOk(s: Tx) {
    && (forall i :: 0 <= i < |s.lap| ==>
          && 0 < s.lap[i].len <= BUF_SIZE && s.lap[i].bufRef == s.lap[i].buf * BUF_SIZE
          && s.lap[i].buf * BUF_SIZE + BUF_SIZE <= s.c.start)
    && (forall i, j :: 0 <= i < j < |s.lap| ==> s.lap[i].buf < s.lap[j].buf)
  }

  ghost predicate TxInv(s: Tx) { Cursor(s) && Resting(s.c) && Stream(s) && Accounted(s) && LapOk(s) }

  // ---------------------------------------------------------------- cutting

  lemma CutInRegion(region: seq<byte>, first: nat, total: nat, k: nat)
    requires first * BUF_SIZE + total <= |region| && Covers(total, k)
    ensures AllInRegion(region, Cut(first, total, k))
  {}

  lemma CutPrefix(first: nat, total: nat, k: nat)
    ensures Cut(first, total, k + 1) == Cut(first, total, k) + [ChunkAt(first, total, k)]
    ensures CutBytes(total, k + 1) == CutBytes(total, k) + ChunkLen(total, k)
  {}

  lemma CeilDivCovers(total: nat, k: nat)
    requires k <= CeilDiv(total)
    ensures Covers(total, k)
    ensures CutBytes(total, CeilDiv(total)) == total
    ensures k < CeilDiv(total) ==> k * BUF_SIZE < total
  {}

  /** A prefix of the chunks goes out; then either the cursor stops at the first unsubmitted buffer, or
      everything went out and the cursor is empty on the next free buffer. */
  ghost predicate Shape(c: TxCursor, r: Sent)
    requires c.start <= c.end
  {
    var total, k := c.end - c.start, |r.submitted|;
    && k <= CeilDiv(total) && Covers(total, k) && r.submitted == Cut(c.start / BUF_SIZE, total, k)
    && r.c.sends == c.sends + CutBytes(total, k) && r.c.bufs == c.bufs + k
    && Aligned(r.c) && r.c.idx * BUF_SIZE <= r.c.start
    && (k > 0 ==> !Throttled(c))
    && (Resting(c) ==> Resting(r.c))
    && (if r.chunks.None? || k == 0
        then k * BUF_SIZE <= total && r.c.start == c.start + k * BUF_SIZE && r.c.end == c.end && r.c.idx == c.idx
        else CutBytes(total, k) == total && r.c.start == r.c.end && Synced(r.c))
    && (r.c.start == c.start + k * BUF_SIZE || (c.start + k * BUF_SIZE == REGION && r.c.start == 0))
  }

  lemma SendShape(c: TxCursor, accepts: nat)
    requires Aligned(c) && c.idx * BUF_SIZE <= c.start
    ensures Shape(c, SendAllOut(c, accepts))
    ensures |SendAllOut(c, accepts).submitted|
         == if Throttled(c) then 0 else Min(accepts, CeilDiv(c.end - c.start))
    ensures SendAllOut(c, accepts).chunks
         == if Throttled(c) then Some(0)
            else if accepts < CeilDiv(c.end - c.start) then None else Some(CeilDiv(c.end - c.start))
  {
    var first, total := c.start / BUF_SIZE, c.end - c.start;
    assert first + CeilDiv(total) <= BUF_COUNT;
    CeilDivCovers(total, Min(accepts, CeilDiv(total)));
  }

  lemma ShapeInRegion(s: Tx, r: Sent)
    requires Cursor(s) && Shape(s.c, r)
    ensures AllInRegion(s.region, r.submitted)
  {
    CutInRegion(s.region, s.c.start / BUF_SIZE, s.Len(), |r.submitted|);
  }

  lemma SliceJoin(region: seq<byte>, lo: nat, mid: nat, hi: nat)
    requires lo <= mid <= hi <= |region|
    ensures region[lo..mid] + region[mid..hi] == region[lo..hi]
  {}

  lemma ChunkAtSlice(first: nat, total: nat, k: nat)
    requires Covers(total, k + 1)
    ensures var ch := ChunkAt(first, total, k);
            && ch.buf * BUF_SIZE == first * BUF_SIZE + CutBytes(total, k)
            && ch.buf * BUF_SIZE + ch.len == first * BUF_SIZE + CutBytes(total, k + 1)
  {}

  /** The submitted chunks, laid end to end, are exactly the first bytes of the pending output. */
  lemma {:induction false} GatherCut(region: seq<byte>, first: nat, total: nat, k: nat, n: nat)
    requires first * BUF_SIZE + total <= |region| && Covers(total, k) && n <= k
    ensures AllInRegion(region, Cut(first, total, k))
    ensures Gather(region, Cut(first, total, k), n) == region[first * BUF_SIZE..first * BUF_SIZE + CutBytes(total, n)]
  {
    CutInRegion(region, first, total, k);
    if n > 0 {
      var start := first * BUF_SIZE;
      GatherCut(region, first, total, k, n - 1);
      ChunkAtSlice(first, total, n - 1);
      SliceJoin(region, start, start + CutBytes(total, n - 1), start + CutBytes(total, n));
    }
  }

  lemma {:induction false} FlightsAppend(fs: seq<Flight>, gs: seq<Flight>, n: nat)
    requires n <= |gs|
    ensures UnackedTo(fs + gs, |fs| + n) == Unacked(fs) + UnackedTo(gs, n)
    ensures OpenTo(fs + gs, |fs| + n) == OpenCount(fs) + OpenTo(gs, n)
    ensures LostTo(fs + gs, |fs| + n) == LostCount(fs) + LostTo(gs, n)
    ensures StuckTo(fs + gs, |fs| + n) == Stuck(fs) + StuckTo(gs, n)
    decreases n
  {
    if n == 0 {
      FlightsPrefix(fs, gs, |fs|);
    } else {
      FlightsAppend(fs, gs, n - 1);
    }
  }

  lemma {:induction false} FlightsPrefix(fs: seq<Flight>, gs: seq<Flight>, n: nat)
    requires n <= |fs|
    ensures UnackedTo(fs + gs, n) == UnackedTo(fs, n) && OpenTo(fs + gs, n) == OpenTo(fs, n)
    ensures LostTo(fs + gs, n) == LostTo(fs, n) && StuckTo(fs + gs, n) == StuckTo(fs, n)
  {
    if n > 0 { FlightsPrefix(fs, gs, n - 1); }
  }

  lemma {:induction false} FlightUpdate(fs: seq<Flight>, i: nat, f: Flight, n: nat)
    requires i < |fs| && n <= |fs|
    ensures UnackedTo(fs[i := f], n) == UnackedTo(fs, n) + if i < n then (f.len - f.acked) - (fs[i].len - fs[i].acked) else 0
    ensures OpenTo(fs[i := f], n) == OpenTo(fs, n) + if i < n && f.open != fs[i].open then (if f.open then 1 else -1) else 0
    ensures LostTo(fs[i := f], n) == LostTo(fs, n) + if i < n && f.lost != fs[i].lost then (if f.lost then 1 else -1) else 0
    ensures StuckTo(fs[i := f], n) == StuckTo(fs, n) + if i < n then StuckBytes(f) - StuckBytes(fs[i]) else 0
  {
    if n > 0 { FlightUpdate(fs, i, f, n - 1); }
  }

  lemma {:induction false} FlightsOfCut(first: nat, total: nat, k: nat, n: nat)
    requires n <= k
    ensures var fs := NewFlights(Cut(first, total, k));
            UnackedTo(fs, n) == CutBytes(total, n) && OpenTo(fs, n) == n && LostTo(fs, n) == 0 == StuckTo(fs, n)
  {
    if n > 0 { FlightsOfCut(first, total, k, n - 1); }
  }

  lemma {:induction false} CountsBound(fs: seq<Flight>, n: nat)
    requires FlightsOk(fs) && n <= |fs|
    ensures UnackedTo(fs, n) >= 0
    ensures LostTo(fs, n) <= OpenTo(fs, n) <= n
    ensures 0 <= StuckTo(fs, n) <= UnackedTo(fs, n)
  {
    if n > 0 { CountsBound(fs, n - 1); }
  }

  // ---------------------------------------------------------------- every step keeps the invariant

  lemma WriteKeeps(s: Tx, bytes: seq<byte>)
    requires TxInv(s) && Synced(s.c) && WriteAt(s) + |bytes| <= REGION
    ensures TxInv(TxWrite(s, bytes))
    ensures TxWrite(s, bytes).Pending() == s.Pending()
  {
    var t := TxWrite(s, bytes);
    assert WriteAt(s) == s.c.end + |s.scratch|;
    assert t.Pending() == s.Pending();
    assert t.scratch == t.region[t.c.end..t.c.end + |t.scratch|];
  }

  /** The pages agree on the pending bytes and on those written behind them. */
  ghost predicate SameBytes(s: Tx, t: Tx)
    requires Stream(s) && |t.region| == |s.region|
  { t.region[s.c.start..s.c.end + |s.scratch|] == s.region[s.c.start..s.c.end + |s.scratch|] }

  /** A write anywhere in the page keeps the stream exactly when it leaves pending and written bytes as they were. */
  lemma WriteElsewhereIff(s: Tx, at: nat, bytes: seq<byte>)
    requires TxInv(s) && at + |bytes| <= REGION
    ensures var t := s.(region := Overwrite(s.region, at, bytes));
            TxInv(t) <==> SameBytes(s, t)
  {
    var t, hi := s.(region := Overwrite(s.region, at, bytes)), s.c.end + |s.scratch|;
    SliceJoin(s.region, s.c.start, s.c.end, hi);
    SliceJoin(t.region, s.c.start, s.c.end, hi);
    if TxInv(t) {
      assert s.submitted + t.Pending() == s.submitted + s.Pending();
      assert t.Pending() == (s.submitted + t.Pending())[|s.submitted|..] == s.Pending();
    }
    if t.region[s.c.start..hi] == s.region[s.c.start..hi] {
      assert t.Pending() == t.region[s.c.start..hi][..s.Len()] == s.Pending();
      assert t.region[s.c.end..hi] == t.region[s.c.start..hi][s.Len()..] == s.region[s.c.end..hi];
    }
  }

  lemma GrowKeepsStream(s: Tx, newLen: nat)
    requires Cursor(s) && Stream(s) && Synced(s.c)
    requires s.Len() < newLen <= s.Len() + |s.scratch|
    ensures s.Len() <= |s.committed|
    ensures var t := TxSetLen(s, newLen); Cursor(t) && Stream(t) && t.Len() == newLen
    ensures TxSetLen(s, newLen).committed == s.committed + s.scratch[..newLen - s.Len()]
  {
    var n, end := newLen - s.Len(), s.c.end;
    var added := s.region[end..end + n];
    SubSlice(s.region, end, end + |s.scratch|, n);
    SliceJoin(s.region, s.c.start, end, end + n);
    SplitAssoc(s.submitted, s.Pending(), added);
    assert TxSetLen(s, newLen)
        == s.(c := s.c.(end := end + n), committed := s.committed + added, scratch := s.scratch[n..]);
  }

  lemma SplitAssoc(x: seq<byte>, y: seq<byte>, z: seq<byte>)
    ensures (x + y) + z == x + (y + z)
  {}

  lemma ShrinkKeepsStream(s: Tx, newLen: nat)
    requires Cursor(s) && Stream(s) && Synced(s.c)
    requires newLen < s.Len()
    ensures s.Len() <= |s.committed|
    ensures var t := TxSetLen(s, newLen); Cursor(t) && Stream(t) && t.Len() == newLen
  {
    var t := TxSetLen(s, newLen);
    SliceJoin(s.region, s.c.start, t.c.end, s.c.end);
    assert t.committed == s.submitted + t.Pending();
  }

  lemma SetLenKeeps(s: Tx, newLen: nat)
    requires TxInv(s)
    requires newLen == s.Len() || Synced(s.c)
    requires newLen <= s.Len() + |s.scratch|
    ensures s.Len() <= |s.committed| && s.c.idx * BUF_SIZE + newLen <= |s.region|
    ensures TxInv(TxSetLen(s, newLen)) && TxSetLen(s, newLen).Len() == newLen
    ensures newLen > s.Len() ==> TxSetLen(s, newLen).committed == s.committed + s.scratch[..newLen - s.Len()]
  {
    if newLen > s.Len() {
      GrowKeepsStream(s, newLen);
    } else if newLen < s.Len() {
      ShrinkKeepsStream(s, newLen);
    }
  }

  /** A layer that appends its output and then sets the length commits exactly that output. */
  lemma CommitAppends(s: Tx, output: seq<byte>)
    requires TxInv(s) && Synced(s.c) && s.scratch == [] && WriteAt(s) + |output| <= REGION
    ensures var w := TxWrite(s, output);
            && TxInv(w) && w.Len() == s.Len() <= |w.committed|
            && var t := TxSetLen(w, s.Len() + |output|);
               && TxInv(t) && Synced(t.c) && t.scratch == []
               && t.committed == s.committed + output && t.Len() == s.Len() + |output|
               && t.submitted == s.submitted && t.flights == s.flights
  {
    WriteKeeps(s, output);
    SetLenKeeps(TxWrite(s, output), s.Len() + |output|);
  }

  /** What a call submits and what it leaves pending, whether or not it was refused part-way. */
  lemma ApplySplitsPending(s: Tx, r: Sent)
    requires Cursor(s) && Shape(s.c, r)
    ensures AllInRegion(s.region, r.submitted)
    ensures var t := TxApply(s, r);
            var k := CutBytes(s.Len(), |r.submitted|);
            && Cursor(t)
            && t.submitted == s.submitted + s.Pending()[..k]
            && t.Pending() == s.Pending()[k..]
  {
    GatherPending(s, r);
    var k := CutBytes(s.Len(), |r.submitted|);
    SubSlice(s.region, s.c.start, s.c.end, k);
    if k == s.Len() {
      assert s.Pending()[k..] == [];
    }
  }

  lemma GatherPending(s: Tx, r: Sent)
    requires Cursor(s) && Shape(s.c, r)
    ensures AllInRegion(s.region, r.submitted)
    ensures Gather(s.region, r.submitted, |r.submitted|) == s.region[s.c.start..s.c.start + CutBytes(s.Len(), |r.submitted|)]
  {
    GatherCut(s.region, s.c.start / BUF_SIZE, s.Len(), |r.submitted|, |r.submitted|);
  }

  lemma SubSlice(region: seq<byte>, lo: nat, hi: nat, k: nat)
    requires lo <= hi <= |region| && k <= hi - lo
    ensures region[lo..hi][..k] == region[lo..lo + k] && region[lo..hi][k..] == region[lo + k..hi]
  {}

  lemma ApplyKeepsStream(s: Tx, r: Sent)
    requires Cursor(s) && Stream(s) && Shape(s.c, r)
    ensures AllInRegion(s.region, r.submitted) && Stream(TxApply(s, r))
  {
    ApplySplitsPending(s, r);
    SplitJoin(s.submitted, s.Pending(), CutBytes(s.Len(), |r.submitted|));
    if r.submitted == [] {
      assert r.c.start == s.c.start && r.c.end == s.c.end && r.c.idx == s.c.idx;
    }
  }

  lemma SplitJoin(x: seq<byte>, q: seq<byte>, k: nat)
    requires k <= |q|
    ensures x + q == (x + q[..k]) + q[k..]
  {}

  lemma AppendFlights(fs: seq<Flight>, gs: seq<Flight>)
    requires FlightsOk(fs) && FlightsOk(gs)
    ensures FlightsOk(fs + gs)
  {}

  lemma FlightsOfShape(s: Tx, r: Sent)
    requires Cursor(s) && Shape(s.c, r)
    ensures var gs := NewFlights(r.submitted);
            && FlightsOk(gs) && Unacked(gs) == r.c.sends - s.c.sends && OpenCount(gs) == r.c.bufs - s.c.bufs
    ensures r.submitted == [] || (r.c.sends <= BUF_SIZE + REGION && r.c.bufs <= 5 + BUF_COUNT)
  {
    FlightsOfCut(s.c.start / BUF_SIZE, s.Len(), |r.submitted|, |r.submitted|);
    CutAtMost(s.Len(), |r.submitted|);
  }

  lemma CutAtMost(total: nat, k: nat)
    requires total <= REGION && k <= CeilDiv(total)
    ensures CutBytes(total, k) <= REGION && k <= BUF_COUNT
  {}

  lemma ApplyKeepsAccounts(s: Tx, r: Sent)
    requires Cursor(s) && Accounted(s) && Shape(s.c, r)
    ensures AllInRegion(s.region, r.submitted) && Accounted(TxApply(s, r))
  {
    ShapeInRegion(s, r);
    hide Shape, NewFlights, Gather;
    FlightsOfShape(s, r);
    AppendFlights(s.flights, NewFlights(r.submitted));
    FlightsAppend(s.flights, NewFlights(r.submitted), |r.submitted|);
  }

  lemma ApplyKeepsLap(s: Tx, r: Sent)
    requires Cursor(s) && LapOk(s) && Shape(s.c, r)
    ensures AllInRegion(s.region, r.submitted) && LapOk(TxApply(s, r))
  {
    ShapeInRegion(s, r);
    forall i | 0 <= i < |r.submitted|
      ensures var ch := r.submitted[i];
              0 < ch.len <= BUF_SIZE && ch.bufRef == ch.buf * BUF_SIZE == s.c.start + i * BUF_SIZE
    {}
  }

  lemma SendKeeps(s: Tx, accepts: nat)
    requires TxInv(s)
    ensures TxInv(TxSend(s, accepts))
    ensures TxSend(s, accepts).committed == s.committed
  {
    hide SendAllOut, Shape;
    var r := SendAllOut(s.c, accepts);
    SendShape(s.c, accepts);
    ApplySplitsPending(s, r);
    ApplyKeepsStream(s, r);
    ApplyKeepsAccounts(s, r);
    ApplyKeepsLap(s, r);
  }

  /** The kernel acknowledges at most the bytes it was given, none after a failure, and notifies once. */
  ghost predicate CanAck(s: Tx, i: nat, sentOut: nat) {
    && i < |s.flights| && s.flights[i].open && !s.flights[i].lost
    && (if s.flights[i].failed then sentOut == 0 else s.flights[i].acked + sentOut <= s.flights[i].len)
  }

  /** A submission fails at most once, before its notification. */
  ghost predicate CanFail(s: Tx, i: nat) { i < |s.flights| && s.flights[i].open && !s.flights[i].failed }

  /** Neither counter underflows. */
  lemma AckKeeps(s: Tx, i: nat, sentOut: nat, more: bool)
    requires TxInv(s) && CanAck(s, i, sentOut)
    ensures TxAck(s, i, sentOut, more).Done? && TxInv(TxAck(s, i, sentOut, more).value)
  {
    var f := s.flights[i];
    var f' := f.(acked := f.acked + sentOut, open := more);
    FlightUpdate(s.flights, i, f', |s.flights|);
    CountsBound(s.flights[i := f'], |s.flights|);
  }

  lemma FailKeeps(s: Tx, i: nat, more: bool)
    requires TxInv(s) && CanFail(s, i)
    ensures TxInv(TxFail(s, i, more))
  {
    FlightUpdate(s.flights, i, s.flights[i].(failed := true, lost := !more), |s.flights|);
  }

  /** The notification of a failed send gives its buffer back, and none of its bytes. */
  lemma FailedNotification(s: Tx, i: nat)
    requires TxInv(s) && CanFail(s, i)
    ensures var t := TxFail(s, i, true);
            && CanAck(t, i, 0) && TxAck(t, i, 0, false).Done?
            && TxAck(t, i, 0, false).value.c == s.c.(bufs := s.c.bufs - 1)
            && !CanAck(TxFail(s, i, false), i, 0)
  {
    FailKeeps(s, i, true);
    AckKeeps(TxFail(s, i, true), i, 0, false);
  }

  // ---------------------------------------------------------------- what the invariant buys

  ghost predicate Disjoint(lo1: nat, hi1: nat, lo2: nat, hi2: nat) { hi1 <= lo2 || hi2 <= lo1 }

  /** No chunk of a lap overlaps another, and none overlaps the slice lent to the layers. */
  lemma LapDisjoint(s: Tx)
    requires TxInv(s)
    ensures forall i :: 0 <= i < |s.lap| ==> s.lap[i].buf <= 255
    ensures forall i, j :: 0 <= i < j < |s.lap| ==>
              Disjoint(s.lap[i].buf * BUF_SIZE, s.lap[i].buf * BUF_SIZE + s.lap[i].len,
                       s.lap[j].buf * BUF_SIZE, s.lap[j].buf * BUF_SIZE + s.lap[j].len)
    ensures Synced(s.c) ==> forall i :: 0 <= i < |s.lap| ==>
              Disjoint(s.lap[i].buf * BUF_SIZE, s.lap[i].buf * BUF_SIZE + s.lap[i].len, s.c.idx * BUF_SIZE, REGION)
  {
    forall i, j | 0 <= i < j < |s.lap|
      ensures Disjoint(s.lap[i].buf * BUF_SIZE, s.lap[i].buf * BUF_SIZE + s.lap[i].len,
                       s.lap[j].buf * BUF_SIZE, s.lap[j].buf * BUF_SIZE + s.lap[j].len)
    {
      assert s.lap[i].buf + 1 <= s.lap[j].buf;
    }
  }

  /** An unthrottled, unrefused call sends everything pending and ends empty on a buffer boundary. */
  lemma FullSend(s: Tx, accepts: nat)
    requires Cursor(s) && !Throttled(s.c) && s.Len() > 0 && accepts >= CeilDiv(s.Len())
    ensures SendAllOut(s.c, accepts).chunks == Some(CeilDiv(s.Len()))
    ensures var u := TxSend(s, accepts);
            u.submitted == s.submitted + s.Pending() && u.c.start == u.c.end == u.c.idx * BUF_SIZE
  {
    hide SendAllOut;
    SendShape(s.c, accepts);
    ApplySplitsPending(s, SendAllOut(s.c, accepts));
    CeilDivCovers(s.Len(), CeilDiv(s.Len()));
  }

  lemma RefusedSendStops(s: Tx, k: nat)
    requires Cursor(s) && SendAllOut(s.c, k).chunks.None?
    ensures var t := TxSend(s, k);
            && k * BUF_SIZE < s.Len()
            && t.c.start == s.c.start + k * BUF_SIZE && t.c.end == s.c.end
            && t.submitted == s.submitted + s.Pending()[..k * BUF_SIZE]
            && t.Pending() == s.Pending()[k * BUF_SIZE..]
  {
    hide SendAllOut;
    SendShape(s.c, k);
    ApplySplitsPending(s, SendAllOut(s.c, k));
  }

  /** A call refused after k chunks leaves exactly the unsubmitted suffix pending; the next call that is
      neither throttled nor refused, whatever was acknowledged in between, sends exactly that suffix and
      leaves the cursor empty on a buffer boundary. */
  lemma RefusedSendResumes(s: Tx, k: nat, t: Tx, accepts: nat)
    requires Cursor(s) && SendAllOut(s.c, k).chunks.None?
    requires Cursor(t) && t.region == s.region && t.submitted == TxSend(s, k).submitted
    requires t.c.start == TxSend(s, k).c.start && t.c.end == TxSend(s, k).c.end
    requires !Throttled(t.c) && accepts >= CeilDiv(t.Len())
    ensures k * BUF_SIZE < s.Len()
    ensures t.submitted == s.submitted + s.Pending()[..k * BUF_SIZE]
    ensures t.Pending() == s.Pending()[k * BUF_SIZE..]
    ensures var u := TxSend(t, accepts);
            && SendAllOut(t.c, accepts).chunks == Some(CeilDiv(s.Len()) - k)
            && u.submitted == s.submitted + s.Pending()
            && u.c.start == u.c.end == u.c.idx * BUF_SIZE
  {
    hide SendAllOut;
    RefusedSendStops(s, k);
    assert t.Pending() == TxSend(s, k).Pending();
    CeilDivLess(s.Len(), k);
    FullSend(t, accepts);
    SplitJoin(s.submitted, s.Pending(), k * BUF_SIZE);
  }

  lemma CeilDivLess(total: nat, k: nat)
    requires k * BUF_SIZE < total
    ensures CeilDiv(total - k * BUF_SIZE) == CeilDiv(total) - k
  {}

  /** Every acknowledgement the kernel still owes has arrived. */
  ghost predicate Drained(fs: seq<Flight>) {
    forall i :: 0 <= i < |fs| && fs[i].open ==> fs[i].lost
  }

  /** Too many bytes, or buffers, in flight that nothing will ever retire: the bytes of failed sends and of short
      acknowledgements, and the buffers of sends that failed without a notification to come. */
  predicate Silenced(s: Tx) { Stuck(s.flights) > BUF_SIZE || LostCount(s.flights) >= 6 }

  /** Once the kernel owes nothing, what is still in flight is exactly what is stuck, and the gate is open exactly
      when that is at most 8192 bytes and at most 5 buffers. */
  lemma QuietGate(s: Tx)
    requires TxInv(s) && Drained(s.flights)
    ensures s.c.bufs == LostCount(s.flights) && s.c.sends == Stuck(s.flights)
    ensures Throttled(s.c) <==> Silenced(s)
    ensures (forall i :: 0 <= i < |s.flights| ==> s.flights[i].acked == s.flights[i].len) ==> s.c.sends == 0
  {
    DrainedCounts(s.flights, |s.flights|);
    if forall i :: 0 <= i < |s.flights| ==> s.flights[i].acked == s.flights[i].len {
      AllAcked(s.flights, |s.flights|);
    }
  }

  lemma {:induction false} DrainedCounts(fs: seq<Flight>, n: nat)
    requires FlightsOk(fs) && Drained(fs) && n <= |fs|
    ensures OpenTo(fs, n) == LostTo(fs, n) && UnackedTo(fs, n) == StuckTo(fs, n)
  {
    if n > 0 { DrainedCounts(fs, n - 1); }
  }

  lemma {:induction false} AllAcked(fs: seq<Flight>, n: nat)
    requires n <= |fs| && forall i :: 0 <= i < |fs| ==> fs[i].acked == fs[i].len
    ensures UnackedTo(fs, n) == 0
  {
    if n > 0 { AllAcked(fs, n - 1); }
  }

  /** Stuck bytes and buffers count against the gate, so a silenced stream submits nothing. */
  lemma SilencedSendsNothing(s: Tx, accepts: nat)
    requires TxInv(s) && Silenced(s)
    ensures TxSend(s, accepts).submitted == s.submitted && TxSend(s, accepts).flights == s.flights
    ensures SendAllOut(s.c, accepts).chunks == Some(0)
  {
    CountsBound(s.flights, |s.flights|);
  }

  /** Acknowledging, however little or much, frees nothing that is stuck. */
  lemma AckKeepsStuck(s: Tx, i: nat, sentOut: nat, more: bool)
    requires TxInv(s) && CanAck(s, i, sentOut)
    ensures TxAck(s, i, sentOut, more).Done?
    ensures var fs := TxAck(s, i, sentOut, more).value.flights;
            && LostCount(fs) == LostCount(s.flights)
            && Stuck(fs) == Stuck(s.flights)
               + if more || s.flights[i].failed then 0 else s.flights[i].len - s.flights[i].acked - sentOut
  {
    AckKeeps(s, i, sentOut, more);
    var f := s.flights[i];
    FlightUpdate(s.flights, i, f.(acked := f.acked + sentOut, open := more), |s.flights|);
  }

  /** Nor does another failure. */
  lemma FailAddsStuck(s: Tx, i: nat, more: bool)
    requires TxInv(s) && CanFail(s, i)
    ensures LostCount(TxFail(s, i, more).flights) == LostCount(s.flights) + if more then 0 else 1
    ensures Stuck(TxFail(s, i, more).flights) == Stuck(s.flights) + s.flights[i].len - s.flights[i].acked
  {
    FlightUpdate(s.flights, i, s.flights[i].(failed := true, lost := !more), |s.flights|);
  }

  /** Committing through a stale slice never preserves the output: after a refused submission the new bytes land
      short of the pending ones by what was already submitted. */
  lemma CommitPreservesIff(s: Tx, output: seq<byte>)
    requires Cursor(s) && s.scratch == [] && output != [] && WriteAt(s) + |output| <= REGION
    ensures var w := TxWrite(s, output);
            var c := SetLenOut(w.c, s.Len() + |output|);
            (c.start <= c.end && w.region[c.start..c.end] == s.Pending() + output) <==> Synced(s.c)
  {
    var w := TxWrite(s, output);
    var c := SetLenOut(w.c, s.Len() + |output|);
    if Synced(s.c) {
      assert w.region[c.start..c.end] == s.Pending() + output;
    } else if c.start <= c.end {
      assert |w.region[c.start..c.end]| < |s.Pending() + output|;
    }
  }
}
