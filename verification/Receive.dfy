// The receive half of a hugepage stream: a cyclic 2 MiB region that the kernel fills and the layers drain.

module Receive {
  import opened Common

  /** The receive fields of CursorLeft (pos_in_start, pos_in_end, idx_in_reused). */
  datatype RxCursor = RxCursor(start: nat, end: nat, reused: nat)

  /** What left_bufs_mut hands out: byte ranges of the region. The second piece of a Double starts at 0. */
  datatype View = Single(lo: nat, hi: nat) | Double(lo: nat, len1: nat, len2: nat)

  datatype Freed = Freed(c: RxCursor, ids: seq<nat>)

  // ---------------------------------------------------------------- the program's decisions

  function RecvMulti(c: RxCursor, bufId: Option<nat>, bufLen: nat): Outcome<RxCursor> {
    if bufId.None? then Done(c)
    else if bufLen + c.end > c.end then Done(c.(end := bufLen + c.end))
    else if REGION - BUF_SIZE <= c.end < REGION && bufId.value == 0 then Panicked(RevolutionDetected)
    else Panicked(EndNotUpdated)
  }

  function SetLenIn(c: RxCursor, newLen: nat): RxCursor
    requires c.start <= c.end
  {
    if newLen < c.end - c.start then c.(start := c.end - newLen)
    else if newLen > c.end - c.start then c.(end := c.start + newLen)
    else c
  }

  predicate Revolves(c: RxCursor) { c.start > REGION && c.end > REGION }

  function Revolve(c: RxCursor): RxCursor {
    if Revolves(c) then c.(start := c.start - REGION, end := c.end - REGION) else c
  }

  /** The view of an already revolved cursor. */
  function ViewOf(c: RxCursor): View {
    if c.start <= REGION && c.end > REGION then Double(c.start, REGION - c.start, c.end - REGION)
    else Single(c.start, c.end)
  }

  /** Both early returns of try_free_buffers: the reader has wrapped into buffer 0. */
  predicate WrapsRecycling(c: RxCursor) {
    c.start / BUF_SIZE == 0 && (c.reused == 255 || c.reused == 256)
  }

  function FreeBuffers(c: RxCursor): Outcome<Freed> {
    var cur := c.start / BUF_SIZE;
    if cur == 0 && c.reused == 255 then Done(Freed(c.(reused := 0), [256]))
    else if cur == 0 && c.reused == 256 then Done(Freed(c.(reused := 0), []))
    else if c.reused > cur then Panicked(RecycledAhead)
    else Done(Freed(c.(reused := cur), seq(cur - c.reused, i => c.reused + i)))
  }

  // ---------------------------------------------------------------- the cursor with its memory and history

  /** region  - the bytes of hugetlb_in
      wire    - every byte the kernel has ever written, in order
      consumed- bytes the layers have consumed so far
      dropped - every id passed to dropping_bid, in order
      laps    - times left_bufs_mut revolved the cursor
      resets  - times try_free_buffers reset idx_in_reused to 0
      sinceFree - bytes consumed since try_free_buffers last returned */
  datatype Rx = Rx(c: RxCursor, region: seq<byte>, wire: seq<byte>, consumed: nat,
                   dropped: seq<nat>, laps: nat, resets: nat, sinceFree: nat)
  {
    /** Bytes reported by completions so far. */
    function Reported(): nat { c.end + laps * REGION }

    /** The received but unconsumed bytes, in order. */
    function Unread(): seq<byte>
      requires consumed <= Reported() <= |wire|
    { wire[consumed..Reported()] }
  }

  function RxInit(region: seq<byte>): Rx { Rx(RxCursor(0, 0, 0), region, [], 0, [], 0, 0, 0) }

  /** How far position i lies behind position pos, going round the region. */
  function Offset(pos: nat, i: nat): nat { (i - pos) % REGION }

  /** The kernel writes bytes cyclically, starting at stream position pos. */
  function Fill(region: seq<byte>, pos: nat, bytes: seq<byte>): (r: seq<byte>)
    requires |region| == REGION
    ensures |r| == REGION
  {
    seq(REGION, i requires 0 <= i < REGION =>
      if Offset(pos, i) < |bytes| then bytes[Offset(pos, i)] else region[i])
  }

  function RxDma(s: Rx, bytes: seq<byte>): Rx
    requires |s.region| == REGION
  {
    s.(region := Fill(s.region, |s.wire|, bytes), wire := s.wire + bytes)
  }

  function RxRecv(s: Rx, bufId: Option<nat>, bufLen: nat): Outcome<Rx> {
    match RecvMulti(s.c, bufId, bufLen)
    case Done(c) => Done(s.(c := c))
    case Panicked(why) => Panicked(why)
  }

  function RxBorrow(s: Rx): Rx {
    s.(c := Revolve(s.c), laps := if Revolves(s.c) then s.laps + 1 else s.laps)
  }

  function RxSetLen(s: Rx, newLen: nat): Rx
    requires s.c.start <= s.c.end
  {
    var len := s.c.end - s.c.start;
    var eaten := if newLen < len then len - newLen else 0;
    s.(c := SetLenIn(s.c, newLen), consumed := s.consumed + eaten, sinceFree := s.sinceFree + eaten)
  }

  function RxFree(s: Rx): Outcome<Rx> {
    match FreeBuffers(s.c)
    case Panicked(why) => Panicked(why)
    case Done(f) =>
      Done(s.(c := f.c, dropped := s.dropped + f.ids,
              resets := if WrapsRecycling(s.c) then s.resets + 1 else s.resets, sinceFree := 0))
  }

  // ---------------------------------------------------------------- invariants

  /** The cursor and the region represent the unread part of the wire. */
  ghost predicate Ring(s: Rx) {
    && |s.region| == REGION
    && s.c.start <= s.c.end
    && s.c.start <= 2 * REGION
    && s.c.start + s.laps * REGION == s.consumed
    && s.Reported() <= |s.wire| <= s.consumed + REGION
    && forall k :: s.consumed <= k < |s.wire| ==> s.region[k % REGION] == s.wire[k]
  }

  /** Buffers are handed back only after consumption, and the kernel holds no more credit than that. */
  ghost predicate Recycling(s: Rx) {
    && |s.dropped| == BUF_COUNT * s.resets + s.c.reused
    && s.resets <= s.laps
    && |s.dropped| <= s.consumed / BUF_SIZE
    && |s.wire| <= (BUF_COUNT + |s.dropped|) * BUF_SIZE
  }

  ghost predicate RxInv(s: Rx) { Ring(s) && Recycling(s) }

  /** The kernel writes only into buffers it owns: 256 initially, one more for every dropping_bid. */
  ghost predicate HasCredit(s: Rx, n: nat) {
    |s.wire| + n <= (BUF_COUNT + |s.dropped|) * BUF_SIZE
  }

  // ---------------------------------------------------------------- the ring

  lemma FillAt(region: seq<byte>, pos: nat, bytes: seq<byte>, k: nat)
    requires |region| == REGION && |bytes| <= REGION
    requires pos + |bytes| <= k + REGION && k < pos + |bytes|
    ensures Fill(region, pos, bytes)[k % REGION] == if k < pos then region[k % REGION] else bytes[k - pos]
  {
    if k < pos {
      assert Offset(pos, k % REGION) == k - pos + REGION;
    } else {
      assert Offset(pos, k % REGION) == k - pos;
    }
  }

  /** A credit-respecting write lands behind the reader: no unconsumed byte of the region changes. */
  lemma DmaKeepsUnread(s: Rx, bytes: seq<byte>)
    requires RxInv(s) && HasCredit(s, |bytes|)
    ensures RxInv(RxDma(s, bytes))
    ensures RxDma(s, bytes).Unread() == s.Unread()
    ensures forall k :: s.consumed <= k < |s.wire| ==> RxDma(s, bytes).region[k % REGION] == s.region[k % REGION]
  {
    var t := RxDma(s, bytes);
    forall k | s.consumed <= k < |t.wire|
      ensures t.region[k % REGION] == t.wire[k]
      ensures k < |s.wire| ==> t.region[k % REGION] == s.region[k % REGION]
    {
      FillAt(s.region, |s.wire|, bytes, k);
    }
  }

  /** Reporting a completion fails exactly when a buffer is named but no byte arrived. */
  lemma RecvPanicsIffEmpty(s: Rx, bufId: Option<nat>, bufLen: nat)
    ensures RxRecv(s, bufId, bufLen).Panicked? <==> bufId.Some? && bufLen == 0
    ensures RxRecv(s, bufId, bufLen) == Panicked(RevolutionDetected)
       <==> bufId == Some(0) && bufLen == 0 && REGION - BUF_SIZE <= s.c.end < REGION
    ensures RxRecv(s, bufId, bufLen).Panicked? ==> RxRecv(s, bufId, bufLen).why in {RevolutionDetected, EndNotUpdated}
  {}

  lemma RecvKeeps(s: Rx, bufId: Option<nat>, bufLen: nat)
    requires RxInv(s) && RxRecv(s, bufId, bufLen).Done?
    requires bufId.Some? ==> s.Reported() + bufLen <= |s.wire|
    ensures var t := RxRecv(s, bufId, bufLen).value;
            RxInv(t) &&
            t.Unread() == s.Unread() + if bufId.None? then [] else s.wire[s.Reported()..s.Reported() + bufLen]
  {}

  /** Both pieces lie inside the region, do not overlap, and add up to the in-length. */
  predicate LegalView(c: RxCursor, v: View) {
    match v
    case Single(lo, hi) => lo <= hi <= REGION && hi - lo == c.end - c.start
    case Double(lo, len1, len2) => lo + len1 == REGION && len2 <= lo && len1 + len2 == c.end - c.start
  }

  function ViewBytes(region: seq<byte>, v: View): seq<byte>
    requires |region| == REGION
    requires match v case Single(lo, hi) => lo <= hi <= REGION case Double(lo, n, m) => lo + n == REGION && m <= lo
  {
    match v
    case Single(lo, hi) => region[lo..hi]
    case Double(lo, n, m) => region[lo..lo + n] + region[..m]
  }

  lemma RevolveKeeps(s: Rx)
    requires RxInv(s)
    ensures var t := RxBorrow(s);
            && RxInv(t) && t.c.start <= REGION && t.c.end <= t.c.start + REGION
            && t.Unread() == s.Unread()
            && LegalView(t.c, ViewOf(t.c))
  {
    assert s.Reported() <= s.consumed + REGION;
    var t := RxBorrow(s);
    assert t.consumed == s.consumed && t.Reported() == s.Reported();
  }

  lemma LapMod(i: nat, laps: nat)
    ensures (i + laps * REGION) % REGION == i % REGION
  {}

  lemma ViewAt(t: Rx, j: nat)
    requires Ring(t) && t.c.start <= REGION && LegalView(t.c, ViewOf(t.c))
    requires t.consumed + j < t.Reported()
    ensures var bytes := ViewBytes(t.region, ViewOf(t.c));
            j < |bytes| && bytes[j] == t.wire[t.consumed + j]
  {
    var k, i := t.consumed + j, t.c.start + j;
    assert k == i + t.laps * REGION;
    LapMod(i, t.laps);
    assert t.region[k % REGION] == t.wire[k];
    if i < REGION { assert k % REGION == i; } else { assert k % REGION == i - REGION; }
  }

  /** The two-slice borrow is legal and shows exactly the unread bytes. */
  lemma BorrowShowsUnread(s: Rx)
    requires RxInv(s)
    ensures var t := RxBorrow(s);
            && RxInv(t) && t.Unread() == s.Unread()
            && LegalView(t.c, ViewOf(t.c))
            && ViewBytes(t.region, ViewOf(t.c)) == s.Unread()
  {
    RevolveKeeps(s);
    var t := RxBorrow(s);
    var bytes := ViewBytes(t.region, ViewOf(t.c));
    var unread := t.Unread();
    forall j | 0 <= j < |unread| ensures j < |bytes| && bytes[j] == unread[j] {
      ViewAt(t, j);
    }
  }

  /** Consuming keeps the last newLen unread bytes. */
  lemma ConsumeKeeps(s: Rx, newLen: nat)
    requires RxInv(s) && newLen <= s.c.end - s.c.start
    requires newLen + s.c.start <= REGION
    ensures RxInv(RxSetLen(s, newLen))
    ensures RxSetLen(s, newLen).Unread() == s.Unread()[|s.Unread()| - newLen..]
  {}

  lemma FreeKeeps(s: Rx)
    requires RxInv(s) && RxFree(s).Done?
    ensures RxInv(RxFree(s).value)
    ensures RxFree(s).value.Unread() == s.Unread()
  {
    assert s.consumed / BUF_SIZE == BUF_COUNT * s.laps + s.c.start / BUF_SIZE;
  }
}
