// run_blueprints: the loop that passes control between one layer and the app until neither makes progress.

module DriveModel {
  import opened Common

  const MID_SIZE: nat := 8192

  /** What one advance_with call of a layer does. newIn: input left unconsumed; output: appended to the left
      output; feed: appended to the right input; sentRight: all_sent_right_out was called. */
  datatype LayerMove = LayerMove(newIn: nat, output: seq<byte>, feed: seq<byte>, sentRight: bool,
                                 ready: bool, blocked: bool)

  /** What one advance_with call of the app does to the buffer on its left. */
  datatype AppMove = AppMove(newIn: nat, output: seq<byte>)

  /** The lengths the loop looks at, and its cur_level. */
  datatype Drive = Drive(level: nat, leftIn: nat, leftOut: nat, midIn: nat, midOut: nat)

  /** A layer only consumes input, feeds the app only while consuming, and turns pending right output into
      left output. */
  predicate LayerOk(d: Drive, m: LayerMove) {
    && m.newIn <= d.leftIn
    && (m.newIn == d.leftIn ==> m.feed == [])
    && (d.midOut > 0 ==> d.leftOut + |m.output| > 0)
  }

  predicate AppOk(d: Drive, m: AppMove) { m.newIn <= d.midIn }

  /** The loop after a layer call: None when it returns. */
  function LayerTurn(d: Drive, m: LayerMove): Option<Drive> { LayerTurnTo(d, m, d.leftOut + |m.output|) }

  /** leftOut: the out-length that left_lens then reports. */
  function LayerTurnTo(d: Drive, m: LayerMove, leftOut: nat): Option<Drive> {
    var midIn := d.midIn + |m.feed|;
    var midOut := if m.sentRight then 0 else d.midOut;
    if leftOut != 0 then None
    else if !m.ready && !m.blocked && d.leftIn != m.newIn then Some(Drive(0, m.newIn, leftOut, midIn, midOut))
    else if !m.ready then None
    else Some(Drive(1, m.newIn, leftOut, midIn, midOut))
  }

  /** The loop after an app call. */
  function AppTurn(d: Drive, m: AppMove): Option<Drive> {
    var midOut := d.midOut + |m.output|;
    if m.newIn == 0 && midOut == 0 then None
    else if midOut == 0 && d.midIn == m.newIn && d.midOut == midOut then None
    else Some(Drive(0, d.leftIn, d.leftOut, m.newIn, midOut))
  }

  ghost predicate Next(d: Drive, d': Drive) {
    if d.level == 0 then exists m :: LayerOk(d, m) && LayerTurn(d, m) == Some(d')
    else exists m :: AppOk(d, m) && AppTurn(d, m) == Some(d')
  }

  /** Levels above 1 do not occur, the app is called only with its output flushed, and the buffer is bounded. */
  predicate DriveInv(d: Drive) {
    d.level <= 1 && d.midIn <= MID_SIZE && (d.level == 1 ==> d.midOut == 0)
  }

  /** Left input first, then intermediate input, then how soon the loop must return. */
  function Rank(d: Drive): nat {
    3 * ((MID_SIZE + 1) * d.leftIn + d.midIn) + if d.level == 1 then 1 else if d.midOut == 0 then 2 else 0
  }

  lemma StartRank(d: Drive)
    requires d.level == 0 && d.midIn == 0
    ensures DriveInv(d) && Rank(d) <= 3 * (MID_SIZE + 1) * d.leftIn + 2
  {}

  lemma LayerDescends(d: Drive, m: LayerMove)
    requires DriveInv(d) && d.level == 0 && LayerOk(d, m) && d.midIn + |m.feed| <= MID_SIZE
    ensures var t := LayerTurn(d, m); t.Some? ==> DriveInv(t.value) && Rank(t.value) < Rank(d)
  {}

  lemma AppDescends(d: Drive, m: AppMove)
    requires DriveInv(d) && d.level == 1 && AppOk(d, m)
    ensures var t := AppTurn(d, m); t.Some? ==> DriveInv(t.value) && Rank(t.value) < Rank(d)
  {}

  /** However a layer and an app that keep the contract behave, the loop makes at most Rank + 1 calls. */
  lemma {:induction false} DriveBounded(trace: seq<Drive>)
    requires trace != [] && DriveInv(trace[0])
    requires forall i :: 0 <= i < |trace| ==> trace[i].midIn <= MID_SIZE
    requires forall i :: 0 <= i < |trace| - 1 ==> Next(trace[i], trace[i + 1])
    ensures |trace| <= Rank(trace[0]) + 1
    ensures forall i :: 0 <= i < |trace| ==> trace[i].level <= 1
  {
    if |trace| > 1 {
      var d, d' := trace[0], trace[1];
      assert Next(trace[0], trace[0 + 1]);
      if d.level == 0 {
        var m :| LayerOk(d, m) && LayerTurn(d, m) == Some(d');
        LayerDescends(d, m);
      } else {
        var m :| AppOk(d, m) && AppTurn(d, m) == Some(d');
        AppDescends(d, m);
      }
      forall i | 0 <= i < |trace| - 2 ensures Next(trace[1..][i], trace[1..][i + 1]) {
        assert Next(trace[i + 1], trace[i + 1 + 1]);
      }
      DriveBounded(trace[1..]);
    }
  }

  /** Dropping either clause of the layer's contract lets the loop run for ever: a layer that leaves right output
      pending, or one that feeds the app without consuming, brings it back to where it was. */
  lemma ContractNeeded()
    ensures exists d: Drive, m: LayerMove, a: AppMove ::
              && DriveInv(d) && m.newIn <= d.leftIn && (m.newIn == d.leftIn ==> m.feed == [])
              && LayerTurn(d, m).Some? && AppOk(LayerTurn(d, m).value, a)
              && AppTurn(LayerTurn(d, m).value, a) == Some(d)
    ensures exists d: Drive, m: LayerMove, a: AppMove ::
              && DriveInv(d) && m.newIn <= d.leftIn && (d.midOut > 0 ==> d.leftOut + |m.output| > 0)
              && LayerTurn(d, m).Some? && AppOk(LayerTurn(d, m).value, a)
              && AppTurn(LayerTurn(d, m).value, a) == Some(d)
  {
    var d := Drive(0, 0, 0, 0, 1);
    var m, a := LayerMove(0, [], [], false, true, false), AppMove(0, []);
    assert AppTurn(LayerTurn(d, m).value, a) == Some(d);
    var d2 := Drive(0, 0, 0, 1, 0);
    var m2, a2 := LayerMove(0, [], [0], false, true, false), AppMove(1, []);
    assert AppTurn(LayerTurn(d2, m2).value, a2) == Some(d2);
  }

  // ---------------------------------------------------------------- the panics of a run

  /** Where the stream's unread input and its unsent output start, each in its page, and where the slice lent to the
      layers starts: before the unsent output after a refused submission, else at it. */
  datatype Page = Page(inStart: nat, outStart: nat, outBase: nat)

  /** Where unread input starts once it has been borrowed. */
  function Borrowed(inStart: nat): nat { if inStart > REGION then inStart - REGION else inStart }

  /** The page after a layer has left newIn of leftIn bytes. */
  function PageAfter(p: Page, leftIn: nat, newIn: nat): Page
    requires newIn <= leftIn
  { p.(inStart := Borrowed(p.inStart) + leftIn - newIn) }

  /** The out-length after a layer has appended output bytes, as the difference the program forms. */
  function LeftAfter(p: Page, leftOut: nat, output: nat): int {
    if output == 0 then leftOut else p.outBase + leftOut + output - p.outStart
  }

  /** The panic, if any, of appending output bytes to the stream's output and leaving newIn bytes of its input. */
  function CommitFault(p: Page, leftOut: nat, newIn: nat, output: nat): Option<Panic> {
    if p.outBase + leftOut + output > REGION then Some(SliceOutOfRange)
    else if Borrowed(p.inStart) + newIn > REGION then Some(InOverCapacity)
    else if leftOut + output + p.outStart > REGION then Some(OutOverCapacity)
    else None
  }

  function AdvanceFault(p: Page, d: Drive, m: LayerMove): Option<Panic> {
    var fault := CommitFault(p, d.leftOut, m.newIn, |m.output|);
    if fault.Some? then fault
    else if d.midIn + |m.feed| > MID_SIZE then Some(SliceOutOfRange)
    else None
  }

  /** The same, and then the loop asks for the lengths. */
  function LayerFault(p: Page, d: Drive, m: LayerMove): Option<Panic> {
    var fault := AdvanceFault(p, d, m);
    if fault.Some? then fault
    else if LeftAfter(p, d.leftOut, |m.output|) < 0 then Some(Underflow)
    else None
  }

  function AppFault(d: Drive, m: AppMove): Option<Panic> {
    if d.midOut + |m.output| > MID_SIZE then Some(SliceOutOfRange) else None
  }

  function FaultOutcome(fault: Option<Panic>): Outcome<()> {
    match fault case None => Done(()) case Some(why) => Panicked(why)
  }

  /** Whatever moves the orbits choose, at every call and for all lengths, they keep their contracts. */
  ghost predicate OrbitsOk(layer: (nat, Drive) -> LayerMove, app: (nat, Drive) -> AppMove) {
    forall n, d :: LayerOk(d, layer(n, d)) && AppOk(d, app(n, d))
  }

  /** One pass through the loop: it goes on, or it ends with these bytes of input left and this output appended. */
  datatype Turned = Go(page: Page, d: Drive) | Stop(outcome: Outcome<()>, left: nat, output: seq<byte>)

  function LayerTurned(p: Page, d: Drive, m: LayerMove): Turned
    requires m.newIn <= d.leftIn
  {
    if LayerFault(p, d, m).Some? then Stop(Panicked(LayerFault(p, d, m).value), d.leftIn, [])
    else match LayerTurnTo(d, m, LeftAfter(p, d.leftOut, |m.output|))
      case Some(d') => Go(PageAfter(p, d.leftIn, m.newIn), d')
      case None => Stop(Done(()), m.newIn, m.output)
  }

  function AppTurned(p: Page, d: Drive, m: AppMove): Turned {
    if AppFault(d, m).Some? then Stop(Panicked(AppFault(d, m).value), d.leftIn, [])
    else match AppTurn(d, m)
      case Some(d') => Go(p, d')
      case None => Stop(Done(()), d.leftIn, [])
  }

  /** The layer appends exactly as much as the slice starts early, so that the loop takes the output for flushed. */
  predicate Fills(p: Page, d: Drive, m: LayerMove) {
    m.output != [] && p.outBase + d.leftOut + |m.output| == p.outStart
  }

  /** The stream's last send was not refused; or it was, there is unsent output, and the layer does not fill the gap. */
  predicate Steady(p: Page, d: Drive, call: nat, layer: (nat, Drive) -> LayerMove) {
    || p.outBase == p.outStart
    || (p.outBase < p.outStart && d.level == 0 && d.leftOut > 0 && !Fills(p, d, layer(call, d)))
  }

  ghost function OneTurn(p: Page, d: Drive, call: nat,
                         layer: (nat, Drive) -> LayerMove, app: (nat, Drive) -> AppMove): (t: Turned)
    requires OrbitsOk(layer, app) && DriveInv(d) && Steady(p, d, call, layer)
    ensures t.Go? ==> DriveInv(t.d) && Rank(t.d) < Rank(d) && t.page.outBase == t.page.outStart
  {
    if d.level == 0 then
      assert LayerOk(d, layer(call, d));
      if LayerFault(p, d, layer(call, d)).None? then
        LayerDescends(d, layer(call, d));
        LayerTurned(p, d, layer(call, d))
      else LayerTurned(p, d, layer(call, d))
    else
      assert AppOk(d, app(call, d));
      AppDescends(d, app(call, d));
      AppTurned(p, d, app(call, d))
  }

  /** A whole run from call number call on. calls: the number of the next call. */
  datatype Driven = Driven(outcome: Outcome<()>, calls: nat, left: nat, output: seq<byte>)

  ghost function DriveFrom(p: Page, d: Drive, call: nat,
                           layer: (nat, Drive) -> LayerMove, app: (nat, Drive) -> AppMove): Driven
    requires OrbitsOk(layer, app) && DriveInv(d) && Steady(p, d, call, layer)
    decreases Rank(d)
  {
    match OneTurn(p, d, call, layer, app)
    case Stop(outcome, left, output) => Driven(outcome, call + 1, left, output)
    case Go(p', d') => DriveFrom(p', d', call + 1, layer, app)
  }

  /** The unread input runs past the end of its page once it has been borrowed. */
  predicate Wraps(p: Page, d: Drive) { Borrowed(p.inStart) + d.leftIn > REGION }

  /** A layer call that is accepted leaves the input wrapped if and only if it leaves at least the second piece: to be
      safe from then on it has to consume past the end of the page. */
  lemma StillWrapsIff(p: Page, d: Drive, newIn: nat)
    requires Wraps(p, d) && Borrowed(p.inStart) + d.leftIn <= 2 * REGION
    requires newIn <= d.leftIn && Borrowed(p.inStart) + newIn <= REGION
    ensures Wraps(PageAfter(p, d.leftIn, newIn), d.(leftIn := newIn))
       <==> newIn >= Borrowed(p.inStart) + d.leftIn - REGION
  {}

  lemma {:induction false} FlatInputIsSafe(p: Page, d: Drive, call: nat,
                                          layer: (nat, Drive) -> LayerMove, app: (nat, Drive) -> AppMove)
    requires OrbitsOk(layer, app) && DriveInv(d) && Steady(p, d, call, layer) && !Wraps(p, d)
    ensures DriveFrom(p, d, call, layer, app).outcome != Panicked(InOverCapacity)
    decreases Rank(d)
  {
    assert LayerOk(d, layer(call, d));
    var t := OneTurn(p, d, call, layer, app);
    if t.Go? { FlatInputIsSafe(t.page, t.d, call + 1, layer, app); }
  }

  /** A run ends in the panic of line 348 for some layer and app within their contracts if and only if the unread
      input wraps. The layer that shows it leaves all input for later. */
  lemma WrapPanicIff(p: Page, d: Drive, call: nat)
    requires DriveInv(d) && d.level == 0 && p.outStart < REGION && p.outStart + d.leftOut <= REGION
    requires p.outBase == p.outStart || (p.outBase < p.outStart && d.leftOut > 0)
    ensures (exists layer, app ::
               OrbitsOk(layer, app) && Steady(p, d, call, layer) &&
               DriveFrom(p, d, call, layer, app).outcome == Panicked(InOverCapacity))
       <==> Wraps(p, d)
  {
    if Wraps(p, d) {
      var layer := (n: nat, d: Drive) =>
        LayerMove(d.leftIn, if d.midOut > 0 && d.leftOut == 0 then [0] else [], [], true, false, false);
      var app := (n: nat, d: Drive) => AppMove(0, []);
      assert OrbitsOk(layer, app);
      assert OneTurn(p, d, call, layer, app) == Stop(Panicked(InOverCapacity), d.leftIn, []);
      assert DriveFrom(p, d, call, layer, app).outcome == Panicked(InOverCapacity);
    } else {
      forall layer, app | OrbitsOk(layer, app) && Steady(p, d, call, layer)
        ensures DriveFrom(p, d, call, layer, app).outcome != Panicked(InOverCapacity)
      {
        FlatInputIsSafe(p, d, call, layer, app);
      }
    }
  }

  /** The layer and the app go on as before, whatever the number of the call: from d1 the loop comes back to d1. */
  ghost predicate Spins(p: Page, d: Drive, p1: Page, d1: Drive,
                        layer: (nat, Drive) -> LayerMove, app: (nat, Drive) -> AppMove)
    requires OrbitsOk(layer, app)
  {
    forall n: nat ::
      && LayerOk(d, layer(n, d)) && LayerTurned(p, d, layer(n, d)) == Go(p1, d1)
      && AppTurned(p1, d1, app(n, d1)).Go? && AppTurned(p1, d1, app(n, d1)).page == p1
      && var d2 := AppTurned(p1, d1, app(n, d1)).d;
         LayerOk(d2, layer(n, d2)) && LayerTurned(p1, d2, layer(n, d2)) == Go(p1, d1)
  }

  /** After a refused submission a layer that fills the gap, and flushes what the app keeps writing into just as many
      bytes, keeps the loop going for ever within the contract. */
  lemma FillingSpins(p: Page, d: Drive)
    requires d.level == 0 && d.midOut == 0 && !Wraps(p, d) && p.inStart <= 2 * REGION && d.midIn <= MID_SIZE
    requires p.outBase + d.leftOut < p.outStart && 2 * p.outStart - p.outBase <= REGION
    ensures exists layer, app, p1, d1 :: OrbitsOk(layer, app) && Spins(p, d, p1, d1, layer, app)
  {
    var gap := p.outStart - p.outBase;
    var layer := (n: nat, d: Drive) =>
      LayerMove(d.leftIn, seq(if d.leftOut < gap then gap - d.leftOut else 1, _ => 0), [], true, true, false);
    var app := (n: nat, d: Drive) => AppMove(d.midIn, [0]);
    var p1, d1 := p.(inStart := Borrowed(p.inStart)), Drive(1, d.leftIn, 0, d.midIn, 0);
    assert OrbitsOk(layer, app);
    forall n: nat ensures LayerTurned(p, d, layer(n, d)) == Go(p1, d1) && AppTurned(p1, d1, app(n, d1)).Go? {
      assert LayerFault(p, d, layer(n, d)).None?;
      assert AppFault(d1, app(n, d1)).None?;
    }
    assert Spins(p, d, p1, d1, layer, app);
  }

  // ---------------------------------------------------------------- what follows what, in terms of the buffers

  /** The unread input and the pending output of the stream, by length, and what lies between the layer and the app. */
  datatype Buffers = Buffers(leftIn: nat, leftOut: nat, midIn: seq<byte>, midOut: seq<byte>)

  /** One call into an orbit that did not panic. */
  datatype Call =
    | LayerCall(before: Buffers, lm: LayerMove, after: Buffers)
    | AppCall(before: Buffers, am: AppMove, after: Buffers)

  function LensAt(level: nat, b: Buffers): Drive { Drive(level, b.leftIn, b.leftOut, |b.midIn|, |b.midOut|) }

  /** Call number n is the move the orbit chooses for the lengths it meets. */
  predicate Made(c: Call, n: nat, layer: (nat, Drive) -> LayerMove, app: (nat, Drive) -> AppMove) {
    match c
    case LayerCall(before, m, _) => m == layer(n, LensAt(0, before)) && LayerOk(LensAt(0, before), m)
    case AppCall(before, m, _) => m == app(n, LensAt(1, before)) && AppOk(LensAt(1, before), m)
  }

  /** What a move does to the buffers. synced: the stream's last send was not refused. */
  predicate Effect(c: Call, synced: bool) {
    match c
    case LayerCall(before, m, after) =>
      && after.leftIn == m.newIn
      && after.midIn == before.midIn + m.feed
      && after.midOut == (if m.sentRight then [] else before.midOut)
      && (synced || m.output == [] ==> after.leftOut == before.leftOut + |m.output|)
    case AppCall(before, m, after) =>
      && after.leftIn == before.leftIn && after.leftOut == before.leftOut
      && m.newIn <= |before.midIn| && after.midIn == before.midIn[..m.newIn]
      && after.midOut == before.midOut + m.output
  }

  /** There is something for the app: the layer is ready, and nothing of its own is left to be sent first. */
  predicate AppIsDue(c: Call) { c.LayerCall? && c.lm.ready && c.after.leftOut == 0 }

  /** There is something for the layer: a reply of the app to flush; input of which the app took a part; or more of
      the layer's own input, when the last call made progress and asked for nothing else. */
  predicate LayerIsDue(c: Call) {
    match c
    case LayerCall(before, m, after) =>
      !m.ready && !m.blocked && after.leftOut == 0 && after.leftIn != before.leftIn
    case AppCall(before, m, after) =>
      after.midOut != [] || (after.midIn != [] && after.midIn != before.midIn)
  }

  /** next: the level of the call that follows, None when the loop returns. */
  predicate Decides(c: Call, next: Option<nat>) {
    && (next == Some(0) <==> LayerIsDue(c))
    && (next == Some(1) <==> AppIsDue(c))
    && (next.None? <==> !LayerIsDue(c) && !AppIsDue(c))
  }

  /** A layer call by its effect: the loop then does what LayerTurnTo says, and what the buffers ask for. */
  lemma LayerCalled(p: Page, before: Buffers, m: LayerMove, after: Buffers, synced: bool, next: Option<nat>)
    requires DriveInv(LensAt(0, before)) && LayerOk(LensAt(0, before), m) && |before.midIn| + |m.feed| <= MID_SIZE
    requires after.leftIn == m.newIn && after.midIn == before.midIn + m.feed
    requires after.midOut == if m.sentRight then [] else before.midOut
    requires after.leftOut == LeftAfter(p, before.leftOut, |m.output|)
    requires (synced <==> p.outBase == p.outStart) && (!synced ==> before.leftOut > 0)
    requires next == Some(0) <==> after.leftOut == 0 && !m.ready && !m.blocked && before.leftIn != after.leftIn
    requires next == Some(1) <==> after.leftOut == 0 && m.ready
    requires next.None? <==> after.leftOut > 0 || (!m.ready && (m.blocked || before.leftIn == after.leftIn))
    ensures Effect(LayerCall(before, m, after), synced) && Decides(LayerCall(before, m, after), next)
    ensures LayerTurnTo(LensAt(0, before), m, after.leftOut) == if next.None? then None else Some(LensAt(next.value, after))
    ensures next.Some? ==> next.value <= 1 && (synced || Fills(p, LensAt(0, before), m))
    ensures next.Some? && synced ==>
              DriveInv(LensAt(next.value, after)) && Rank(LensAt(next.value, after)) < Rank(LensAt(0, before))
  {
    LayerDescends(LensAt(0, before), m);
  }

  /** The calls of a run from its first on: each is what the orbit chose and leads to the next as Decides says. */
  ghost predicate Chained(trace: seq<Call>, first: Buffers, synced: bool,
                          layer: (nat, Drive) -> LayerMove, app: (nat, Drive) -> AppMove)
  {
    && (trace != [] ==> trace[0].LayerCall? && trace[0].before == first)
    && (forall i :: 0 <= i < |trace| ==> Made(trace[i], i, layer, app) && Effect(trace[i], synced))
    && (forall i, j :: 0 <= i && j == i + 1 < |trace| ==>
          trace[j].before == trace[i].after && Decides(trace[i], Some(if trace[j].LayerCall? then 0 else 1)))
  }

  /** What is in the buffers after the calls so far, and the level that is due. */
  ghost predicate Reached(trace: seq<Call>, first: Buffers, now: Buffers, level: nat) {
    if trace == [] then now == first && level == 0
    else now == trace[|trace| - 1].after && Decides(trace[|trace| - 1], Some(level))
  }

  /** A whole run: it goes on as long as something is due, and returns as soon as nothing is. */
  ghost predicate Traced(trace: seq<Call>, first: Buffers, synced: bool,
                         layer: (nat, Drive) -> LayerMove, app: (nat, Drive) -> AppMove, r: Outcome<()>, calls: nat)
  {
    && Chained(trace, first, synced, layer, app)
    && calls == (if r.Done? then |trace| else |trace| + 1)
    && (r.Done? ==> trace != [] && Decides(trace[|trace| - 1], None))
    && (r.Panicked? && trace != [] ==> !Decides(trace[|trace| - 1], None))
  }

  lemma ChainStarts(first: Buffers, synced: bool, layer: (nat, Drive) -> LayerMove, app: (nat, Drive) -> AppMove)
    ensures Chained([], first, synced, layer, app) && Reached([], first, first, 0)
  {}

  lemma ChainGrows(trace: seq<Call>, c: Call, first: Buffers, synced: bool,
                   layer: (nat, Drive) -> LayerMove, app: (nat, Drive) -> AppMove, level: nat)
    requires Chained(trace, first, synced, layer, app)
    requires Reached(trace, first, c.before, level) && level <= 1 && (c.LayerCall? <==> level == 0)
    requires Made(c, |trace|, layer, app) && Effect(c, synced)
    ensures Chained(trace + [c], first, synced, layer, app)
    ensures forall next :: Decides(c, Some(next)) ==> Reached(trace + [c], first, c.after, next)
  {
    hide Made, Effect, Decides;
  }

  /** A reply of the app is never left behind: when a run returns the buffer to the layer is empty, or the layer has
      output of its own to be sent first. */
  lemma RepliesAreFlushed(trace: seq<Call>, first: Buffers, synced: bool,
                          layer: (nat, Drive) -> LayerMove, app: (nat, Drive) -> AppMove, r: Outcome<()>, calls: nat)
    requires Traced(trace, first, synced, layer, app, r, calls) && r.Done?
    requires synced || (|trace| == 1 && first.midOut == [])
    ensures var b := trace[|trace| - 1].after; b.midOut == [] || b.leftOut > 0
  {
    var last := trace[|trace| - 1];
    assert Made(last, |trace| - 1, layer, app) && Effect(last, synced);
  }

  /** The last call returns, or panics instead of having an effect. */
  lemma TraceEnds(trace: seq<Call>, first: Buffers, synced: bool,
                  layer: (nat, Drive) -> LayerMove, app: (nat, Drive) -> AppMove, c: Call, r: Outcome<()>, level: nat)
    returns (whole: seq<Call>)
    requires Chained(trace, first, synced, layer, app) && Reached(trace, first, c.before, level) && level <= 1
    requires r.Done? ==> (c.LayerCall? <==> level == 0) && Made(c, |trace|, layer, app) && Effect(c, synced) && Decides(c, None)
    requires synced || (trace == [] && first.midOut == [])
    ensures whole == (if r.Done? then trace + [c] else trace)
    ensures Traced(whole, first, synced, layer, app, r, |trace| + 1)
    ensures r.Done? ==> whole[|whole| - 1] == c && (c.after.midOut == [] || c.after.leftOut > 0)
  {
    whole := trace;
    if r.Done? {
      hide Made, Effect, Decides;
      ChainGrows(trace, c, first, synced, layer, app, level);
      whole := trace + [c];
      RepliesAreFlushed(whole, first, synced, layer, app, r, |whole|);
    }
  }
}
