/** One live connection: its bounded queue, and the gate that counts and rate-limits what reaches the socket. */
module LiveGate {
  import opened Wrappers

  // `offered` and `log` are histories: the frames the shared subscription fanned out while this viewer was a
  // member, and what the gate did. Times come from a monotone clock.

  const VIEWER_OUTBOUND_BUFFER := 64

  // seqNo is the stream sequence of the message the frame was encoded from.
  datatype Frame = Frame(seqNo: nat, payload: seq<int>)

  datatype Entry = Accepted(frame: Frame, at: int) | ClearedCount

  datatype Limits = Limits(maxMessages: nat, rateLimit: int, truncate: nat)

  datatype Conn = Conn(
    out: seq<Frame>, inflight: Option<Frame>, closed: bool, paused: bool, msgCount: nat, lastSent: Option<int>,
    clock: int, offered: seq<Frame>, log: seq<Entry>)

  datatype Event =
    | Offer(frame: Frame)                 // fanout reaches this viewer
    | Pop                                 // writeLoop takes the next frame
    | Gate(since: int, now: int)          // the locked part of sendMessageFrame, with its two clock readings
    | WriteFailed
    | SetPaused(on: bool)
    | Clear
    | Close

  const START := Conn([], None, false, false, 0, None, 0, [], [])

  // trySendFrame: a closed or paused viewer gets nothing, a full queue drops the frame.
  function Enqueue(c: Conn, f: Frame): Conn {
    var c' := c.(offered := c.offered + [f]);
    if c.closed || c.paused || |c.out| >= VIEWER_OUTBOUND_BUFFER then c' else c'.(out := c.out + [f])
  }

  predicate CanPop(c: Conn) { c.out != [] && c.inflight.None? }

  function Dequeue(c: Conn): Conn
    requires CanPop(c)
  {
    c.(out := c.out[1..], inflight := if c.closed then None else Some(c.out[0]))
  }

  predicate CanGate(c: Conn, since: int, now: int) { c.inflight.Some? && c.clock <= since <= now }

  function PassGate(c: Conn, lim: Limits, since: int, now: int): Conn
    requires CanGate(c, since, now)
  {
    var c' := c.(inflight := None, clock := now);
    if c.closed then c'
    else if c.msgCount >= lim.maxMessages then c'.(closed := true)
    else if c.lastSent.Some? && since - c.lastSent.value < lim.rateLimit then c'
    else c'.(msgCount := c.msgCount + 1, lastSent := Some(now), log := c.log + [Accepted(c.inflight.value, now)])
  }

  function ResetCount(c: Conn): Conn {
    c.(msgCount := 0, log := c.log + [ClearedCount])
  }

  predicate Enabled(c: Conn, lim: Limits, e: Event) {
    match e
    case Offer(f) => lim.truncate > 0 ==> |f.payload| <= lim.truncate
    case Pop => CanPop(c)
    case Gate(since, now) => CanGate(c, since, now)
    case _ => true
  }

  function Next(c: Conn, lim: Limits, e: Event): Conn
    requires Enabled(c, lim, e)
  {
    match e
    case Offer(f) => Enqueue(c, f)
    case Pop => Dequeue(c)
    case Gate(since, now) => PassGate(c, lim, since, now)
    case WriteFailed => c.(closed := true)
    case SetPaused(on) => c.(paused := on)
    case Clear => ResetCount(c)
    case Close => c.(closed := true)
  }

  function After(lim: Limits, es: seq<Event>): Option<Conn>
    decreases |es|
  {
    if es == [] then Some(START)
    else
      match After(lim, es[..|es| - 1])
      case Some(p) => if Enabled(p, lim, es[|es| - 1]) then Some(Next(p, lim, es[|es| - 1])) else None
      case None => None
  }

  // Any interleaving of the fan-out, the write loop and the control messages of the client.
  predicate Run(lim: Limits, es: seq<Event>, c: Conn) { After(lim, es) == Some(c) }

  /* ---- what is said about a run ---- */

  function Frames(log: seq<Entry>): seq<Frame> {
    if log == [] then []
    else Frames(log[..|log| - 1]) + match log[|log| - 1] case Accepted(f, _) => [f] case ClearedCount => []
  }

  // The number of frames accepted in a stretch of the log.
  function Count(log: seq<Entry>): nat {
    |Frames(log)|
  }

  function SinceClear(log: seq<Entry>): nat {
    if log == [] then 0
    else match log[|log| - 1] case Accepted(_, _) => SinceClear(log[..|log| - 1]) + 1 case ClearedCount => 0
  }

  // At every moment the count since the last clear was within the limit.
  predicate Capped(log: seq<Entry>, max: nat) {
    SinceClear(log) <= max && (log == [] || Capped(log[..|log| - 1], max))
  }

  function Latest(log: seq<Entry>): Option<int> {
    if log == [] then None
    else match log[|log| - 1] case Accepted(_, at) => Some(at) case ClearedCount => Latest(log[..|log| - 1])
  }

  // Every acceptance keeps its distance from the one before.
  predicate Paced(log: seq<Entry>, gap: int) {
    log == []
    || (Paced(log[..|log| - 1], gap)
        && match log[|log| - 1]
           case Accepted(_, at) =>
             var before := Latest(log[..|log| - 1]);
             before.Some? ==> before.value <= at && before.value + gap <= at
           case ClearedCount => true)
  }

  predicate Subsequence<T(==)>(xs: seq<T>, ys: seq<T>)
    decreases |ys|
  {
    if ys == [] then xs == []
    else
      || Subsequence(xs, ys[..|ys| - 1])
      || (xs != [] && xs[|xs| - 1] == ys[|ys| - 1] && Subsequence(xs[..|xs| - 1], ys[..|ys| - 1]))
  }

  ghost predicate Increasing(fs: seq<Frame>) {
    forall i, j | 0 <= i < j < |fs| :: fs[i].seqNo < fs[j].seqNo
  }

  function Held(c: Conn): seq<Frame> {
    Frames(c.log) + (match c.inflight case Some(f) => [f] case None => []) + c.out
  }

  lemma {:induction false} SubsequenceDrop<T>(xs: seq<T>, k: nat, ys: seq<T>)
    requires Subsequence(xs, ys) && k < |xs|
    ensures Subsequence(xs[..k] + xs[k + 1..], ys)
    decreases |ys|
  {
    var y := ys[..|ys| - 1];
    var less := xs[..k] + xs[k + 1..];
    if Subsequence(xs, y) {
      SubsequenceDrop(xs, k, y);
    } else if k == |xs| - 1 {
      assert less == xs[..k];
    } else {
      SubsequenceDrop(xs[..|xs| - 1], k, y);
      assert less[..|less| - 1] == xs[..|xs| - 1][..k] + xs[..|xs| - 1][k + 1..];
    }
  }

  lemma {:induction false} SubsequencePrefix<T>(xs: seq<T>, k: nat, ys: seq<T>)
    requires Subsequence(xs, ys) && k <= |xs|
    ensures Subsequence(xs[..k], ys)
    decreases |xs|
  {
    if k < |xs| {
      SubsequenceDrop(xs, |xs| - 1, ys);
      assert xs[..|xs| - 1] + xs[|xs|..] == xs[..|xs| - 1];
      SubsequencePrefix(xs[..|xs| - 1], k, ys);
      assert xs[..|xs| - 1][..k] == xs[..k];
    } else {
      assert xs[..k] == xs;
    }
  }

  lemma {:induction false} SubsequenceIncreasing(xs: seq<Frame>, ys: seq<Frame>)
    requires Subsequence(xs, ys) && Increasing(ys)
    ensures Increasing(xs)
    ensures xs != [] ==> ys != [] && xs[|xs| - 1].seqNo <= ys[|ys| - 1].seqNo
    decreases |ys|
  {
    if ys != [] {
      var y := ys[..|ys| - 1];
      if Subsequence(xs, y) {
        SubsequenceIncreasing(xs, y);
      } else {
        SubsequenceIncreasing(xs[..|xs| - 1], y);
        forall i, j | 0 <= i < j < |xs| ensures xs[i].seqNo < xs[j].seqNo {
          if j == |xs| - 1 { assert xs[i] == xs[..|xs| - 1][i]; assert xs[..|xs| - 1] != []; }
          else { assert xs[..|xs| - 1][i].seqNo < xs[..|xs| - 1][j].seqNo; }
        }
      }
    }
  }

  ghost predicate Inv(c: Conn, lim: Limits) {
    && |c.out| <= VIEWER_OUTBOUND_BUFFER
    && Subsequence(Held(c), c.offered)
    && c.msgCount == SinceClear(c.log)
    && Capped(c.log, lim.maxMessages)
    && c.lastSent == Latest(c.log)
    && (c.lastSent.Some? ==> c.lastSent.value <= c.clock)
    && Paced(c.log, lim.rateLimit)
    && (lim.truncate > 0 ==> forall f <- c.offered :: |f.payload| <= lim.truncate)
  }

  lemma OfferKeepsInv(c: Conn, lim: Limits, f: Frame)
    requires Inv(c, lim) && Enabled(c, lim, Offer(f))
    ensures Inv(Enqueue(c, f), lim)
  {
    var c' := Enqueue(c, f);
    assert c'.offered[..|c'.offered| - 1] == c.offered;
    if c'.out != c.out { assert Held(c')[..|Held(c')| - 1] == Held(c); }
    else { assert Held(c') == Held(c); }
  }

  lemma PopKeepsInv(c: Conn, lim: Limits)
    requires Inv(c, lim) && CanPop(c)
    ensures Inv(Dequeue(c), lim)
  {
    var c' := Dequeue(c);
    if c.closed {
      var k := |Frames(c.log)|;
      SubsequenceDrop(Held(c), k, c.offered);
      assert Held(c') == Held(c)[..k] + Held(c)[k + 1..];
    } else {
      assert Held(c') == Held(c);
    }
  }

  lemma {:induction false} AcceptedBeforeLatest(log: seq<Entry>, gap: int, i: nat)
    requires Paced(log, gap) && i < |log| && log[i].Accepted?
    ensures Latest(log).Some? && log[i].at <= Latest(log).value
    decreases |log|
  {
    var n := |log| - 1;
    if i < n {
      assert log[..n][i] == log[i];
      AcceptedBeforeLatest(log[..n], gap, i);
    }
  }

  lemma {:induction false} PacedApart(log: seq<Entry>, gap: int, i: nat, j: nat)
    requires Paced(log, gap) && i < j < |log| && log[i].Accepted? && log[j].Accepted?
    ensures log[j].at - log[i].at >= gap
    decreases |log|
  {
    var n := |log| - 1;
    assert log[..n][i] == log[i];
    if j < n {
      assert log[..n][j] == log[j];
      PacedApart(log[..n], gap, i, j);
    } else {
      AcceptedBeforeLatest(log[..n], gap, i);
    }
  }

  lemma {:induction false} CappedPrefix(log: seq<Entry>, max: nat, k: nat)
    requires Capped(log, max) && k <= |log|
    ensures SinceClear(log[..k]) <= max
    decreases |log|
  {
    if k == |log| {
      assert log[..k] == log;
    } else {
      CappedPrefix(log[..|log| - 1], max, k);
      assert log[..|log| - 1][..k] == log[..k];
    }
  }

  lemma GateDropKeepsInv(c: Conn, lim: Limits, since: int, now: int)
    requires Inv(c, lim) && CanGate(c, since, now)
    requires !Accepts(c, lim, since)
    ensures Inv(PassGate(c, lim, since, now), lim)
  {
    var k := |Frames(c.log)|;
    SubsequenceDrop(Held(c), k, c.offered);
    GateDropHeld(c, PassGate(c, lim, since, now));
  }

  lemma GateDropHeld(c: Conn, c': Conn)
    requires c.inflight.Some? && c'.inflight.None? && c'.log == c.log && c'.out == c.out
    ensures |Frames(c.log)| < |Held(c)| && Held(c') == Held(c)[..|Frames(c.log)|] + Held(c)[|Frames(c.log)| + 1..]
  {}

  lemma GateAcceptKeepsInv(c: Conn, lim: Limits, since: int, now: int)
    requires Inv(c, lim) && CanGate(c, since, now)
    requires Accepts(c, lim, since)
    ensures Inv(PassGate(c, lim, since, now), lim)
  {
    LogAccepts(c.log, c.inflight.value, now, lim);
    assert Held(PassGate(c, lim, since, now)) == Held(c);
  }

  predicate Accepts(c: Conn, lim: Limits, since: int) {
    !c.closed && c.msgCount < lim.maxMessages && (c.lastSent.Some? ==> since - c.lastSent.value >= lim.rateLimit)
  }

  lemma LogAccepts(log: seq<Entry>, f: Frame, at: int, lim: Limits)
    requires Capped(log, lim.maxMessages) && Paced(log, lim.rateLimit) && SinceClear(log) < lim.maxMessages
    requires Latest(log).Some? ==> Latest(log).value <= at && Latest(log).value + lim.rateLimit <= at
    ensures var more := log + [Accepted(f, at)];
            && Capped(more, lim.maxMessages) && Paced(more, lim.rateLimit)
            && SinceClear(more) == SinceClear(log) + 1 && Latest(more) == Some(at) && Frames(more) == Frames(log) + [f]
  {
    assert (log + [Accepted(f, at)])[..|log|] == log;
  }

  lemma GateKeepsInv(c: Conn, lim: Limits, since: int, now: int)
    requires Inv(c, lim) && CanGate(c, since, now)
    ensures Inv(PassGate(c, lim, since, now), lim)
  {
    if Accepts(c, lim, since) {
      GateAcceptKeepsInv(c, lim, since, now);
    } else {
      GateDropKeepsInv(c, lim, since, now);
    }
  }

  lemma ClearKeepsInv(c: Conn, lim: Limits)
    requires Inv(c, lim)
    ensures Inv(ResetCount(c), lim)
  {
    var c' := ResetCount(c);
    assert c'.log[..|c'.log| - 1] == c.log;
    assert Held(c') == Held(c);
  }

  lemma StepKeepsInv(c: Conn, lim: Limits, e: Event)
    requires Inv(c, lim) && Enabled(c, lim, e)
    ensures Inv(Next(c, lim, e), lim)
  {
    match e {
      case Offer(f) => OfferKeepsInv(c, lim, f);
      case Pop => PopKeepsInv(c, lim);
      case Gate(since, now) => GateKeepsInv(c, lim, since, now);
      case Clear => ClearKeepsInv(c, lim);
      case _ => assert Held(Next(c, lim, e)) == Held(c);
    }
  }

  lemma {:induction false} RunsKeepInv(lim: Limits, es: seq<Event>, c: Conn)
    requires Run(lim, es, c)
    ensures Inv(c, lim)
    decreases |es|
  {
    if es != [] {
      var p := After(lim, es[..|es| - 1]).value;
      RunsKeepInv(lim, es[..|es| - 1], p);
      StepKeepsInv(p, lim, es[|es| - 1]);
    }
  }

  lemma {:induction false} CountAfterClear(log: seq<Entry>, from: nat)
    requires from <= |log|
    requires forall i | from <= i < |log| :: log[i].Accepted?
    ensures Count(log[from..]) <= SinceClear(log)
    decreases |log|
  {
    if from < |log| {
      CountAfterClear(log[..|log| - 1], from);
      assert log[from..][..|log| - 1 - from] == log[..|log| - 1][from..];
    } else {
      assert log[from..] == [];
    }
  }

  // The frames accepted on a connection are a subsequence of the frames fanned out to it; when the
  // stream delivers strictly increasing sequence numbers they come in order and without duplicates.
  lemma AcceptedInOrder(lim: Limits, es: seq<Event>, c: Conn)
    requires Run(lim, es, c)
    ensures Subsequence(Frames(c.log), c.offered)
    ensures Increasing(c.offered) ==> Increasing(Frames(c.log))
  {
    RunsKeepInv(lim, es, c);
    SubsequencePrefix(Held(c), |Frames(c.log)|, c.offered);
    assert Held(c)[..|Frames(c.log)|] == Frames(c.log);
    if Increasing(c.offered) { SubsequenceIncreasing(Frames(c.log), c.offered); }
  }

  // Between two clears at most maxMessages frames are accepted.
  lemma AtMostMaxBetweenClears(lim: Limits, es: seq<Event>, c: Conn, from: nat, to: nat)
    requires Run(lim, es, c) && from <= to <= |c.log|
    requires forall i | from <= i < to :: c.log[i].Accepted?
    ensures Count(c.log[from..to]) <= lim.maxMessages
  {
    RunsKeepInv(lim, es, c);
    CappedPrefix(c.log, lim.maxMessages, to);
    CountAfterClear(c.log[..to], from);
    assert c.log[..to][from..] == c.log[from..to];
  }

  // Any two acceptances are at least the rate limit apart, whatever happened in between, the queue
  // never exceeds its buffer, and no payload offered or accepted exceeds the viewer's own limit.
  lemma PacedAndBounded(lim: Limits, es: seq<Event>, c: Conn)
    requires Run(lim, es, c)
    ensures forall i, j | 0 <= i < j < |c.log| && c.log[i].Accepted? && c.log[j].Accepted? ::
            c.log[j].at - c.log[i].at >= lim.rateLimit
    ensures |c.out| <= VIEWER_OUTBOUND_BUFFER
    ensures lim.truncate > 0 ==> forall f <- Frames(c.log) :: |f.payload| <= lim.truncate
  {
    RunsKeepInv(lim, es, c);
    AcceptedInOrder(lim, es, c);
    forall i, j | 0 <= i < j < |c.log| && c.log[i].Accepted? && c.log[j].Accepted?
      ensures c.log[j].at - c.log[i].at >= lim.rateLimit
    {
      PacedApart(c.log, lim.rateLimit, i, j);
    }
    forall f <- Frames(c.log) ensures f in c.offered { SubsequenceMember(Frames(c.log), c.offered, f); }
  }

  lemma {:induction false} SubsequenceMember<T>(xs: seq<T>, ys: seq<T>, x: T)
    requires Subsequence(xs, ys) && x in xs
    ensures x in ys
    decreases |ys|
  {
    var y := ys[..|ys| - 1];
    if Subsequence(xs, y) { SubsequenceMember(xs, y, x); }
    else if x != xs[|xs| - 1] {
      var i :| 0 <= i < |xs| && xs[i] == x;
      assert x == xs[..|xs| - 1][i];
      SubsequenceMember(xs[..|xs| - 1], y, x);
    }
  }

  // What the gate does, told from the history: it accepts the frame in flight exactly if the session is open,
  // fewer than maxMessages were accepted since the last clear, and the last acceptance is at least the rate
  // limit ago; and it closes the session exactly if maxMessages were accepted.
  lemma GateExactly(lim: Limits, es: seq<Event>, c: Conn, since: int, now: int)
    requires Run(lim, es, c) && CanGate(c, since, now)
    ensures var c' := Next(c, lim, Gate(since, now));
            var before := Latest(c.log);
            var accepts := && !c.closed && SinceClear(c.log) < lim.maxMessages
                           && (before.Some? ==> since - before.value >= lim.rateLimit);
            && c'.log == (if accepts then c.log + [Accepted(c.inflight.value, now)] else c.log)
            && (c'.closed <==> c.closed || SinceClear(c.log) >= lim.maxMessages)
            && c'.inflight == None && c'.out == c.out && c'.offered == c.offered
  {
    RunsKeepInv(lim, es, c);
  }

  // Whether the client has the session paused: what it last asked for.
  predicate PausedBy(es: seq<Event>) {
    es != [] && if es[|es| - 1].SetPaused? then es[|es| - 1].on else PausedBy(es[..|es| - 1])
  }

  function Offers(es: seq<Event>): seq<Frame> {
    if es == [] then []
    else Offers(es[..|es| - 1]) + if es[|es| - 1].Offer? then [es[|es| - 1].frame] else []
  }

  function Clears(log: seq<Entry>): nat {
    if log == [] then 0 else Clears(log[..|log| - 1]) + if log[|log| - 1].ClearedCount? then 1 else 0
  }

  function ClearRequests(es: seq<Event>): nat {
    if es == [] then 0 else ClearRequests(es[..|es| - 1]) + if es[|es| - 1].Clear? then 1 else 0
  }

  lemma ClearsSnoc(log: seq<Entry>, e: Entry)
    ensures Clears(log + [e]) == Clears(log) + if e.ClearedCount? then 1 else 0
  {
    assert (log + [e])[..|log|] == log;
  }

  // The recorded history is that of the events: the frames fanned out, the pause last asked for, and one
  // clear for each the client asked for.
  lemma {:induction false} HistoryIsKept(lim: Limits, es: seq<Event>, c: Conn)
    requires Run(lim, es, c)
    ensures c.offered == Offers(es) && c.paused == PausedBy(es) && Clears(c.log) == ClearRequests(es)
    decreases |es|
  {
    if es != [] {
      var p, e := After(lim, es[..|es| - 1]).value, es[|es| - 1];
      HistoryIsKept(lim, es[..|es| - 1], p);
      StepHistory(lim, p, e);
      StepClears(lim, p, e);
    }
  }

  lemma StepHistory(lim: Limits, c: Conn, e: Event)
    requires Enabled(c, lim, e)
    ensures var c' := Next(c, lim, e);
            && c'.offered == c.offered + (if e.Offer? then [e.frame] else [])
            && c'.paused == if e.SetPaused? then e.on else c.paused
  {}

  lemma StepClears(lim: Limits, c: Conn, e: Event)
    requires Enabled(c, lim, e)
    ensures Clears(Next(c, lim, e).log) == Clears(c.log) + if e.Clear? then 1 else 0
  {
    if e.Clear? { ClearsSnoc(c.log, ClearedCount); }
    if e.Gate? && Next(c, lim, e).log != c.log { ClearsSnoc(c.log, Accepted(c.inflight.value, e.now)); }
  }

  // A session closes when a write fails, when the client goes, or at the gate once maxMessages were accepted;
  // nothing else closes it and nothing opens it again.
  lemma ClosesExactly(lim: Limits, es: seq<Event>, c: Conn, e: Event)
    requires Run(lim, es, c) && Enabled(c, lim, e)
    ensures Next(c, lim, e).closed <==>
              c.closed || e.WriteFailed? || e.Close? || (e.Gate? && SinceClear(c.log) >= lim.maxMessages)
  {
    RunsKeepInv(lim, es, c);
  }

  // A frame that is fanned out joins the queue exactly if the session is open and not paused and the queue
  // has room; the write loop takes frames from its front, and loses one only to a closed session.
  lemma QueueExactly(lim: Limits, es: seq<Event>, c: Conn, e: Event)
    requires Run(lim, es, c) && Enabled(c, lim, e) && (e.Offer? || e.Pop?)
    ensures var c' := Next(c, lim, e);
            && c'.log == c.log && c'.closed == c.closed
            && (e.Offer? ==>
                  && c'.inflight == c.inflight
                  && c'.out == if !c.closed && !PausedBy(es) && |c.out| < 64 then c.out + [e.frame] else c.out)
            && (e.Pop? ==> c.out == [c.out[0]] + c'.out && c'.inflight == if c.closed then None else Some(c.out[0]))
  {
    HistoryIsKept(lim, es, c);
  }

  // The write loop can go on whenever it has a frame to take or holds one, and nothing else ever has to wait.
  lemma StepsAreEnabled(c: Conn, lim: Limits, e: Event)
    requires e.Offer? ==> lim.truncate == 0 || |e.frame.payload| <= lim.truncate
    requires e.Pop? ==> |c.out| > 0 && c.inflight == None
    requires e.Gate? ==> c.inflight != None && c.clock <= e.since <= e.now
    ensures Enabled(c, lim, e)
  {}

  predicate Undisturbed(es: seq<Event>) {
    forall i | 0 <= i < |es| :: !es[i].SetPaused? && !es[i].WriteFailed? && !es[i].Close?
  }

  lemma {:induction false} SinceClearAtMost(log: seq<Entry>)
    ensures SinceClear(log) <= |Frames(log)|
  {
    if log != [] { SinceClearAtMost(log[..|log| - 1]); }
  }

  // Nothing is dropped without a reason: without a rate limit, and with no more frames than queue and limit
  // hold, an undisturbed session stays open and every frame fanned out is accepted, in flight or queued, in order.
  lemma {:induction false} NothingIsDropped(lim: Limits, es: seq<Event>, c: Conn)
    requires Run(lim, es, c) && Undisturbed(es) && lim.rateLimit <= 0
    requires |Offers(es)| <= lim.maxMessages && |Offers(es)| <= 64
    ensures !c.closed && Held(c) == Offers(es)
    decreases |es|
  {
    if es != [] {
      var n := |es| - 1;
      var p := After(lim, es[..n]).value;
      forall i | 0 <= i < n ensures !es[..n][i].SetPaused? && !es[..n][i].WriteFailed? && !es[..n][i].Close? {
        assert es[..n][i] == es[i];
      }
      NothingIsDropped(lim, es[..n], p);
      NothingDroppedNext(lim, es[..n], p, es[n]);
    }
  }

  lemma {:induction false} NotPaused(es: seq<Event>)
    requires Undisturbed(es)
    ensures !PausedBy(es)
  {
    if es != [] {
      assert !es[|es| - 1].SetPaused?;
      NotPaused(es[..|es| - 1]);
    }
  }

  lemma NothingDroppedNext(lim: Limits, es: seq<Event>, p: Conn, e: Event)
    requires Run(lim, es, p) && Undisturbed(es) && Enabled(p, lim, e) && lim.rateLimit <= 0
    requires !p.closed && Held(p) == Offers(es) && !e.SetPaused? && !e.WriteFailed? && !e.Close?
    requires var m := |Offers(es)| + if e.Offer? then 1 else 0; m <= lim.maxMessages && m <= 64
    ensures var c := Next(p, lim, e);
            !c.closed && Held(c) == Offers(es) + if e.Offer? then [e.frame] else []
  {
    match e
    case Offer(f) =>
      NotPaused(es);
      HistoryIsKept(lim, es, p);
      assert Held(Next(p, lim, e)) == Held(p) + [f];
    case Pop => assert Held(Next(p, lim, e)) == Held(p);
    case Gate(since, now) => GateDropsNothing(lim, es, p, since, now);
    case Clear => ClearHolds(p);
  }

  lemma ClearHolds(c: Conn)
    ensures Held(ResetCount(c)) == Held(c)
  {
    assert ResetCount(c).log[..|c.log|] == c.log;
  }

  lemma GateDropsNothing(lim: Limits, es: seq<Event>, p: Conn, since: int, now: int)
    requires Run(lim, es, p) && CanGate(p, since, now) && lim.rateLimit <= 0
    requires !p.closed && |Held(p)| <= lim.maxMessages
    ensures !PassGate(p, lim, since, now).closed && Held(PassGate(p, lim, since, now)) == Held(p)
  {
    RunsKeepInv(lim, es, p);
    SinceClearAtMost(p.log);
    assert |Held(p)| == |Frames(p.log)| + 1 + |p.out|;
    LogAccepts(p.log, p.inflight.value, now, lim);
    assert Held(PassGate(p, lim, since, now)) == Held(p);
  }

  lemma ClosedStaysClosed(lim: Limits, c: Conn, e: Event)
    requires c.closed && Enabled(c, lim, e)
    ensures Next(c, lim, e).closed && Frames(Next(c, lim, e).log) == Frames(c.log)
  {
    if e.Clear? { assert Next(c, lim, e).log[..|c.log|] == c.log; }
  }

  // Once a session has closed it stays closed and accepts nothing, however the run goes on.
  lemma {:induction false} ClosedAcceptsNothing(lim: Limits, es: seq<Event>, c: Conn, more: seq<Event>, d: Conn)
    requires Run(lim, es, c) && c.closed && Run(lim, es + more, d)
    ensures d.closed && Frames(d.log) == Frames(c.log)
    decreases |more|
  {
    if more == [] {
      assert es + more == es;
    } else {
      var all, n := es + more, |more| - 1;
      assert all[..|all| - 1] == es + more[..n];
      var p := After(lim, es + more[..n]).value;
      ClosedAcceptsNothing(lim, es, c, more[..n], p);
      ClosedStaysClosed(lim, p, more[n]);
    }
  }

  /* ---- the viewer object and the fan-out loop ---- */

  class MuxViewer {
    var out: seq<Frame>
    var inflight: Option<Frame>
    var closed: bool
    var paused: bool
    var msgCount: nat
    var lastSent: Option<int>
    const limits: Limits
    ghost var clock: int
    ghost var offered: seq<Frame>
    ghost var log: seq<Entry>

    constructor (limits: Limits)
      ensures this.limits == limits && State() == START
    {
      this.limits := limits;
      out, inflight, closed, paused, msgCount, lastSent := [], None, false, false, 0, None;
      clock, offered, log := 0, [], [];
    }

    ghost function State(): Conn
      reads this
    {
      Conn(out, inflight, closed, paused, msgCount, lastSent, clock, offered, log)
    }

    method TrySendFrame(f: Frame) returns (sent: bool)
      modifies this
      ensures State() == Enqueue(old(State()), f)
      ensures sent <==> out == old(out) + [f]
    {
      offered := offered + [f];
      if closed || paused { return false; }
      if |out| < VIEWER_OUTBOUND_BUFFER {
        out := out + [f];
        return true;
      }
      return false;
    }

    method WriteLoopStep()
      requires CanPop(State())
      modifies this
      ensures State() == Dequeue(old(State()))
    {
      inflight := if closed then None else Some(out[0]);
      out := out[1..];
    }

    // sendMessageFrame up to the release of its lock; true when the frame may be written.
    method SendMessageFrame(since: int, now: int) returns (accepted: bool)
      requires CanGate(State(), since, now)
      modifies this
      ensures State() == PassGate(old(State()), limits, since, now)
      ensures accepted <==> log == old(log) + [Accepted(old(inflight).value, now)]
    {
      ghost var f := inflight.value;
      inflight, clock := None, now;
      if closed { return false; }
      if msgCount >= limits.maxMessages {
        closed := true;
        return false;
      }
      if lastSent.Some? && since - lastSent.value < limits.rateLimit { return false; }
      msgCount := msgCount + 1;
      lastSent := Some(now);
      log := log + [Accepted(f, now)];
      return true;
    }

    method ClearCount()
      modifies this
      ensures State() == ResetCount(old(State()))
    {
      msgCount := 0;
      log := log + [ClearedCount];
    }
  }

  predicate Listening(c: Conn) { !c.closed && !c.paused }

  // One message is encoded once for all listening viewers, cut to the smallest positive truncation
  // among them; each of them is then offered that one frame and nobody else is touched.
  method Fanout(viewers: set<MuxViewer>, seqNo: nat, payload: seq<int>) returns (frame: Frame)
    modifies viewers
    ensures frame.seqNo == seqNo && frame.payload <= payload
    ensures forall v <- viewers :: old(Listening(v.State())) ==> Enabled(old(v.State()), v.limits, Offer(frame))
    ensures frame.payload == payload
            || exists v <- viewers ::
                 old(Listening(v.State())) && 0 < v.limits.truncate < |payload| && v.limits.truncate == |frame.payload|
    ensures forall v <- viewers ::
            v.State() == if old(Listening(v.State())) then Enqueue(old(v.State()), frame) else old(v.State())
  {
    var listening, truncate := ListeningViewers(viewers);
    frame := Frame(seqNo, if truncate > 0 && |payload| > truncate then payload[..truncate] else payload);
    var todo := listening;
    while todo != {}
      invariant todo <= listening <= viewers
      invariant forall v <- viewers ::
                v.State() == if v in listening - todo then Enqueue(old(v.State()), frame) else old(v.State())
      decreases |todo|
    {
      var v :| v in todo;
      todo := todo - {v};
      var _ := v.TrySendFrame(frame);
    }
  }

  // The viewers that are neither closed nor paused, and the smallest positive truncation among them, or 0.
  method ListeningViewers(viewers: set<MuxViewer>) returns (listening: set<MuxViewer>, truncate: nat)
    ensures listening == set v | v in viewers && Listening(v.State())
    ensures forall v <- listening :: v.limits.truncate > 0 ==> 0 < truncate <= v.limits.truncate
    ensures truncate > 0 ==> exists v <- listening :: v.limits.truncate == truncate
  {
    var rest := viewers;
    listening, truncate := {}, 0;
    while rest != {}
      invariant rest <= viewers
      invariant listening == set v | v in viewers - rest && Listening(v.State())
      invariant forall v <- listening :: v.limits.truncate > 0 ==> 0 < truncate <= v.limits.truncate
      invariant truncate > 0 ==> exists v <- listening :: v.limits.truncate == truncate
      decreases |rest|
    {
      var v :| v in rest;
      rest := rest - {v};
      if v.closed || v.paused { continue; }
      listening := listening + {v};
      if v.limits.truncate > 0 && (truncate == 0 || v.limits.truncate < truncate) {
        truncate := v.limits.truncate;
      }
    }
  }
}
