/**
 Dead-letter retries that overlap: every call to the server is a step, and any number of retries run at
 once.
 */
module DlqInterleaving {
  import opened DlqRetry

  // Where one retry of one message stands: it holds the message it read, or has published it, or is over.
  datatype Stage = Holding(m: Stored) | Posted | Over

  datatype Flight = Flight(o: Origin, stage: Stage)

  datatype Net = Net(w: World, flights: seq<Flight>)

  datatype Call =
    | Arrival(o: Origin, m: Stored)
    | GetCall(o: Origin)                     // a retry starts by reading the message
    | PublishCall(i: nat, fault: Fault)      // retry i publishes what it holds
    | DeleteCall(i: nat, fault: Fault)       // retry i deletes what it published

  // A failed call, a missing message or a missing subject ends a retry; it may also stop at any point.
  function Step(n: Net, c: Call): Net {
    match c
    case Arrival(o, m) =>
      if o in n.w.arrived then n else n.(w := n.w.(queue := n.w.queue[o := m], arrived := n.w.arrived[o := m]))
    case GetCall(o) =>
      if o in n.w.queue && OriginalSubject(n.w.queue[o]) != ""
          then n.(flights := n.flights + [Flight(o, Holding(n.w.queue[o]))])
      else n
    case PublishCall(i, fault) =>
      if i >= |n.flights| || !n.flights[i].stage.Holding? then n
      else
        var f := n.flights[i];
        var next := if fault.NoFault? then Posted else Over;
        Net(if fault.NotApplied? then n.w else Publish(n.w, f.o, f.stage.m), n.flights[i := f.(stage := next)])
    case DeleteCall(i, fault) =>
      if i >= |n.flights| || !n.flights[i].stage.Posted? then n
      else
        var f := n.flights[i];
        Net(if fault.NotApplied? then n.w else Delete(n.w, f.o), n.flights[i := f.(stage := Over)])
  }

  function After(calls: seq<Call>): Net
    decreases |calls|
  {
    if calls == [] then Net(EMPTY, []) else Step(After(calls[..|calls| - 1]), calls[|calls| - 1])
  }

  ghost predicate FlightOk(w: World, f: Flight) {
    match f.stage
    case Holding(m) => f.o in w.arrived && m == w.arrived[f.o] && OriginalSubject(m) != ""
    case Posted => WasSent(w.published, f.o)
    case Over => true
  }

  ghost predicate Inv(n: Net) { Safe(n.w) && forall i | 0 <= i < |n.flights| :: FlightOk(n.w, n.flights[i]) }

  // What arrived or was published stays so.
  ghost predicate Grows(w: World, w': World) {
    && (forall o <- w.arrived :: o in w'.arrived && w'.arrived[o] == w.arrived[o])
    && (forall o :: WasSent(w.published, o) ==> WasSent(w'.published, o))
  }

  lemma FlightsStay(w: World, w': World, flights: seq<Flight>)
    requires Grows(w, w') && forall i | 0 <= i < |flights| :: FlightOk(w, flights[i])
    ensures forall i | 0 <= i < |flights| :: FlightOk(w', flights[i])
  {
    forall i | 0 <= i < |flights| ensures FlightOk(w', flights[i]) { assert FlightOk(w, flights[i]); }
  }

  lemma ArrivalSafe(w: World, o: Origin, m: Stored)
    requires Safe(w) && o !in w.arrived
    ensures var w' := w.(queue := w.queue[o := m], arrived := w.arrived[o := m]); Safe(w') && Grows(w, w')
  {
    var w' := w.(queue := w.queue[o := m], arrived := w.arrived[o := m]);
    forall i | 0 <= i < |w'.published| ensures PublicationOk(w'.arrived, w'.published[i]) {
      assert PublicationOk(w.arrived, w.published[i]);
    }
  }

  lemma PublishGrows(w: World, o: Origin, m: Stored)
    ensures Grows(w, Publish(w, o, m)) && WasSent(Publish(w, o, m).published, o)
  {
    var w' := Publish(w, o, m);
    assert w'.published[|w.published|].of == o;
    forall x | WasSent(w.published, x) ensures WasSent(w'.published, x) {
      var i :| 0 <= i < |w.published| && w.published[i].of == x;
      assert w'.published[i].of == x;
    }
  }

  // Publishing a message that was read earlier is safe even when another retry has deleted it since.
  lemma LatePublishSafe(w: World, o: Origin)
    requires Safe(w) && o in w.arrived && OriginalSubject(w.arrived[o]) != ""
    ensures Safe(Publish(w, o, w.arrived[o]))
  {
    PublishGrows(w, o, w.arrived[o]);
  }

  lemma FlightMoves(w: World, w': World, flights: seq<Flight>, i: nat, f: Flight)
    requires Grows(w, w') && forall j | 0 <= j < |flights| :: FlightOk(w, flights[j])
    requires i < |flights| && Safe(w') && FlightOk(w', f)
    ensures Inv(Net(w', flights[i := f]))
  {
    FlightsStay(w, w', flights);
  }

  lemma PublishKeeps(n: Net, i: nat, fault: Fault)
    requires Inv(n) && i < |n.flights| && n.flights[i].stage.Holding?
    ensures Inv(Step(n, PublishCall(i, fault)))
  {
    var f := n.flights[i];
    var w' := if fault.NotApplied? then n.w else Publish(n.w, f.o, f.stage.m);
    var f' := f.(stage := if fault.NoFault? then Posted else Over);
    assert Step(n, PublishCall(i, fault)) == Net(w', n.flights[i := f']);
    assert Safe(w') && Grows(n.w, w') && FlightOk(w', f') by {
      assert FlightOk(n.w, f);
      LatePublishSafe(n.w, f.o);
      PublishGrows(n.w, f.o, f.stage.m);
    }
    FlightMoves(n.w, w', n.flights, i, f');
  }

  lemma DeleteKeeps(n: Net, i: nat, fault: Fault)
    requires Inv(n) && i < |n.flights| && n.flights[i].stage.Posted?
    ensures Inv(Step(n, DeleteCall(i, fault)))
  {
    var f := n.flights[i];
    var w' := if fault.NotApplied? then n.w else Delete(n.w, f.o);
    assert Step(n, DeleteCall(i, fault)) == Net(w', n.flights[i := f.(stage := Over)]);
    assert Safe(w') && Grows(n.w, w') by {
      assert FlightOk(n.w, f);
      DeleteSafe(n.w, f.o);
    }
    FlightMoves(n.w, w', n.flights, i, f.(stage := Over));
  }

  lemma ArrivalKeeps(n: Net, o: Origin, m: Stored)
    requires Inv(n)
    ensures Inv(Step(n, Arrival(o, m)))
  {
    if o !in n.w.arrived {
      ArrivalSafe(n.w, o, m);
      FlightsStay(n.w, Step(n, Arrival(o, m)).w, n.flights);
    }
  }

  lemma StepKeepsInv(n: Net, c: Call)
    requires Inv(n)
    ensures Inv(Step(n, c))
  {
    match c
    case Arrival(o, m) => ArrivalKeeps(n, o, m);
    case GetCall(o) =>
    case PublishCall(i, fault) => if i < |n.flights| && n.flights[i].stage.Holding? { PublishKeeps(n, i, fault); }
    case DeleteCall(i, fault) => if i < |n.flights| && n.flights[i].stage.Posted? { DeleteKeeps(n, i, fault); }
  }

  lemma {:induction false} RunsKeepInv(calls: seq<Call>)
    ensures Inv(After(calls))
  {
    if calls != [] {
      RunsKeepInv(calls[..|calls| - 1]);
      StepKeepsInv(After(calls[..|calls| - 1]), calls[|calls| - 1]);
    }
  }

  // However the calls of any number of retries interleave, and whichever fail, no message is lost.
  lemma NoMessageLost(calls: seq<Call>, o: Origin)
    requires o in After(calls).w.arrived
    ensures NotLost(After(calls).w, o)
  {
    RunsKeepInv(calls);
    SafeLosesNothing(After(calls).w, o);
  }

  // A deduplicating target ends up with each message at most once, even when retries of one message overlap.
  lemma DeliveredAtMostOnce(calls: seq<Call>, i: nat, j: nat)
    requires var kept := Deduplicated(After(calls).w.published); i < |kept| && j < |kept| && kept[i].of == kept[j].of
    ensures i == j
  {
    RunsKeepInv(calls);
    SafeKeepsAtMostOne(After(calls).w, i, j);
  }

  // And exactly once with each message that has left the queue.
  lemma DeliveredOnceGone(calls: seq<Call>, o: Origin)
    requires o in After(calls).w.arrived && o !in After(calls).w.queue
    ensures SomeCarries(Deduplicated(After(calls).w.published), o, After(calls).w.arrived[o])
  {
    RunsKeepInv(calls);
    SafeKeepsOnceGone(After(calls).w, o);
  }

  // The three calls of one retry, with no other call between them, do what retryOneDLQMessage does.
  lemma RetryIsThreeCalls(n: Net, o: Origin, f: Faults)
    requires !f.get
    ensures var i := |n.flights|;
            Step(Step(Step(n, GetCall(o)), PublishCall(i, f.publish)), DeleteCall(i, f.delete)).w == RetryOne(n.w, o, f)
  {}
}
