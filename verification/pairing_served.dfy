/** Inside the window every visitor is served; beyond it the pairing breaks. */
module PairingServed {
  import opened Wire
  import opened Pairing
  import opened PairingRuns

  // ---- every visitor is served ----

  predicate NoFailure(events: seq<Event>) {
    forall i :: 0 <= i < |events| ==> !events[i].DialFails? && (events[i].SendOpen? ==> events[i].ok)
  }

  /** Every visitor's connection is on its way or has arrived. */
  predicate NoneLost(s: State) {
    forall v: nat :: v < s.accepted ==> v in InFlight(s) || Settled(s, v)
  }

  /** One connection stays on its way or arrives. */
  lemma StepKeepsOne(s: State, e: Event, v: nat)
    requires (v in InFlight(s) || Settled(s, v)) && !e.DialFails? && (e.SendOpen? ==> e.ok)
    ensures v in InFlight(Step(s, e)) || Settled(Step(s, e), v)
  {
    var t := Step(s, e);
    if v in InFlight(s) && v !in s.dialing {
      var m :| (m in s.unsent || m in s.opens) && m.visitor == v;
      if e.ClientReadsOpen? && m in s.opens {
        assert m == s.opens[0] || m in s.opens[1..];
      } else if e.SendOpen? {
        assert m in t.opens;
      } else {
        assert m in t.opens || m in t.unsent;
      }
    }
  }

  lemma StepLosesNone(s: State, e: Event)
    requires NoneLost(s) && !e.DialFails? && (e.SendOpen? ==> e.ok)
    ensures NoneLost(Step(s, e))
  {
    var t := Step(s, e);
    forall v: nat | v < t.accepted ensures v in InFlight(t) || Settled(t, v) {
      if v < s.accepted {
        StepKeepsOne(s, e, v);
      } else {
        assert Message(v, s.server.counter) in t.unsent;
      }
    }
  }

  lemma {:induction false} RunLosesNone(s: State, events: seq<Event>)
    requires NoneLost(s) && NoFailure(events)
    ensures NoneLost(Run(s, events))
    decreases |events|
  {
    if events != [] {
      hide NoneLost, Step;
      StepLosesNone(s, events[0]);
      RunLosesNone(Step(s, events[0]), events[1..]);
    }
  }

  /** In every interleaving that keeps the window, in which no CLOSE is sent and nothing fails, every
      visitor is spliced with the connection opened for it, once nothing is on its way any more. */
  lemma EveryVisitorServed(events: seq<Event>, v: nat)
    requires Windowed(INITIAL, events) && NoClose(events) && NoFailure(events)
    requires InFlight(Run(INITIAL, events)) == {} && v < Run(INITIAL, events).accepted
    ensures var s := Run(INITIAL, events); v in s.spliced && s.spliced[v] == v
  {
    hide Run, Windowed, InFlight, NoClose, NoFailure;
    assert NoneLost(INITIAL);
    RunLosesNone(INITIAL, events);
    WindowPairs(events);
    assert Settled(Run(INITIAL, events), v);
  }

  lemma FourSteps(s: State)
    requires s.live && s.unsent == [] && s.opens == []
    ensures var n, id := s.accepted, s.server.counter;
            var t := Step(Step(Step(AcceptStep(s), SendOpen(true)), ClientReadsOpen), Deliver(n));
            t.accepted == n + 1 && n in t.spliced && t.spliced[n] == n
  {
    var n, id := s.accepted, s.server.counter;
    var a := AcceptStep(s);
    hide InFlight, AtId;
    var m := Message(n, id);
    assert a.unsent == [m] && a.opens == [] && id in a.server.pending && a.server.pending[id] == n;
    var b := Step(a, SendOpen(true));
    assert b.opens == [] + [m] == [m] && b.unsent == [] && b.server == a.server && b.dialing == a.dialing;
    var c := Step(b, ClientReadsOpen);
    assert n in c.dialing && c.dialing[n] == id && c.server == a.server && c.accepted == n + 1;
  }

  /** From every such state with no OPEN on its way, four steps serve the next visitor. */
  lemma NextVisitorServed(events: seq<Event>)
    requires var s := Run(INITIAL, events);
             Windowed(INITIAL, events) && s.live && s.unsent == [] && s.opens == [] && WindowStep(s, Accept)
    ensures var s := Run(INITIAL, events);
            var t := Run(s, [Accept, SendOpen(true), ClientReadsOpen, Deliver(s.accepted)]);
            && t.accepted == s.accepted + 1
            && s.accepted in t.spliced && t.spliced[s.accepted] == s.accepted
  {
    var s := Run(INITIAL, events);
    RunFour(s, Accept, SendOpen(true), ClientReadsOpen, Deliver(s.accepted));
    FourSteps(s);
    hide Run, Windowed, InFlight, WindowStep;
  }

  lemma RunFour(s: State, a: Event, b: Event, c: Event, d: Event)
    ensures Run(s, [a, b, c, d]) == Step(Step(Step(Step(s, a), b), c), d)
  {
    hide Step;
    assert [a, b, c, d] == [a, b] + [c, d];
    RunAppend(s, [a, b], [c, d]);
    RunTwo(s, a, b);
    RunTwo(Run(s, [a, b]), c, d);
  }

  lemma CloseTakes(s: State, id: u16, v: nat)
    requires PendingOk(s)
    ensures var t := Step(s, Close(id));
            && (IsPending(t, v) <==> IsPending(s, v) && v % IDS != id)
            && (v in t.closed <==> v in s.closed || (IsPending(s, v) && v % IDS == id))
            && t.spliced == s.spliced && t.dropped == s.dropped
  {
    RemovedPending(s, Step(s, Close(id)), id);
  }

  /** A CLOSE takes exactly the visitor waiting under its id. */
  lemma CloseExactly(events: seq<Event>, id: u16, v: nat)
    ensures var s := Run(INITIAL, events);
            var t := Step(s, Close(id));
            && (IsPending(t, v) <==> IsPending(s, v) && v % IDS != id)
            && (v in t.closed <==> v in s.closed || (IsPending(s, v) && v % IDS == id))
            && t.spliced == s.spliced && t.dropped == s.dropped
  {
    hide Run, FatesOk, FlightOk, PairsOk, PendingOk, Step, IsPending;
    InitialInv();
    RunInv(INITIAL, events);
    CloseTakes(Run(INITIAL, events), id, v);
  }

  // ---- beyond the window ----

  lemma {:induction false} RunAppend(s: State, a: seq<Event>, b: seq<Event>)
    ensures Run(s, a + b) == Run(Run(s, a), b)
    decreases |a|
  {
    if a == [] {
      assert a + b == b;
    } else {
      hide Step;
      assert (a + b)[0] == a[0] && (a + b)[1..] == a[1..] + b;
      RunAppend(Step(s, a[0]), a[1..], b);
    }
  }

  function Visits(k: nat): seq<Event> {
    if k == 0 then [] else Visits(k - 1) + [Accept, SendOpen(true)]
  }

  const FIRST_DIALLED := [Accept, SendOpen(true), ClientReadsOpen]

  lemma FirstDial()
    ensures Run(INITIAL, FIRST_DIALLED) == Step(Step(Step(INITIAL, Accept), SendOpen(true)), ClientReadsOpen)
  {
    hide Step;
    assert FIRST_DIALLED == [Accept, SendOpen(true)] + [ClientReadsOpen];
    RunAppend(INITIAL, [Accept, SendOpen(true)], [ClientReadsOpen]);
    RunTwo(INITIAL, Accept, SendOpen(true));
    RunOne(Run(INITIAL, [Accept, SendOpen(true)]), ClientReadsOpen);
  }

  lemma OneVisit(s: State, k: nat)
    requires s.live && s.unsent == [] && s.accepted == k && 0 in s.dialing && s.dialing[0] == 0
    requires s.server.counter == k % IDS
    ensures var t := Step(Step(s, Accept), SendOpen(true));
            && t.live && t.unsent == [] && t.accepted == k + 1 && 0 in t.dialing && t.dialing[0] == 0
            && t.server.counter == (k + 1) % IDS
            && k % IDS in t.server.pending && t.server.pending[k % IDS] == k
  {
    NextSameId(k, k + 1);
  }

  /** The first connection is in flight while `k` more visitors arrive. */
  lemma {:induction false} AfterVisits(k: nat)
    ensures var s := Run(INITIAL, FIRST_DIALLED + Visits(k));
            && s.live && s.unsent == [] && s.accepted == k + 1 && 0 in s.dialing && s.dialing[0] == 0
            && s.server.counter == (k + 1) % IDS
            && k % IDS in s.server.pending && s.server.pending[k % IDS] == k
  {
    if k == 0 {
      FirstDial();
      assert FIRST_DIALLED + Visits(0) == FIRST_DIALLED;
    } else {
      AfterVisits(k - 1);
      var before := FIRST_DIALLED + Visits(k - 1);
      var s := Run(INITIAL, before);
      OneVisit(s, k);
      hide Step, Run;
      var round := [Accept, SendOpen(true)];
      assert FIRST_DIALLED + Visits(k) == before + round;
      RunAppend(INITIAL, before, round);
      RunTwo(s, Accept, SendOpen(true));
    }
  }

  lemma RunOne(s: State, e: Event)
    ensures Run(s, [e]) == Step(s, e)
  {
    hide Step;
    assert [e][1..] == [];
  }

  lemma RunTwo(s: State, e: Event, f: Event)
    ensures Run(s, [e, f]) == Step(Step(s, e), f)
  {
    hide Step;
    assert [e, f][1..] == [f];
    RunOne(Step(s, e), f);
  }

  /** Beyond the window the pairing breaks: after 65536 later visitors the first connection is spliced
      to the last of them. */
  lemma BeyondTheWindow()
    ensures var s := Run(INITIAL, FIRST_DIALLED + Visits(IDS) + [Deliver(0)]);
            0 in s.spliced && s.spliced[0] == 65536
  {
    AfterVisits(IDS);
    RunAppend(INITIAL, FIRST_DIALLED + Visits(IDS), [Deliver(0)]);
    RunOne(Run(INITIAL, FIRST_DIALLED + Visits(IDS)), Deliver(0));
  }
}
