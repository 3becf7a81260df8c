/** What every run of a tunnel session keeps: one fate for each visitor, and which connection meets which
    visitor in spite of the wrapping id. */
module PairingRuns {
  import opened Wire
  import opened Pairing

  lemma {:induction false} RunInv(s: State, events: seq<Event>)
    requires Inv(s)
    ensures Inv(Run(s, events))
    decreases |events|
  {
    if events != [] {
      hide Inv, Step;
      StepInv(s, events[0]);
      RunInv(Step(s, events[0]), events[1..]);
    }
  }

  // ---- what every run keeps ----

  lemma InitialInv()
    ensures Inv(INITIAL)
  {
  }

  /** Conservation: each accepted visitor is pending, spliced, closed or overwritten, and exactly one
      of these; no visitor is spliced to two connections. */
  lemma VisitorConservation(events: seq<Event>, v: nat)
    requires v < Run(INITIAL, events).accepted
    ensures OneFate(Run(INITIAL, events), v)
    ensures var s := Run(INITIAL, events);
            forall c, d :: c in s.spliced && d in s.spliced && s.spliced[c] == s.spliced[d] ==> c == d
  {
    InitialInv();
    RunInv(INITIAL, events);
  }

  /** In every interleaving a spliced connection meets a visitor with its id that is not older than
      its own, and its own visitor exactly when it was not in flight as the next visitor with that id
      was accepted. */
  lemma PairingExactly(events: seq<Event>, c: nat)
    requires c in Run(INITIAL, events).spliced
    ensures var s := Run(INITIAL, events);
            && s.spliced[c] % IDS == c % IDS && c <= s.spliced[c]
            && (s.spliced[c] == c <==> c !in s.late)
  {
    InitialInv();
    RunInv(INITIAL, events);
  }

  // ---- dropped connections ----

  /** Why a connection may find nobody: late itself, visitor closed, or visitor taken by another. */
  ghost predicate DropsOk(s: State) {
    && (forall v :: v in s.overwritten ==> v + IDS < s.accepted)
    && (forall c :: c in s.dropped ==> c in s.late || c in s.closed || IsSpliced(s, c))
  }

  lemma SplicedGrows(s: State, e: Event, v: nat)
    requires Inv(s) && IsSpliced(s, v)
    ensures IsSpliced(Step(s, e), v)
  {
    var c :| c in s.spliced && s.spliced[c] == v;
    if e.Deliver? && e.connection in s.dialing {
      assert c != e.connection;
    }
    assert c in Step(s, e).spliced && Step(s, e).spliced[c] == v;
  }

  lemma DeliverDrops(s: State, c: nat)
    requires Inv(s) && DropsOk(s) && c in s.dialing && s.dialing[c] !in s.server.pending
    ensures c in s.late || c in s.closed || IsSpliced(s, c)
  {
    assert c in InFlight(s);
    assert OneFate(s, c);
    assert !IsPending(s, c);
  }

  lemma StepDrops(s: State, e: Event)
    requires Inv(s) && DropsOk(s)
    ensures DropsOk(Step(s, e))
  {
    var t := Step(s, e);
    if e.Accept? {
      AcceptPending(s);
    }
    forall c | c in t.dropped ensures c in t.late || c in t.closed || IsSpliced(t, c) {
      if c !in s.dropped {
        DeliverDrops(s, c);
      }
      if IsSpliced(s, c) {
        SplicedGrows(s, e, c);
      }
    }
  }

  lemma {:induction false} RunDrops(s: State, events: seq<Event>)
    requires Inv(s) && DropsOk(s)
    ensures DropsOk(Run(s, events))
    decreases |events|
  {
    if events != [] {
      hide Inv, DropsOk, Step;
      StepInv(s, events[0]);
      StepDrops(s, events[0]);
      RunDrops(Step(s, events[0]), events[1..]);
    }
  }

  // ---- the window ----

  /** No visitor is accepted while a connection opened 65536 visitors earlier is in flight. */
  predicate WindowStep(s: State, e: Event) {
    e.Accept? && s.live && s.unsent == [] ==> forall c :: c in InFlight(s) ==> s.accepted < c + IDS
  }

  predicate Windowed(s: State, events: seq<Event>)
    decreases |events|
  {
    events == [] || (WindowStep(s, events[0]) && Windowed(Step(s, events[0]), events[1..]))
  }

  lemma LateGrows(s: State, e: Event)
    ensures s.late <= Step(s, e).late
  {
  }

  lemma {:induction false} LateStays(s: State, events: seq<Event>)
    ensures s.late <= Run(s, events).late
    decreases |events|
  {
    if events != [] {
      hide Step;
      LateGrows(s, events[0]);
      LateStays(Step(s, events[0]), events[1..]);
    }
  }

  lemma WindowStepExactly(s: State, e: Event)
    requires Inv(s) && s.late == {}
    ensures WindowStep(s, e) <==> Step(s, e).late == {}
  {
    if e.Accept? && s.live && s.unsent == [] {
      var t := Step(s, e);
      if c :| c in InFlight(s) && s.accepted >= c + IDS {
        assert c in t.late;
      }
    }
  }

  /** A run keeps the window exactly when no connection was ever late in it. */
  lemma {:induction false} WindowedExactly(s: State, events: seq<Event>)
    requires Inv(s) && s.late == {}
    ensures Windowed(s, events) <==> Run(s, events).late == {}
    decreases |events|
  {
    if events != [] {
      hide Inv, Step, WindowStep;
      var t := Step(s, events[0]);
      StepInv(s, events[0]);
      WindowStepExactly(s, events[0]);
      LateStays(t, events[1..]);
      if t.late == {} {
        WindowedExactly(t, events[1..]);
      }
    }
  }

  predicate NoClose(events: seq<Event>) {
    forall i :: 0 <= i < |events| ==> !events[i].Close?
  }

  lemma {:induction false} NothingClosed(s: State, events: seq<Event>)
    requires NoClose(events)
    ensures Run(s, events).closed == s.closed
    decreases |events|
  {
    if events != [] {
      NothingClosed(Step(s, events[0]), events[1..]);
    }
  }

  /** While the window is kept, every splice joins a visitor with the connection opened for it, and
      with a client that sends no CLOSE no delivered connection is turned away. */
  lemma WindowPairs(events: seq<Event>)
    requires Windowed(INITIAL, events)
    ensures var s := Run(INITIAL, events); forall c :: c in s.spliced ==> s.spliced[c] == c
    ensures NoClose(events) ==> Run(INITIAL, events).dropped == {}
  {
    var s := Run(INITIAL, events);
    InitialInv();
    RunInv(INITIAL, events);
    RunDrops(INITIAL, events);
    WindowedExactly(INITIAL, events);
    if NoClose(events) {
      NothingClosed(INITIAL, events);
      assert forall c :: c in s.dropped ==> IsSpliced(s, c);
    }
  }
}
