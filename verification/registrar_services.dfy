/** Where registered services go: waiting, assigned, or lost. */
module RegistrarServices {
  import opened Config
  import opened Options
  import opened Proxy
  import opened Store
  import opened Registrar
  import opened RegistrarRuns

  /** The services of all volunteers. */
  ghost function Held(vs: map<nat, Volunteer>): multiset<Spec>
    decreases |vs|
  {
    if vs == map[] then multiset{}
    else
      var id :| id in vs;
      Smaller(vs, id);
      HeldBy(vs[id]) + Held(vs - {id})
  }

  /** It does not matter which volunteer is counted first. */
  lemma {:induction false} HeldAt(vs: map<nat, Volunteer>, id: nat)
    requires id in vs
    ensures Held(vs) == HeldBy(vs[id]) + Held(vs - {id})
    decreases |vs|
  {
    hide HeldBy;
    var first: nat :| first in vs && Held(vs) == HeldBy(vs[first]) + Held(vs - {first}) by { HeldFirst(vs); }
    if first != id {
      Smaller(vs, first);
      Smaller(vs, id);
      HeldAt(vs - {first}, id);
      HeldAt(vs - {id}, first);
      assert vs - {first} - {id} == vs - {id} - {first};
    }
  }

  lemma HeldFirst(vs: map<nat, Volunteer>)
    requires vs != map[]
    ensures exists first: nat :: first in vs && Held(vs) == HeldBy(vs[first]) + Held(vs - {first})
  {
  }

  lemma HeldPut(vs: map<nat, Volunteer>, id: nat, v: Volunteer)
    ensures Held(vs[id := v]) == HeldBy(v) + Held(vs - {id})
    ensures id in vs ==> Held(vs) == HeldBy(vs[id]) + Held(vs - {id})
    ensures id !in vs ==> Held(vs) == Held(vs - {id})
  {
    hide Held, HeldBy;
    HeldAt(vs[id := v], id);
    assert vs[id := v] - {id} == vs - {id};
    if id in vs {
      HeldAt(vs, id);
    } else {
      assert vs - {id} == vs;
    }
  }

  lemma {:induction false} WaitingAppend(a: seq<Pending>, b: seq<Pending>)
    ensures Waiting(a + b) == Waiting(a) + Waiting(b)
  {
    if a == [] {
      assert a + b == b;
    } else {
      assert (a + b)[0] == a[0] && (a + b)[1..] == a[1..] + b;
      WaitingAppend(a[1..], b);
    }
  }

  lemma WaitingOne(p: Pending)
    ensures Waiting([p]) == multiset{Asked(p)}
  {
    assert [p][1..] == [];
  }

  lemma {:induction false} HeldSame(a: map<nat, Volunteer>, b: map<nat, Volunteer>)
    requires a.Keys == b.Keys && forall id :: id in a ==> HeldBy(a[id]) == HeldBy(b[id])
    ensures Held(a) == Held(b)
    decreases |a|
  {
    hide HeldBy;
    if a == map[] {
      assert b == map[];
    } else {
      var id :| id in a;
      HeldAt(a, id);
      HeldAt(b, id);
      Smaller(a, id);
      HeldSame(a - {id}, b - {id});
    }
  }

  /** The registrations that the registrar still knows of. */
  ghost function Kept(s: State): multiset<Spec> {
    Waiting(s.pending) + Held(s.volunteers)
  }

  /** Every accepted registration is waiting, assigned or lost. */
  ghost predicate Conserved(w: World) {
    w.accepted == Kept(w.s) + w.lost
  }

  lemma ReattachedMoves(s: State, id: nat, info: Info, a: Assignment, now: int, verdict: Verdict)
    ensures var t := Reattached(s, id, info, a, now, verdict);
            && id in t.volunteers && t.volunteers == s.volunteers[id := t.volunteers[id]]
            && HeldBy(t.volunteers[id]) == multiset{Served(a)} && t.pending == s.pending
  {
    hide Assigned, Upserted, PutVolunteer, PutAssignment;
  }

  /** A dequeuing enrollment takes from the queue exactly what its volunteer now serves. */
  lemma DequeuedMoves(s: State, id: nat, info: Info, now: int, verdict: Verdict)
    ensures var t := Dequeued(s, id, info, now, verdict);
            && id in t.volunteers && t.volunteers == s.volunteers[id := t.volunteers[id]]
            && HeldBy(t.volunteers[id]) + Waiting(t.pending) == Waiting(s.pending)
  {
    hide Assigned, AssignOk, Upserted, PutVolunteer, PutAssignment;
    if s.pending != [] {
      assert Served(ToAssignment(s.pending[0], now)) == Asked(s.pending[0]);
    }
  }

  function HeldAtId(s: State, id: nat): multiset<Spec> {
    if id in s.volunteers then HeldBy(s.volunteers[id]) else multiset{}
  }

  lemma KeptPut(s: State, t: State, id: nat)
    requires id in t.volunteers && t.volunteers == s.volunteers[id := t.volunteers[id]]
    ensures Kept(t) + (HeldAtId(s, id) + Waiting(s.pending)) == Kept(s) + (HeldBy(t.volunteers[id]) + Waiting(t.pending))
  {
    hide HeldBy, Held, Waiting;
    HeldPut(s.volunteers, id, t.volunteers[id]);
    assert Held(s.volunteers) == HeldAtId(s, id) + Held(s.volunteers - {id});
  }

  lemma Cancel(x: multiset<Spec>, y: multiset<Spec>, gain: multiset<Spec>, same: multiset<Spec>)
    requires x + same == y + (gain + same)
    ensures x == y + gain
  {
    forall e: Spec ensures x[e] == (y + gain)[e] {
      assert (x + same)[e] == (y + (gain + same))[e];
    }
  }

  /** Moving services between one volunteer and the queue conserves them. */
  lemma MoveConserves(w: World, t: World, id: nat)
    requires Conserved(w) && id in t.s.volunteers
    requires t.s.volunteers == w.s.volunteers[id := t.s.volunteers[id]]
    requires HeldBy(t.s.volunteers[id]) + Waiting(t.s.pending) == HeldAtId(w.s, id) + Waiting(w.s.pending)
    requires t.accepted == w.accepted && t.lost == w.lost
    ensures Conserved(t)
  {
    hide HeldBy, Kept, Waiting, HeldAtId;
    KeptPut(w.s, t.s, id);
    var moved := HeldAtId(w.s, id) + Waiting(w.s.pending);
    assert multiset{} + moved == moved && Kept(w.s) + multiset{} == Kept(w.s);
    Cancel(Kept(t.s), Kept(w.s), multiset{}, moved);
  }

  lemma EnrollConserves(w: World, e: Event)
    requires Inv(w) && Conserved(w) && Enabled(w, e) && e.Enroll?
    ensures Conserved(Next(w, e))
  {
    KnownInMemory(w, e.info.hostname, e.existing);
    var s, id := w.s, EnrolledId(e.existing, e.newId);
    var service := if e.existing.Some? then ServiceOf(s, id) else None;
    assert HeldAtId(s, id) == if service.Some? then multiset{Served(service.value)} else multiset{};
    hide Inv, HeldBy, Waiting, Reattached, Dequeued, ServiceOf, Conserved, HeldAtId;
    if service.Some? {
      ReattachedMoves(s, id, e.info, service.value, e.now, e.verdict);
    } else {
      DequeuedMoves(s, id, e.info, e.now, e.verdict);
    }
    MoveConserves(w, Next(w, e), id);
  }

  lemma RegisteredHolds(w: World, e: Event)
    requires Enabled(w, e) && e.Register? && e.choice.Some?
    ensures var t, id := Next(w, e).s, e.choice.value;
            && id in w.s.volunteers && id in t.volunteers && HeldBy(w.s.volunteers[id]) == multiset{}
            && t.volunteers == w.s.volunteers[id := t.volunteers[id]] && t.pending == w.s.pending
            && HeldBy(t.volunteers[id])
               == if RegisterOk(w.s, e.choice, e.request, e.verdict) then multiset{Asked(e.request)} else multiset{}
  {
    hide Assigned, AssignOk, Weight, PutAssignment;
  }

  lemma RegisterConserves(w: World, e: Event)
    requires Inv(w) && Conserved(w) && Enabled(w, e) && e.Register?
    ensures Conserved(Next(w, e))
  {
    if e.choice.None? {
      var p := e.request.(registeredAt := e.now);
      WaitingAppend(w.s.pending, [p]);
      WaitingOne(p);
      assert Asked(p) == Asked(e.request);
    } else {
      RegisteredHolds(w, e);
      var t, id := Next(w, e), e.choice.value;
      assert HeldAtId(w.s, id) == multiset{};
      hide Inv, Enabled, HeldBy, Kept, Waiting, RegisterStep, RegisterOk, HeldAtId;
      KeptPut(w.s, t.s, id);
      assert multiset{} + Waiting(w.s.pending) == Waiting(w.s.pending);
      Cancel(Kept(t.s), Kept(w.s), HeldBy(t.s.volunteers[id]), Waiting(w.s.pending));
    }
  }

  lemma DisconnectConserves(w: World, e: Event)
    requires Conserved(w) && e.Disconnect?
    ensures Conserved(Next(w, e))
  {
    if e.id in w.s.volunteers {
      HeldAt(w.s.volunteers, e.id);
    }
  }

  lemma EvictedConserves(s: State, v: Volunteer, now: int)
    requires v.id in s.volunteers && s.volunteers[v.id] == v
    ensures Kept(Evicted(s, v, now)) == Kept(s)
  {
    HeldAt(s.volunteers, v.id);
    if v.service.Some? {
      var p := ToPending(v.service.value, now);
      WaitingAppend(s.pending, [p]);
      WaitingOne(p);
      assert Asked(p) == Served(v.service.value);
    }
  }

  lemma EvictedListed(s: State, dead: seq<Volunteer>, now: int)
    requires dead != [] && Listed(dead, s.volunteers)
    ensures Listed(dead[1..], Evicted(s, dead[0], now).volunteers)
  {
  }

  lemma {:induction false} SweepConserves(s: State, dead: seq<Volunteer>, now: int)
    requires Listed(dead, s.volunteers)
    ensures Kept(SweepStep(s, dead, now)) == Kept(s)
    decreases |dead|
  {
    if dead != [] {
      EvictedConserves(s, dead[0], now);
      EvictedListed(s, dead, now);
      hide Kept, Evicted, Listed;
      SweepConserves(Evicted(s, dead[0], now), dead[1..], now);
    }
  }

  lemma RestartConserves(w: World, e: Event)
    requires Inv(w) && Conserved(w) && Enabled(w, e) && e.Restart?
    ensures Conserved(Next(w, e))
  {
    RestartRestores(w, e);
    HeldSame(w.s.volunteers, Next(w, e).s.volunteers);
  }

  lemma UpdateConserves(w: World, e: Event)
    requires Conserved(w) && (e.Heartbeat? || e.SetPort?)
    ensures Conserved(Next(w, e))
  {
    hide Conserved, Weight, Moved, Reweighted, AddedOnce;
    if e.id in w.s.volunteers {
      MoveConserves(w, Next(w, e), e.id);
    } else {
      assert Next(w, e) == w;
    }
  }

  lemma SweepEventConserves(w: World, e: Event)
    requires Conserved(w) && Enabled(w, e) && e.Sweep?
    ensures Conserved(Next(w, e))
  {
    SweepConserves(w.s, e.dead, e.now);
    hide Kept, SweepStep;
  }

  lemma ProxyRestartConserves(w: World, e: Event)
    requires Conserved(w) && (e.ProxyRestart? || e.Redeploy?)
    ensures Conserved(Next(w, e))
  {
  }

  lemma StepConserves(w: World, e: Event)
    requires Inv(w) && Conserved(w)
    ensures Conserved(Step(w, e))
  {
    if Enabled(w, e) {
      hide Inv, Conserved, Next, Enabled;
      match e
      case Enroll(_, _, _, _, _) => EnrollConserves(w, e);
      case Heartbeat(_, _, _) => UpdateConserves(w, e);
      case Disconnect(_) => DisconnectConserves(w, e);
      case SetPort(_, _) => UpdateConserves(w, e);
      case Register(_, _, _, _) => RegisterConserves(w, e);
      case Sweep(_, _) => SweepEventConserves(w, e);
      case Restart(_, _, _) => RestartConserves(w, e);
      case ProxyRestart => ProxyRestartConserves(w, e);
      case Redeploy(_) => ProxyRestartConserves(w, e);
    }
  }

  lemma {:induction false} RunConserves(w: World, events: seq<Event>)
    requires Inv(w) && Conserved(w)
    ensures Inv(Run(w, events)) && Conserved(Run(w, events))
    decreases |events|
  {
    if events != [] {
      hide Inv, Step, Conserved;
      StepInv(w, events[0]);
      StepConserves(w, events[0]);
      RunConserves(Step(w, events[0]), events[1..]);
    }
  }

  /** Conservation over every run: accepted registrations are waiting, assigned or lost. */
  lemma ServicesConserved(file: seq<Service>, events: seq<Event>)
    ensures var w := Run(Empty(file), events);
            w.accepted == Waiting(w.s.pending) + Held(w.s.volunteers) + w.lost
  {
    EmptyInv(file);
    RunConserves(Empty(file), events);
  }

  // ---- what loses a registration ----

  predicate Loses(s: State, e: Event) {
    || (e.Disconnect? && e.id in s.volunteers && s.volunteers[e.id].service.Some?)
    || (e.Restart? && s.pending != [])
  }

  /** Only the state matters to a step; its history may be forgotten. */
  lemma Forgetting(w: World, e: Event)
    requires Inv(w)
    ensures var v := w.(accepted := Kept(w.s), lost := multiset{});
            && Inv(v) && Conserved(v) && Step(v, e).s == Step(w, e).s && (Enabled(v, e) <==> Enabled(w, e))
  {
  }

  lemma LedgerMoves(w: World, e: Event)
    requires w.lost == multiset{}
    ensures w.accepted <= Step(w, e).accepted
    ensures Enabled(w, e) && Loses(w.s, e) ==> Step(w, e).accepted == w.accepted && |Step(w, e).lost| > 0
    ensures !(Enabled(w, e) && Loses(w.s, e)) ==> Step(w, e).lost == multiset{}
  {
    if e.Restart? && w.s.pending != [] {
      assert Asked(w.s.pending[0]) in Waiting(w.s.pending);
    }
  }

  lemma NotLess(a: multiset<Spec>, b: multiset<Spec>, lost: multiset<Spec>)
    requires a == b + lost && |lost| > 0
    ensures !(a <= b)
  {
    var x :| x in lost;
    assert a[x] > b[x];
  }

  /** A step drops a registration from the registrar's knowledge, waiting and assigned together, if and only
      if it disconnects a volunteer that serves one, or is a restart while registrations are waiting. */
  lemma LossExactly(w: World, e: Event)
    requires Inv(w)
    ensures !(Kept(w.s) <= Kept(Step(w, e).s)) <==> Enabled(w, e) && Loses(w.s, e)
  {
    var v := w.(accepted := Kept(w.s), lost := multiset{});
    Forgetting(w, e);
    StepConserves(v, e);
    LedgerMoves(v, e);
    hide Inv, Step, Enabled, Loses, Waiting, Held;
    var t := Step(v, e);
    assert t.accepted == Kept(t.s) + t.lost;
    if |t.lost| > 0 {
      NotLess(Kept(w.s), Kept(t.s), t.lost);
    }
  }

  // ---- first come, first served ----

  function Line(ps: seq<Pending>): seq<Spec> {
    seq(|ps|, i requires 0 <= i < |ps| => Asked(ps[i]))
  }

  function ServedBy(vs: seq<Volunteer>): seq<Spec> {
    if vs == [] then []
    else (if vs[0].service.Some? then [Served(vs[0].service.value)] else []) + ServedBy(vs[1..])
  }

  /** What joins the line: a registration without a free volunteer, and the services of evicted ones. */
  ghost function Joins(w: World, e: Event): seq<Spec> {
    if !Enabled(w, e) then []
    else match e
      case Register(p, choice, _, _) => if choice.None? then [Asked(p)] else []
      case Sweep(dead, _) => ServedBy(dead)
      case _ => []
  }

  /** What an enrollment hands to a volunteer that came without a service. */
  ghost function Leaves(w: World, e: Event): seq<Spec> {
    if !Enabled(w, e) || !e.Enroll? then []
    else
      var id := EnrolledId(e.existing, e.newId);
      var now := Step(w, e).s.volunteers;
      if id in now && now[id].service.Some? && HeldAtId(w.s, id) == multiset{} then [Served(now[id].service.value)] else []
  }

  ghost function AllJoins(w: World, events: seq<Event>): seq<Spec>
    decreases |events|
  {
    if events == [] then [] else Joins(w, events[0]) + AllJoins(Step(w, events[0]), events[1..])
  }

  ghost function AllLeaves(w: World, events: seq<Event>): seq<Spec>
    decreases |events|
  {
    if events == [] then [] else Leaves(w, events[0]) + AllLeaves(Step(w, events[0]), events[1..])
  }

  lemma LineAppend(a: seq<Pending>, b: seq<Pending>)
    ensures Line(a + b) == Line(a) + Line(b)
  {
  }

  lemma {:induction false} SweepJoins(s: State, dead: seq<Volunteer>, now: int)
    ensures Line(SweepStep(s, dead, now).pending) == Line(s.pending) + ServedBy(dead)
    decreases |dead|
  {
    if dead != [] {
      var t := Evicted(s, dead[0], now);
      hide Held;
      SweepJoins(t, dead[1..], now);
      if dead[0].service.Some? {
        var p := ToPending(dead[0].service.value, now);
        LineAppend(s.pending, [p]);
        assert Line([p]) == [Served(dead[0].service.value)];
      }
    }
  }

  lemma DequeuedLine(s: State, id: nat, info: Info, now: int, verdict: Verdict)
    ensures var t := Dequeued(s, id, info, now, verdict);
            var v := t.volunteers[id];
            && t.volunteers == s.volunteers[id := v]
            && Line(s.pending) == (if v.service.Some? then [Served(v.service.value)] else []) + Line(t.pending)
  {
    hide Assigned, AssignOk, Upserted, PutVolunteer, PutAssignment;
    if s.pending != [] {
      assert s.pending == [s.pending[0]] + s.pending[1..];
      LineAppend([s.pending[0]], s.pending[1..]);
    }
  }

  lemma EnrollLeaves(w: World, e: Event)
    requires Inv(w) && e.Enroll? && Enabled(w, e)
    ensures Line(w.s.pending) == Leaves(w, e) + Line(Step(w, e).s.pending)
  {
    KnownInMemory(w, e.info.hostname, e.existing);
    var s, id := w.s, EnrolledId(e.existing, e.newId);
    var service := if e.existing.Some? then ServiceOf(s, id) else None;
    assert HeldAtId(s, id) == if service.Some? then multiset{Served(service.value)} else multiset{};
    hide Inv, ServiceOf, HeldAtId, KnownAs, Line, Dequeued, Reattached;
    if service.None? {
      DequeuedLine(s, id, e.info, e.now, e.verdict);
    } else {
      ReattachedMoves(s, id, e.info, service.value, e.now, e.verdict);
    }
  }

  lemma StepInLine(w: World, e: Event)
    requires Inv(w) && !e.Restart?
    ensures Line(w.s.pending) + Joins(w, e) == Leaves(w, e) + Line(Step(w, e).s.pending)
  {
    if Enabled(w, e) {
      if e.Enroll? {
        EnrollLeaves(w, e);
      } else if e.Sweep? {
        SweepJoins(w.s, e.dead, e.now);
      } else if e.Register? && e.choice.None? {
        var p := e.request.(registeredAt := e.now);
        LineAppend(w.s.pending, [p]);
        assert Line([p]) == [Asked(e.request)];
      } else {
        hide Inv, Weight, Moved, Assigned, AssignOk;
        assert Step(w, e).s.pending == w.s.pending;
      }
    }
  }

  /** Services leave the line in the order in which they joined it, over every run of one registrar process;
      a refused assignment takes nothing out and keeps every place. */
  lemma {:induction false} FirstComeFirstServed(w: World, events: seq<Event>)
    requires Inv(w) && forall i :: 0 <= i < |events| ==> !events[i].Restart?
    ensures Line(w.s.pending) + AllJoins(w, events) == AllLeaves(w, events) + Line(Run(w, events).s.pending)
    decreases |events|
  {
    if events != [] {
      hide Inv, Step, Joins, Leaves, Line;
      var t, rest := Step(w, events[0]), events[1..];
      StepInv(w, events[0]);
      StepInLine(w, events[0]);
      FirstComeFirstServed(t, rest);
      Regroup(Line(w.s.pending), Joins(w, events[0]), AllJoins(t, rest),
              Leaves(w, events[0]), AllLeaves(t, rest), Line(t.s.pending), Line(Run(t, rest).s.pending));
    }
  }

  lemma Regroup(line: seq<Spec>, joins: seq<Spec>, more: seq<Spec>, leaves: seq<Spec>, later: seq<Spec>,
                next: seq<Spec>, last: seq<Spec>)
    requires line + joins == leaves + next && next + more == later + last
    ensures line + (joins + more) == (leaves + later) + last
  {
    assert line + (joins + more) == (line + joins) + more;
    assert (leaves + next) + more == leaves + (next + more);
    assert leaves + (later + last) == (leaves + later) + last;
  }
}
