/** Where the proxy serves a service: its server follows the volunteer that holds it, as long as the
    volunteer's own server is there. */
module RegistrarTraffic {
  import opened Config
  import opened ConfigRuns
  import opened Options
  import opened Proxy
  import opened Store
  import opened Registrar
  import opened RegistrarRuns
  import opened RegistrarIdentity
  import opened RegistrarProxy
  import opened RegistrarHealing

  // ---- single changes ----

  predicate ServedSame(p: View, q: View, name: string) {
    && (Running(p, SvcBackend(name)) <==> Running(q, SvcBackend(name)))
    && (PrimaryOf(name) in p.servers <==> PrimaryOf(name) in q.servers)
    && (PrimaryOf(name) in p.servers ==> q.servers[PrimaryOf(name)] == p.servers[PrimaryOf(name)])
  }

  lemma AssignedServes(p: View, name: string, domain: string, addr: string, verdict: Verdict, other: string)
    ensures AssignOk(p, name, domain, verdict) ==> ServedAt(Assigned(p, name, domain, addr, verdict), name, addr)
    ensures other != name && (!verdict.Accepted? || Has(p.file, SvcBackend(name))) ==>
      ServedSame(p, Assigned(p, name, domain, addr, verdict), other)
  {
    SvcBackendFacts(name, other);
  }

  lemma MovedServes(p: View, id: nat, addr: string, service: Option<string>, other: string)
    ensures service.Some? && OwnKey(id) in p.servers && PrimaryOf(service.value) in p.servers
            && Running(p, SvcBackend(service.value)) ==>
      ServedAt(Moved(p, id, addr, service), service.value, addr)
    ensures service != Some(other) ==> ServedSame(p, Moved(p, id, addr, service), other)
  {
    if service.Some? {
      SvcBackendFacts(service.value, other);
    }
  }

  lemma UpsertedOwn(p: View, id: nat, addr: string, weight: int, name: string)
    ensures ServedSame(p, Upserted(p, OwnKey(id), addr, weight), name)
  {
  }

  lemma EnrolledProxy(s: State, existing: Option<nat>, info: Info, newId: nat, now: int, verdict: Verdict, name: string)
    ensures var h := Handed(s, existing);
            var p := if h.Some? then Assigned(s.proxy, h.value.0, h.value.1, info.serviceAddr, verdict) else s.proxy;
            ServedSame(p, Enrolled(s, existing, info, newId, now, verdict).proxy, name)
  {
    hide Assigned, AssignOk, ServiceOf, Upserted, ServedSame, PutVolunteer, PutAssignment;
    var h := Handed(s, existing);
    var p := if h.Some? then Assigned(s.proxy, h.value.0, h.value.1, info.serviceAddr, verdict) else s.proxy;
    UpsertedOwn(p, EnrolledId(existing, newId), info.serviceAddr, 100, name);
  }

  /** The service that a step is about, if any. */
  function About(s: State, e: Event): Option<string> {
    match e
    case Enroll(_, existing, _, _, _) =>
      if Handed(s, existing).Some? then Some(Handed(s, existing).value.0) else None
    case Register(p, _, _, _) => Some(p.name)
    case SetPort(id, _) => if id in s.volunteers then ServiceName(s.volunteers[id]) else None
    case _ => None
  }

  lemma {:induction false} SweepServes(s: State, dead: seq<Volunteer>, now: int, name: string)
    ensures ServedSame(s.proxy, SweepStep(s, dead, now).proxy, name)
    decreases |dead|
  {
    if dead != [] {
      SweepServes(Evicted(s, dead[0], now), dead[1..], now, name);
    }
  }

  /** No step but a reload or a restart touches the server of a service that it is not about. */
  lemma OtherServicesStay(w: World, e: Event, name: string)
    requires Enabled(w, e) && !Wipes(w, e) && About(w.s, e) != Some(name)
    ensures ServedSame(w.s.proxy, Next(w, e).s.proxy, name)
  {
    hide Assigned, AssignOk, Moved, Weight, SweepStep, Has, ServiceOf;
    match e
    case Enroll(info, existing, newId, now, verdict) =>
      EnrolledProxy(w.s, existing, info, newId, now, verdict, name);
      if Handed(w.s, existing).Some? {
        var h := Handed(w.s, existing).value;
        AssignedServes(w.s.proxy, h.0, h.1, info.serviceAddr, verdict, name);
      }
    case Register(p, choice, _, verdict) =>
      if choice.Some? {
        AssignedServes(w.s.proxy, p.name, p.domain, w.s.volunteers[choice.value].info.serviceAddr, verdict, name);
      }
    case SetPort(id, addr) =>
      if id in w.s.volunteers {
        MovedServes(w.s.proxy, id, addr, ServiceName(w.s.volunteers[id]), name);
      }
    case Sweep(dead, now) => SweepServes(w.s, dead, now, name);
    case _ =>
  }

  // ---- an address change ----

  /** A change of the tunnel address reaches the server of the volunteer's service exactly when that server
      already had the address, or both the service's server and the volunteer's own server are there. */
  lemma AddressChangeExactly(w: World, id: nat, addr: string, name: string)
    requires Consistent(w.s.proxy) && id in w.s.volunteers && Serves(w.s.volunteers[id], name)
    ensures ServedAt(Next(w, SetPort(id, addr)).s.proxy, name, addr)
      <==> ServedAt(w.s.proxy, name, addr) || (PrimaryOf(name) in w.s.proxy.servers && OwnKey(id) in w.s.proxy.servers)
  {
    SvcBackendFacts(name, "");
    var p := w.s.proxy;
    if PrimaryOf(name) in p.servers {
      assert Running(p, PrimaryOf(name).backend);
    }
  }

  /** An address change of any known volunteer, serving or not: memory, row and the volunteer's own server, if
      it is there, get exactly the new address; the server keeps its weight and is ready; nothing else of the
      volunteer changes, and no other volunteer. */
  lemma AddressChanges(w: World, id: nat, addr: string)
    requires Inv(w) && id in w.s.volunteers
    ensures var s, t := w.s, Next(w, SetPort(id, addr)).s;
            && t.volunteers.Keys == s.volunteers.Keys && id in t.db.volunteers
            && t.volunteers[id].info.serviceAddr == addr && t.db.volunteers[id].info.serviceAddr == addr
            && t.volunteers[id] == s.volunteers[id].(info := s.volunteers[id].info.(serviceAddr := addr))
            && (OwnKey(id) in t.proxy.servers <==> OwnKey(id) in s.proxy.servers)
            && (OwnKey(id) in s.proxy.servers ==>
                  t.proxy.servers[OwnKey(id)] == Server(addr, s.proxy.servers[OwnKey(id)].weight, true))
            && forall other :: other in s.volunteers && other != id ==>
                 && t.volunteers[other] == s.volunteers[other] && t.db.volunteers[other] == s.db.volunteers[other]
                 && (OwnKey(other) in s.proxy.servers ==>
                       OwnKey(other) in t.proxy.servers
                       && t.proxy.servers[OwnKey(other)] == s.proxy.servers[OwnKey(other)])
  {
    Filed(w, id);
    MovedOwn(w.s.proxy, id, addr, ServiceName(w.s.volunteers[id]));
    assert forall other: nat :: OwnKey(other) in w.s.proxy.servers ==>
      OwnKey(other) in Moved(w.s.proxy, id, addr, ServiceName(w.s.volunteers[id])).servers;
    hide Moved, OneIdPerHost, IdsKnown;
  }

  // ---- handing over ----

  /** The service that a step tries to hand to a volunteer that has none. */
  function Offered(s: State, e: Event, id: nat): Option<(string, Verdict)> {
    match e
    case Enroll(_, existing, newId, _, verdict) =>
      if id == EnrolledId(existing, newId) && s.pending != [] then Some((s.pending[0].name, verdict)) else None
    case Register(p, choice, _, verdict) => if choice == Some(id) then Some((p.name, verdict)) else None
    case _ => None
  }

  lemma AssignOkExactly(p: View, name: string, domain: string, verdict: Verdict)
    requires Consistent(p)
    ensures AssignOk(p, name, domain, verdict)
      <==> Running(p, SvcBackend(name)) || (!Has(p.file, SvcBackend(name)) && verdict.Accepted?)
  {
    SvcBackendFacts(name, "");
    NamesHas(p.file, SvcBackend(name));
    NamesHas(Configured(p, name, domain, verdict).file, SvcBackend(name));
    NamesAppend(p.file, Service(SvcBackend(name), domain));
  }

  lemma RegisterHands(w: World, e: Event, id: nat)
    requires Inv(w) && Consistent(w.s.proxy) && Enabled(w, e) && e.Register? && e.choice == Some(id)
    ensures var t, p := Next(w, e).s, e.request;
            && id in w.s.volunteers && w.s.volunteers[id].service.None? && id in t.volunteers
            && (t.volunteers[id].service.Some? <==> AssignOk(w.s.proxy, p.name, p.domain, e.verdict))
            && (t.volunteers[id].service.Some? ==>
                  t.volunteers[id].service.value.serviceName == p.name
                  && ServedAt(t.proxy, p.name, t.volunteers[id].info.serviceAddr)
                  && t.proxy.servers[PrimaryOf(p.name)].weight == 100)
  {
    var v := w.s.volunteers[id];
    AssignedServes(w.s.proxy, e.request.name, e.request.domain, v.info.serviceAddr, e.verdict, "");
    AssignedWeight(w.s.proxy, e.request.name, e.request.domain, v.info.serviceAddr, e.verdict);
    hide Inv, Consistent, Assigned, AssignOk, Weight;
  }

  lemma AssignedWeight(p: View, name: string, domain: string, addr: string, verdict: Verdict)
    ensures AssignOk(p, name, domain, verdict) ==>
      PrimaryOf(name) in Assigned(p, name, domain, addr, verdict).servers
      && Assigned(p, name, domain, addr, verdict).servers[PrimaryOf(name)].weight == 100
  {
  }

  lemma DequeuedHands(s: State, id: nat, info: Info, now: int, verdict: Verdict)
    requires s.pending != []
    ensures var t, p := Dequeued(s, id, info, now, verdict), s.pending[0];
            && id in t.volunteers && t.volunteers[id].info == info
            && (t.volunteers[id].service.Some? <==> AssignOk(s.proxy, p.name, p.domain, verdict))
            && (t.volunteers[id].service.Some? ==>
                  t.volunteers[id].service.value.serviceName == p.name && ServedAt(t.proxy, p.name, info.serviceAddr)
                  && t.proxy.servers[PrimaryOf(p.name)].weight == 100)
  {
    var p := s.pending[0];
    var q := Assigned(s.proxy, p.name, p.domain, info.serviceAddr, verdict);
    AssignedServes(s.proxy, p.name, p.domain, info.serviceAddr, verdict, "");
    AssignedWeight(s.proxy, p.name, p.domain, info.serviceAddr, verdict);
    UpsertedOwn(q, id, info.serviceAddr, 100, p.name);
    hide Assigned, AssignOk, Upserted;
  }

  /** A service offered to a volunteer that has none is accepted exactly when its backend runs, or it is new
      to the file and HAProxy takes the new config; and then it is served, with full weight, at the address
      of the volunteer. */
  lemma HandsOverExactly(w: World, e: Event, id: nat)
    requires Inv(w) && Consistent(w.s.proxy) && Enabled(w, e) && Offered(w.s, e, id).Some?
    requires id in w.s.volunteers ==> w.s.volunteers[id].service.None?
    ensures var t, p, o := Next(w, e).s, w.s.proxy, Offered(w.s, e, id).value;
            && id in t.volunteers
            && (t.volunteers[id].service.Some? <==>
                  Running(p, SvcBackend(o.0)) || (!Has(p.file, SvcBackend(o.0)) && o.1.Accepted?))
            && (t.volunteers[id].service.Some? ==>
                  t.volunteers[id].service.value.serviceName == o.0
                  && ServedAt(t.proxy, o.0, t.volunteers[id].info.serviceAddr)
                  && t.proxy.servers[PrimaryOf(o.0)].weight == 100)
  {
    if e.Register? {
      RegisterHands(w, e, id);
      AssignOkExactly(w.s.proxy, e.request.name, e.request.domain, e.verdict);
    } else {
      KnownInMemory(w, e.info.hostname, e.existing);
      assert e.existing.Some? ==> ServiceOf(w.s, id).None?;
      DequeuedHands(w.s, id, e.info, e.now, e.verdict);
      AssignOkExactly(w.s.proxy, w.s.pending[0].name, w.s.pending[0].domain, e.verdict);
      assert Next(w, e).s == Dequeued(w.s, id, e.info, e.now, e.verdict);
    }
    hide Inv, Consistent, Enabled, Next, AssignOk, ServedAt, Has, Running;
  }

  // ---- over runs ----

  /** No other volunteer holds the service. */
  predicate Alone(s: State, id: nat, name: string) {
    forall other :: other in s.volunteers && other != id ==> !Serves(s.volunteers[other], name)
  }

  /** The volunteer alone holds the service, and the proxy serves it there. */
  ghost predicate Follows(s: State, id: nat, name: string) {
    && Synced(s, id) && Serves(s.volunteers[id], name) && Alone(s, id, name)
    && ServedAt(s.proxy, name, s.volunteers[id].info.serviceAddr)
  }

  lemma FollowsEnroll(w: World, e: Event, id: nat, name: string)
    requires Inv(w) && Consistent(w.s.proxy) && Follows(w.s, id, name) && e.Enroll? && Enabled(w, e)
    requires !Wipes(w, e) && id in Next(w, e).s.volunteers && Alone(Next(w, e).s, id, name)
    requires Serves(Next(w, e).s.volunteers[id], name)
    ensures ServedAt(Next(w, e).s.proxy, name, Next(w, e).s.volunteers[id].info.serviceAddr)
  {
    var s, t := w.s, Next(w, e).s;
    var mine := EnrolledId(e.existing, e.newId);
    KnownInMemory(w, e.info.hostname, e.existing);
    var h := Handed(s, e.existing);
    assert mine == id ==> h.Some? && h.value.0 == name;
    assert t.volunteers[mine].info == e.info && (mine != id ==> t.volunteers[id] == s.volunteers[id]);
    if h.Some? {
      if h.value.0 == name {
        RunningAssigns(s.proxy, name, h.value.1, e.verdict);
        assert Serves(t.volunteers[mine], name);
      }
      AssignedServes(s.proxy, h.value.0, h.value.1, e.info.serviceAddr, e.verdict, name);
    }
    hide Inv, Enabled, Next, Consistent, Synced, Assigned, AssignOk, ServiceOf, Handed;
    EnrolledProxy(s, e.existing, e.info, e.newId, e.now, e.verdict, name);
    if mine != id {
      OtherServicesStay(w, e, name);
    }
  }

  /** Registering the service again while a volunteer is free gives it to that volunteer as well. */
  lemma RegisterGives(w: World, e: Event, id: nat, name: string)
    requires Consistent(w.s.proxy) && Follows(w.s, id, name) && e.Register? && Enabled(w, e)
    requires e.choice.Some? && e.request.name == name
    ensures !Alone(Next(w, e).s, id, name)
  {
    RunningAssigns(w.s.proxy, name, e.request.domain, e.verdict);
    assert Serves(Next(w, e).s.volunteers[e.choice.value], name);
  }

  lemma FollowsRegister(w: World, e: Event, id: nat, name: string)
    requires Consistent(w.s.proxy) && Follows(w.s, id, name) && e.Register? && Enabled(w, e)
    requires !Wipes(w, e) && Alone(Next(w, e).s, id, name)
    ensures ServedAt(Next(w, e).s.proxy, name, w.s.volunteers[id].info.serviceAddr)
  {
    if e.choice.Some? {
      if e.request.name == name {
        RegisterGives(w, e, id, name);
      }
      hide Enabled, Next, Consistent, Synced, Alone;
      OtherServicesStay(w, e, name);
    }
  }

  /** A step that neither parts the volunteer nor gives its service to another, and reloads nothing. */
  ghost predicate Quiet(w: World, e: Event, id: nat, name: string) {
    !Wipes(w, e) && !Parts(e, id) && Alone(Step(w, e).s, id, name)
  }

  lemma FollowsStep(w: World, e: Event, id: nat, name: string)
    requires Inv(w) && Consistent(w.s.proxy) && Follows(w.s, id, name) && Quiet(w, e, id, name)
    ensures Follows(Step(w, e).s, id, name)
  {
    if Enabled(w, e) {
      var s, t := w.s, Step(w, e).s;
      StepKeeps(w, e, id, s.volunteers[id].info.hostname, s.volunteers[id].service);
      StepSyncs(w, e, id);
      if e.Enroll? {
        FollowsEnroll(w, e, id, name);
      } else if e.Register? {
        FollowsRegister(w, e, id, name);
      } else if e.SetPort? && e.id == id {
        AddressChangeExactly(w, id, e.addr, name);
      } else {
        SameAddress(w, e, id);
        assert About(s, e) != Some(name);
        hide Inv, Enabled, Next, Consistent, Synced, Alone;
        OtherServicesStay(w, e, name);
      }
    }
  }

  lemma SameAddress(w: World, e: Event, id: nat)
    requires Enabled(w, e) && id in w.s.volunteers && id in Next(w, e).s.volunteers
    requires !e.Enroll? && !e.Restart? && !(e.SetPort? && e.id == id)
    ensures Next(w, e).s.volunteers[id].info == w.s.volunteers[id].info
  {
    if e.Sweep? {
      SweepLeaves(w.s, e.dead, e.now);
    }
  }

  ghost predicate QuietRun(w: World, events: seq<Event>, id: nat, name: string)
    decreases |events|
  {
    events == [] || (Quiet(w, events[0], id, name) && QuietRun(Step(w, events[0]), events[1..], id, name))
  }

  /** Traffic follows the volunteer: once its service is served at its address, every run without reload or
      restart that does not part it, or give the service to another, keeps the service served, ready, at the
      current address of the volunteer, through every change of its tunnel and every new enrollment. */
  lemma {:induction false} ServiceFollows(w: World, events: seq<Event>, id: nat, name: string)
    requires Inv(w) && Consistent(w.s.proxy) && Follows(w.s, id, name) && QuietRun(w, events, id, name)
    ensures Follows(Run(w, events).s, id, name)
    decreases |events|
  {
    if events != [] {
      hide Inv, Consistent, Follows, Quiet, Step;
      StepInv(w, events[0]);
      StepConsistent(w, events[0]);
      FollowsStep(w, events[0], id, name);
      ServiceFollows(Step(w, events[0]), events[1..], id, name);
    }
  }
}
