/** Short runs in which the registrar does not do what its documentation promises, and the same runs in the
    order in which it does. */
module RegistrarExamples {
  import opened Config
  import opened ConfigRuns
  import opened Options
  import opened Proxy
  import opened Store
  import opened Registrar
  import opened RegistrarRuns
  import opened RegistrarProxy
  import opened RegistrarHealing
  import opened RegistrarRecovery
  import opened RegistrarTraffic

  function First(info: Info, id: nat): Event {
    Enroll(info, None, id, 0, Accepted)
  }

  function Second(p: Pending, id: nat): Event {
    Register(p, Some(id), 0, Accepted)
  }

  function Holder(info: Info, p: Pending, id: nat): Volunteer {
    Volunteer(id, info, NO_LOAD, 0, 0, Some(ToAssignment(p, 0)), None, None)
  }

  function Configs(p: Pending): seq<Service> {
    [Service(SvcBackend(p.name), p.domain)]
  }

  /** One volunteer, and a service that its registration has brought into the config: the reload has wiped
      the volunteer's own server. */
  function Registered(info: Info, p: Pending, id: nat): State {
    var v := Holder(info, p, id);
    State(map[id := v], [], Tables(map[id := ToRow(v)], map[id := ToAssignment(p, 0)]),
          View(Configs(p), {SvcBackend(p.name)}, map[PrimaryOf(p.name) := Server(info.serviceAddr, 100, true)]))
  }

  lemma AfterFirst(info: Info, id: nat)
    ensures Enabled(Empty([]), First(info, id))
    ensures Step(Empty([]), First(info, id)).s
         == State(map[id := NewVolunteer(id, info, 0, None)], [],
                  Tables(map[id := ToRow(NewVolunteer(id, info, 0, None))], map[]),
                  View([], {}, map[OwnKey(id) := Server(info.serviceAddr, 100, true)]))
  {
    assert Names([]) == {};
  }

  lemma NewService(p: View, name: string, domain: string, addr: string)
    requires p.file == []
    ensures Assigned(p, name, domain, addr, Accepted)
         == View([Service(SvcBackend(name), domain)], {SvcBackend(name)}, map[PrimaryOf(name) := Server(addr, 100, true)])
    ensures AssignOk(p, name, domain, Accepted)
  {
    NamesAppend([], Service(SvcBackend(name), domain));
    assert Names([]) == {} && [] + [Service(SvcBackend(name), domain)] == [Service(SvcBackend(name), domain)];
  }

  lemma AfterSecond(info: Info, p: Pending, id: nat)
    ensures var w := Step(Empty([]), First(info, id));
            && Inv(w) && Enabled(w, Second(p, id))
            && Inv(Step(w, Second(p, id))) && Step(w, Second(p, id)).s == Registered(info, p, id)
  {
    AfterFirst(info, id);
    var w := Step(Empty([]), First(info, id));
    EmptyInv([]);
    StepInv(Empty([]), First(info, id));
    NewService(w.s.proxy, p.name, p.domain, info.serviceAddr);
    StepInv(w, Second(p, id));
    assert IsAlive(w.s.volunteers[id], 0);
    hide Inv, Assigned, AssignOk, Weight, IsAlive;
    assert Enabled(w, Second(p, id));
  }

  /** A run that begins with the two events, followed by one or two more. */
  lemma RunOn(w: World, a: Event, b: Event, c: Event, d: Event)
    ensures Run(w, [a, b, c]) == Step(Step(Step(w, a), b), c)
    ensures Run(w, [a, b, c, d]) == Step(Step(Step(Step(w, a), b), c), d)
  {
    hide Step;
    assert [a, b, c, d][1..] == [b, c, d] && [b, c, d][1..] == [c, d] && [c, d][1..] == [d] && [d][1..] == [];
    assert [a, b, c][1..] == [b, c] && [b, c][1..] == [c] && [c][1..] == [];
    assert Run(Step(Step(Step(w, a), b), c), [d]) == Step(Step(Step(Step(w, a), b), c), d);
    assert Run(Step(Step(w, a), b), [c, d]) == Run(Step(Step(Step(w, a), b), c), [d]);
    assert Run(Step(w, a), [b, c, d]) == Run(Step(Step(w, a), b), [c, d]);
    assert Run(Step(Step(w, a), b), [c]) == Step(Step(Step(w, a), b), c);
    assert Run(Step(w, a), [b, c]) == Run(Step(Step(w, a), b), [c]);
  }

  /** The address change stops at the missing server of the volunteer. */
  lemma AfterMove(w: World, info: Info, p: Pending, id: nat, addr: string)
    requires w.s == Registered(info, p, id)
    ensures var t := Step(w, SetPort(id, addr)).s;
            && t.proxy == w.s.proxy && t.volunteers == map[id := Holder(info.(serviceAddr := addr), p, id)]
  {
    hide Weight;
    assert OwnKey(id) !in w.s.proxy.servers;
  }

  /** The heartbeat brings back the volunteer's server and leaves the others alone. */
  lemma AfterBeat(w: World, p: Pending, id: nat, beat: Beat)
    requires Inv(w) && id in w.s.volunteers && Serves(w.s.volunteers[id], p.name)
    ensures var t := Step(w, Heartbeat(id, beat, 0)).s;
            && t.volunteers.Keys == w.s.volunteers.Keys && Synced(t, id) && Serves(t.volunteers[id], p.name)
            && t.volunteers[id].info == w.s.volunteers[id].info && ServedSame(w.s.proxy, t.proxy, p.name)
  {
    HeartbeatStepSyncs(w, Heartbeat(id, beat, 0), id);
    OtherServicesStay(w, Heartbeat(id, beat, 0), p.name);
    hide Inv, Weight, Synced, ServedSame;
  }

  lemma RegisteredServes(info: Info, p: Pending, id: nat, addr: string)
    ensures ServedAt(Registered(info, p, id).proxy, p.name, addr) <==> addr == info.serviceAddr
    ensures Consistent(Registered(info, p, id).proxy)
  {
    SvcBackendFacts(p.name, "");
    NamesAppend([], Service(SvcBackend(p.name), p.domain));
    assert [] + Configs(p) == Configs(p);
  }

  /** An address change that comes before the next heartbeat never reaches the service: the volunteer is in
      sync again afterwards, and its service is still served at the old address. */
  lemma AddressLeftBehind(info: Info, p: Pending, id: nat, addr: string, beat: Beat)
    requires addr != info.serviceAddr
    ensures var s := Run(Empty([]), [First(info, id), Second(p, id), SetPort(id, addr), Heartbeat(id, beat, 0)]).s;
            && id in s.volunteers && Serves(s.volunteers[id], p.name) && s.volunteers[id].info.serviceAddr == addr
            && Synced(s, id)
            && ServedAt(s.proxy, p.name, info.serviceAddr) && !ServedAt(s.proxy, p.name, addr)
  {
    var a, b := SetPort(id, addr), Heartbeat(id, beat, 0);
    RunOn(Empty([]), First(info, id), Second(p, id), a, b);
    AfterSecond(info, p, id);
    var w := Step(Step(Empty([]), First(info, id)), Second(p, id));
    hide Inv, Step, Synced, Registered;
    AfterMove(w, info, p, id, addr);
    StepInv(w, a);
    AfterBeat(Step(w, a), p, id, beat);
    RegisteredServes(info, p, id, addr);
    RegisteredServes(info, p, id, info.serviceAddr);
  }

  lemma OnlyOne(s: State, id: nat, name: string)
    requires s.volunteers.Keys == {id} && Synced(s, id) && Serves(s.volunteers[id], name)
    requires ServedAt(s.proxy, name, s.volunteers[id].info.serviceAddr)
    ensures Follows(s, id, name)
  {
    hide Synced, ServedAt, Serves;
  }

  /** With the heartbeat first, every later address change reaches the service. */
  lemma HeartbeatFirst(info: Info, p: Pending, id: nat, beat: Beat)
    ensures var w := Run(Empty([]), [First(info, id), Second(p, id), Heartbeat(id, beat, 0)]);
            Inv(w) && Consistent(w.s.proxy) && Follows(w.s, id, p.name)
  {
    var b := Heartbeat(id, beat, 0);
    RunOn(Empty([]), First(info, id), Second(p, id), b, b);
    AfterSecond(info, p, id);
    RegisteredServes(info, p, id, info.serviceAddr);
    var w := Step(Step(Empty([]), First(info, id)), Second(p, id));
    assert w.s.volunteers == map[id := Holder(info, p, id)];
    hide Inv, Step, Synced, Registered, Consistent, Run, Alone, Follows, Empty;
    AfterBeat(w, p, id, beat);
    StepInv(w, b);
    StepConsistent(w, b);
    OnlyOne(Step(w, b).s, id, p.name);
  }

  // ---- recovery ----

  lemma OneSurvivor(s: State, v: Volunteer)
    requires s.db.volunteers == map[v.id := ToRow(v)] && v.running.None? && v.image.None?
    requires v.service.Some? && s.db.assignments == map[v.id := v.service.value]
    ensures Pruned(s.db) == s.db && Lists([v], LoadAll(Pruned(s.db)))
    ensures Revived(s.db, 0) == map[v.id := v.(lastHeartbeat := 0)]
  {
    assert Orphans(s.db) == {};
    assert Pruned(s.db) == s.db;
    assert LoadAll(s.db) == map[v.id := v];
    assert [v][0] == v;
  }

  /** The registered volunteer over a proxy that has the service in its file, if at all, but not running. */
  function Stopped(info: Info, p: Pending, id: nat, proxy: View): State {
    Registered(info, p, id).(proxy := proxy)
  }

  function Again(info: Info, p: Pending, id: nat, verdicts: seq<Verdict>): Event {
    Restart([Holder(info, p, id)], 0, verdicts)
  }

  lemma RestartStopped(w: World, info: Info, p: Pending, id: nat, verdicts: seq<Verdict>)
    requires w.s == Stopped(info, p, id, w.s.proxy)
    requires w.s.proxy.running == {} && (w.s.proxy.file == Configs(p) || (w.s.proxy.file == [] && verdicts == [Unreloadable]))
    ensures Enabled(w, Again(info, p, id, verdicts))
    ensures var t := Step(w, Again(info, p, id, verdicts)).s;
            t == Stopped(info, p, id, t.proxy) && t.proxy.running == {} && t.proxy.file == Configs(p)
  {
    var v := Holder(info, p, id);
    OneSurvivor(w.s, v);
    var vs, proxy := [v], w.s.proxy;
    assert vs[1..] == [];
    assert Has(Configs(p), SvcBackend(p.name));
    assert [] + Configs(p) == Configs(p);
    var q := ConfiguredFor(proxy, v, VerdictAt(verdicts, 0));
    assert PassOne(proxy, vs, verdicts) == PassOne(q, [], if verdicts == [] then [] else verdicts[1..]) == q;
    assert PassTwo(q, vs) == PassTwo(RestoredFor(q, v), []) == RestoredFor(q, v);
    assert q.running == {} && q.file == Configs(p);
  }

  lemma AfterRedeploy(w: World)
    ensures Step(w, Redeploy([])).s == w.s.(proxy := View([], {}, map[]))
  {
    assert Names([]) == {};
  }

  /** After a redeployment with a fresh config, a reload signal that is lost during recovery leaves the
      service in the file without a running backend. The next recovery then passes it over, even though
      each config is accepted and each signal would arrive. */
  lemma LostReload(info: Info, p: Pending, id: nat, addr: string)
    ensures var events := [First(info, id), Second(p, id), Redeploy([]), Again(info, p, id, [Unreloadable])];
            var w := Run(Empty([]), events);
            && Enabled(w, Again(info, p, id, []))
            && var s := Next(w, Again(info, p, id, [])).s;
               && id in s.volunteers && Serves(s.volunteers[id], p.name) && Has(s.proxy.file, SvcBackend(p.name))
               && !ServedAt(s.proxy, p.name, addr)
  {
    var a, b := Redeploy([]), Again(info, p, id, [Unreloadable]);
    RunOn(Empty([]), First(info, id), Second(p, id), a, b);
    AfterSecond(info, p, id);
    var w := Step(Step(Empty([]), First(info, id)), Second(p, id));
    AfterRedeploy(w);
    hide Inv, Run, Enabled;
    RestartStopped(Step(w, a), info, p, id, [Unreloadable]);
    RestartStopped(Step(Step(w, a), b), info, p, id, []);
    SvcBackendFacts(p.name, "");
    assert Has(Configs(p), SvcBackend(p.name));
  }
}
