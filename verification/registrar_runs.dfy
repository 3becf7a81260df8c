/** Every run of the registrar's steps, and what holds at each step boundary: the database mirrors the
    memory, identities are stable, and the proxy's volunteer servers belong to known volunteers. */
module RegistrarRuns {
  import opened Config
  import opened Options
  import opened Proxy
  import opened Store
  import opened Registrar

  /** What a service registration asks for, whoever serves it. */
  datatype Spec = Spec(name: string, domain: string, image: string, port: nat)

  /** The state with its history: ids ever given out, ids disconnected, registrations accepted and lost. */
  datatype World = World(s: State, ids: set<nat>, gone: set<nat>, accepted: multiset<Spec>, lost: multiset<Spec>)

  datatype Event =
    | Enroll(info: Info, existing: Option<nat>, newId: nat, now: int, verdict: Verdict)
    | Heartbeat(id: nat, beat: Beat, now: int)
    | Disconnect(id: nat)
    | SetPort(id: nat, addr: string)
    | Register(request: Pending, choice: Option<nat>, now: int, verdict: Verdict)
    | Sweep(dead: seq<Volunteer>, now: int)
    | Restart(survivors: seq<Volunteer>, now: int, verdicts: seq<Verdict>)
    | ProxyRestart
    | Redeploy(file: seq<Service>)

  function Asked(p: Pending): Spec {
    Spec(p.name, p.domain, p.image, p.port)
  }

  function Served(a: Assignment): Spec {
    Spec(a.serviceName, a.domain, a.image, a.port)
  }

  function Waiting(ps: seq<Pending>): multiset<Spec> {
    if ps == [] then multiset{} else multiset{Asked(ps[0])} + Waiting(ps[1..])
  }

  function HeldBy(v: Volunteer): multiset<Spec> {
    if v.service.Some? then multiset{Served(v.service.value)} else multiset{}
  }

  /** The choices an event makes are ones the code can make in this state. */
  ghost predicate Enabled(w: World, e: Event) {
    match e
    case Enroll(info, existing, newId, _, _) => KnownAs(w.s, info.hostname, existing) && newId !in w.ids
    case Register(_, choice, now, _) => BestFree(w.s, now, choice)
    case Sweep(dead, now) => Lists(dead, DeadOf(w.s, now))
    case Restart(survivors, _, _) => Lists(survivors, LoadAll(Pruned(w.s.db)))
    case _ => true
  }

  /** HAProxy as a deployment starts it, with the config file that it brings along. The database lives
      outside the deployment and stays. */
  function Shipped(file: seq<Service>): View {
    Reloaded(View(file, {}, map[]))
  }

  function Empty(file: seq<Service>): World {
    World(State(map[], [], Tables(map[], map[]), Shipped(file)), {}, {}, multiset{}, multiset{})
  }

  ghost function Next(w: World, e: Event): World
    requires Enabled(w, e)
  {
    match e
    case Enroll(info, existing, newId, now, verdict) =>
      w.(s := Enrolled(w.s, existing, info, newId, now, verdict), ids := w.ids + {EnrolledId(existing, newId)})
    case Heartbeat(id, beat, now) => w.(s := HeartbeatStep(w.s, id, beat, now))
    case Disconnect(id) =>
      w.(s := DisconnectStep(w.s, id),
         gone := if id in w.s.volunteers then w.gone + {id} else w.gone,
         lost := if id in w.s.volunteers then w.lost + HeldBy(w.s.volunteers[id]) else w.lost)
    case SetPort(id, addr) => w.(s := SetPortStep(w.s, id, addr))
    case Register(p, choice, now, verdict) =>
      w.(s := RegisterStep(w.s, choice, p, now, verdict),
         accepted := if RegisterOk(w.s, choice, p, verdict) then w.accepted + multiset{Asked(p)} else w.accepted)
    case Sweep(dead, now) => w.(s := SweepStep(w.s, dead, now))
    case Restart(survivors, now, verdicts) =>
      w.(s := RestartStep(w.s, survivors, now, verdicts), lost := w.lost + Waiting(w.s.pending))
    case ProxyRestart => w.(s := w.s.(proxy := Reloaded(w.s.proxy)))
    case Redeploy(file) => w.(s := w.s.(proxy := Shipped(file)))
  }

  ghost function Step(w: World, e: Event): World {
    if Enabled(w, e) then Next(w, e) else w
  }

  ghost function Run(w: World, events: seq<Event>): World
    decreases |events|
  {
    if events == [] then w else Run(Step(w, events[0]), events[1..])
  }

  // ---- the invariant ----

  predicate SameRow(r: Row, v: Volunteer) {
    r.info == v.info && r.metrics == v.metrics && r.enrolledAt == v.enrolledAt
  }

  /** The tables hold exactly the volunteers in memory, with their services. */
  predicate Mirrors(s: State) {
    && s.db.volunteers.Keys == s.volunteers.Keys
    && forall id :: id in s.volunteers ==>
         && s.volunteers[id].id == id && SameRow(s.db.volunteers[id], s.volunteers[id])
         && s.volunteers[id].service == GetAssignment(s.db, id)
  }

  predicate OneIdPerHost(vs: map<nat, Volunteer>) {
    forall i, j :: i in vs && j in vs && i != j ==>
      vs[i].info.hostname == "" || vs[i].info.hostname != vs[j].info.hostname
  }

  /** Every volunteer server of the proxy is that of a volunteer in memory, ready at its address. */
  ghost predicate ServersKnown(vs: map<nat, Volunteer>, p: View) {
    forall id: nat :: OwnKey(id) in p.servers ==>
      id in vs && p.servers[OwnKey(id)].addr == vs[id].info.serviceAddr && p.servers[OwnKey(id)].ready
  }

  predicate IdsKnown(w: World) {
    && w.s.volunteers.Keys <= w.ids && w.s.db.assignments.Keys <= w.ids && w.gone <= w.ids
    && w.gone !! w.s.volunteers.Keys
    && Orphans(w.s.db) <= w.gone
  }

  ghost predicate Inv(w: World) {
    Mirrors(w.s) && OneIdPerHost(w.s.volunteers) && ServersKnown(w.s.volunteers, w.s.proxy) && IdsKnown(w)
  }

  // ---- the proxy's part ----

  /** Changes that add no volunteer server. */
  ghost predicate OwnOnlyLess(p: View, q: View) {
    forall id: nat :: OwnKey(id) in q.servers ==> OwnKey(id) in p.servers && q.servers[OwnKey(id)] == p.servers[OwnKey(id)]
  }

  lemma ConfiguredOwn(p: View, name: string, domain: string, verdict: Verdict)
    ensures OwnOnlyLess(p, Configured(p, name, domain, verdict))
  {
  }

  lemma AssignedOwn(p: View, name: string, domain: string, addr: string, verdict: Verdict)
    ensures OwnOnlyLess(p, Assigned(p, name, domain, addr, verdict))
  {
    ConfiguredOwn(p, name, domain, verdict);
  }

  lemma LessKnown(vs: map<nat, Volunteer>, p: View, q: View)
    requires ServersKnown(vs, p) && OwnOnlyLess(p, q)
    ensures ServersKnown(vs, q)
  {
  }

  lemma UpsertedKnown(vs: map<nat, Volunteer>, p: View, v: Volunteer, weight: int)
    requires ServersKnown(vs, p)
    ensures ServersKnown(vs[v.id := v], Upserted(p, OwnKey(v.id), v.info.serviceAddr, weight))
  {
  }

  // ---- enroll ----

  /** The volunteer an enrollment records, and the rest of the state it records it in. */
  lemma EnrolledRecords(s: State, existing: Option<nat>, info: Info, newId: nat, now: int, verdict: Verdict)
    returns (t: State, v: Volunteer)
    requires Mirrors(s) && ServersKnown(s.volunteers, s.proxy)
    requires existing.None? ==> newId !in s.volunteers && newId !in s.db.assignments
    requires existing.Some? ==> existing.value in s.volunteers
    ensures Enrolled(s, existing, info, newId, now, verdict) == Recorded(t, v)
    ensures v.id == EnrolledId(existing, newId) && v.info == info && v.service == GetAssignment(t.db, v.id)
    ensures existing.Some? && s.volunteers[v.id].service.Some? ==> v.service == s.volunteers[v.id].service
    ensures t.volunteers == s.volunteers && ServersKnown(t.volunteers, t.proxy)
    ensures t.db.volunteers == s.db.volunteers
    ensures forall id :: id != v.id ==> GetAssignment(t.db, id) == GetAssignment(s.db, id)
    ensures forall id :: id in t.db.assignments ==> id in s.db.assignments || id == v.id
    ensures forall id :: id in s.db.assignments ==> id in t.db.assignments
  {
    var id := EnrolledId(existing, newId);
    var service := if existing.Some? then ServiceOf(s, id) else None;
    if service.Some? {
      var a := service.value;
      t := s.(proxy := Assigned(s.proxy, a.serviceName, a.domain, info.serviceAddr, verdict), db := PutAssignment(s.db, id, a));
      v := NewVolunteer(id, info, now, service);
      AssignedOwn(s.proxy, a.serviceName, a.domain, info.serviceAddr, verdict);
      LessKnown(s.volunteers, s.proxy, t.proxy);
    } else if s.pending == [] {
      t, v := s, NewVolunteer(id, info, now, None);
    } else {
      var first := s.pending[0];
      AssignedOwn(s.proxy, first.name, first.domain, info.serviceAddr, verdict);
      t := s.(proxy := Assigned(s.proxy, first.name, first.domain, info.serviceAddr, verdict));
      LessKnown(s.volunteers, s.proxy, t.proxy);
      if AssignOk(s.proxy, first.name, first.domain, verdict) {
        var a := ToAssignment(first, now);
        t := t.(pending := s.pending[1..], db := PutAssignment(s.db, id, a));
        v := NewVolunteer(id, info, now, Some(a));
      } else {
        v := NewVolunteer(id, info, now, None);
      }
    }
  }

  lemma KnownInMemory(w: World, hostname: string, existing: Option<nat>)
    requires Inv(w) && KnownAs(w.s, hostname, existing)
    ensures existing.Some? ==> existing.value in w.s.volunteers && w.s.volunteers[existing.value].info.hostname == hostname
    ensures forall id :: id in w.s.volunteers && hostname != "" && w.s.volunteers[id].info.hostname == hostname
              ==> existing == Some(id)
  {
  }

  lemma EnrollInv(w: World, e: Event)
    requires Inv(w) && Enabled(w, e) && e.Enroll?
    ensures Inv(Next(w, e))
  {
    KnownInMemory(w, e.info.hostname, e.existing);
    var t, v := EnrolledRecords(w.s, e.existing, e.info, e.newId, e.now, e.verdict);
    MirrorsExcept(w.s, t, v);
    UpsertedKnown(t.volunteers, t.proxy, v, 100);
    assert Next(w, e).s == Recorded(t, v);
  }

  lemma MirrorsExcept(s: State, t: State, v: Volunteer)
    requires Mirrors(s) && t.volunteers == s.volunteers && t.db.volunteers == s.db.volunteers
    requires forall id :: id != v.id ==> GetAssignment(t.db, id) == GetAssignment(s.db, id)
    requires v.service == GetAssignment(t.db, v.id)
    ensures Mirrors(Recorded(t, v))
  {
    var r := Recorded(t, v);
    forall id | id in r.volunteers
      ensures r.volunteers[id].id == id && SameRow(r.db.volunteers[id], r.volunteers[id])
              && r.volunteers[id].service == GetAssignment(r.db, id)
    {
      if id != v.id {
        assert GetAssignment(t.db, id) == GetAssignment(s.db, id);
      }
    }
  }

  // ---- the other handlers ----

  lemma PutMirrors(s: State, t: State, v: Volunteer)
    requires Mirrors(s) && v.id in s.volunteers && t.volunteers == s.volunteers[v.id := v]
    requires v.id in t.db.volunteers
    requires t.db.volunteers == s.db.volunteers[v.id := t.db.volunteers[v.id]] && SameRow(t.db.volunteers[v.id], v)
    requires v.service == GetAssignment(t.db, v.id)
    requires forall id :: id in s.volunteers && id != v.id ==> GetAssignment(t.db, id) == GetAssignment(s.db, id)
    ensures Mirrors(t)
  {
    hide GetAssignment;
  }

  lemma PutHosts(vs: map<nat, Volunteer>, v: Volunteer)
    requires OneIdPerHost(vs) && v.id in vs && v.info.hostname == vs[v.id].info.hostname
    ensures OneIdPerHost(vs[v.id := v])
  {
  }

  lemma PutIds(w: World, t: State)
    requires IdsKnown(w) && t.volunteers.Keys == w.s.volunteers.Keys == w.s.db.volunteers.Keys == t.db.volunteers.Keys
    requires t.db.assignments.Keys <= w.s.db.assignments.Keys + w.s.volunteers.Keys
    ensures IdsKnown(w.(s := t))
  {
  }

  /** Updating one volunteer in memory and table, under its hostname and service, keeps the invariant
      when the proxy's servers still fit. */
  lemma UpdatedInv(w: World, t: State, v: Volunteer)
    requires Inv(w) && v.id in w.s.volunteers
    requires v.info.hostname == w.s.volunteers[v.id].info.hostname && v.service == w.s.volunteers[v.id].service
    requires t.volunteers == w.s.volunteers[v.id := v] && t.db == PutVolunteer(w.s.db, v)
    requires ServersKnown(t.volunteers, t.proxy)
    ensures Inv(w.(s := t))
  {
    assert v.service == GetAssignment(w.s.db, v.id);
    hide ServersKnown, OneIdPerHost, IdsKnown;
    PutMirrors(w.s, t, v);
    PutHosts(w.s.volunteers, v);
    PutIds(w, t);
  }

  lemma HeartbeatInv(w: World, e: Event)
    requires Inv(w) && e.Heartbeat?
    ensures Inv(Next(w, e))
  {
    if e.id in w.s.volunteers {
      var t, v := Next(w, e).s, Beaten(w.s.volunteers[e.id], e.beat, e.now);
      assert ServersKnown(t.volunteers, t.proxy) by { hide Weight, Mirrors, OneIdPerHost, IdsKnown, PutVolunteer; }
      hide Inv, ServersKnown, Weight, Reweighted, AddedOnce;
      assert v.id == e.id by { Filed(w, e.id); }
      UpdatedInv(w, t, v);
    }
  }

  lemma Filed(w: World, id: nat)
    requires Inv(w) && id in w.s.volunteers
    ensures w.s.volunteers[id].id == id
  {
  }

  lemma DisconnectedServers(s: State, id: nat)
    requires ServersKnown(s.volunteers, s.proxy)
    ensures ServersKnown(s.volunteers - {id}, Dropped(s.proxy, OwnKey(id)))
  {
  }

  lemma DisconnectInv(w: World, e: Event)
    requires Inv(w) && e.Disconnect?
    ensures Inv(Next(w, e))
  {
    if e.id in w.s.volunteers {
      DisconnectedServers(w.s, e.id);
      hide ServersKnown, Dropped;
    }
  }

  lemma MovedOwn(p: View, id: nat, addr: string, service: Option<string>)
    ensures var q := Moved(p, id, addr, service);
            forall other: nat :: OwnKey(other) in q.servers ==>
              && OwnKey(other) in p.servers
              && q.servers[OwnKey(other)] == if other == id then p.servers[OwnKey(id)].(addr := addr, ready := true)
                                             else p.servers[OwnKey(other)]
  {
    if service.Some? {
      SvcBackendFacts(service.value, "");
    }
  }

  lemma SetPortInv(w: World, e: Event)
    requires Inv(w) && e.SetPort?
    ensures Inv(Next(w, e))
  {
    if e.id in w.s.volunteers {
      var t := Next(w, e).s;
      MovedOwn(w.s.proxy, e.id, e.addr, ServiceName(w.s.volunteers[e.id]));
      assert ServersKnown(t.volunteers, t.proxy) by { hide Moved, Mirrors, OneIdPerHost, IdsKnown, PutVolunteer; }
      hide Inv, ServersKnown, Moved;
      assert w.s.volunteers[e.id].id == e.id by { Filed(w, e.id); }
      UpdatedInv(w, t, t.volunteers[e.id]);
    }
  }

  lemma RegisteredInv(w: World, t: State, v: Volunteer)
    requires Inv(w) && v.id in w.s.volunteers && v.service.Some?
    requires v == w.s.volunteers[v.id].(service := v.service)
    requires t.volunteers == w.s.volunteers[v.id := v] && t.db == PutAssignment(w.s.db, v.id, v.service.value)
    requires ServersKnown(t.volunteers, t.proxy)
    ensures Inv(w.(s := t))
  {
    hide ServersKnown, OneIdPerHost, IdsKnown;
    PutMirrors(w.s, t, v);
    PutHosts(w.s.volunteers, v);
    PutIds(w, t);
  }

  lemma RegisterInv(w: World, e: Event)
    requires Inv(w) && Enabled(w, e) && e.Register?
    ensures Inv(Next(w, e))
  {
    if e.choice.Some? {
      var p, t := e.request, Next(w, e);
      var v := w.s.volunteers[e.choice.value];
      AssignedOwn(w.s.proxy, p.name, p.domain, v.info.serviceAddr, e.verdict);
      LessKnown(w.s.volunteers, w.s.proxy, t.s.proxy);
      assert ServersKnown(t.s.volunteers, t.s.proxy);
      if AssignOk(w.s.proxy, p.name, p.domain, e.verdict) {
        RegisteredInv(w, t.s, v.(service := Some(ToAssignment(p, e.now))));
      }
    }
  }

  // ---- churn ----

  /** The volunteers still to be evicted are in memory as they were listed. */
  predicate Listed(dead: seq<Volunteer>, vs: map<nat, Volunteer>) {
    && (forall i :: 0 <= i < |dead| ==> dead[i].id in vs && vs[dead[i].id] == dead[i])
    && forall i, j :: 0 <= i < j < |dead| ==> dead[i].id != dead[j].id
  }

  lemma EvictedInv(w: World, v: Volunteer, now: int)
    requires Inv(w) && v.id in w.s.volunteers && w.s.volunteers[v.id] == v
    ensures Inv(w.(s := Evicted(w.s, v, now)))
  {
  }

  lemma {:induction false} SweepInv(w: World, dead: seq<Volunteer>, now: int)
    requires Inv(w) && Listed(dead, w.s.volunteers)
    ensures Inv(w.(s := SweepStep(w.s, dead, now)))
    decreases |dead|
  {
    if dead != [] {
      EvictedInv(w, dead[0], now);
      hide Inv;
      var t := w.(s := Evicted(w.s, dead[0], now));
      assert Listed(dead[1..], t.s.volunteers);
      SweepInv(t, dead[1..], now);
      assert w.(s := SweepStep(w.s, dead, now)) == t.(s := SweepStep(t.s, dead[1..], now));
    }
  }

  lemma {:induction false} SweepLeaves(s: State, dead: seq<Volunteer>, now: int)
    ensures SweepStep(s, dead, now).volunteers.Keys == s.volunteers.Keys - set i | 0 <= i < |dead| :: dead[i].id
    ensures forall id :: id in SweepStep(s, dead, now).volunteers ==>
      SweepStep(s, dead, now).volunteers[id] == s.volunteers[id]
    decreases |dead|
  {
    if dead != [] {
      SweepLeaves(Evicted(s, dead[0], now), dead[1..], now);
      var ids, rest := set i | 0 <= i < |dead| :: dead[i].id, set i | 0 <= i < |dead[1..]| :: dead[1..][i].id;
      assert dead == [dead[0]] + dead[1..];
      assert ids == rest + {dead[0].id};
    }
  }

  // ---- restart ----

  lemma {:induction false} PassOneOwn(p: View, vs: seq<Volunteer>, verdicts: seq<Verdict>)
    ensures OwnOnlyLess(p, PassOne(p, vs, verdicts))
    decreases |vs|
  {
    if vs != [] {
      if vs[0].service.Some? {
        ConfiguredOwn(p, vs[0].service.value.serviceName, vs[0].service.value.domain, VerdictAt(verdicts, 0));
      }
      PassOneOwn(ConfiguredFor(p, vs[0], VerdictAt(verdicts, 0)), vs[1..], if verdicts == [] then [] else verdicts[1..]);
    }
  }

  lemma {:induction false} PassTwoKnown(m: map<nat, Volunteer>, p: View, vs: seq<Volunteer>)
    requires ServersKnown(m, p)
    requires forall i :: 0 <= i < |vs| ==> vs[i].id in m && m[vs[i].id].info == vs[i].info
    ensures ServersKnown(m, PassTwo(p, vs))
    decreases |vs|
  {
    if vs != [] {
      if vs[0].service.Some? {
        SvcBackendFacts(vs[0].service.value.serviceName, "");
      }
      assert ServersKnown(m, RestoredFor(p, vs[0]));
      PassTwoKnown(m, RestoredFor(p, vs[0]), vs[1..]);
    }
  }

  lemma RevivedAt(s: State, id: nat, now: int)
    requires Mirrors(s) && id in s.volunteers
    ensures var r := Revived(Pruned(s.db), now);
            id in r && r[id] == s.volunteers[id].(lastHeartbeat := now, running := None, image := None)
  {
    var db := Pruned(s.db);
    assert SameRow(db.volunteers[id], s.volunteers[id]) && GetAssignment(db, id) == GetAssignment(s.db, id);
    assert LoadAll(db)[id] == FromRow(id, db.volunteers[id], GetAssignment(db, id));
  }

  /** A restart finds every volunteer again, with the same id, data, metrics and service; it loses the
      queue, the running and image flags and the heartbeat time, and removes exactly the orphan rows. */
  lemma RestartRestores(w: World, e: Event)
    requires Inv(w) && Enabled(w, e) && e.Restart?
    ensures var t := Next(w, e).s;
            && t.volunteers == (map id | id in w.s.volunteers ::
                 w.s.volunteers[id].(lastHeartbeat := e.now, running := None, image := None))
            && t.pending == []
            && t.db.volunteers == w.s.db.volunteers && Orphans(t.db) == {}
            && t.db.assignments == w.s.db.assignments - Orphans(w.s.db)
            && Orphans(w.s.db) <= w.gone
  {
    var s, t := w.s, Next(w, e).s;
    assert t.volunteers == Revived(Pruned(s.db), e.now) && t.volunteers.Keys == s.db.volunteers.Keys;
    hide Revived, Mirrors, Pruned;
    forall id | id in s.volunteers
      ensures id in t.volunteers
      ensures t.volunteers[id] == s.volunteers[id].(lastHeartbeat := e.now, running := None, image := None)
    {
      RevivedAt(s, id, e.now);
    }
    RestartTables(w, e);
  }

  lemma RestartTables(w: World, e: Event)
    requires Inv(w) && Enabled(w, e) && e.Restart?
    ensures var t := Next(w, e).s;
            && t.volunteers.Keys == w.s.volunteers.Keys && t.pending == []
            && t.db.volunteers == w.s.db.volunteers && Orphans(t.db) == {}
            && t.db.assignments == w.s.db.assignments - Orphans(w.s.db)
            && Orphans(w.s.db) <= w.gone
  {
    hide PassOne, PassTwo;
  }

  lemma RestartInv(w: World, e: Event)
    requires Inv(w) && Enabled(w, e) && e.Restart?
    ensures Inv(Next(w, e))
  {
    var t := Next(w, e).s;
    RestartRestores(w, e);
    PassOneOwn(w.s.proxy, e.survivors, e.verdicts);
    var between := PassOne(w.s.proxy, e.survivors, e.verdicts);
    assert ServersKnown(t.volunteers, between);
    forall i | 0 <= i < |e.survivors|
      ensures e.survivors[i].id in t.volunteers && t.volunteers[e.survivors[i].id].info == e.survivors[i].info
    {
      assert e.survivors[i].id in LoadAll(Pruned(w.s.db));
    }
    PassTwoKnown(t.volunteers, between, e.survivors);
  }

  // ---- every run ----

  lemma SweepEventInv(w: World, e: Event)
    requires Inv(w) && Enabled(w, e) && e.Sweep?
    ensures Inv(Next(w, e))
  {
    SweepInv(w, e.dead, e.now);
  }

  lemma ProxyRestartInv(w: World, e: Event)
    requires Inv(w) && (e.ProxyRestart? || e.Redeploy?)
    ensures Inv(Next(w, e))
  {
  }

  lemma StepInv(w: World, e: Event)
    requires Inv(w)
    ensures Inv(Step(w, e))
  {
    if Enabled(w, e) {
      hide Inv, Enabled, Next;
      match e
      case Enroll(_, _, _, _, _) => EnrollInv(w, e);
      case Heartbeat(_, _, _) => HeartbeatInv(w, e);
      case Disconnect(_) => DisconnectInv(w, e);
      case SetPort(_, _) => SetPortInv(w, e);
      case Register(_, _, _, _) => RegisterInv(w, e);
      case Sweep(_, _) => SweepEventInv(w, e);
      case Restart(_, _, _) => RestartInv(w, e);
      case ProxyRestart => ProxyRestartInv(w, e);
      case Redeploy(_) => ProxyRestartInv(w, e);
    }
  }

  /** At every step boundary of every run. */
  lemma {:induction false} RunInv(w: World, events: seq<Event>)
    requires Inv(w)
    ensures Inv(Run(w, events))
    decreases |events|
  {
    if events != [] {
      hide Inv, Step;
      StepInv(w, events[0]);
      RunInv(Step(w, events[0]), events[1..]);
    }
  }

  lemma EmptyInv(file: seq<Service>)
    ensures Inv(Empty(file))
  {
  }

  /** At every step boundary from an empty registrar. */
  lemma EveryRunInv(file: seq<Service>, events: seq<Event>)
    ensures Inv(Run(Empty(file), events))
  {
    EmptyInv(file);
    RunInv(Empty(file), events);
  }
}
