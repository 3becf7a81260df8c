/** The registrar's handlers as they run: fields, tables and proxy changed one after the other. */
module Handlers {
  import opened Config
  import opened Options
  import opened Proxy
  import opened Store
  import R = Registrar
  import opened RegistrarRuns

  /** What a volunteer is told to run. */
  datatype Task = Task(image: string, servicePort: nat)

  class AppState {
    var volunteers: map<nat, Volunteer>
    var pendingServices: seq<Pending>
    const db: Database
    const proxy: Haproxy

    function State(): R.State
      reads this, db, proxy
    {
      R.State(volunteers, pendingServices, db.State(), proxy.State())
    }

    /** Volunteers are filed under their own id. */
    predicate Valid()
      reads this
    {
      forall id :: id in volunteers ==> volunteers[id].id == id
    }

    constructor (db: Database, proxy: Haproxy)
      ensures this.db == db && this.proxy == proxy && Valid()
      ensures volunteers == map[] && pendingServices == []
    {
      this.db, this.proxy := db, proxy;
      volunteers, pendingServices := map[], [];
    }

    method FindNode(hostname: string) returns (existing: Option<nat>)
      requires Valid()
      ensures R.KnownAs(State(), hostname, existing)
    {
      if hostname == "" {
        return None;
      }
      var rest := volunteers;
      while rest != map[]
        invariant rest.Keys <= volunteers.Keys
        invariant forall id :: id in volunteers && id !in rest ==> volunteers[id].info.hostname != hostname
        decreases |rest|
      {
        var id :| id in rest;
        if volunteers[id].info.hostname == hostname {
          return Some(volunteers[id].id);
        }
        Smaller(rest, id);
        rest := rest - {id};
      }
      existing := db.FindByHostname(hostname);
    }

    method Enroll(body: Info, addr: string, newId: nat, now: int, verdict: Verdict)
      returns (id: nat, existing: Option<nat>, payload: Option<Task>)
      requires Valid()
      modifies this, db, proxy
      ensures Valid()
      ensures R.KnownAs(old(State()), body.hostname, existing) && id == R.EnrolledId(existing, newId)
      ensures State() == R.Enrolled(old(State()), existing, body.(serviceAddr := addr), newId, now, verdict)
      ensures id in volunteers && Tells(payload, volunteers[id])
    {
      hide Tells, TaskOf, R.KnownAs, Assigned, AssignOk, Upserted;
      existing := FindNode(body.hostname);
      var existingService := None;
      if existing.Some? {
        if existing.value in volunteers {
          existingService := volunteers[existing.value].service;
        }
        if existingService.None? {
          existingService := GetAssignment(db.State(), existing.value);
        }
      }
      id := if existing.Some? then existing.value else newId;
      var info := body.(serviceAddr := addr);
      var service: Option<Assignment>;
      if existingService.Some? {
        Reattach(id, existingService.value, addr, verdict);
        service := existingService;
      } else {
        service := Dequeue(id, addr, now, verdict);
      }
      var v := Volunteer(id, info, NO_LOAD, now, now, service, None, None);
      Record(v);
      TaskTells(v);
      payload := TaskOf(v);
    }

    method Reattach(id: nat, a: Assignment, addr: string, verdict: Verdict)
      modifies db, proxy
      ensures db.State() == PutAssignment(old(db.State()), id, a)
      ensures proxy.State() == Assigned(old(proxy.State()), a.serviceName, a.domain, addr, verdict)
    {
      var _ := proxy.AssignService(a.serviceName, a.domain, addr, verdict);
      db.UpsertAssignment(id, a);
    }

    /** Takes the first waiting service; puts it back in front when the proxy refuses. */
    method Dequeue(id: nat, addr: string, now: int, verdict: Verdict) returns (service: Option<Assignment>)
      modifies this`pendingServices, db, proxy
      ensures old(pendingServices) == [] ==>
        service.None? && pendingServices == [] && db.State() == old(db.State()) && proxy.State() == old(proxy.State())
      ensures old(pendingServices) != [] ==>
        var first := old(pendingServices)[0];
        && proxy.State() == Assigned(old(proxy.State()), first.name, first.domain, addr, verdict)
        && if AssignOk(old(proxy.State()), first.name, first.domain, verdict)
           then service == Some(R.ToAssignment(first, now)) && pendingServices == old(pendingServices)[1..]
                && db.State() == PutAssignment(old(db.State()), id, service.value)
           else service.None? && pendingServices == old(pendingServices) && db.State() == old(db.State())
    {
      if pendingServices == [] {
        return None;
      }
      var pending := pendingServices[0];
      pendingServices := pendingServices[1..];
      var reply := proxy.AssignService(pending.name, pending.domain, addr, verdict);
      if !reply.Ok? {
        pendingServices := [pending] + pendingServices;
        return None;
      }
      var a := Assignment(pending.name, pending.domain, pending.image, pending.port, now);
      db.UpsertAssignment(id, a);
      service := Some(a);
    }

    method Record(v: Volunteer)
      requires Valid()
      modifies this, db, proxy
      ensures Valid() && State() == R.Recorded(old(State()), v)
    {
      db.UpsertVolunteer(v);
      volunteers := volunteers[v.id := v];
      var _ := proxy.UpsertServer(R.OwnKey(v.id), v.info.serviceAddr, 100);
    }

    method Heartbeat(id: nat, beat: R.Beat, now: int) returns (known: bool, payload: Option<Task>)
      requires Valid()
      modifies this, db, proxy
      ensures Valid()
      ensures known == (id in old(volunteers)) && State() == R.HeartbeatStep(old(State()), id, beat, now)
      ensures if known then id in volunteers && Tells(payload, volunteers[id]) else payload.None?
    {
      if id !in volunteers {
        return false, None;
      }
      var v := volunteers[id];
      v := v.(metrics := beat.metrics, lastHeartbeat := now);
      if beat.running.Some? {
        v := v.(running := beat.running);
      }
      if beat.image.Some? {
        v := v.(image := beat.image);
      }
      volunteers := volunteers[id := v];
      db.UpsertVolunteer(v);
      var reply := proxy.SetWeight(R.OwnKey(id), Weight(beat.metrics));
      if reply.NoSuchServer? {
        var _ := proxy.AddVolunteer(R.OwnKey(id), v.info.serviceAddr, Weight(beat.metrics));
      }
      TaskTells(v);
      return true, TaskOf(v);
    }

    method Disconnect(id: nat) returns (known: bool)
      requires Valid()
      modifies this, db, proxy
      ensures Valid()
      ensures known == (id in old(volunteers)) && State() == R.DisconnectStep(old(State()), id)
    {
      if id !in volunteers {
        return false;
      }
      volunteers := volunteers - {id};
      db.RemoveVolunteer(id);
      var _ := proxy.RemoveVolunteer(R.OwnKey(id));
      return true;
    }

    method UpdateTunnelPort(id: nat, addr: string) returns (known: bool)
      requires Valid()
      modifies this, db, proxy
      ensures Valid()
      ensures known == (id in old(volunteers)) && State() == R.SetPortStep(old(State()), id, addr)
    {
      if id !in volunteers {
        return false;
      }
      var v := volunteers[id];
      v := v.(info := v.info.(serviceAddr := addr));
      volunteers := volunteers[id := v];
      db.UpsertVolunteer(v);
      var _ := proxy.UpdateVolunteerAddr(id, addr, R.ServiceName(v));
      return true;
    }

    method ActiveVolunteers(now: int) returns (active: seq<Volunteer>)
      requires Valid()
      ensures R.Descending(active) && Lists(active, R.AliveOf(State(), now))
    {
      var alive := R.AliveOf(State(), now);
      var found := Values(alive);
      active := R.SortByWeight(found);
      R.SortSorted(found);
      ListsPermuted(found, active, alive);
    }

    method RegisterService(p: Pending, now: int, verdict: Verdict) returns (choice: Option<nat>, ok: bool)
      requires Valid()
      modifies this, db, proxy
      ensures Valid()
      ensures R.BestFree(old(State()), now, choice) && ok == R.RegisterOk(old(State()), choice, p, verdict)
      ensures State() == R.RegisterStep(old(State()), choice, p, now, verdict)
    {
      var active := ActiveVolunteers(now);
      var i := 0;
      while i < |active| && active[i].service.Some?
        invariant i <= |active| && forall j :: 0 <= j < i ==> active[j].service.Some?
      {
        i := i + 1;
      }
      FirstFreeIsBest(State(), now, active, i);
      if i == |active| {
        pendingServices := pendingServices + [p.(registeredAt := now)];
        return None, true;
      }
      var v := active[i];
      choice := Some(v.id);
      var reply := proxy.AssignService(p.name, p.domain, v.info.serviceAddr, verdict);
      if !reply.Ok? {
        return choice, false;
      }
      var a := Assignment(p.name, p.domain, p.image, p.port, now);
      db.UpsertAssignment(v.id, a);
      volunteers := volunteers[v.id := v.(service := Some(a))];
      return choice, true;
    }

    /** Removes one dead volunteer and queues its service again. */
    method Evict(v: Volunteer, now: int)
      requires Valid()
      modifies this, db, proxy
      ensures Valid() && State() == R.Evicted(old(State()), v, now)
    {
      volunteers := volunteers - {v.id};
      db.RemoveVolunteer(v.id);
      var _ := proxy.RemoveVolunteer(R.OwnKey(v.id));
      if v.service.Some? {
        var a := v.service.value;
        db.RemoveAssignment(v.id);
        pendingServices := pendingServices + [Pending(a.serviceName, a.domain, a.image, a.port, now)];
      }
    }

    /** One sweep of the churn monitor. */
    method ChurnSweep(now: int) returns (dead: seq<Volunteer>)
      requires Valid()
      modifies this, db, proxy
      ensures Valid()
      ensures Lists(dead, R.DeadOf(old(State()), now)) && State() == R.SweepStep(old(State()), dead, now)
    {
      hide Lists, IsAlive, R.Evicted;
      dead := Values(R.DeadOf(State(), now));
      for i := 0 to |dead|
        invariant Valid() && R.SweepStep(State(), dead[i..], now) == R.SweepStep(old(State()), dead, now)
      {
        assert dead[i..][0] == dead[i] && dead[i..][1..] == dead[i + 1..];
        Evict(dead[i], now);
      }
      assert dead[|dead|..] == [];
    }

    /** Crash recovery of a new registrar process, with empty memory, on the tables and the proxy left. */
    method Recover(now: int, verdicts: seq<Verdict>) returns (survivors: seq<Volunteer>)
      requires volunteers == map[] && pendingServices == []
      modifies this, db, proxy
      ensures Valid()
      ensures Lists(survivors, LoadAll(Pruned(old(db.State()))))
      ensures State() == R.RestartStep(old(State()), survivors, now, verdicts)
    {
      survivors := ReloadMemory(now);
      RestoreConfigs(survivors, verdicts);
      RestoreServers(survivors);
    }

    /** Prunes the tables and fills the memory from them. */
    method ReloadMemory(now: int) returns (survivors: seq<Volunteer>)
      requires volunteers == map[]
      modifies this`volunteers, db
      ensures db.State() == Pruned(old(db.State())) && Lists(survivors, LoadAll(db.State()))
      ensures volunteers == R.Revived(db.State(), now) && Valid()
    {
      var _ := db.PruneOrphanAssignments();
      survivors := db.LoadSurvivors();
      Revive(survivors, now, LoadAll(db.State()));
    }

    /** Puts the survivors into memory with a fresh grace period. */
    method Revive(survivors: seq<Volunteer>, now: int, ghost all: map<nat, Volunteer>)
      requires volunteers == map[] && Lists(survivors, all)
      modifies this`volunteers
      ensures volunteers == map id | id in all :: all[id].(lastHeartbeat := now)
      ensures Valid()
    {
      for i := 0 to |survivors|
        invariant Valid()
        invariant forall id :: id in volunteers ==> id in all && volunteers[id] == all[id].(lastHeartbeat := now)
        invariant forall j :: 0 <= j < i ==> survivors[j].id in volunteers
      {
        volunteers := volunteers[survivors[i].id := survivors[i].(lastHeartbeat := now)];
      }
    }

    /** Pass 1: service configurations, each with a possible reload. */
    method RestoreConfigs(survivors: seq<Volunteer>, verdicts: seq<Verdict>)
      modifies proxy
      ensures proxy.State() == R.PassOne(old(proxy.State()), survivors, verdicts)
    {
      for i := 0 to |survivors|
        invariant R.PassOne(proxy.State(), survivors[i..], Rest(verdicts, i))
               == R.PassOne(old(proxy.State()), survivors, verdicts)
      {
        var v := survivors[i];
        assert survivors[i..][0] == v && survivors[i..][1..] == survivors[i + 1..];
        RestStep(verdicts, i);
        if v.service.Some? {
          var a := v.service.value;
          var _ := proxy.EnsureServiceConfig(a.serviceName, a.domain, R.VerdictAt(verdicts, i));
        }
      }
      assert survivors[|survivors|..] == [];
    }

    /** Pass 2: runtime servers, with no reload any more. */
    method RestoreServers(survivors: seq<Volunteer>)
      modifies proxy
      ensures proxy.State() == R.PassTwo(old(proxy.State()), survivors)
    {
      for i := 0 to |survivors|
        invariant R.PassTwo(proxy.State(), survivors[i..]) == R.PassTwo(old(proxy.State()), survivors)
      {
        var v := survivors[i];
        assert survivors[i..][0] == v && survivors[i..][1..] == survivors[i + 1..];
        var _ := proxy.UpsertServer(R.OwnKey(v.id), v.info.serviceAddr, 1);
        if v.service.Some? {
          var _ := proxy.UpsertServer(Key(SvcBackend(v.service.value.serviceName), Primary), v.info.serviceAddr, 100);
        }
      }
      assert survivors[|survivors|..] == [];
    }
  }

  function Rest(verdicts: seq<Verdict>, i: nat): seq<Verdict> {
    if i <= |verdicts| then verdicts[i..] else []
  }

  lemma RestStep(verdicts: seq<Verdict>, i: nat)
    ensures R.VerdictAt(Rest(verdicts, i), 0) == R.VerdictAt(verdicts, i)
    ensures (if Rest(verdicts, i) == [] then [] else Rest(verdicts, i)[1..]) == Rest(verdicts, i + 1)
  {
  }

  /** The values of a map, in any order. */
  method Values(m: map<nat, Volunteer>) returns (vs: seq<Volunteer>)
    requires forall id :: id in m ==> m[id].id == id
    ensures Lists(vs, m)
  {
    var rest := m;
    vs := [];
    assert m - rest.Keys == map[];
    while rest != map[]
      invariant rest.Keys <= m.Keys && Lists(vs, m - rest.Keys)
      decreases |rest|
    {
      hide Lists;
      var id :| id in rest;
      Smaller(rest, id);
      ListsNext(vs, m, rest.Keys, id);
      vs := vs + [m[id]];
      assert (rest - {id}).Keys == rest.Keys - {id};
      rest := rest - {id};
    }
    assert m - rest.Keys == m;
  }

  function TaskOf(v: Volunteer): Option<Task> {
    if v.service.Some? then Some(Task(v.service.value.image, v.service.value.port)) else None
  }

  /** An answer gives no task exactly to a volunteer that serves nothing, and otherwise the image and the
      port of the registration that it serves. */
  predicate Tells(answer: Option<Task>, v: Volunteer) {
    && (answer.None? <==> HeldBy(v) == multiset{})
    && forall spec :: spec in HeldBy(v) ==> answer == Some(Task(spec.image, spec.port))
  }

  lemma TaskTells(v: Volunteer)
    ensures Tells(TaskOf(v), v)
  {
  }

  lemma {:induction false} AtMostOne(vs: seq<Volunteer>, v: Volunteer)
    requires forall i, j :: 0 <= i < j < |vs| ==> vs[i].id != vs[j].id
    ensures multiset(vs)[v] <= 1
  {
    if vs != [] {
      AtMostOne(vs[1..], v);
      assert vs == [vs[0]] + vs[1..];
      if vs[0] == v {
        assert forall i :: 0 <= i < |vs[1..]| ==> vs[1..][i] != v;
      }
    }
  }

  lemma AtLeastTwo(vs: seq<Volunteer>, i: nat, j: nat)
    requires i < j < |vs| && vs[i] == vs[j]
    ensures multiset(vs)[vs[i]] >= 2
  {
    assert vs == vs[..j] + [vs[j]] + vs[j + 1..];
    assert vs[..j][i] == vs[i];
    assert vs[i] in multiset(vs[..j]);
  }

  lemma ListsPermuted(vs: seq<Volunteer>, ws: seq<Volunteer>, m: map<nat, Volunteer>)
    requires Lists(vs, m) && multiset(ws) == multiset(vs)
    ensures Lists(ws, m)
  {
    forall i | 0 <= i < |ws| ensures ws[i].id in m && m[ws[i].id] == ws[i] {
      assert ws[i] in multiset(vs);
    }
    forall i, j | 0 <= i < j < |ws| ensures ws[i].id != ws[j].id {
      if ws[i].id == ws[j].id {
        AtLeastTwo(ws, i, j);
        AtMostOne(vs, ws[i]);
      }
    }
    forall id | id in m ensures exists i :: 0 <= i < |ws| && ws[i].id == id {
      var i :| 0 <= i < |vs| && vs[i].id == id;
      assert vs[i] in multiset(ws);
    }
  }

  /** In a list sorted by weight the first free volunteer is one that none outweighs. */
  lemma FirstFreeIsBest(s: R.State, now: int, active: seq<Volunteer>, i: nat)
    requires R.Descending(active) && Lists(active, R.AliveOf(s, now))
    requires i <= |active| && forall j :: 0 <= j < i ==> active[j].service.Some?
    requires i < |active| ==> active[i].service.None?
    ensures R.BestFree(s, now, if i < |active| then Some(active[i].id) else None)
    ensures i < |active| ==> active[i].id in s.volunteers && s.volunteers[active[i].id] == active[i]
  {
    hide Weight, IsAlive;
    forall other | other in s.volunteers && R.IsFree(s.volunteers[other], now)
      ensures i < |active| && Weight(s.volunteers[other].metrics) <= Weight(active[i].metrics)
    {
      assert other in R.AliveOf(s, now);
      var j :| 0 <= j < |active| && active[j].id == other;
      assert active[j] == s.volunteers[other];
    }
  }
}
