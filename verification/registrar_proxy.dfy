/** What every run keeps of the proxy: which backends run, and that the services held by volunteers are
    among them. */
module RegistrarProxy {
  import opened Config
  import opened ConfigRuns
  import opened Options
  import opened Proxy
  import opened Store
  import opened Registrar
  import opened RegistrarRuns

  /** The running backends are in the file, and only they have servers. */
  ghost predicate Consistent(p: View) {
    p.running <= Names(p.file) && forall k :: k in p.servers ==> Running(p, k.backend)
  }

  /** The proxy runs exactly the backends of its file. */
  predicate UpToDate(p: View) {
    p.running == Names(p.file)
  }

  /** The proxy serves this service at this address. */
  predicate ServedAt(p: View, name: string, addr: string) {
    && Running(p, SvcBackend(name)) && PrimaryOf(name) in p.servers
    && p.servers[PrimaryOf(name)].addr == addr && p.servers[PrimaryOf(name)].ready
  }

  /** From one view to a later one: no backend stops. A proxy that runs all of its file goes on doing so
      if no reload signal was lost. */
  ghost predicate Grows(p: View, q: View, reloadable: bool) {
    p.running <= q.running && Consistent(q) && (UpToDate(p) && reloadable ==> UpToDate(q))
  }

  lemma NamesHas(svcs: seq<Service>, name: string)
    ensures name in Names(svcs) <==> Has(svcs, name)
  {
    if Has(svcs, name) {
      assert svcs[IndexOf(svcs, name)].name == name;
    }
  }

  lemma NamesAppend(svcs: seq<Service>, s: Service)
    ensures Names(svcs + [s]) == Names(svcs) + {s.name}
  {
    var more := svcs + [s];
    assert more[|svcs|] == s && forall i :: 0 <= i < |svcs| ==> more[i] == svcs[i];
  }

  lemma ConfiguredGrows(p: View, name: string, domain: string, verdict: Verdict)
    requires Consistent(p)
    ensures Grows(p, Configured(p, name, domain, verdict), !verdict.Unreloadable?)
  {
    NamesAppend(p.file, Service(SvcBackend(name), domain));
    NamesHas(p.file, SvcBackend(name));
  }

  /** Changes to servers that put none where no backend runs. */
  lemma ServersGrow(p: View, q: View)
    requires Consistent(p) && q.file == p.file && q.running == p.running
    requires forall k :: k in q.servers ==> k in p.servers || Running(p, k.backend)
    ensures Grows(p, q, true)
  {
  }

  lemma UpsertedGrows(p: View, key: Key, addr: string, weight: int)
    requires Consistent(p)
    ensures Grows(p, Upserted(p, key, addr, weight), true)
  {
    ServersGrow(p, Upserted(p, key, addr, weight));
  }

  lemma AssignedGrows(p: View, name: string, domain: string, addr: string, verdict: Verdict)
    requires Consistent(p)
    ensures Grows(p, Assigned(p, name, domain, addr, verdict), !verdict.Unreloadable?)
    ensures AssignOk(p, name, domain, verdict) ==> Running(Assigned(p, name, domain, addr, verdict), SvcBackend(name))
  {
    ConfiguredGrows(p, name, domain, verdict);
    UpsertedGrows(Configured(p, name, domain, verdict), PrimaryOf(name), addr, 100);
  }

  /** A backend that runs accepts an assignment whatever the verdict would be, for none is asked for. */
  lemma RunningAssigns(p: View, name: string, domain: string, verdict: Verdict)
    requires Consistent(p) && Running(p, SvcBackend(name))
    ensures AssignOk(p, name, domain, verdict) && Has(p.file, SvcBackend(name))
    ensures Configured(p, name, domain, verdict) == p
  {
    SvcBackendFacts(name, "");
    NamesHas(p.file, SvcBackend(name));
  }

  lemma MovedGrows(p: View, id: nat, addr: string, service: Option<string>)
    requires Consistent(p)
    ensures Grows(p, Moved(p, id, addr, service), true)
  {
    ServersGrow(p, Moved(p, id, addr, service));
  }

  lemma {:induction false} SweepGrows(s: State, dead: seq<Volunteer>, now: int)
    requires Consistent(s.proxy)
    ensures Grows(s.proxy, SweepStep(s, dead, now).proxy, true)
    decreases |dead|
  {
    if dead != [] {
      var t := Evicted(s, dead[0], now);
      ServersGrow(s.proxy, t.proxy);
      SweepGrows(t, dead[1..], now);
    }
  }

  predicate NoneUnreloadable(verdicts: seq<Verdict>) {
    forall i :: 0 <= i < |verdicts| ==> !verdicts[i].Unreloadable?
  }

  lemma {:induction false} PassOneGrows(p: View, vs: seq<Volunteer>, verdicts: seq<Verdict>)
    requires Consistent(p)
    ensures Grows(p, PassOne(p, vs, verdicts), NoneUnreloadable(verdicts))
    decreases |vs|
  {
    if vs != [] {
      var q := ConfiguredFor(p, vs[0], VerdictAt(verdicts, 0));
      var rest := if verdicts == [] then [] else verdicts[1..];
      if vs[0].service.Some? {
        ConfiguredGrows(p, vs[0].service.value.serviceName, vs[0].service.value.domain, VerdictAt(verdicts, 0));
      }
      assert NoneUnreloadable(verdicts) ==> !VerdictAt(verdicts, 0).Unreloadable? && NoneUnreloadable(rest);
      PassOneGrows(q, vs[1..], rest);
    }
  }

  lemma {:induction false} PassTwoGrows(p: View, vs: seq<Volunteer>)
    requires Consistent(p)
    ensures Grows(p, PassTwo(p, vs), true)
    decreases |vs|
  {
    if vs != [] {
      var v := vs[0];
      var q := Upserted(p, OwnKey(v.id), v.info.serviceAddr, 1);
      UpsertedGrows(p, OwnKey(v.id), v.info.serviceAddr, 1);
      if v.service.Some? {
        UpsertedGrows(q, PrimaryOf(v.service.value.serviceName), v.info.serviceAddr, 100);
      }
      PassTwoGrows(RestoredFor(p, v), vs[1..]);
    }
  }

  // ---- every step ----

  predicate Reloadable(e: Event) {
    match e
    case Enroll(_, _, _, _, verdict) => !verdict.Unreloadable?
    case Register(_, _, _, verdict) => !verdict.Unreloadable?
    case Restart(_, _, verdicts) => NoneUnreloadable(verdicts)
    case _ => true
  }

  lemma EnrollGrows(w: World, e: Event)
    requires Consistent(w.s.proxy) && e.Enroll?
    ensures Grows(w.s.proxy, Enrolled(w.s, e.existing, e.info, e.newId, e.now, e.verdict).proxy, Reloadable(e))
  {
    hide Consistent, UpToDate, AssignOk, Assigned, ServiceOf;
    var p, id := w.s.proxy, EnrolledId(e.existing, e.newId);
    var h := Handed(w.s, e.existing);
    var q := if h.Some? then Assigned(p, h.value.0, h.value.1, e.info.serviceAddr, e.verdict) else p;
    if h.Some? {
      AssignedGrows(p, h.value.0, h.value.1, e.info.serviceAddr, e.verdict);
    }
    UpsertedGrows(q, OwnKey(id), e.info.serviceAddr, 100);
    assert Enrolled(w.s, e.existing, e.info, e.newId, e.now, e.verdict).proxy
        == Upserted(q, OwnKey(id), e.info.serviceAddr, 100);
  }

  lemma RegisterGrows(w: World, e: Event)
    requires Consistent(w.s.proxy) && Enabled(w, e) && e.Register?
    ensures Grows(w.s.proxy, Next(w, e).s.proxy, Reloadable(e))
  {
    hide Consistent, UpToDate, AssignOk, Assigned, Weight;
    if e.choice.Some? {
      AssignedGrows(w.s.proxy, e.request.name, e.request.domain, w.s.volunteers[e.choice.value].info.serviceAddr, e.verdict);
    }
  }

  lemma RestartGrows(w: World, e: Event)
    requires Consistent(w.s.proxy) && e.Restart? && Enabled(w, e)
    ensures Grows(w.s.proxy, Next(w, e).s.proxy, Reloadable(e))
  {
    hide Consistent, UpToDate;
    PassOneGrows(w.s.proxy, e.survivors, e.verdicts);
    PassTwoGrows(PassOne(w.s.proxy, e.survivors, e.verdicts), e.survivors);
  }

  /** No step but a redeployment stops a backend. */
  lemma StepGrows(w: World, e: Event)
    requires Consistent(w.s.proxy) && Enabled(w, e) && !e.Redeploy?
    ensures Grows(w.s.proxy, Next(w, e).s.proxy, Reloadable(e))
  {
    match e
    case Enroll(_, _, _, _, _) => EnrollGrows(w, e);
    case Heartbeat(_, _, _) => hide Weight; ServersGrow(w.s.proxy, Next(w, e).s.proxy);
    case Disconnect(_) => ServersGrow(w.s.proxy, Next(w, e).s.proxy);
    case SetPort(id, addr) =>
      if id in w.s.volunteers {
        MovedGrows(w.s.proxy, id, addr, ServiceName(w.s.volunteers[id]));
      }
    case Register(_, _, _, _) => RegisterGrows(w, e);
    case Sweep(dead, now) => SweepGrows(w.s, dead, now);
    case Restart(_, _, _) => RestartGrows(w, e);
    case ProxyRestart =>
  }

  lemma StepConsistent(w: World, e: Event)
    requires Consistent(w.s.proxy)
    ensures Consistent(Step(w, e).s.proxy)
    ensures UpToDate(w.s.proxy) && Reloadable(e) ==> UpToDate(Step(w, e).s.proxy)
  {
    if Enabled(w, e) && !e.Redeploy? {
      StepGrows(w, e);
      hide Consistent, Enabled, Next;
    }
  }

  // ---- every run ----

  lemma {:induction false} RunConsistent(w: World, events: seq<Event>)
    requires Consistent(w.s.proxy)
    ensures Consistent(Run(w, events).s.proxy)
    ensures UpToDate(w.s.proxy) && (forall i :: 0 <= i < |events| ==> Reloadable(events[i])) ==>
      UpToDate(Run(w, events).s.proxy)
    decreases |events|
  {
    if events != [] {
      hide Consistent, UpToDate, Step, Reloadable;
      StepConsistent(w, events[0]);
      RunConsistent(Step(w, events[0]), events[1..]);
    }
  }

  lemma EmptyConsistent(file: seq<Service>)
    ensures Consistent(Empty(file).s.proxy) && UpToDate(Empty(file).s.proxy)
  {
  }

  /** In a run in which no reload signal is lost the proxy always runs all of its file. */
  lemma EveryRunUpToDate(file: seq<Service>, events: seq<Event>)
    requires forall i :: 0 <= i < |events| ==> Reloadable(events[i])
    ensures UpToDate(Run(Empty(file), events).s.proxy)
  {
    hide Consistent, UpToDate, Reloadable;
    EmptyConsistent(file);
    RunConsistent(Empty(file), events);
  }

  // ---- held services run ----

  ghost predicate HeldRuns(s: State) {
    forall id :: id in s.volunteers && s.volunteers[id].service.Some? ==>
      Running(s.proxy, SvcBackend(s.volunteers[id].service.value.serviceName))
  }

  /** A step after which each volunteer has its old service or a new one that runs. */
  lemma StillRuns(s: State, t: State)
    requires HeldRuns(s) && s.proxy.running <= t.proxy.running
    requires forall id :: id in t.volunteers && t.volunteers[id].service.Some? ==>
      || (id in s.volunteers && s.volunteers[id].service == t.volunteers[id].service)
      || Running(t.proxy, SvcBackend(t.volunteers[id].service.value.serviceName))
    ensures HeldRuns(t)
  {
  }

  /** The volunteer that an enrollment records has the service it had, or one that the proxy now runs. */
  lemma EnrolledHolds(s: State, existing: Option<nat>, info: Info, newId: nat, now: int, verdict: Verdict)
    requires existing.Some? ==> existing.value in s.volunteers && ServiceOf(s, existing.value) == s.volunteers[existing.value].service
    requires Consistent(s.proxy)
    ensures var t, id := Enrolled(s, existing, info, newId, now, verdict), EnrolledId(existing, newId);
            && id in t.volunteers && t.volunteers == s.volunteers[id := t.volunteers[id]]
            && (t.volunteers[id].service.Some? ==>
                 || (id in s.volunteers && s.volunteers[id].service == t.volunteers[id].service)
                 || Running(t.proxy, SvcBackend(t.volunteers[id].service.value.serviceName)))
  {
    if s.pending != [] {
      AssignedGrows(s.proxy, s.pending[0].name, s.pending[0].domain, info.serviceAddr, verdict);
    }
    hide Consistent, ServiceOf, Assigned, AssignOk, PutVolunteer, PutAssignment;
  }

  lemma EnrollRuns(w: World, e: Event)
    requires Inv(w) && Consistent(w.s.proxy) && HeldRuns(w.s) && Enabled(w, e) && e.Enroll?
    ensures HeldRuns(Next(w, e).s)
  {
    KnownInMemory(w, e.info.hostname, e.existing);
    EnrollGrows(w, e);
    hide Consistent, UpToDate, KnownAs, HeldRuns, Enrolled, ServersKnown, OneIdPerHost, IdsKnown;
    EnrolledHolds(w.s, e.existing, e.info, e.newId, e.now, e.verdict);
    StillRuns(w.s, Next(w, e).s);
  }

  lemma RegisterRuns(w: World, e: Event)
    requires Consistent(w.s.proxy) && HeldRuns(w.s) && Enabled(w, e) && e.Register?
    ensures HeldRuns(Next(w, e).s)
  {
    RegisterGrows(w, e);
    if e.choice.Some? {
      AssignedGrows(w.s.proxy, e.request.name, e.request.domain, w.s.volunteers[e.choice.value].info.serviceAddr, e.verdict);
    }
    hide Consistent, UpToDate, HeldRuns, Assigned, AssignOk, Weight;
    StillRuns(w.s, Next(w, e).s);
  }

  lemma StepRuns(w: World, e: Event)
    requires Inv(w) && Consistent(w.s.proxy) && HeldRuns(w.s) && !e.Redeploy?
    ensures HeldRuns(Step(w, e).s)
  {
    if Enabled(w, e) {
      if e.Enroll? {
        EnrollRuns(w, e);
      } else if e.Register? {
        RegisterRuns(w, e);
      } else {
        if e.Restart? {
          RestartRestores(w, e);
        } else if e.Sweep? {
          SweepLeaves(w.s, e.dead, e.now);
        }
        StepGrows(w, e);
        hide Consistent, HeldRuns, Weight, SweepStep, RestartStep;
        StillRuns(w.s, Next(w, e).s);
      }
    }
  }

  /** In a run without redeployment the backend of every held service runs, however many reload signals
      are lost and however many configs are rejected. */
  lemma {:induction false} HeldServicesRun(w: World, events: seq<Event>)
    requires Inv(w) && Consistent(w.s.proxy) && HeldRuns(w.s)
    requires forall i :: 0 <= i < |events| ==> !events[i].Redeploy?
    ensures HeldRuns(Run(w, events).s)
    decreases |events|
  {
    if events != [] {
      hide Inv, Consistent, HeldRuns, Step;
      StepInv(w, events[0]);
      StepConsistent(w, events[0]);
      StepRuns(w, events[0]);
      HeldServicesRun(Step(w, events[0]), events[1..]);
    }
  }
}
