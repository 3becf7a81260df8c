/** A reload forgets every runtime server. Heartbeats bring the volunteer servers back. */
module RegistrarHealing {
  import opened Config
  import opened ConfigRuns
  import opened Options
  import opened Proxy
  import opened Store
  import opened Registrar
  import opened RegistrarRuns

  // ---- heartbeats ----

  /** The proxy has this volunteer, ready, at its current address and with its latest weight. */
  predicate Synced(s: State, id: nat) {
    && id in s.volunteers && OwnKey(id) in s.proxy.servers
    && s.proxy.servers[OwnKey(id)] == Server(s.volunteers[id].info.serviceAddr, Weight(s.volunteers[id].metrics), true)
  }

  /** The step makes the proxy forget its servers, or restarts the registrar. */
  ghost predicate Wipes(w: World, e: Event) {
    match e
    case Enroll(info, existing, newId, _, verdict) =>
      verdict.Accepted?
      && var id := EnrolledId(existing, newId);
         var service := if existing.Some? then ServiceOf(w.s, id) else None;
         if service.Some? then !Has(w.s.proxy.file, SvcBackend(service.value.serviceName))
         else w.s.pending != [] && !Has(w.s.proxy.file, SvcBackend(w.s.pending[0].name))
    case Register(p, choice, _, verdict) =>
      verdict.Accepted? && choice.Some? && !Has(w.s.proxy.file, SvcBackend(p.name))
    case Restart(_, _, _) => true
    case ProxyRestart => true
    case Redeploy(_) => true
    case _ => false
  }

  /** Volunteer servers that are not touched. */
  predicate OwnSame(p: View, q: View) {
    forall k :: k in p.servers && k.backend == VOLUNTEERS ==> k in q.servers && q.servers[k] == p.servers[k]
  }

  lemma AssignedSame(p: View, name: string, domain: string, addr: string, verdict: Verdict)
    requires !verdict.Accepted? || Has(p.file, SvcBackend(name))
    ensures OwnSame(p, Assigned(p, name, domain, addr, verdict))
  {
    SvcBackendFacts(name, "");
  }

  lemma RecordedSyncs(t: State, v: Volunteer, id: nat)
    requires id == v.id ==> v.metrics == NO_LOAD
    requires id != v.id ==> Synced(t, id)
    ensures Synced(Recorded(t, v), id)
  {
    FreshWeight();
    hide Weight;
  }

  lemma ReattachedSyncs(s: State, mine: nat, info: Info, a: Assignment, now: int, verdict: Verdict, id: nat)
    requires id != mine ==> Synced(s, id) && (!verdict.Accepted? || Has(s.proxy.file, SvcBackend(a.serviceName)))
    ensures Synced(Reattached(s, mine, info, a, now, verdict), id)
  {
    hide Weight, Assigned, Has;
    var t := s.(proxy := Assigned(s.proxy, a.serviceName, a.domain, info.serviceAddr, verdict),
                db := PutAssignment(s.db, mine, a));
    if id != mine {
      AssignedSame(s.proxy, a.serviceName, a.domain, info.serviceAddr, verdict);
    }
    RecordedSyncs(t, NewVolunteer(mine, info, now, Some(a)), id);
  }

  lemma DequeuedSyncs(s: State, mine: nat, info: Info, now: int, verdict: Verdict, id: nat)
    requires id != mine ==> Synced(s, id)
    requires id != mine && s.pending != [] ==> !verdict.Accepted? || Has(s.proxy.file, SvcBackend(s.pending[0].name))
    ensures Synced(Dequeued(s, mine, info, now, verdict), id)
  {
    hide Weight, Assigned, AssignOk, Has;
    if s.pending == [] {
      RecordedSyncs(s, NewVolunteer(mine, info, now, None), id);
    } else {
      var first := s.pending[0];
      var t := s.(proxy := Assigned(s.proxy, first.name, first.domain, info.serviceAddr, verdict));
      if id != mine {
        AssignedSame(s.proxy, first.name, first.domain, info.serviceAddr, verdict);
      }
      var a := ToAssignment(first, now);
      RecordedSyncs(t.(pending := s.pending[1..], db := PutAssignment(s.db, mine, a)), NewVolunteer(mine, info, now, Some(a)), id);
      RecordedSyncs(t, NewVolunteer(mine, info, now, None), id);
    }
  }

  /** An enrollment leaves its volunteer in sync, and the others too unless it reloads the proxy. */
  lemma EnrollSyncs(w: World, e: Event, id: nat)
    requires Inv(w) && Enabled(w, e) && e.Enroll?
    requires id == EnrolledId(e.existing, e.newId) || (Synced(w.s, id) && !Wipes(w, e))
    ensures Synced(Next(w, e).s, id)
  {
    hide Inv, Reattached, Dequeued, Synced, ServiceOf, Has, KnownAs;
    var s, mine := w.s, EnrolledId(e.existing, e.newId);
    var service := if e.existing.Some? then ServiceOf(s, mine) else None;
    if service.Some? {
      ReattachedSyncs(s, mine, e.info, service.value, e.now, e.verdict, id);
    } else {
      DequeuedSyncs(s, mine, e.info, e.now, e.verdict, id);
    }
  }

  lemma HeartbeatSyncs(w: World, e: Event, id: nat)
    requires Inv(w) && e.Heartbeat? && id in w.s.volunteers
    requires id == e.id || Synced(w.s, id)
    ensures Synced(Next(w, e).s, id)
  {
    hide Weight;
  }

  lemma SetPortSyncs(w: World, e: Event, id: nat)
    requires Synced(w.s, id) && e.SetPort?
    ensures Synced(Next(w, e).s, id)
  {
    hide Weight;
    if e.id in w.s.volunteers && w.s.volunteers[e.id].service.Some? {
      SvcBackendFacts(w.s.volunteers[e.id].service.value.serviceName, "");
    }
  }

  lemma {:induction false} SweepSyncs(s: State, dead: seq<Volunteer>, now: int, id: nat)
    requires Synced(s, id) && id in SweepStep(s, dead, now).volunteers
    ensures Synced(SweepStep(s, dead, now), id)
    decreases |dead|
  {
    hide Weight;
    if dead != [] {
      SweepLeaves(s, dead, now);
      SweepLeaves(Evicted(s, dead[0], now), dead[1..], now);
      assert id != dead[0].id;
      SweepSyncs(Evicted(s, dead[0], now), dead[1..], now, id);
    }
  }

  /** Only a reload or a restart takes a volunteer that stays out of sync. */
  lemma StepSyncs(w: World, e: Event, id: nat)
    requires Inv(w) && Synced(w.s, id) && id in Step(w, e).s.volunteers && !Wipes(w, e)
    ensures Synced(Step(w, e).s, id)
  {
    if Enabled(w, e) {
      match e
      case Enroll(_, _, _, _, _) => EnrollSyncs(w, e, id);
      case Heartbeat(_, _, _) => HeartbeatSyncs(w, e, id);
      case Disconnect(_) => hide Weight;
      case SetPort(_, _) => SetPortSyncs(w, e, id);
      case Register(p, choice, _, verdict) =>
        hide Weight;
        if choice.Some? {
          AssignedSame(w.s.proxy, p.name, p.domain, w.s.volunteers[choice.value].info.serviceAddr, verdict);
        }
      case Sweep(dead, now) => SweepSyncs(w.s, dead, now, id);
    }
  }

  lemma NewcomerSyncs(w: World, e: Event, id: nat)
    requires Inv(w) && id !in w.s.volunteers && id in Step(w, e).s.volunteers
    ensures Synced(Step(w, e).s, id)
  {
    match e
    case Enroll(_, _, _, _, _) =>
      KnownInMemory(w, e.info.hostname, e.existing);
      var t, v := EnrolledRecords(w.s, e.existing, e.info, e.newId, e.now, e.verdict);
      EnrollSyncs(w, e, id);
    case Sweep(dead, now) => SweepLeaves(w.s, dead, now);
    case Restart(_, _, _) => RestartRestores(w, e);
    case _ =>
  }

  /** A run in which the proxy keeps its servers. */
  ghost predicate Undisturbed(w: World, events: seq<Event>)
    decreases |events|
  {
    events == [] || (!Wipes(w, events[0]) && Undisturbed(Step(w, events[0]), events[1..]))
  }

  predicate Beats(events: seq<Event>, id: nat) {
    exists i :: 0 <= i < |events| && events[i].Heartbeat? && events[i].id == id
  }

  lemma {:induction false} RunSyncs(w: World, events: seq<Event>, id: nat)
    requires Inv(w) && Undisturbed(w, events) && id in Run(w, events).s.volunteers
    requires id !in w.s.volunteers || Synced(w.s, id) || Beats(events, id)
    ensures Synced(Run(w, events).s, id)
    decreases |events|
  {
    if events != [] {
      hide Inv, Wipes, Synced, Step;
      var t := Step(w, events[0]);
      StepInv(w, events[0]);
      if id in t.s.volunteers && !Synced(t.s, id) {
        if id !in w.s.volunteers {
          NewcomerSyncs(w, events[0], id);
        } else if Synced(w.s, id) {
          StepSyncs(w, events[0], id);
        } else {
          var i :| 0 <= i < |events| && events[i].Heartbeat? && events[i].id == id;
          if i == 0 {
            HeartbeatStepSyncs(w, events[0], id);
          } else {
            assert events[1..][i - 1] == events[i];
          }
        }
      }
      RunSyncs(t, events[1..], id);
    }
  }

  lemma HeartbeatStepSyncs(w: World, e: Event, id: nat)
    requires Inv(w) && e.Heartbeat? && e.id == id && id in w.s.volunteers
    ensures Synced(Step(w, e).s, id)
  {
    HeartbeatSyncs(w, e, id);
  }

  /** Self-healing: after any state, however many servers a reload has wiped, once every volunteer that
      was there has sent a heartbeat in a run without further reload or restart, the proxy's volunteer
      servers are exactly the volunteers in memory, at their addresses and latest weights. */
  lemma SelfHealing(w: World, events: seq<Event>)
    requires Inv(w) && Undisturbed(w, events)
    requires forall id :: id in w.s.volunteers && id in Run(w, events).s.volunteers ==> Beats(events, id)
    ensures var s := Run(w, events).s;
            && (forall id: nat :: OwnKey(id) in s.proxy.servers <==> id in s.volunteers)
            && forall id :: id in s.volunteers ==> Synced(s, id)
  {
    RunInv(w, events);
    var s := Run(w, events).s;
    forall id | id in s.volunteers ensures Synced(s, id) {
      RunSyncs(w, events, id);
    }
  }
}
