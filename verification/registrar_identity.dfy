/** Stable identity: a hostname keeps its id and its service until it is evicted or disconnected. */
module RegistrarIdentity {
  import opened Config
  import opened Options
  import opened Proxy
  import opened Store
  import opened Registrar
  import opened RegistrarRuns

  /** The step evicts or disconnects this volunteer. */
  predicate Parts(e: Event, id: nat) {
    || (e.Disconnect? && e.id == id)
    || (e.Sweep? && exists i :: 0 <= i < |e.dead| && e.dead[i].id == id)
  }

  /** The volunteer is known under its hostname, with its service if it had one. */
  ghost predicate Keeps(w: World, id: nat, hostname: string, service: Option<Assignment>) {
    && id in w.s.volunteers && w.s.volunteers[id].info.hostname == hostname
    && (service.Some? ==> w.s.volunteers[id].service == service)
  }

  lemma EnrollKeeps(w: World, e: Event, id: nat, hostname: string, service: Option<Assignment>)
    requires Inv(w) && Keeps(w, id, hostname, service) && e.Enroll? && Enabled(w, e)
    ensures Keeps(Next(w, e), id, hostname, service)
  {
    KnownInMemory(w, e.info.hostname, e.existing);
    var t, v := EnrolledRecords(w.s, e.existing, e.info, e.newId, e.now, e.verdict);
    hide Inv, Enrolled, KnownAs;
  }

  lemma RestartKeeps(w: World, e: Event, id: nat, hostname: string, service: Option<Assignment>)
    requires Inv(w) && Keeps(w, id, hostname, service) && e.Restart? && Enabled(w, e)
    ensures Keeps(Next(w, e), id, hostname, service)
  {
    RestartRestores(w, e);
    hide Inv, RestartStep;
  }

  lemma SweepKeeps(w: World, e: Event, id: nat, hostname: string, service: Option<Assignment>)
    requires Keeps(w, id, hostname, service) && e.Sweep? && Enabled(w, e) && !Parts(e, id)
    ensures Keeps(Next(w, e), id, hostname, service)
  {
    SweepLeaves(w.s, e.dead, e.now);
    hide SweepStep;
  }

  lemma OthersKeep(w: World, e: Event, id: nat, hostname: string, service: Option<Assignment>)
    requires Keeps(w, id, hostname, service) && Enabled(w, e) && !Parts(e, id)
    requires !e.Enroll? && !e.Sweep? && !e.Restart?
    ensures Keeps(Next(w, e), id, hostname, service)
  {
    hide Weight, IsAlive, Assigned, AssignOk, Moved, Dropped, Reweighted, AddedOnce, Reloaded;
  }

  lemma StepKeeps(w: World, e: Event, id: nat, hostname: string, service: Option<Assignment>)
    requires Inv(w) && Keeps(w, id, hostname, service) && !Parts(e, id)
    ensures Keeps(Step(w, e), id, hostname, service)
  {
    if Enabled(w, e) {
      hide Inv, Keeps, Enabled, Next;
      match e
      case Enroll(_, _, _, _, _) => EnrollKeeps(w, e, id, hostname, service);
      case Sweep(_, _) => SweepKeeps(w, e, id, hostname, service);
      case Restart(_, _, _) => RestartKeeps(w, e, id, hostname, service);
      case _ => OthersKeep(w, e, id, hostname, service);
    }
  }

  /** Over any run that does not evict or disconnect it, crashes included, a named volunteer keeps its
      id, its hostname and its service, whatever tunnel port it comes back with. */
  lemma {:induction false} RunKeeps(w: World, events: seq<Event>, id: nat, hostname: string, service: Option<Assignment>)
    requires Inv(w) && Keeps(w, id, hostname, service)
    requires forall i :: 0 <= i < |events| ==> !Parts(events[i], id)
    ensures Inv(Run(w, events)) && Keeps(Run(w, events), id, hostname, service)
    decreases |events|
  {
    if events != [] {
      hide Inv, Step, Keeps, Parts;
      StepInv(w, events[0]);
      StepKeeps(w, events[0], id, hostname, service);
      RunKeeps(Step(w, events[0]), events[1..], id, hostname, service);
    }
  }

  /** So a later enrollment under that hostname gets the same id and the same service again, and is
      recorded under its new address. */
  lemma ReenrollReattaches(w: World, events: seq<Event>, id: nat, e: Event)
    requires Inv(w) && id in w.s.volunteers && w.s.volunteers[id].info.hostname != ""
    requires forall i :: 0 <= i < |events| ==> !Parts(events[i], id)
    requires e.Enroll? && e.info.hostname == w.s.volunteers[id].info.hostname && Enabled(Run(w, events), e)
    ensures e.existing == Some(id)
    ensures var t := Next(Run(w, events), e).s;
            && id in t.volunteers && t.volunteers[id].info == e.info
            && (w.s.volunteers[id].service.Some? ==> t.volunteers[id].service == w.s.volunteers[id].service)
  {
    var v := w.s.volunteers[id];
    RunKeeps(w, events, id, v.info.hostname, v.service);
    var u := Run(w, events);
    KnownInMemory(u, e.info.hostname, e.existing);
    var t, r := EnrolledRecords(u.s, e.existing, e.info, e.newId, e.now, e.verdict);
  }

  /** In every reachable state a non-empty hostname has at most one id, in memory and database together. */
  lemma OneIdPerHostname(file: seq<Service>, events: seq<Event>, i: nat, j: nat)
    requires var s := Run(Empty(file), events).s;
             && i in s.volunteers && j in s.db.volunteers
             && s.volunteers[i].info.hostname == s.db.volunteers[j].info.hostname != ""
    ensures i == j
  {
    EveryRunInv(file, events);
    var s := Run(Empty(file), events).s;
    assert SameRow(s.db.volunteers[j], s.volunteers[j]);
  }

  /** Crash recovery over any run: what memory was is what a restart makes of the tables. */
  lemma RestartAfterAnyRun(file: seq<Service>, events: seq<Event>, e: Event)
    requires e.Restart? && Enabled(Run(Empty(file), events), e)
    ensures var w := Run(Empty(file), events);
            var t := Next(w, e).s;
            && t.volunteers == (map id | id in w.s.volunteers ::
                 w.s.volunteers[id].(lastHeartbeat := e.now, running := None, image := None))
            && t.pending == []
            && t.db.assignments == w.s.db.assignments - Orphans(w.s.db) && Orphans(w.s.db) <= w.gone
  {
    EveryRunInv(file, events);
    RestartRestores(Run(Empty(file), events), e);
  }

  /** Which id an enrollment gets: that of the volunteer in memory with the same hostname, if the hostname is
      not empty and there is one, and else a fresh one; all other volunteers stay as they are. */
  lemma EnrollIdExactly(w: World, e: Event)
    requires Inv(w) && e.Enroll? && Enabled(w, e)
    ensures var known := e.info.hostname != ""
                         && exists id :: id in w.s.volunteers && w.s.volunteers[id].info.hostname == e.info.hostname;
            var id, t := EnrolledId(e.existing, e.newId), Next(w, e).s;
            && t.volunteers.Keys == w.s.volunteers.Keys + {id}
            && (id in w.s.volunteers <==> known) && (id in w.ids ==> known)
            && t.volunteers[id].info == e.info
            && forall other :: other in w.s.volunteers && other != id ==> t.volunteers[other] == w.s.volunteers[other]
  {
    KnownInMemory(w, e.info.hostname, e.existing);
    var t, v := EnrolledRecords(w.s, e.existing, e.info, e.newId, e.now, e.verdict);
    hide Enrolled, ServersKnown, OneIdPerHost;
  }
}
