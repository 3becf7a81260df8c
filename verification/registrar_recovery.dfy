/** Crash recovery: volunteer and service servers are restored in two passes, since each reload of the
    first pass forgets every runtime server. */
module RegistrarRecovery {
  import opened Config
  import opened ConfigRuns
  import opened Options
  import opened Proxy
  import opened Store
  import opened Registrar
  import opened RegistrarRuns
  import opened RegistrarProxy

  // ---- pass 2 ----

  /** The address of the last volunteer of a list that serves this service. */
  function LastHolder(vs: seq<Volunteer>, name: string): Option<string> {
    if vs == [] then None
    else if Serves(vs[|vs| - 1], name) then Some(vs[|vs| - 1].info.serviceAddr)
    else LastHolder(vs[..|vs| - 1], name)
  }

  lemma {:induction false} PassTwoSnoc(p: View, vs: seq<Volunteer>)
    requires vs != []
    ensures PassTwo(p, vs) == RestoredFor(PassTwo(p, vs[..|vs| - 1]), vs[|vs| - 1])
    decreases |vs|
  {
    hide RestoredFor;
    var n := |vs| - 1;
    if n > 0 {
      PassTwoSnoc(RestoredFor(p, vs[0]), vs[1..]);
      assert vs[1..][..n - 1] == vs[..n][1..];
    } else {
      assert vs[1..] == [] && vs[..0] == [];
    }
  }

  /** Pass 2 from any proxy state, whatever the reloads of pass 1 have wiped: every volunteer is ready at
      its stored address, and every configured service is served at the address of the last volunteer
      that holds it. */
  lemma {:induction false} PassTwoRestores(p: View, vs: seq<Volunteer>)
    requires forall i, j :: 0 <= i < j < |vs| ==> vs[i].id != vs[j].id
    ensures PassTwo(p, vs).file == p.file && PassTwo(p, vs).running == p.running
    ensures forall i :: 0 <= i < |vs| ==>
      OwnKey(vs[i].id) in PassTwo(p, vs).servers
      && PassTwo(p, vs).servers[OwnKey(vs[i].id)] == Server(vs[i].info.serviceAddr, 1, true)
    ensures forall name :: LastHolder(vs, name).Some? && Running(p, SvcBackend(name)) ==>
      PrimaryOf(name) in PassTwo(p, vs).servers
      && PassTwo(p, vs).servers[PrimaryOf(name)] == Server(LastHolder(vs, name).value, 100, true)
    decreases |vs|
  {
    if vs != [] {
      var n := |vs| - 1;
      var front, last := vs[..n], vs[n];
      PassTwoSnoc(p, vs);
      PassTwoRestores(p, front);
      var before, after := PassTwo(p, front), PassTwo(p, vs);
      RestoredForFacts(before, last);
      forall i | 0 <= i < |vs|
        ensures OwnKey(vs[i].id) in after.servers
                && after.servers[OwnKey(vs[i].id)] == Server(vs[i].info.serviceAddr, 1, true)
      {
        if i < n {
          assert front[i] == vs[i];
        }
      }
    }
  }

  lemma RestoredForFacts(p: View, v: Volunteer)
    ensures var q := RestoredFor(p, v);
            && q.file == p.file && q.running == p.running
            && OwnKey(v.id) in q.servers && q.servers[OwnKey(v.id)] == Server(v.info.serviceAddr, 1, true)
            && (forall id: nat :: id != v.id && OwnKey(id) in p.servers ==>
                  OwnKey(id) in q.servers && q.servers[OwnKey(id)] == p.servers[OwnKey(id)])
            && (forall name :: Serves(v, name) && Running(p, SvcBackend(name)) ==>
                  PrimaryOf(name) in q.servers && q.servers[PrimaryOf(name)] == Server(v.info.serviceAddr, 100, true))
            && (forall name :: !Serves(v, name) && PrimaryOf(name) in p.servers ==>
                  PrimaryOf(name) in q.servers && q.servers[PrimaryOf(name)] == p.servers[PrimaryOf(name)])
  {
    if v.service.Some? {
      SvcBackendFacts(v.service.value.serviceName, "");
      forall name ensures PrimaryOf(name) == PrimaryOf(v.service.value.serviceName)
                          <==> name == v.service.value.serviceName {
        SvcBackendFacts(name, v.service.value.serviceName);
      }
    }
  }

  /** Two-pass recovery is safe against reload wipes: whatever pass 1 has done, every volunteer in memory is
      ready at its stored address. */
  lemma RecoveryRestores(w: World, e: Event)
    requires Inv(w) && Enabled(w, e) && e.Restart?
    ensures var s := Next(w, e).s;
            forall id :: id in s.volunteers ==>
              OwnKey(id) in s.proxy.servers
              && s.proxy.servers[OwnKey(id)] == Server(s.volunteers[id].info.serviceAddr, 1, true)
  {
    var s := Next(w, e).s;
    PassTwoRestores(PassOne(w.s.proxy, e.survivors, e.verdicts), e.survivors);
    forall id | id in s.volunteers
      ensures OwnKey(id) in s.proxy.servers
              && s.proxy.servers[OwnKey(id)] == Server(s.volunteers[id].info.serviceAddr, 1, true)
    {
      assert id in LoadAll(Pruned(w.s.db));
      var i :| 0 <= i < |e.survivors| && e.survivors[i].id == id;
    }
  }

  // ---- pass 1 ----

  lemma {:induction false} PassOneSnoc(p: View, vs: seq<Volunteer>, verdicts: seq<Verdict>, n: nat)
    requires n < |vs|
    ensures PassOne(p, vs[..n + 1], verdicts)
         == ConfiguredFor(PassOne(p, vs[..n], verdicts), vs[n], VerdictAt(verdicts, n))
    decreases n
  {
    hide ConfiguredFor;
    var q := ConfiguredFor(p, vs[0], VerdictAt(verdicts, 0));
    var rest := if verdicts == [] then [] else verdicts[1..];
    assert vs[..n + 1][0] == vs[0] && vs[..n + 1][1..] == vs[1..][..n];
    if n == 0 {
      assert PassOne(q, vs[1..][..0], rest) == q;
    } else {
      assert vs[..n][0] == vs[0] && vs[..n][1..] == vs[1..][..n - 1];
      PassOneSnoc(q, vs[1..], rest, n - 1);
      assert VerdictAt(rest, n - 1) == VerdictAt(verdicts, n);
    }
  }

  /** After the first `n` survivors the file has this service: it was there, or one of them put it there. */
  predicate InFile(p: View, vs: seq<Volunteer>, verdicts: seq<Verdict>, n: nat, name: string)
    requires n <= |vs|
  {
    Has(p.file, SvcBackend(name)) || exists j :: 0 <= j < n && Serves(vs[j], name) && !VerdictAt(verdicts, j).Rejected?
  }

  /** The survivor `i` makes the proxy reload: its service is new to the file, and accepted. */
  predicate ReloadsAt(p: View, vs: seq<Volunteer>, verdicts: seq<Verdict>, i: nat)
    requires i < |vs|
  {
    && vs[i].service.Some? && VerdictAt(verdicts, i).Accepted?
    && !InFile(p, vs, verdicts, i, vs[i].service.value.serviceName)
  }

  /** Some reload among the first `n` survivors happens with this service in the file. */
  predicate ReloadsWith(p: View, vs: seq<Volunteer>, verdicts: seq<Verdict>, n: nat, name: string)
    requires n <= |vs|
  {
    exists i :: 0 <= i < n && ReloadsAt(p, vs, verdicts, i) && InFile(p, vs, verdicts, i + 1, name)
  }

  lemma HasAppend(svcs: seq<Service>, s: Service, name: string)
    ensures Has(svcs + [s], name) <==> Has(svcs, name) || s.name == name
  {
    NamesAppend(svcs, s);
    NamesHas(svcs, name);
    NamesHas(svcs + [s], name);
  }

  lemma ConfiguredFile(p: View, v: Volunteer, verdict: Verdict, name: string)
    ensures Has(ConfiguredFor(p, v, verdict).file, SvcBackend(name))
      <==> Has(p.file, SvcBackend(name)) || (Serves(v, name) && !verdict.Rejected?)
  {
    if v.service.Some? {
      var a := v.service.value;
      HasAppend(p.file, Service(SvcBackend(a.serviceName), a.domain), SvcBackend(name));
      SvcBackendFacts(a.serviceName, name);
    }
  }

  lemma {:induction false} PassOneFile(p: View, vs: seq<Volunteer>, verdicts: seq<Verdict>, n: nat, name: string)
    requires n <= |vs|
    ensures Has(PassOne(p, vs[..n], verdicts).file, SvcBackend(name)) <==> InFile(p, vs, verdicts, n, name)
  {
    if n > 0 {
      hide Has, ConfiguredFor;
      PassOneSnoc(p, vs, verdicts, n - 1);
      PassOneFile(p, vs, verdicts, n - 1, name);
      ConfiguredFile(PassOne(p, vs[..n - 1], verdicts), vs[n - 1], VerdictAt(verdicts, n - 1), name);
    }
  }

  lemma ConfiguredRunning(p: View, v: Volunteer, verdict: Verdict, name: string)
    requires Consistent(p)
    ensures var q := ConfiguredFor(p, v, verdict);
            var reloads := v.service.Some? && verdict.Accepted? && !Has(p.file, SvcBackend(v.service.value.serviceName));
            && Consistent(q)
            && (Running(q, SvcBackend(name)) <==>
                  Running(p, SvcBackend(name)) || (reloads && Has(q.file, SvcBackend(name))))
  {
    SvcBackendFacts(name, "");
    if v.service.Some? {
      var a := v.service.value;
      ConfiguredGrows(p, a.serviceName, a.domain, verdict);
      var q := ConfiguredFor(p, v, verdict);
      NamesHas(q.file, SvcBackend(name));
    }
  }

  /** Which backends run after pass 1, from any proxy state and for any outcomes. */
  lemma {:induction false} PassOneRunning(p: View, vs: seq<Volunteer>, verdicts: seq<Verdict>, n: nat, name: string)
    requires Consistent(p) && n <= |vs|
    ensures Consistent(PassOne(p, vs[..n], verdicts))
    ensures Running(PassOne(p, vs[..n], verdicts), SvcBackend(name))
      <==> Running(p, SvcBackend(name)) || ReloadsWith(p, vs, verdicts, n, name)
  {
    if n > 0 {
      hide Has, ConfiguredFor, Running, Consistent, InFile;
      var q, v := PassOne(p, vs[..n - 1], verdicts), vs[n - 1];
      PassOneSnoc(p, vs, verdicts, n - 1);
      PassOneRunning(p, vs, verdicts, n - 1, name);
      ConfiguredRunning(q, v, VerdictAt(verdicts, n - 1), name);
      if v.service.Some? {
        PassOneFile(p, vs, verdicts, n - 1, v.service.value.serviceName);
      }
      PassOneFile(p, vs, verdicts, n, name);
      assert ReloadsWith(p, vs, verdicts, n, name) <==>
             ReloadsWith(p, vs, verdicts, n - 1, name)
             || (ReloadsAt(p, vs, verdicts, n - 1) && InFile(p, vs, verdicts, n, name));
    }
  }

  // ---- both passes ----

  /** Recovery serves a held service, at the address of its last holder, exactly when its backend ran
      before or pass 1 reloads while the service is in the file. */
  lemma RecoveryExactly(w: World, e: Event, name: string)
    requires Inv(w) && Consistent(w.s.proxy) && Enabled(w, e) && e.Restart?
    requires LastHolder(e.survivors, name).Some?
    ensures ServedAt(Next(w, e).s.proxy, name, LastHolder(e.survivors, name).value)
      <==> Running(w.s.proxy, SvcBackend(name)) || ReloadsWith(w.s.proxy, e.survivors, e.verdicts, |e.survivors|, name)
  {
    hide Inv, Consistent, InFile, ReloadsAt;
    var vs := e.survivors;
    assert vs[..|vs|] == vs;
    PassOneRunning(w.s.proxy, vs, e.verdicts, |vs|, name);
    PassTwoRestores(PassOne(w.s.proxy, vs, e.verdicts), vs);
  }

  lemma FirstHolder(vs: seq<Volunteer>, name: string) returns (j: nat)
    requires exists i :: 0 <= i < |vs| && Serves(vs[i], name)
    ensures j < |vs| && Serves(vs[j], name) && forall k :: 0 <= k < j ==> !Serves(vs[k], name)
  {
    j := 0;
    while !Serves(vs[j], name)
      invariant j < |vs| && forall k :: 0 <= k < j ==> !Serves(vs[k], name)
      decreases |vs| - j
    {
      j := j + 1;
    }
  }

  lemma {:induction false} LastHolderHolds(vs: seq<Volunteer>, name: string)
    ensures LastHolder(vs, name).Some? <==> exists i :: 0 <= i < |vs| && Serves(vs[i], name)
  {
    if vs != [] {
      var n := |vs| - 1;
      LastHolderHolds(vs[..n], name);
      assert forall i :: 0 <= i < n ==> vs[..n][i] == vs[i];
    }
  }

  predicate AllAccepted(verdicts: seq<Verdict>) {
    forall i :: 0 <= i < |verdicts| ==> verdicts[i].Accepted?
  }

  /** Some survivor holds a service that the file does not have. */
  predicate Missing(p: View, vs: seq<Volunteer>) {
    exists i :: 0 <= i < |vs| && vs[i].service.Some? && !Has(p.file, SvcBackend(vs[i].service.value.serviceName))
  }

  lemma AcceptedReloads(p: View, vs: seq<Volunteer>, verdicts: seq<Verdict>, name: string)
    requires AllAccepted(verdicts) && LastHolder(vs, name).Some?
    ensures ReloadsWith(p, vs, verdicts, |vs|, name) <==> Missing(p, vs)
  {
    hide Has;
    if Missing(p, vs) {
      var i :| 0 <= i < |vs| && vs[i].service.Some? && !Has(p.file, SvcBackend(vs[i].service.value.serviceName));
      LastHolderHolds(vs, name);
      var m := if Has(p.file, SvcBackend(name)) then vs[i].service.value.serviceName else name;
      assert Serves(vs[i], vs[i].service.value.serviceName);
      var j := FirstHolder(vs, m);
      assert ReloadsAt(p, vs, verdicts, j) && InFile(p, vs, verdicts, j + 1, name);
    }
  }

  /** When no config is rejected and no reload signal lost in pass 1, a held service is served exactly when
      its backend ran before or some held service is new to the file. */
  lemma AcceptedRecovery(w: World, e: Event, name: string)
    requires Inv(w) && Consistent(w.s.proxy) && Enabled(w, e) && e.Restart? && AllAccepted(e.verdicts)
    requires LastHolder(e.survivors, name).Some?
    ensures ServedAt(Next(w, e).s.proxy, name, LastHolder(e.survivors, name).value)
      <==> Running(w.s.proxy, SvcBackend(name)) || Missing(w.s.proxy, e.survivors)
  {
    hide Inv, Consistent, Missing, Enabled, Next;
    RecoveryExactly(w, e, name);
    AcceptedReloads(w.s.proxy, e.survivors, e.verdicts, name);
  }

  /** So with a proxy that runs all of its file every held service is served. */
  lemma RecoveryComplete(w: World, e: Event, name: string)
    requires Inv(w) && Consistent(w.s.proxy) && UpToDate(w.s.proxy)
    requires Enabled(w, e) && e.Restart? && AllAccepted(e.verdicts)
    requires LastHolder(e.survivors, name).Some?
    ensures ServedAt(Next(w, e).s.proxy, name, LastHolder(e.survivors, name).value)
  {
    hide Inv, Consistent, Has, Enabled, Next;
    AcceptedRecovery(w, e, name);
    LastHolderHolds(e.survivors, name);
    NamesHas(w.s.proxy.file, SvcBackend(name));
  }

  // ---- after any run ----

  /** After a run in which no reload signal was lost, redeployments with any config included. */
  lemma RecoveryAfterReloads(file: seq<Service>, events: seq<Event>, e: Event, name: string)
    requires forall i :: 0 <= i < |events| ==> Reloadable(events[i])
    requires e.Restart? && Enabled(Run(Empty(file), events), e) && AllAccepted(e.verdicts)
    requires LastHolder(e.survivors, name).Some?
    ensures ServedAt(Next(Run(Empty(file), events), e).s.proxy, name, LastHolder(e.survivors, name).value)
  {
    hide Inv, Consistent, UpToDate, Enabled, Next, AllAccepted, Reloadable;
    EveryRunInv(file, events);
    EmptyConsistent(file);
    RunConsistent(Empty(file), events);
    EveryRunUpToDate(file, events);
    RecoveryComplete(Run(Empty(file), events), e, name);
  }

  /** After a run without redeployment, and with any verdicts before and during recovery: every held service
      is served at the address of its last holder. */
  lemma RecoveryAfterAnyRun(file: seq<Service>, events: seq<Event>, e: Event, name: string)
    requires forall i :: 0 <= i < |events| ==> !events[i].Redeploy?
    requires e.Restart? && Enabled(Run(Empty(file), events), e)
    requires LastHolder(e.survivors, name).Some?
    ensures ServedAt(Next(Run(Empty(file), events), e).s.proxy, name, LastHolder(e.survivors, name).value)
  {
    var w := Run(Empty(file), events);
    EmptyInv(file);
    EmptyConsistent(file);
    EveryRunInv(file, events);
    RunConsistent(Empty(file), events);
    HeldServicesRun(Empty(file), events);
    LastHolderHolds(e.survivors, name);
    var i :| 0 <= i < |e.survivors| && Serves(e.survivors[i], name);
    SurvivorInMemory(w, e, i);
    hide Inv, Consistent, Next, ReloadsWith;
    RecoveryExactly(w, e, name);
  }

  lemma SurvivorInMemory(w: World, e: Event, i: nat)
    requires Inv(w) && Enabled(w, e) && e.Restart? && i < |e.survivors|
    ensures var v := e.survivors[i];
            v.id in w.s.volunteers && w.s.volunteers[v.id].service == v.service && w.s.volunteers[v.id].info == v.info
  {
    RestartRestores(w, e);
    var v := e.survivors[i];
    assert v.id in LoadAll(Pruned(w.s.db)) && LoadAll(Pruned(w.s.db))[v.id] == v;
    RevivedAt(w.s, v.id, e.now);
  }
}
