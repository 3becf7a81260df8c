/** The registrar's view of the config file is the collection that the text of the file renders, over every
    run; so the routing of the text and the servers of the proxy join to end-to-end routing. */
module RegistrarText {
  import opened Text
  import opened Config
  import opened ConfigLines
  import opened ConfigRuns
  import opened ConfigEdits
  import opened ConfigShape
  import opened ConfigRouting
  import opened Options
  import opened Proxy
  import opened Store
  import opened Registrar
  import opened RegistrarRuns
  import opened RegistrarProxy
  import opened RegistrarTraffic

  // ---- what the steps write ----

  function PassOneText(content: string, vs: seq<Volunteer>, verdicts: seq<Verdict>): string
    decreases |vs|
  {
    if vs == [] then content
    else
      var a := vs[0].service;
      var next := if a.None? then content
                  else AddText(content, SvcBackend(a.value.serviceName), a.value.domain, VerdictAt(verdicts, 0));
      PassOneText(next, vs[1..], if verdicts == [] then [] else verdicts[1..])
  }

  /** The config text after one step; a deployment brings the shipped text. */
  ghost function TextAfter(w: World, e: Event, shipped: string, content: string): string {
    if !Enabled(w, e) then content
    else match e
      case Enroll(_, existing, _, _, verdict) =>
        var h := Handed(w.s, existing);
        if h.None? then content else AddText(content, SvcBackend(h.value.0), h.value.1, verdict)
      case Register(p, choice, _, verdict) =>
        if choice.None? then content else AddText(content, SvcBackend(p.name), p.domain, verdict)
      case Restart(survivors, _, verdicts) => PassOneText(content, survivors, verdicts)
      case Redeploy(_) => shipped
      case _ => content
  }

  ghost function TextRun(w: World, events: seq<Event>, shipped: string, content: string): string
    decreases |events|
  {
    if events == [] then content
    else TextRun(Step(w, events[0]), events[1..], shipped, TextAfter(w, events[0], shipped, content))
  }

  // ---- which services there are ----

  /** A service that the editor can manage over this base text. */
  predicate Fits(base: seq<string>, name: string, domain: string) {
    var s := Service(SvcBackend(name), domain);
    OkService(s) && Fresh(base, s.name) && RuleUnused(base, s.name)
  }

  predicate AssignmentsFit(base: seq<string>, db: Tables) {
    forall id :: id in db.assignments ==> Fits(base, db.assignments[id].serviceName, db.assignments[id].domain)
  }

  predicate PendingFit(base: seq<string>, ps: seq<Pending>) {
    forall i :: 0 <= i < |ps| ==> Fits(base, ps[i].name, ps[i].domain)
  }

  /** Every service that the registrar knows of fits. */
  predicate AllFit(base: seq<string>, s: State) {
    AssignmentsFit(base, s.db) && PendingFit(base, s.pending)
  }

  lemma HandedFits(base: seq<string>, w: World, e: Event)
    requires Inv(w) && AllFit(base, w.s) && e.Enroll? && Enabled(w, e) && Handed(w.s, e.existing).Some?
    ensures var h := Handed(w.s, e.existing).value; Fits(base, h.0, h.1)
  {
    KnownInMemory(w, e.info.hostname, e.existing);
    hide Fits;
  }

  lemma EnrollFits(base: seq<string>, w: World, e: Event)
    requires Inv(w) && AllFit(base, w.s) && e.Enroll? && Enabled(w, e)
    ensures AllFit(base, Next(w, e).s)
  {
    KnownInMemory(w, e.info.hostname, e.existing);
    hide Fits, Assigned, AssignOk, Upserted, KnownAs, ServersKnown, OneIdPerHost, IdsKnown;
  }

  lemma EvictedFits(base: seq<string>, s: State, v: Volunteer, now: int)
    requires AllFit(base, s) && v.service == GetAssignment(s.db, v.id)
    ensures AllFit(base, Evicted(s, v, now).(volunteers := s.volunteers))
  {
    hide Fits;
  }

  lemma {:induction false} SweepFits(base: seq<string>, w: World, dead: seq<Volunteer>, now: int)
    requires Inv(w) && AllFit(base, w.s) && Listed(dead, w.s.volunteers)
    ensures AllFit(base, SweepStep(w.s, dead, now))
    decreases |dead|
  {
    if dead != [] {
      EvictedFits(base, w.s, dead[0], now);
      EvictedInv(w, dead[0], now);
      hide Inv, Fits;
      SweepFits(base, w.(s := Evicted(w.s, dead[0], now)), dead[1..], now);
    }
  }

  predicate EventFits(base: seq<string>, e: Event) {
    && (e.Register? ==> Fits(base, e.request.name, e.request.domain))
    && (e.Redeploy? ==> e.file == [])
  }

  lemma StepFits(base: seq<string>, w: World, e: Event)
    requires Inv(w) && AllFit(base, w.s) && EventFits(base, e)
    ensures AllFit(base, Step(w, e).s)
  {
    if Enabled(w, e) {
      if e.Enroll? {
        EnrollFits(base, w, e);
      } else if e.Sweep? {
        SweepFits(base, w, e.dead, e.now);
      } else {
        hide Fits, Weight, Assigned, AssignOk, Moved;
      }
    }
  }

  // ---- the text is the rendering ----

  /** The text renders the file of the proxy, whose services all fit. */
  ghost predicate Renders(base: seq<string>, p: View, content: string) {
    && Manages(base, p.file) && Lines(content) == Render(base, p.file)
    && forall i :: 0 <= i < |p.file| ==> RuleUnused(base, p.file[i].name)
  }

  lemma ConfiguredRenders(base: seq<string>, p: View, content: string, name: string, domain: string, verdict: Verdict)
    requires OkBase(base) && Renders(base, p, content) && Fits(base, name, domain)
    ensures Renders(base, Configured(p, name, domain, verdict), AddText(content, SvcBackend(name), domain, verdict))
  {
    hide OkBase, Manages, Lines, Render, OkName, Fresh, AddText, RuleUnused;
    ConfiguredText(p, base, content, name, domain, verdict);
  }

  lemma SameFile(base: seq<string>, p: View, q: View, content: string)
    requires Renders(base, p, content) && q.file == p.file
    ensures Renders(base, q, content)
  {
  }

  lemma {:induction false} PassOneRenders(base: seq<string>, p: View, content: string, vs: seq<Volunteer>, verdicts: seq<Verdict>)
    requires OkBase(base) && Renders(base, p, content)
    requires forall i :: 0 <= i < |vs| && vs[i].service.Some? ==>
      Fits(base, vs[i].service.value.serviceName, vs[i].service.value.domain)
    ensures Renders(base, PassOne(p, vs, verdicts), PassOneText(content, vs, verdicts))
    decreases |vs|
  {
    if vs != [] {
      hide OkBase, Renders, Fits, AddText, Configured;
      var v := vs[0];
      var next := if v.service.None? then content
                  else AddText(content, SvcBackend(v.service.value.serviceName), v.service.value.domain, VerdictAt(verdicts, 0));
      if v.service.Some? {
        ConfiguredRenders(base, p, content, v.service.value.serviceName, v.service.value.domain, VerdictAt(verdicts, 0));
      }
      PassOneRenders(base, ConfiguredFor(p, v, VerdictAt(verdicts, 0)), next, vs[1..],
                     if verdicts == [] then [] else verdicts[1..]);
    }
  }

  lemma {:induction false} PassTwoFile(p: View, vs: seq<Volunteer>)
    ensures PassTwo(p, vs).file == p.file
    decreases |vs|
  {
    if vs != [] {
      PassTwoFile(RestoredFor(p, vs[0]), vs[1..]);
    }
  }

  lemma {:induction false} SweepFile(s: State, dead: seq<Volunteer>, now: int)
    ensures SweepStep(s, dead, now).proxy.file == s.proxy.file
    decreases |dead|
  {
    if dead != [] {
      SweepFile(Evicted(s, dead[0], now), dead[1..], now);
    }
  }

  lemma EnrolledFile(s: State, existing: Option<nat>, info: Info, newId: nat, now: int, verdict: Verdict)
    ensures var h := Handed(s, existing);
            Enrolled(s, existing, info, newId, now, verdict).proxy.file
            == if h.Some? then Configured(s.proxy, h.value.0, h.value.1, verdict).file else s.proxy.file
  {
    hide Configured, ConfigOk, ServiceOf;
  }

  lemma EnrollRenders(base: seq<string>, w: World, e: Event, shipped: string, content: string)
    requires OkBase(base) && Inv(w) && AllFit(base, w.s) && Renders(base, w.s.proxy, content)
    requires e.Enroll? && Enabled(w, e)
    ensures Renders(base, Next(w, e).s.proxy, TextAfter(w, e, shipped, content))
  {
    EnrolledFile(w.s, e.existing, e.info, e.newId, e.now, e.verdict);
    var h := Handed(w.s, e.existing);
    if h.Some? {
      HandedFits(base, w, e);
      hide OkBase, Inv, Enabled, Fits, Renders, AddText, Configured, Enrolled, Handed;
      ConfiguredRenders(base, w.s.proxy, content, h.value.0, h.value.1, e.verdict);
      SameFile(base, Configured(w.s.proxy, h.value.0, h.value.1, e.verdict), Next(w, e).s.proxy,
               AddText(content, SvcBackend(h.value.0), h.value.1, e.verdict));
    } else {
      hide OkBase, Inv, Enabled, Fits, Renders, AddText, Configured, Enrolled;
      SameFile(base, w.s.proxy, Next(w, e).s.proxy, content);
    }
  }

  lemma RegisterRenders(base: seq<string>, w: World, e: Event, shipped: string, content: string)
    requires OkBase(base) && Renders(base, w.s.proxy, content) && EventFits(base, e)
    requires e.Register? && Enabled(w, e)
    ensures Renders(base, Next(w, e).s.proxy, TextAfter(w, e, shipped, content))
  {
    hide OkBase, Fits, Renders, AddText, Configured, Weight;
    if e.choice.Some? {
      var p := e.request;
      ConfiguredRenders(base, w.s.proxy, content, p.name, p.domain, e.verdict);
      SameFile(base, Configured(w.s.proxy, p.name, p.domain, e.verdict), Next(w, e).s.proxy,
               AddText(content, SvcBackend(p.name), p.domain, e.verdict));
    }
  }

  lemma SurvivorsFit(base: seq<string>, w: World, e: Event)
    requires AllFit(base, w.s) && e.Restart? && Enabled(w, e)
    ensures forall i :: 0 <= i < |e.survivors| && e.survivors[i].service.Some? ==>
      Fits(base, e.survivors[i].service.value.serviceName, e.survivors[i].service.value.domain)
  {
    hide Fits;
    forall i | 0 <= i < |e.survivors| && e.survivors[i].service.Some?
      ensures Fits(base, e.survivors[i].service.value.serviceName, e.survivors[i].service.value.domain)
    {
      var v := e.survivors[i];
      assert v.id in LoadAll(Pruned(w.s.db)) && LoadAll(Pruned(w.s.db))[v.id] == v;
      assert v.service == GetAssignment(Pruned(w.s.db), v.id);
    }
  }

  lemma RestartRenders(base: seq<string>, w: World, e: Event, shipped: string, content: string)
    requires OkBase(base) && AllFit(base, w.s) && Renders(base, w.s.proxy, content)
    requires e.Restart? && Enabled(w, e)
    ensures Renders(base, Next(w, e).s.proxy, TextAfter(w, e, shipped, content))
  {
    SurvivorsFit(base, w, e);
    hide OkBase, Fits, Renders, AllFit, Enabled;
    PassOneRenders(base, w.s.proxy, content, e.survivors, e.verdicts);
    PassTwoFile(PassOne(w.s.proxy, e.survivors, e.verdicts), e.survivors);
    SameFile(base, PassOne(w.s.proxy, e.survivors, e.verdicts), Next(w, e).s.proxy, TextAfter(w, e, shipped, content));
  }

  lemma ShippedRenders(shipped: string)
    ensures Renders(Lines(shipped), Shipped([]), shipped)
  {
    RenderLength(Lines(shipped), []);
  }

  lemma OtherRenders(base: seq<string>, w: World, e: Event, shipped: string, content: string)
    requires Renders(base, w.s.proxy, content) && Enabled(w, e)
    requires !e.Enroll? && !e.Register? && !e.Restart? && !e.Redeploy?
    ensures Renders(base, Next(w, e).s.proxy, TextAfter(w, e, shipped, content))
  {
    hide Renders, Weight, Lists, IsAlive;
    if e.Sweep? {
      SweepFile(w.s, e.dead, e.now);
    }
    SameFile(base, w.s.proxy, Next(w, e).s.proxy, content);
  }

  lemma StepRenders(w: World, e: Event, shipped: string, content: string)
    requires OkBase(Lines(shipped)) && Inv(w) && AllFit(Lines(shipped), w.s)
    requires Renders(Lines(shipped), w.s.proxy, content) && EventFits(Lines(shipped), e)
    ensures Renders(Lines(shipped), Step(w, e).s.proxy, TextAfter(w, e, shipped, content))
  {
    if !Enabled(w, e) {
      assert TextAfter(w, e, shipped, content) == content;
    } else if e.Redeploy? {
      hide Lines, OkBase, Inv, AllFit, Renders;
      ShippedRenders(shipped);
    } else {
      var base := Lines(shipped);
      hide Lines, OkBase, Inv, AllFit, Renders, EventFits, Enabled, Next, TextAfter;
      if e.Enroll? {
        EnrollRenders(base, w, e, shipped, content);
      } else if e.Register? {
        RegisterRenders(base, w, e, shipped, content);
      } else if e.Restart? {
        RestartRenders(base, w, e, shipped, content);
      } else {
        OtherRenders(base, w, e, shipped, content);
      }
    }
  }

  /** Over every run the config text is the shipped text with the services of the proxy's file. */
  lemma {:induction false} TextRenders(w: World, events: seq<Event>, shipped: string, content: string)
    requires OkBase(Lines(shipped)) && Inv(w) && AllFit(Lines(shipped), w.s)
    requires Renders(Lines(shipped), w.s.proxy, content)
    requires forall i :: 0 <= i < |events| ==> EventFits(Lines(shipped), events[i])
    ensures Renders(Lines(shipped), Run(w, events).s.proxy, TextRun(w, events, shipped, content))
    decreases |events|
  {
    if events != [] {
      hide Lines, OkBase, Inv, AllFit, Renders, EventFits, Step, TextAfter;
      StepInv(w, events[0]);
      StepFits(Lines(shipped), w, events[0]);
      StepRenders(w, events[0], shipped, content);
      TextRenders(Step(w, events[0]), events[1..], shipped, TextAfter(w, events[0], shipped, content));
    }
  }

  /** From a first deployment on: what the config text says after any run. */
  lemma EveryRunRenders(events: seq<Event>, shipped: string)
    requires OkBase(Lines(shipped))
    requires forall i :: 0 <= i < |events| ==> EventFits(Lines(shipped), events[i])
    ensures Renders(Lines(shipped), Run(Empty([]), events).s.proxy, TextRun(Empty([]), events, shipped, shipped))
  {
    hide Lines, OkBase, Renders, EventFits;
    EmptyInv([]);
    ShippedRenders(shipped);
    TextRenders(Empty([]), events, shipped, shipped);
  }

  // ---- the listing ----

  function FileNames(svcs: seq<Service>): seq<string> {
    seq(|svcs|, i requires 0 <= i < |svcs| => svcs[i].name)
  }

  lemma {:induction false} AllListed(svcs: seq<Service>)
    requires forall i :: 0 <= i < |svcs| ==> StartsWith(svcs[i].name, "svc_")
    ensures SvcNames(svcs) == FileNames(svcs)
  {
    if svcs != [] {
      AllListed(svcs[1..]);
      assert FileNames(svcs) == [svcs[0].name] + FileNames(svcs[1..]);
    }
  }

  /** Every service in the proxy's file is there by a name that the listing looks for. */
  predicate AllSvc(p: View) {
    forall i :: 0 <= i < |p.file| ==> StartsWith(p.file[i].name, "svc_")
  }

  lemma SvcName(name: string)
    ensures StartsWith(SvcBackend(name), "svc_") && SvcBackend(name)[4..] == name
  {
  }

  lemma ConfiguredSvc(p: View, name: string, domain: string, verdict: Verdict)
    requires AllSvc(p)
    ensures AllSvc(Configured(p, name, domain, verdict))
  {
    SvcName(name);
    hide SvcBackend, StartsWith, Has;
  }

  lemma {:induction false} PassOneSvc(p: View, vs: seq<Volunteer>, verdicts: seq<Verdict>)
    requires AllSvc(p)
    ensures AllSvc(PassOne(p, vs, verdicts))
    decreases |vs|
  {
    if vs != [] {
      hide AllSvc, Configured;
      if vs[0].service.Some? {
        ConfiguredSvc(p, vs[0].service.value.serviceName, vs[0].service.value.domain, VerdictAt(verdicts, 0));
      }
      PassOneSvc(ConfiguredFor(p, vs[0], VerdictAt(verdicts, 0)), vs[1..], if verdicts == [] then [] else verdicts[1..]);
    }
  }

  lemma StepSvc(w: World, e: Event)
    requires AllSvc(w.s.proxy) && (e.Redeploy? ==> e.file == [])
    ensures AllSvc(Step(w, e).s.proxy)
  {
    if Enabled(w, e) {
      if e.Enroll? {
        EnrolledFile(w.s, e.existing, e.info, e.newId, e.now, e.verdict);
        if Handed(w.s, e.existing).Some? {
          var h := Handed(w.s, e.existing).value;
          ConfiguredSvc(w.s.proxy, h.0, h.1, e.verdict);
        }
        hide Enabled, Enrolled, Handed, Configured;
      } else if e.Register? {
        if e.choice.Some? {
          ConfiguredSvc(w.s.proxy, e.request.name, e.request.domain, e.verdict);
        }
        hide Configured, BestFree;
      } else if e.Restart? {
        PassOneSvc(w.s.proxy, e.survivors, e.verdicts);
        PassTwoFile(PassOne(w.s.proxy, e.survivors, e.verdicts), e.survivors);
        hide Enabled;
      } else if e.Sweep? {
        SweepFile(w.s, e.dead, e.now);
        hide Enabled;
      } else {
        hide Weight;
      }
    }
  }

  lemma {:induction false} RunSvc(w: World, events: seq<Event>)
    requires AllSvc(w.s.proxy) && forall i :: 0 <= i < |events| && events[i].Redeploy? ==> events[i].file == []
    ensures AllSvc(Run(w, events).s.proxy)
    decreases |events|
  {
    if events != [] {
      hide AllSvc, Step;
      StepSvc(w, events[0]);
      RunSvc(Step(w, events[0]), events[1..]);
    }
  }

  /** After every run the listing of the config text is that of the shipped text, and then the backends of
      all services in the proxy's file, in the order in which they were configured. */
  lemma ListsAllServices(events: seq<Event>, shipped: string)
    requires OkBase(Lines(shipped))
    requires forall i :: 0 <= i < |events| ==> EventFits(Lines(shipped), events[i])
    ensures var p := Run(Empty([]), events).s.proxy;
            && ListServices(TextRun(Empty([]), events, shipped, shipped)) == ListServices(shipped) + FileNames(p.file)
            && forall i :: 0 <= i < |p.file| ==> StartsWith(p.file[i].name, "svc_")
  {
    var p := Run(Empty([]), events).s.proxy;
    EveryRunRenders(events, shipped);
    RunSvc(Empty([]), events);
    hide Lines, OkBase, Fits, Run, TextRun, Render, ListIn, StartsWith, RuleUnused, Fresh;
    ListsExactly(Lines(shipped), p.file);
    AllListed(p.file);
  }

  // ---- end to end ----

  lemma {:induction false} RunAppend(w: World, a: seq<Event>, b: seq<Event>)
    ensures Run(w, a + b) == Run(Run(w, a), b)
    decreases |a|
  {
    if a == [] {
      assert a + b == b;
    } else {
      hide Step;
      assert (a + b)[0] == a[0] && (a + b)[1..] == a[1..] + b;
      RunAppend(Step(w, a[0]), a[1..], b);
    }
  }

  /** End-to-end routing: once a volunteer alone holds a service and the proxy serves it there, then after
      every quiet run a request whose host the service matches most recently is sent by the config text to
      the backend of the service, whose server is ready at the volunteer's current address. */
  lemma RequestsReachVolunteer(before: seq<Event>, after: seq<Event>, shipped: string, id: nat, name: string,
                               header: string, host: string, other: seq<string> -> bool)
    requires OkBase(Lines(shipped)) && Open(Lines(shipped)[..Position(Lines(shipped))], header)
    requires forall i :: 0 <= i < |before + after| ==> EventFits(Lines(shipped), (before + after)[i])
    requires var w := Run(Empty([]), before); Follows(w.s, id, name) && QuietRun(w, after, id, name)
    requires Latest(Run(Empty([]), before + after).s.proxy.file, host) == [SvcBackend(name)]
    ensures var s := Run(Empty([]), before + after).s;
            var text := TextRun(Empty([]), before + after, shipped, shipped);
            && Route(Section(Lines(text), header), host, other) == [SvcBackend(name)]
            && id in s.volunteers && ServedAt(s.proxy, name, s.volunteers[id].info.serviceAddr)
  {
    var events := before + after;
    var w := Run(Empty([]), before);
    var base, p := Lines(shipped), Run(Empty([]), events).s.proxy;
    EveryRunRenders(events, shipped);
    hide Lines, OkBase, EventFits, Route, Section, Open, Latest, Consistent, Inv, Render, Manages, RuleUnused, QuietRun;
    EveryRunInv([], before);
    EmptyConsistent([]);
    RunConsistent(Empty([]), before);
    ServiceFollows(w, after, id, name);
    RunAppend(Empty([]), before, after);
    RenderRoutes(base, p.file, header, host, other);
  }
}
