/** What the registrar knows, told from the events alone: every field of a volunteer in memory is what the
    latest event about it has brought, and every service comes from an accepted registration. */
module RegistrarRecords {
  import opened Text
  import opened Config
  import opened Options
  import opened Proxy
  import opened Store
  import opened Registrar
  import opened RegistrarRuns
  import opened RegistrarServices

  // ---- the history of a run ----

  /** The events of a run that took place. */
  ghost function Took(w: World, events: seq<Event>): seq<Event>
    decreases |events|
  {
    if events == [] then []
    else (if Enabled(w, events[0]) then [events[0]] else []) + Took(Step(w, events[0]), events[1..])
  }

  /** What the latest event that says anything has said. */
  function Latest<T>(es: seq<Event>, says: Event -> Option<T>): Option<T> {
    if es == [] then None
    else if says(es[|es| - 1]).Some? then says(es[|es| - 1])
    else Latest(es[..|es| - 1], says)
  }

  lemma LatestSnoc<T>(es: seq<Event>, e: Event, says: Event -> Option<T>)
    ensures Latest(es + [e], says) == if says(e).Some? then says(e) else Latest(es, says)
  {
    var more := es + [e];
    assert more[..|more| - 1] == es;
  }

  predicate Enrolls(e: Event, id: nat) {
    e.Enroll? && EnrolledId(e.existing, e.newId) == id
  }

  predicate BeatOf(e: Event, id: nat) {
    e.Heartbeat? && e.id == id
  }

  function ContactIn(e: Event, id: nat): Option<int> {
    if Enrolls(e, id) || BeatOf(e, id) || e.Restart? then Some(e.now) else None
  }

  function EnrolledIn(e: Event, id: nat): Option<int> {
    if Enrolls(e, id) then Some(e.now) else None
  }

  function InfoIn(e: Event, id: nat): Option<Info> {
    if Enrolls(e, id) then Some(e.info) else None
  }

  function AddressIn(e: Event, id: nat): Option<string> {
    if Enrolls(e, id) then Some(e.info.serviceAddr)
    else if e.SetPort? && e.id == id then Some(e.addr)
    else None
  }

  function MetricsIn(e: Event, id: nat): Option<Metrics> {
    if Enrolls(e, id) then Some(Metrics(0.0, 0.0, 0.0, 0))
    else if BeatOf(e, id) then Some(e.beat.metrics)
    else None
  }

  function RunningIn(e: Event, id: nat): Option<Option<bool>> {
    if Enrolls(e, id) || e.Restart? then Some(None)
    else if BeatOf(e, id) && e.beat.running.Some? then Some(e.beat.running)
    else None
  }

  function ImageIn(e: Event, id: nat): Option<Option<string>> {
    if Enrolls(e, id) || e.Restart? then Some(None)
    else if BeatOf(e, id) && e.beat.image.Some? then Some(e.beat.image)
    else None
  }

  function LastContact(es: seq<Event>, id: nat): Option<int> {
    Latest(es, e => ContactIn(e, id))
  }

  function LastEnrolled(es: seq<Event>, id: nat): Option<int> {
    Latest(es, e => EnrolledIn(e, id))
  }

  function LastInfo(es: seq<Event>, id: nat): Option<Info> {
    Latest(es, e => InfoIn(e, id))
  }

  function LastAddress(es: seq<Event>, id: nat): Option<string> {
    Latest(es, e => AddressIn(e, id))
  }

  function LastMetrics(es: seq<Event>, id: nat): Option<Metrics> {
    Latest(es, e => MetricsIn(e, id))
  }

  function LastRunning(es: seq<Event>, id: nat): Option<Option<bool>> {
    Latest(es, e => RunningIn(e, id))
  }

  function LastImage(es: seq<Event>, id: nat): Option<Option<string>> {
    Latest(es, e => ImageIn(e, id))
  }

  /** The history up to the latest event that writes the volunteer's row. */
  function Written(es: seq<Event>, id: nat): seq<Event> {
    if es == [] then []
    else
      var e := es[|es| - 1];
      if Enrolls(e, id) || BeatOf(e, id) || (e.SetPort? && e.id == id) then es else Written(es[..|es| - 1], id)
  }

  /** The volunteer is as the events tell. */
  predicate Told(es: seq<Event>, id: nat, v: Volunteer) {
    && LastContact(es, id) == Some(v.lastHeartbeat) && LastEnrolled(es, id) == Some(v.enrolledAt)
    && LastAddress(es, id) == Some(v.info.serviceAddr)
    && LastInfo(es, id).Some? && v.info == LastInfo(es, id).value.(serviceAddr := v.info.serviceAddr)
    && LastMetrics(es, id) == Some(v.metrics)
    && LastRunning(es, id) == Some(v.running) && LastImage(es, id) == Some(v.image)
  }

  /** The service was given by an event of its time: its own registration, or an enrollment. */
  predicate GivenBy(e: Event, id: nat, a: Assignment) {
    && (e.Register? || e.Enroll?) && e.now == a.assignedAt
    && if e.Register? then e.choice == Some(id) && Asked(e.request) == Served(a) else Enrolls(e, id)
  }

  ghost predicate Given(es: seq<Event>, id: nat, a: Assignment) {
    exists i :: 0 <= i < |es| && GivenBy(es[i], id, a)
  }

  /** Memory and table are as the events tell. */
  ghost predicate AllTold(s: State, es: seq<Event>) {
    && (forall id :: id in s.volunteers ==> Told(es, id, s.volunteers[id]))
    && (forall id :: id in s.volunteers && id in s.db.volunteers ==>
          LastContact(Written(es, id), id) == Some(s.db.volunteers[id].lastHeartbeat))
    && (forall id :: id in s.volunteers && s.volunteers[id].service.Some? ==> Given(es, id, s.volunteers[id].service.value))
  }

  // ---- one step ----

  /** What one event says about a volunteer that it finds, and what the volunteer becomes. */
  predicate Becomes(v: Volunteer, e: Event, u: Volunteer) {
    && u.id == v.id
    && u.lastHeartbeat == (if ContactIn(e, v.id).Some? then ContactIn(e, v.id).value else v.lastHeartbeat)
    && u.enrolledAt == (if EnrolledIn(e, v.id).Some? then EnrolledIn(e, v.id).value else v.enrolledAt)
    && u.info.serviceAddr == (if AddressIn(e, v.id).Some? then AddressIn(e, v.id).value else v.info.serviceAddr)
    && u.info == (if Enrolls(e, v.id) then e.info else v.info).(serviceAddr := u.info.serviceAddr)
    && u.metrics == (if MetricsIn(e, v.id).Some? then MetricsIn(e, v.id).value else v.metrics)
    && u.running == (if RunningIn(e, v.id).Some? then RunningIn(e, v.id).value else v.running)
    && u.image == (if ImageIn(e, v.id).Some? then ImageIn(e, v.id).value else v.image)
  }

  lemma SnocAll(es: seq<Event>, e: Event, id: nat)
    ensures LastContact(es + [e], id) == if ContactIn(e, id).Some? then ContactIn(e, id) else LastContact(es, id)
    ensures LastEnrolled(es + [e], id) == if EnrolledIn(e, id).Some? then EnrolledIn(e, id) else LastEnrolled(es, id)
    ensures LastInfo(es + [e], id) == if InfoIn(e, id).Some? then InfoIn(e, id) else LastInfo(es, id)
    ensures LastAddress(es + [e], id) == if AddressIn(e, id).Some? then AddressIn(e, id) else LastAddress(es, id)
    ensures LastMetrics(es + [e], id) == if MetricsIn(e, id).Some? then MetricsIn(e, id) else LastMetrics(es, id)
    ensures LastRunning(es + [e], id) == if RunningIn(e, id).Some? then RunningIn(e, id) else LastRunning(es, id)
    ensures LastImage(es + [e], id) == if ImageIn(e, id).Some? then ImageIn(e, id) else LastImage(es, id)
  {
    hide ContactIn, EnrolledIn, InfoIn, AddressIn, MetricsIn, RunningIn, ImageIn, Latest;
    LatestSnoc(es, e, x => ContactIn(x, id));
    LatestSnoc(es, e, x => EnrolledIn(x, id));
    LatestSnoc(es, e, x => InfoIn(x, id));
    LatestSnoc(es, e, x => AddressIn(x, id));
    LatestSnoc(es, e, x => MetricsIn(x, id));
    LatestSnoc(es, e, x => RunningIn(x, id));
    LatestSnoc(es, e, x => ImageIn(x, id));
  }

  predicate Writes(e: Event, id: nat) {
    Enrolls(e, id) || BeatOf(e, id) || (e.SetPort? && e.id == id)
  }

  /** What a step makes of a volunteer and its row. A new one takes every field from its enrollment. */
  ghost predicate Carries(s: State, e: Event, t: State, id: nat)
    requires id in t.volunteers
  {
    var u := t.volunteers[id];
    && (id !in s.volunteers ==> Enrolls(e, id))
    && Becomes(if id in s.volunteers then s.volunteers[id] else u, e, u)
    && id in t.db.volunteers
    && (Writes(e, id) ==> t.db.volunteers[id].lastHeartbeat == u.lastHeartbeat)
    && (!Writes(e, id) ==> id in s.db.volunteers && t.db.volunteers[id] == s.db.volunteers[id])
    && (u.service.Some? ==> (id in s.volunteers && s.volunteers[id].service == u.service) || GivenBy(e, id, u.service.value))
  }

  /** An event that says nothing about the volunteer but, at most, gives it a service. */
  predicate Silent(e: Event, id: nat) {
    !Writes(e, id) && !e.Restart?
  }

  lemma KeptCarries(s: State, e: Event, t: State, id: nat)
    requires id in s.volunteers && id in t.volunteers && id in s.db.volunteers && id in t.db.volunteers
    requires s.volunteers[id].id == id && Silent(e, id)
    requires t.volunteers[id] == s.volunteers[id].(service := t.volunteers[id].service)
    requires t.volunteers[id].service == s.volunteers[id].service
             || (t.volunteers[id].service.Some? && GivenBy(e, id, t.volunteers[id].service.value))
    requires t.db.volunteers[id] == s.db.volunteers[id]
    ensures Carries(s, e, t, id)
  {
    hide GivenBy;
  }

  lemma FiledRow(w: World, id: nat)
    requires Inv(w) && id in w.s.volunteers
    ensures id in w.s.db.volunteers && w.s.volunteers[id].id == id
  {
  }

  lemma DequeuedNew(s: State, id: nat, info: Info, now: int, verdict: Verdict)
    ensures var t := Dequeued(s, id, info, now, verdict);
            && id in t.volunteers && t.volunteers == s.volunteers[id := t.volunteers[id]]
            && t.volunteers[id] == NewVolunteer(id, info, now, t.volunteers[id].service)
            && t.db.volunteers == s.db.volunteers[id := ToRow(t.volunteers[id])]
            && (t.volunteers[id].service.Some? ==> t.volunteers[id].service.value.assignedAt == now)
  {
    hide Assigned, AssignOk, Upserted;
  }

  lemma EnrolledNew(s: State, e: Event)
    requires e.Enroll?
    ensures var t, id := Enrolled(s, e.existing, e.info, e.newId, e.now, e.verdict), EnrolledId(e.existing, e.newId);
            && id in t.volunteers && t.volunteers == s.volunteers[id := t.volunteers[id]]
            && t.volunteers[id] == NewVolunteer(id, e.info, e.now, t.volunteers[id].service)
            && t.db.volunteers == s.db.volunteers[id := ToRow(t.volunteers[id])]
            && (t.volunteers[id].service.Some? ==>
                  || (e.existing.Some? && t.volunteers[id].service == ServiceOf(s, id))
                  || t.volunteers[id].service.value.assignedAt == e.now)
  {
    hide Dequeued, Assigned, Upserted, ServiceOf;
    var id := EnrolledId(e.existing, e.newId);
    DequeuedNew(s, id, e.info, e.now, e.verdict);
  }

  lemma EnrollCarries(w: World, e: Event, id: nat)
    requires Inv(w) && Enabled(w, e) && e.Enroll? && id in Next(w, e).s.volunteers
    ensures Carries(w.s, e, Next(w, e).s, id)
  {
    KnownInMemory(w, e.info.hostname, e.existing);
    EnrolledNew(w.s, e);
    var s, mine := w.s, EnrolledId(e.existing, e.newId);
    assert e.existing.Some? ==> mine in s.volunteers && ServiceOf(s, mine) == s.volunteers[mine].service;
    if id != mine {
      FiledRow(w, id);
      hide Inv, Enabled, Enrolled, ServiceOf, Carries;
      KeptCarries(s, e, Next(w, e).s, id);
    } else {
      if id in s.volunteers {
        FiledRow(w, id);
      }
      hide Inv, Enabled, Enrolled, ServiceOf;
    }
  }

  lemma RestartCarries(w: World, e: Event, id: nat)
    requires Inv(w) && Enabled(w, e) && e.Restart? && id in Next(w, e).s.volunteers
    ensures Carries(w.s, e, Next(w, e).s, id)
  {
    RestartRestores(w, e);
    Filed(w, id);
    hide Inv, RestartStep, Enabled;
  }

  lemma SweepCarries(w: World, e: Event, id: nat)
    requires Inv(w) && Enabled(w, e) && e.Sweep? && id in Next(w, e).s.volunteers
    ensures Carries(w.s, e, Next(w, e).s, id)
  {
    SweepLeaves(w.s, e.dead, e.now);
    SweepRows(w.s, e.dead, e.now);
    FiledRow(w, id);
    var s, t := w.s, Next(w, e).s;
    hide SweepStep, Enabled, Inv, Carries, Lists, DeadOf;
    assert id in t.db.volunteers && t.db.volunteers[id] == s.db.volunteers[id];
    hide Next;
    KeptCarries(s, e, t, id);
  }

  lemma {:induction false} SweepRows(s: State, dead: seq<Volunteer>, now: int)
    ensures SweepStep(s, dead, now).db.volunteers == s.db.volunteers - set i | 0 <= i < |dead| :: dead[i].id
    decreases |dead|
  {
    if dead != [] {
      SweepRows(Evicted(s, dead[0], now), dead[1..], now);
      var ids, rest := set i | 0 <= i < |dead| :: dead[i].id, set i | 0 <= i < |dead[1..]| :: dead[1..][i].id;
      assert dead == [dead[0]] + dead[1..];
      assert ids == rest + {dead[0].id};
    } else {
      assert s.db.volunteers - {} == s.db.volunteers;
    }
  }

  lemma BeatCarries(w: World, e: Event, id: nat)
    requires Inv(w) && e.Heartbeat? && id in Next(w, e).s.volunteers
    ensures Carries(w.s, e, Next(w, e).s, id)
  {
    FiledRow(w, id);
    hide Inv, Weight, Reweighted, AddedOnce;
    if e.id in w.s.volunteers && e.id == id {
      assert Next(w, e).s.volunteers[id] == Beaten(w.s.volunteers[id], e.beat, e.now);
    } else {
      hide Carries;
      KeptCarries(w.s, e, Next(w, e).s, id);
    }
  }

  lemma SetPortCarries(w: World, e: Event, id: nat)
    requires Inv(w) && e.SetPort? && id in Next(w, e).s.volunteers
    ensures Carries(w.s, e, Next(w, e).s, id)
  {
    FiledRow(w, id);
    if e.id in w.s.volunteers {
      FiledRow(w, e.id);
    }
    hide Inv, Moved;
    if !(e.id in w.s.volunteers && e.id == id) {
      hide Carries;
      KeptCarries(w.s, e, Next(w, e).s, id);
    }
  }

  lemma RegisterCarries(w: World, e: Event, id: nat)
    requires Inv(w) && Enabled(w, e) && id in Next(w, e).s.volunteers && e.Register?
    ensures Carries(w.s, e, Next(w, e).s, id)
  {
    var s, t := w.s, Next(w, e).s;
    assert t.db.volunteers == s.db.volunteers;
    assert t.volunteers.Keys == s.volunteers.Keys;
    FiledRow(w, id);
    RegisteredGives(s, e);
    hide Inv, Enabled, Next, Carries, GivenBy, Writes;
    RegisterSilent(e, id);
    KeptCarries(s, e, t, id);
  }

  lemma RegisterSilent(e: Event, id: nat)
    requires e.Register?
    ensures Silent(e, id)
  {
  }

  lemma RegisteredGives(s: State, e: Event)
    requires e.Register? && (e.choice.Some? ==> e.choice.value in s.volunteers)
    ensures var t := RegisterStep(s, e.choice, e.request, e.now, e.verdict);
            forall id :: id in t.volunteers ==>
              && id in s.volunteers
              && t.volunteers[id] == s.volunteers[id].(service := t.volunteers[id].service)
              && (t.volunteers[id].service == s.volunteers[id].service
                  || (t.volunteers[id].service.Some? && GivenBy(e, id, t.volunteers[id].service.value)))
  {
    hide Assigned, AssignOk;
  }

  lemma OthersCarry(w: World, e: Event, id: nat)
    requires Inv(w) && Enabled(w, e) && id in Next(w, e).s.volunteers
    requires e.Disconnect? || e.ProxyRestart? || e.Redeploy?
    ensures Carries(w.s, e, Next(w, e).s, id)
  {
    FiledRow(w, id);
    hide Inv, Dropped, Carries, Reloaded, Shipped;
    var s, t := w.s, Next(w, e).s;
    assert t.volunteers[id] == s.volunteers[id] && id in t.db.volunteers && t.db.volunteers[id] == s.db.volunteers[id];
    hide Next, Enabled;
    KeptCarries(s, e, t, id);
  }

  lemma StepCarries(w: World, e: Event, id: nat)
    requires Inv(w) && Enabled(w, e) && id in Next(w, e).s.volunteers
    ensures Carries(w.s, e, Next(w, e).s, id)
  {
    hide Inv, Enabled, Next, Carries;
    if e.Enroll? {
      EnrollCarries(w, e, id);
    } else if e.Restart? {
      RestartCarries(w, e, id);
    } else if e.Sweep? {
      SweepCarries(w, e, id);
    } else if e.Heartbeat? {
      BeatCarries(w, e, id);
    } else if e.SetPort? {
      SetPortCarries(w, e, id);
    } else if e.Register? {
      RegisterCarries(w, e, id);
    } else {
      OthersCarry(w, e, id);
    }
  }

  lemma ToldOn(es: seq<Event>, e: Event, id: nat, v: Volunteer, u: Volunteer)
    requires u.id == id && v.id == id && Becomes(v, e, u) && (Told(es, id, v) || Enrolls(e, id))
    ensures Told(es + [e], id, u)
  {
    SnocAll(es, e, id);
    hide LastContact, LastEnrolled, LastInfo, LastAddress, LastMetrics, LastRunning, LastImage;
  }

  lemma WrittenOn(es: seq<Event>, e: Event, id: nat)
    ensures Written(es + [e], id) == if Writes(e, id) then es + [e] else Written(es, id)
  {
    var more := es + [e];
    assert more[..|more| - 1] == es;
  }

  lemma GivenOn(es: seq<Event>, e: Event, id: nat, a: Assignment)
    requires Given(es, id, a) || GivenBy(e, id, a)
    ensures Given(es + [e], id, a)
  {
    hide GivenBy;
    var more := es + [e];
    if Given(es, id, a) {
      var i :| 0 <= i < |es| && GivenBy(es[i], id, a);
      assert more[i] == es[i];
    } else {
      assert more[|es|] == e;
    }
  }

  lemma StepTold(w: World, e: Event, es: seq<Event>)
    requires Inv(w) && Enabled(w, e) && AllTold(w.s, es)
    ensures AllTold(Next(w, e).s, es + [e])
  {
    var s, t, more := w.s, Next(w, e).s, es + [e];
    assert s.db.volunteers.Keys == s.volunteers.Keys;
    StepInv(w, e);
    hide Enabled, Next, Inv, Told, Given, GivenBy, Becomes, LastContact, Written;
    forall id | id in t.volunteers
      ensures Told(more, id, t.volunteers[id])
      ensures id in t.db.volunteers && LastContact(Written(more, id), id) == Some(t.db.volunteers[id].lastHeartbeat)
      ensures t.volunteers[id].service.Some? ==> Given(more, id, t.volunteers[id].service.value)
    {
      StepCarries(w, e, id);
      var u := t.volunteers[id];
      var v := if id in s.volunteers then s.volunteers[id] else u;
      assert u.id == id && v.id == id by { BecomesFiled(w, e, id); }
      ToldOn(es, e, id, v, u);
      WrittenOn(es, e, id);
      assert LastContact(more, id) == Some(u.lastHeartbeat) by { ToldContact(more, id, u); }
      if u.service.Some? {
        GivenOn(es, e, id, u.service.value);
      }
    }
  }

  lemma ToldContact(es: seq<Event>, id: nat, v: Volunteer)
    requires Told(es, id, v)
    ensures LastContact(es, id) == Some(v.lastHeartbeat)
  {
  }

  lemma BecomesFiled(w: World, e: Event, id: nat)
    requires Inv(w) && Enabled(w, e) && id in Next(w, e).s.volunteers
    ensures Next(w, e).s.volunteers[id].id == id && (id in w.s.volunteers ==> w.s.volunteers[id].id == id)
  {
    assert Step(w, e) == Next(w, e);
    StepInv(w, e);
    hide Next, Enabled, Step;
    Filed(Next(w, e), id);
    if id in w.s.volunteers {
      Filed(w, id);
    }
  }

  // ---- every run ----

  lemma {:induction false} RunTold(w: World, events: seq<Event>, es: seq<Event>)
    requires Inv(w) && AllTold(w.s, es)
    ensures AllTold(Run(w, events).s, es + Took(w, events))
    decreases |events|
  {
    if events == [] {
      assert es + [] == es;
    } else {
      hide Inv, AllTold, Enabled, Next;
      var e, t := events[0], Step(w, events[0]);
      var first := if Enabled(w, e) then [e] else [];
      StepInv(w, e);
      if Enabled(w, e) {
        StepTold(w, e, es);
      } else {
        assert es + first == es;
      }
      hide Step;
      RunTold(t, events[1..], es + first);
      Assoc(es, first, Took(t, events[1..]));
    }
  }

  /** Over every run: contact and enrollment times, address, handshake data, metrics and flags of each
      volunteer in memory are those of the latest event that brought them; its row has the contact time
      of its last write. */
  lemma EveryRunTold(file: seq<Service>, events: seq<Event>, id: nat)
    requires id in Run(Empty(file), events).s.volunteers
    ensures var s, es := Run(Empty(file), events).s, Took(Empty(file), events);
            && Told(es, id, s.volunteers[id]) && id in s.db.volunteers
            && s.db.volunteers[id].info.serviceAddr == s.volunteers[id].info.serviceAddr
            && LastContact(Written(es, id), id) == Some(s.db.volunteers[id].lastHeartbeat)
            && (s.volunteers[id].service.Some? ==> Given(es, id, s.volunteers[id].service.value))
  {
    EmptyInv(file);
    EveryRunInv(file, events);
    RunTold(Empty(file), events, []);
    assert [] + Took(Empty(file), events) == Took(Empty(file), events);
    var s := Run(Empty(file), events).s;
    assert SameRow(s.db.volunteers[id], s.volunteers[id]);
  }

  // ---- who is alive ----

  /** Over every run, a sweep evicts exactly the volunteers whose last contact, by enrollment, heartbeat or
      restart, is at least 45 seconds old. */
  lemma SweepExactly(file: seq<Service>, events: seq<Event>, dead: seq<Volunteer>, now: int)
    requires Enabled(Run(Empty(file), events), Sweep(dead, now))
    ensures var s, es := Run(Empty(file), events).s, Took(Empty(file), events);
            && (forall i :: 0 <= i < |dead| ==> dead[i].id in s.volunteers)
            && forall id :: id in s.volunteers ==>
                 && LastContact(es, id).Some?
                 && ((exists i :: 0 <= i < |dead| && dead[i].id == id) <==> now - LastContact(es, id).value >= 45000)
                 && (id in Next(Run(Empty(file), events), Sweep(dead, now)).s.volunteers
                     <==> now - LastContact(es, id).value < 45000)
  {
    var w, es := Run(Empty(file), events), Took(Empty(file), events);
    var s := w.s;
    SweepLeaves(s, dead, now);
    forall id | id in s.volunteers
      ensures LastContact(es, id).Some?
      ensures (exists i :: 0 <= i < |dead| && dead[i].id == id) <==> now - LastContact(es, id).value >= 45000
    {
      EveryRunTold(file, events, id);
      assert id in DeadOf(s, now) <==> now - s.volunteers[id].lastHeartbeat >= 45000;
    }
    hide LastContact, SweepStep;
  }

  /** A volunteer that a registration may get: it serves nothing, and its last contact is recent. */
  ghost predicate Available(s: State, es: seq<Event>, id: nat, now: int) {
    id in s.volunteers && HeldBy(s.volunteers[id]) == multiset{} && LastContact(es, id).Some?
    && now - LastContact(es, id).value < 45000
  }

  lemma AvailableFree(file: seq<Service>, events: seq<Event>, id: nat, now: int)
    ensures var s, es := Run(Empty(file), events).s, Took(Empty(file), events);
            && (Available(s, es, id, now) <==> id in s.volunteers && IsFree(s.volunteers[id], now))
            && (id in s.volunteers ==> LastMetrics(es, id) == Some(s.volunteers[id].metrics))
  {
    if id in Run(Empty(file), events).s.volunteers {
      EveryRunTold(file, events, id);
    }
    hide LastContact, LastMetrics, Run, Took, LastEnrolled, LastInfo, LastAddress, LastRunning, LastImage, Given;
  }

  /** Over every run, a registration is queued exactly when no volunteer is available, and otherwise goes to
      one whose latest metrics weigh most. */
  lemma RegisterPicks(file: seq<Service>, events: seq<Event>, e: Event)
    requires e.Register? && Enabled(Run(Empty(file), events), e)
    ensures var s, es := Run(Empty(file), events).s, Took(Empty(file), events);
            && (e.choice.None? <==> forall id: nat :: !Available(s, es, id, e.now))
            && (e.choice.Some? ==>
                  && Available(s, es, e.choice.value, e.now)
                  && forall id: nat :: Available(s, es, id, e.now) ==>
                       && LastMetrics(es, id).Some? && LastMetrics(es, e.choice.value).Some?
                       && Weight(LastMetrics(es, id).value) <= Weight(LastMetrics(es, e.choice.value).value))
  {
    var s, es := Run(Empty(file), events).s, Took(Empty(file), events);
    assert BestFree(s, e.now, e.choice);
    hide Available, IsFree, LastMetrics, Run, Took, Weight;
    match e.choice
    case None =>
      forall id: nat ensures !Available(s, es, id, e.now) {
        AvailableFree(file, events, id, e.now);
      }
    case Some(best) =>
      AvailableFree(file, events, best, e.now);
      forall id: nat | Available(s, es, id, e.now)
        ensures LastMetrics(es, id).Some? && LastMetrics(es, best).Some?
                && Weight(LastMetrics(es, id).value) <= Weight(LastMetrics(es, best).value)
      {
        AvailableFree(file, events, id, e.now);
      }
  }

  // ---- where services come from ----

  /** The registrations that were accepted, in order. */
  ghost function Accepted(w: World, events: seq<Event>): seq<Spec>
    decreases |events|
  {
    if events == [] then []
    else
      var e := events[0];
      (if Enabled(w, e) && e.Register? && RegisterOk(w.s, e.choice, e.request, e.verdict) then [Asked(e.request)] else [])
      + Accepted(Step(w, e), events[1..])
  }

  lemma {:induction false} AcceptedGrow(w: World, events: seq<Event>)
    ensures Run(w, events).accepted == w.accepted + multiset(Accepted(w, events))
    decreases |events|
  {
    if events != [] {
      var e, t := events[0], Step(w, events[0]);
      var first := if Enabled(w, e) && e.Register? && RegisterOk(w.s, e.choice, e.request, e.verdict)
                   then [Asked(e.request)] else [];
      AcceptedStep(w, e);
      hide Step, RegisterOk, Enabled;
      AcceptedGrow(t, events[1..]);
      assert multiset(first + Accepted(t, events[1..])) == multiset(first) + multiset(Accepted(t, events[1..]));
    }
  }

  lemma AcceptedStep(w: World, e: Event)
    ensures Step(w, e).accepted == w.accepted + multiset(
      if Enabled(w, e) && e.Register? && RegisterOk(w.s, e.choice, e.request, e.verdict) then [Asked(e.request)] else [])
  {
  }

  /** Over every run, what a volunteer serves is an accepted registration. With the answers of the enrollment
      and heartbeat handlers, a volunteer is told the image and port that were registered. */
  lemma ServedWasAccepted(file: seq<Service>, events: seq<Event>, id: nat, spec: Spec)
    requires var s := Run(Empty(file), events).s; id in s.volunteers && spec in HeldBy(s.volunteers[id])
    ensures spec in Accepted(Empty(file), events)
  {
    var w := Run(Empty(file), events);
    ServicesConserved(file, events);
    AcceptedGrow(Empty(file), events);
    HeldAt(w.s.volunteers, id);
    hide HeldBy, Held, Waiting;
    assert spec in w.accepted;
  }

  /** Its time of waiting is that of the registration, or of the eviction that queued it again. */
  predicate QueuedBy(e: Event, p: Pending) {
    (e.Register? && e.choice.None? && Asked(e.request) == Asked(p) && p.registeredAt == e.now)
    || (e.Sweep? && p.registeredAt == e.now)
  }

  ghost predicate AllQueued(ps: seq<Pending>, es: seq<Event>) {
    forall p :: p in ps ==> exists i :: 0 <= i < |es| && QueuedBy(es[i], p)
  }

  lemma QueuedOn(ps: seq<Pending>, qs: seq<Pending>, es: seq<Event>, e: Event)
    requires AllQueued(ps, es) && forall p :: p in qs ==> p in ps || QueuedBy(e, p)
    ensures AllQueued(qs, es + [e])
  {
    hide QueuedBy;
    var more := es + [e];
    forall p | p in qs ensures exists i :: 0 <= i < |more| && QueuedBy(more[i], p) {
      if p in ps {
        var i :| 0 <= i < |es| && QueuedBy(es[i], p);
        assert more[i] == es[i];
      } else {
        assert more[|es|] == e;
      }
    }
  }

  lemma {:induction false} SweepQueues(s: State, dead: seq<Volunteer>, now: int)
    ensures forall p :: p in SweepStep(s, dead, now).pending ==> p in s.pending || p.registeredAt == now
    decreases |dead|
  {
    if dead != [] {
      SweepQueues(Evicted(s, dead[0], now), dead[1..], now);
    }
  }

  lemma StepQueues(w: World, e: Event)
    requires Enabled(w, e)
    ensures forall p :: p in Next(w, e).s.pending ==> p in w.s.pending || QueuedBy(e, p)
  {
    if e.Sweep? {
      SweepQueues(w.s, e.dead, e.now);
    }
    hide Enabled, Weight, Moved, Assigned, AssignOk, ServiceOf, PassOne, PassTwo, SweepStep, Upserted;
  }

  lemma {:induction false} RunQueued(w: World, events: seq<Event>, es: seq<Event>)
    requires AllQueued(w.s.pending, es)
    ensures AllQueued(Run(w, events).s.pending, es + Took(w, events))
    decreases |events|
  {
    if events == [] {
      assert es + [] == es;
    } else {
      hide AllQueued, Enabled, Next, QueuedBy;
      var e, t := events[0], Step(w, events[0]);
      var first := if Enabled(w, e) then [e] else [];
      if Enabled(w, e) {
        StepQueues(w, e);
        QueuedOn(w.s.pending, t.s.pending, es, e);
      } else {
        assert es + first == es;
      }
      RunQueued(t, events[1..], es + first);
      Assoc(es, first, Took(t, events[1..]));
    }
  }

  /** Over every run, what waits was queued by its registration or by an eviction, and bears that time. */
  lemma EveryRunQueued(file: seq<Service>, events: seq<Event>, p: Pending)
    requires p in Run(Empty(file), events).s.pending
    ensures var es := Took(Empty(file), events);
            exists i :: 0 <= i < |es| && QueuedBy(es[i], p)
  {
    RunQueued(Empty(file), events, []);
    assert [] + Took(Empty(file), events) == Took(Empty(file), events);
  }

  // ---- orphan rows ----

  /** The volunteers that were disconnected while they served something, since the last restart. */
  ghost function Abandoned(w: World, events: seq<Event>, before: set<nat>): set<nat>
    decreases |events|
  {
    if events == [] then before
    else Abandoned(Step(w, events[0]), events[1..], AbandonedBy(w, events[0], before))
  }

  ghost function AbandonedBy(w: World, e: Event, before: set<nat>): set<nat> {
    if !Enabled(w, e) then before
    else match e
      case Disconnect(id) => before + if HeldAtId(w.s, id) != multiset{} then {id} else {}
      case Restart(_, _, _) => {}
      case _ => before
  }

  lemma EnrollOrphans(w: World, e: Event)
    requires Inv(w) && Enabled(w, e) && e.Enroll?
    ensures Orphans(Next(w, e).s.db) == Orphans(w.s.db)
  {
    KnownInMemory(w, e.info.hostname, e.existing);
    var t, v := EnrolledRecords(w.s, e.existing, e.info, e.newId, e.now, e.verdict);
    hide Enrolled, ServersKnown, OneIdPerHost, KnownAs;
  }

  lemma EvictedOrphans(s: State, v: Volunteer, now: int)
    requires Mirrors(s) && v.id in s.volunteers && s.volunteers[v.id] == v
    ensures Orphans(Evicted(s, v, now).db) == Orphans(s.db)
  {
    assert v.service == GetAssignment(s.db, v.id);
    hide Mirrors, Dropped;
  }

  lemma {:induction false} SweepOrphans(w: World, dead: seq<Volunteer>, now: int)
    requires Inv(w) && Listed(dead, w.s.volunteers)
    ensures Orphans(SweepStep(w.s, dead, now).db) == Orphans(w.s.db)
    decreases |dead|
  {
    if dead != [] {
      EvictedInv(w, dead[0], now);
      EvictedOrphans(w.s, dead[0], now);
      EvictedListed(w.s, dead, now);
      hide Inv, Evicted, Listed, Orphans;
      SweepOrphans(w.(s := Evicted(w.s, dead[0], now)), dead[1..], now);
    }
  }

  lemma DisconnectOrphans(w: World, e: Event)
    requires Inv(w) && e.Disconnect?
    ensures Orphans(Next(w, e).s.db) == Orphans(w.s.db) + if HeldAtId(w.s, e.id) != multiset{} then {e.id} else {}
  {
    if e.id in w.s.volunteers {
      assert w.s.volunteers[e.id].service == GetAssignment(w.s.db, e.id);
    }
    hide ServersKnown, OneIdPerHost, Dropped;
  }

  lemma OtherOrphans(w: World, e: Event)
    requires Inv(w) && Enabled(w, e) && !e.Enroll? && !e.Sweep? && !e.Disconnect? && !e.Restart?
    ensures Orphans(Next(w, e).s.db) == Orphans(w.s.db)
  {
    assert forall id :: id in w.s.volunteers ==> w.s.volunteers[id].id == id;
    assert w.s.volunteers.Keys == w.s.db.volunteers.Keys;
    hide Inv, Weight, Moved, Assigned, AssignOk, Reweighted, AddedOnce;
  }

  lemma StepOrphans(w: World, e: Event, before: set<nat>)
    requires Inv(w) && Orphans(w.s.db) == before
    ensures Orphans(Step(w, e).s.db) == AbandonedBy(w, e, before)
  {
    if Enabled(w, e) {
      if e.Enroll? {
        EnrollOrphans(w, e);
      } else if e.Sweep? {
        assert Listed(e.dead, w.s.volunteers);
        SweepOrphans(w, e.dead, e.now);
      } else if e.Disconnect? {
        DisconnectOrphans(w, e);
      } else if e.Restart? {
        RestartRestores(w, e);
      } else {
        OtherOrphans(w, e);
      }
      hide Inv, Enabled, SweepStep, RestartStep, Enrolled;
    }
  }

  lemma {:induction false} RunOrphans(w: World, events: seq<Event>, before: set<nat>)
    requires Inv(w) && Orphans(w.s.db) == before
    ensures Orphans(Run(w, events).s.db) == Abandoned(w, events, before)
    decreases |events|
  {
    if events != [] {
      hide Inv, Step, AbandonedBy, Orphans;
      StepInv(w, events[0]);
      StepOrphans(w, events[0], before);
      RunOrphans(Step(w, events[0]), events[1..], AbandonedBy(w, events[0], before));
    }
  }

  /** Over every run, the only assignment rows without a volunteer are those of volunteers that were
      disconnected while they served something, since the last restart; and all of those are still there. */
  lemma OrphansExactly(file: seq<Service>, events: seq<Event>)
    ensures Orphans(Run(Empty(file), events).s.db) == Abandoned(Empty(file), events, {})
  {
    EmptyInv(file);
    RunOrphans(Empty(file), events, {});
  }
}
