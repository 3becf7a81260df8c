/** The registrar: volunteers in memory, the queue of services waiting for one, the database and the
    proxy. Each handler, each churn sweep and each restart is one step. */
module Registrar {
  import opened Config
  import opened Options
  import opened Proxy
  import opened Store

  datatype State = State(volunteers: map<nat, Volunteer>, pending: seq<Pending>, db: Tables, proxy: View)

  function OwnKey(id: nat): Key {
    Key(VOLUNTEERS, Named(id))
  }

  function PrimaryOf(name: string): Key {
    Key(SvcBackend(name), Primary)
  }

  predicate Serves(v: Volunteer, name: string) {
    v.service.Some? && v.service.value.serviceName == name
  }

  function ToAssignment(p: Pending, now: int): Assignment {
    Assignment(p.name, p.domain, p.image, p.port, now)
  }

  function ToPending(a: Assignment, now: int): Pending {
    Pending(a.serviceName, a.domain, a.image, a.port, now)
  }

  // ---- enroll ----

  /** The volunteer known under this hostname, in memory or else in the database. */
  ghost predicate KnownAs(s: State, hostname: string, existing: Option<nat>) {
    match existing
    case None =>
      hostname == ""
      || ((forall id :: id in s.volunteers ==> s.volunteers[id].info.hostname != hostname)
          && forall id :: id in s.db.volunteers ==> s.db.volunteers[id].info.hostname != hostname)
    case Some(id) =>
      && hostname != ""
      && ((id in s.volunteers && s.volunteers[id].info.hostname == hostname)
          || (id in s.db.volunteers && s.db.volunteers[id].info.hostname == hostname
              && forall other :: other in s.volunteers ==> s.volunteers[other].info.hostname != hostname))
  }

  function ServiceOf(s: State, id: nat): Option<Assignment> {
    if id in s.volunteers && s.volunteers[id].service.Some? then s.volunteers[id].service else GetAssignment(s.db, id)
  }

  /** The held or waiting service that an enrollment tries to hand to its volunteer, with its domain. */
  function Handed(s: State, existing: Option<nat>): Option<(string, string)> {
    var held := if existing.Some? then ServiceOf(s, existing.value) else None;
    if held.Some? then Some((held.value.serviceName, held.value.domain))
    else if s.pending != [] then Some((s.pending[0].name, s.pending[0].domain))
    else None
  }

  function NewVolunteer(id: nat, info: Info, now: int, service: Option<Assignment>): Volunteer {
    Volunteer(id, info, NO_LOAD, now, now, service, None, None)
  }

  /** Records the volunteer everywhere and makes its server available. */
  function Recorded(s: State, v: Volunteer): State {
    s.(volunteers := s.volunteers[v.id := v],
       db := PutVolunteer(s.db, v),
       proxy := Upserted(s.proxy, OwnKey(v.id), v.info.serviceAddr, 100))
  }

  /** A returning volunteer keeps its service, which follows it to its new address. */
  function Reattached(s: State, id: nat, info: Info, a: Assignment, now: int, verdict: Verdict): State {
    var t := s.(proxy := Assigned(s.proxy, a.serviceName, a.domain, info.serviceAddr, verdict),
                db := PutAssignment(s.db, id, a));
    Recorded(t, NewVolunteer(id, info, now, Some(a)))
  }

  /** A volunteer without a service gets the first of the queue, if the proxy accepts it. */
  function Dequeued(s: State, id: nat, info: Info, now: int, verdict: Verdict): State {
    if s.pending == [] then Recorded(s, NewVolunteer(id, info, now, None))
    else
      var first := s.pending[0];
      var t := s.(proxy := Assigned(s.proxy, first.name, first.domain, info.serviceAddr, verdict));
      if AssignOk(s.proxy, first.name, first.domain, verdict) then
        var a := ToAssignment(first, now);
        Recorded(t.(pending := s.pending[1..], db := PutAssignment(s.db, id, a)), NewVolunteer(id, info, now, Some(a)))
      else Recorded(t, NewVolunteer(id, info, now, None))
  }

  function EnrolledId(existing: Option<nat>, newId: nat): nat {
    if existing.Some? then existing.value else newId
  }

  function Enrolled(s: State, existing: Option<nat>, info: Info, newId: nat, now: int, verdict: Verdict): State {
    var id := EnrolledId(existing, newId);
    var service := if existing.Some? then ServiceOf(s, id) else None;
    if service.Some? then Reattached(s, id, info, service.value, now, verdict)
    else Dequeued(s, id, info, now, verdict)
  }

  // ---- heartbeat ----

  datatype Beat = Beat(metrics: Metrics, running: Option<bool>, image: Option<string>)

  function Beaten(v: Volunteer, b: Beat, now: int): Volunteer {
    v.(metrics := b.metrics, lastHeartbeat := now,
       running := if b.running.Some? then b.running else v.running,
       image := if b.image.Some? then b.image else v.image)
  }

  function HeartbeatStep(s: State, id: nat, b: Beat, now: int): State {
    if id !in s.volunteers then s
    else
      var v := Beaten(s.volunteers[id], b, now);
      s.(volunteers := s.volunteers[id := v],
         db := PutVolunteer(s.db, v),
         proxy := if Lookup(s.proxy, OwnKey(id)).Ok? then Reweighted(s.proxy, OwnKey(id), Weight(b.metrics))
                  else AddedOnce(s.proxy, OwnKey(id), v.info.serviceAddr, Weight(b.metrics)))
  }

  // ---- disconnect, tunnel port ----

  function DisconnectStep(s: State, id: nat): State {
    if id !in s.volunteers then s
    else s.(volunteers := s.volunteers - {id}, db := TakeVolunteer(s.db, id), proxy := Dropped(s.proxy, OwnKey(id)))
  }

  function ServiceName(v: Volunteer): Option<string> {
    if v.service.Some? then Some(v.service.value.serviceName) else None
  }

  function SetPortStep(s: State, id: nat, addr: string): State {
    if id !in s.volunteers then s
    else
      var v := s.volunteers[id].(info := s.volunteers[id].info.(serviceAddr := addr));
      s.(volunteers := s.volunteers[id := v],
         db := PutVolunteer(s.db, v),
         proxy := Moved(s.proxy, id, addr, ServiceName(v)))
  }

  // ---- register ----

  function AliveOf(s: State, now: int): map<nat, Volunteer> {
    map id | id in s.volunteers && IsAlive(s.volunteers[id], now) :: s.volunteers[id]
  }

  predicate IsFree(v: Volunteer, now: int) {
    IsAlive(v, now) && v.service.None?
  }

  /** A free volunteer that no free volunteer outweighs; none only when there is none. */
  ghost predicate BestFree(s: State, now: int, choice: Option<nat>) {
    match choice
    case None => forall id :: id in s.volunteers ==> !IsFree(s.volunteers[id], now)
    case Some(id) =>
      && id in s.volunteers && IsFree(s.volunteers[id], now)
      && forall other :: other in s.volunteers && IsFree(s.volunteers[other], now) ==>
           Weight(s.volunteers[other].metrics) <= Weight(s.volunteers[id].metrics)
  }

  function RegisterOk(s: State, choice: Option<nat>, p: Pending, verdict: Verdict): bool {
    choice.Some? ==> AssignOk(s.proxy, p.name, p.domain, verdict)
  }

  function RegisterStep(s: State, choice: Option<nat>, p: Pending, now: int, verdict: Verdict): State
    requires choice.Some? ==> choice.value in s.volunteers
  {
    match choice
    case None => s.(pending := s.pending + [p.(registeredAt := now)])
    case Some(id) =>
      var v := s.volunteers[id];
      var t := s.(proxy := Assigned(s.proxy, p.name, p.domain, v.info.serviceAddr, verdict));
      if !AssignOk(s.proxy, p.name, p.domain, verdict) then t
      else
        var a := ToAssignment(p, now);
        t.(db := PutAssignment(s.db, id, a), volunteers := s.volunteers[id := v.(service := Some(a))])
  }

  // ---- churn ----

  function DeadOf(s: State, now: int): map<nat, Volunteer> {
    map id | id in s.volunteers && !IsAlive(s.volunteers[id], now) :: s.volunteers[id]
  }

  function Evicted(s: State, v: Volunteer, now: int): State {
    var t := s.(volunteers := s.volunteers - {v.id}, db := TakeVolunteer(s.db, v.id),
                proxy := Dropped(s.proxy, OwnKey(v.id)));
    if v.service.None? then t
    else t.(db := TakeAssignment(t.db, v.id), pending := s.pending + [ToPending(v.service.value, now)])
  }

  function SweepStep(s: State, dead: seq<Volunteer>, now: int): State
    decreases |dead|
  {
    if dead == [] then s else SweepStep(Evicted(s, dead[0], now), dead[1..], now)
  }

  // ---- restart ----

  function VerdictAt(verdicts: seq<Verdict>, i: nat): Verdict {
    if i < |verdicts| then verdicts[i] else Accepted
  }

  /** Restores the configuration of one survivor's service. */
  function ConfiguredFor(p: View, v: Volunteer, verdict: Verdict): View {
    if v.service.None? then p else Configured(p, v.service.value.serviceName, v.service.value.domain, verdict)
  }

  function PassOne(p: View, vs: seq<Volunteer>, verdicts: seq<Verdict>): View
    decreases |vs|
  {
    if vs == [] then p
    else PassOne(ConfiguredFor(p, vs[0], VerdictAt(verdicts, 0)), vs[1..], if verdicts == [] then [] else verdicts[1..])
  }

  /** Restores the runtime servers of one survivor. */
  function RestoredFor(p: View, v: Volunteer): View {
    var q := Upserted(p, OwnKey(v.id), v.info.serviceAddr, 1);
    if v.service.None? then q
    else Upserted(q, Key(SvcBackend(v.service.value.serviceName), Primary), v.info.serviceAddr, 100)
  }

  function PassTwo(p: View, vs: seq<Volunteer>): View
    decreases |vs|
  {
    if vs == [] then p else PassTwo(RestoredFor(p, vs[0]), vs[1..])
  }

  /** What is in memory after a restart: the rows, with a fresh grace period. */
  function Revived(db: Tables, now: int): map<nat, Volunteer> {
    var all := LoadAll(db);
    map id | id in all :: all[id].(lastHeartbeat := now)
  }

  function RestartStep(s: State, survivors: seq<Volunteer>, now: int, verdicts: seq<Verdict>): State {
    var db := Pruned(s.db);
    State(Revived(db, now), [], db, PassTwo(PassOne(s.proxy, survivors, verdicts), survivors))
  }

  // ---- sorting by weight ----

  predicate Descending(vs: seq<Volunteer>) {
    forall i, j :: 0 <= i < j < |vs| ==> Weight(vs[j].metrics) <= Weight(vs[i].metrics)
  }

  /** Inserts behind every volunteer of at least the same weight, as a stable sort does. */
  function InsertByWeight(vs: seq<Volunteer>, v: Volunteer): (r: seq<Volunteer>)
    ensures |r| == |vs| + 1
  {
    if vs == [] || Weight(vs[|vs| - 1].metrics) >= Weight(v.metrics) then vs + [v]
    else InsertByWeight(vs[..|vs| - 1], v) + [vs[|vs| - 1]]
  }

  function SortByWeight(vs: seq<Volunteer>): seq<Volunteer> {
    if vs == [] then [] else InsertByWeight(SortByWeight(vs[..|vs| - 1]), vs[|vs| - 1])
  }

  lemma {:induction false} InsertSorted(vs: seq<Volunteer>, v: Volunteer)
    requires Descending(vs)
    ensures Descending(InsertByWeight(vs, v))
    ensures multiset(InsertByWeight(vs, v)) == multiset(vs) + multiset{v}
  {
    hide Weight;
    if vs != [] && Weight(vs[|vs| - 1].metrics) < Weight(v.metrics) {
      var front, last := vs[..|vs| - 1], vs[|vs| - 1];
      InsertSorted(front, v);
      var r := InsertByWeight(front, v);
      assert vs == front + [last];
      forall i | 0 <= i < |r| ensures Weight(last.metrics) <= Weight(r[i].metrics) {
        assert r[i] in multiset(front) + multiset{v};
      }
    }
  }

  lemma {:induction false} SortSorted(vs: seq<Volunteer>)
    ensures Descending(SortByWeight(vs)) && multiset(SortByWeight(vs)) == multiset(vs)
  {
    if vs != [] {
      SortSorted(vs[..|vs| - 1]);
      InsertSorted(SortByWeight(vs[..|vs| - 1]), vs[|vs| - 1]);
      assert vs == vs[..|vs| - 1] + [vs[|vs| - 1]];
    }
  }
}
