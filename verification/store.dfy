/** The registrar's entities, and the two database tables that mirror them. */
module Store {
  import opened Options
  import opened Proxy

  datatype Metrics = Metrics(cpuPct: real, memPct: real, loadAvg: real, activeRequests: nat)

  /** `details` stands for the handshake fields that are only carried along. */
  datatype Info = Info(hostname: string, serviceAddr: string, details: seq<string>)

  datatype Assignment = Assignment(serviceName: string, domain: string, image: string, port: nat, assignedAt: int)

  datatype Pending = Pending(name: string, domain: string, image: string, port: nat, registeredAt: int)

  datatype Volunteer = Volunteer(
    id: nat,
    info: Info,
    metrics: Metrics,
    enrolledAt: int,
    lastHeartbeat: int,
    service: Option<Assignment>,
    running: Option<bool>,
    image: Option<string>
  )

  /** A row of the volunteers table: what a volunteer has without its service. */
  datatype Row = Row(info: Info, metrics: Metrics, enrolledAt: int, lastHeartbeat: int)

  datatype Tables = Tables(volunteers: map<nat, Row>, assignments: map<nat, Assignment>)

  // ---- liveness and weight ----

  const HEARTBEAT_TIMEOUT_SECS := 45

  /** Whole seconds of a duration in milliseconds, towards zero. */
  function Seconds(millis: int): int {
    if millis >= 0 then millis / 1000 else -((-millis) / 1000)
  }

  predicate IsAlive(v: Volunteer, now: int) {
    Seconds(now - v.lastHeartbeat) < HEARTBEAT_TIMEOUT_SECS
  }

  /** The score from which the weight is cut. */
  function Score(m: Metrics): real {
    var pressure := if m.activeRequests < 20 then m.activeRequests as real else 20.0;
    100.0 - (m.cpuPct * 0.5 + m.memPct * 0.3 + pressure)
  }

  function Weight(m: Metrics): int {
    var score := Score(m);
    (if score < 1.0 then 1.0 else if score > 100.0 then 100.0 else score).Floor
  }

  /** The weight HAProxy gets is always in its range. */
  lemma WeightInRange(m: Metrics)
    ensures 1 <= Weight(m) <= 100
  {
  }

  /** More load of any kind never raises the weight. */
  lemma WeightFallsWithLoad(a: Metrics, b: Metrics)
    requires a.cpuPct <= b.cpuPct && a.memPct <= b.memPct && a.activeRequests <= b.activeRequests
    ensures Weight(b) <= Weight(a)
  {
    assert a.cpuPct * 0.5 <= b.cpuPct * 0.5 && a.memPct * 0.3 <= b.memPct * 0.3;
    assert Score(b) <= Score(a);
  }

  /** The load in tenths of a point: five a percent of CPU, three a percent of memory, ten a request up to
      twenty of them. */
  function Burden(m: Metrics): real {
    5.0 * m.cpuPct + 3.0 * m.memPct + 10.0 * (if m.activeRequests <= 20 then m.activeRequests as real else 20.0)
  }

  /** Which weight a load earns: one at least, and each further point as long as the load leaves room. */
  lemma WeightExactly(m: Metrics, k: int)
    requires 2 <= k <= 100
    ensures Weight(m) >= k <==> Burden(m) <= (10 * (100 - k)) as real
    ensures Weight(m) == 1 <==> Burden(m) > 980.0
    ensures Weight(m) == 100 <==> Burden(m) <= 0.0
  {
    assert Burden(m) == 10.0 * (100.0 - Score(m));
    assert Score(m) >= k as real <==> Burden(m) <= (10 * (100 - k)) as real;
  }

  /** What load costs while neither bound acts: two points of CPU one, ten points of memory three, a
      request one up to twenty of them, further requests and the load average nothing. */
  lemma LoadCosts(m: Metrics, loadAvg: real)
    requires 1 < Weight(m) < 100
    ensures Weight(m.(cpuPct := m.cpuPct + 2.0)) == Weight(m) - 1
    ensures Weight(m) > 3 ==> Weight(m.(memPct := m.memPct + 10.0)) == Weight(m) - 3
    ensures Weight(m.(activeRequests := m.activeRequests + 1)) == Weight(m) - if m.activeRequests < 20 then 1 else 0
    ensures Weight(m.(loadAvg := loadAvg)) == Weight(m)
  {
    assert Score(m.(cpuPct := m.cpuPct + 2.0)) == Score(m) - 1.0;
    assert Score(m.(memPct := m.memPct + 10.0)) == Score(m) - 3.0;
  }

  const NO_LOAD := Metrics(0.0, 0.0, 0.0, 0)

  /** A freshly enrolled volunteer has the weight that enrollment gives it. */
  lemma FreshWeight()
    ensures Weight(NO_LOAD) == 100
  {
  }

  // ---- the tables ----

  function ToRow(v: Volunteer): Row {
    Row(v.info, v.metrics, v.enrolledAt, v.lastHeartbeat)
  }

  function FromRow(id: nat, r: Row, service: Option<Assignment>): Volunteer {
    Volunteer(id, r.info, r.metrics, r.enrolledAt, r.lastHeartbeat, service, None, None)
  }

  function GetAssignment(db: Tables, id: nat): Option<Assignment> {
    if id in db.assignments then Some(db.assignments[id]) else None
  }

  function PutVolunteer(db: Tables, v: Volunteer): Tables {
    db.(volunteers := db.volunteers[v.id := ToRow(v)])
  }

  function PutAssignment(db: Tables, id: nat, a: Assignment): Tables {
    db.(assignments := db.assignments[id := a])
  }

  function TakeVolunteer(db: Tables, id: nat): Tables {
    db.(volunteers := db.volunteers - {id})
  }

  function TakeAssignment(db: Tables, id: nat): Tables {
    db.(assignments := db.assignments - {id})
  }

  /** Assignment rows without a volunteer. */
  function Orphans(db: Tables): set<nat> {
    db.assignments.Keys - db.volunteers.Keys
  }

  function Pruned(db: Tables): Tables {
    db.(assignments := db.assignments - Orphans(db))
  }

  /** What a restart finds: every row with its assignment. */
  function LoadAll(db: Tables): map<nat, Volunteer> {
    map id | id in db.volunteers :: FromRow(id, db.volunteers[id], GetAssignment(db, id))
  }

  /** A list of volunteers that is an enumeration of a map. */
  ghost predicate Lists(vs: seq<Volunteer>, m: map<nat, Volunteer>) {
    && (forall i :: 0 <= i < |vs| ==> vs[i].id in m && m[vs[i].id] == vs[i])
    && (forall i, j :: 0 <= i < j < |vs| ==> vs[i].id != vs[j].id)
    && (forall id :: id in m ==> exists i :: 0 <= i < |vs| && vs[i].id == id)
  }

  class Database {
    var volunteers: map<nat, Row>
    var assignments: map<nat, Assignment>

    function State(): Tables
      reads this
    {
      Tables(volunteers, assignments)
    }

    constructor ()
      ensures State() == Tables(map[], map[])
    {
      volunteers, assignments := map[], map[];
    }

    method UpsertVolunteer(v: Volunteer)
      modifies this
      ensures State() == PutVolunteer(old(State()), v)
    {
      volunteers := volunteers[v.id := ToRow(v)];
    }

    method RemoveVolunteer(id: nat)
      modifies this
      ensures State() == TakeVolunteer(old(State()), id)
    {
      volunteers := volunteers - {id};
    }

    method UpsertAssignment(id: nat, a: Assignment)
      modifies this
      ensures State() == PutAssignment(old(State()), id, a)
    {
      assignments := assignments[id := a];
    }

    method RemoveAssignment(id: nat)
      modifies this
      ensures State() == TakeAssignment(old(State()), id)
    {
      assignments := assignments - {id};
    }

    method PruneOrphanAssignments() returns (pruned: nat)
      modifies this
      ensures State() == Pruned(old(State())) && pruned == |Orphans(old(State()))|
      ensures Orphans(State()) == {}
    {
      var orphans := Orphans(State());
      assignments := assignments - orphans;
      pruned := |orphans|;
    }

    /** Any row with this hostname. */
    method FindByHostname(hostname: string) returns (id: Option<nat>)
      ensures id.Some? ==> id.value in volunteers && volunteers[id.value].info.hostname == hostname
      ensures id.None? ==> forall other :: other in volunteers ==> volunteers[other].info.hostname != hostname
    {
      var rows := volunteers;
      while rows != map[]
        invariant rows.Keys <= volunteers.Keys
        invariant forall other :: other in volunteers && other !in rows ==> volunteers[other].info.hostname != hostname
        decreases |rows|
      {
        var other :| other in rows;
        if volunteers[other].info.hostname == hostname {
          return Some(other);
        }
        Smaller(rows, other);
        rows := rows - {other};
      }
      id := None;
    }

    /** The rows in any order; each takes its assignment out of a local copy of the other table. */
    method LoadSurvivors() returns (survivors: seq<Volunteer>)
      ensures Lists(survivors, LoadAll(State()))
    {
      survivors := JoinRows(volunteers, assignments);
    }
  }

  lemma Smaller<K, V>(m: map<K, V>, k: K)
    requires k in m
    ensures |m - {k}| < |m|
  {
    assert (m - {k}).Keys == m.Keys - {k};
  }

  lemma OneLess(m: map<nat, Volunteer>, keys: set<nat>, id: nat)
    requires id in m && id in keys
    ensures m - (keys - {id}) == (m - keys)[id := m[id]]
  {
  }

  lemma ReadAll(all: map<nat, Volunteer>, rows: map<nat, Row>)
    requires all.Keys == rows.Keys
    ensures all - rows.Keys == map[] && all - {} == all
  {
  }

  /** Reads the rows one by one; each takes its assignment out of the other table's copy. */
  method JoinRows(table: map<nat, Row>, assignments: map<nat, Assignment>) returns (survivors: seq<Volunteer>)
    ensures Lists(survivors, LoadAll(Tables(table, assignments)))
  {
    var rows, unclaimed := table, assignments;
    survivors := [];
    ghost var all := LoadAll(Tables(table, assignments));
    ReadAll(all, rows);
    while rows != map[]
      invariant rows.Keys <= all.Keys && Lists(survivors, all - rows.Keys) && Unread(all, rows, unclaimed)
      decreases |rows|
    {
      hide Lists, LoadAll, Unread;
      var id :| id in rows;
      var service := if id in unclaimed then Some(unclaimed[id]) else None;
      UnreadNext(all, rows, unclaimed, id);
      ListsNext(survivors, all, rows.Keys, id);
      Smaller(rows, id);
      survivors := survivors + [FromRow(id, rows[id], service)];
      rows, unclaimed := rows - {id}, unclaimed - {id};
    }
    assert rows.Keys == {};
    ReadAll(all, table);
  }

  /** The rows still to be read make the rest of the volunteers, with the assignments not yet taken. */
  predicate Unread(all: map<nat, Volunteer>, rows: map<nat, Row>, unclaimed: map<nat, Assignment>) {
    forall id :: id in rows ==>
      id in all && all[id] == FromRow(id, rows[id], if id in unclaimed then Some(unclaimed[id]) else None)
  }

  lemma UnreadNext(all: map<nat, Volunteer>, rows: map<nat, Row>, unclaimed: map<nat, Assignment>, id: nat)
    requires Unread(all, rows, unclaimed) && id in rows
    ensures id in all && all[id].id == id
    ensures all[id] == FromRow(id, rows[id], if id in unclaimed then Some(unclaimed[id]) else None)
    ensures Unread(all, rows - {id}, unclaimed - {id}) && (rows - {id}).Keys == rows.Keys - {id}
  {
  }

  /** One more volunteer listed of those not yet in `keys`. */
  lemma ListsNext(vs: seq<Volunteer>, all: map<nat, Volunteer>, keys: set<nat>, id: nat)
    requires keys <= all.Keys && id in keys && all[id].id == id && Lists(vs, all - keys)
    ensures Lists(vs + [all[id]], all - (keys - {id}))
  {
    hide Lists;
    OneLess(all, keys, id);
    ListsMore(vs, all - keys, all[id]);
  }

  lemma ListsMore(vs: seq<Volunteer>, m: map<nat, Volunteer>, v: Volunteer)
    requires Lists(vs, m) && v.id !in m
    ensures Lists(vs + [v], m[v.id := v])
  {
    var more := vs + [v];
    assert forall i :: 0 <= i < |vs| ==> more[i] == vs[i];
    forall id | id in m ensures exists i :: 0 <= i < |more| && more[i].id == id {
      var i :| 0 <= i < |vs| && vs[i].id == id;
      assert more[i].id == id;
    }
    assert more[|vs|].id == v.id;
  }
}
