/** The running HAProxy as the manager crate sees it: a config file, the backends of the running
    process, and runtime servers that a reload wipes. Commands on missing servers are refused. */
module Proxy {
  import opened Options
  import opened Text
  import opened Config
  import opened ConfigLines
  import opened ConfigRuns
  import opened ConfigEdits

  /** Volunteer servers are named by their id, service servers have one fixed name. */
  datatype ServerName = Named(id: nat) | Primary

  datatype Server = Server(addr: string, weight: int, ready: bool)

  datatype Key = Key(backend: string, server: ServerName)

  datatype View = View(file: seq<Service>, running: set<string>, servers: map<Key, Server>)

  datatype Reply = Ok | NoSuchServer | NoSuchBackend | Refused | ConfigError(status: Status)

  const VOLUNTEERS := "volunteers"

  function SvcBackend(name: string): string {
    "svc_" + name
  }

  lemma SvcBackendFacts(a: string, b: string)
    ensures SvcBackend(a) != VOLUNTEERS
    ensures SvcBackend(a) == SvcBackend(b) <==> a == b
  {
    assert SvcBackend(a)[0] == 's' && VOLUNTEERS[0] == 'v';
    assert SvcBackend(a)[4..] == a && SvcBackend(b)[4..] == b;
  }

  function Names(svcs: seq<Service>): set<string> {
    set i | 0 <= i < |svcs| :: svcs[i].name
  }

  predicate Running(p: View, backend: string) {
    backend == VOLUNTEERS || backend in p.running
  }

  /** A command addressed to this server: refused, or carried out. */
  function Lookup(p: View, key: Key): Reply {
    if !Running(p, key.backend) then NoSuchBackend
    else if key !in p.servers then NoSuchServer
    else Ok
  }

  // ---- what the manager's operations achieve ----

  /** A reload runs the file as it is and forgets every runtime server. */
  function Reloaded(p: View): View {
    View(p.file, Names(p.file), map[])
  }

  /** Makes sure the service is configured. */
  function Configured(p: View, name: string, domain: string, verdict: Verdict): View {
    var q := p.(file := Apply(p.file, Add(Service(SvcBackend(name), domain), verdict)));
    if !Has(p.file, SvcBackend(name)) && verdict.Accepted? then Reloaded(q) else q
  }

  /** The file of a view is the collection that the config text renders: configuring a service is one
      edit of that text. */
  lemma ConfiguredText(p: View, base: seq<string>, content: string, name: string, domain: string, verdict: Verdict)
    requires OkBase(base) && Manages(base, p.file) && Lines(content) == Render(base, p.file)
    requires OkService(Service(SvcBackend(name), domain)) && Fresh(base, SvcBackend(name))
    ensures var q := Configured(p, name, domain, verdict);
            && Manages(base, q.file)
            && Lines(AddText(content, SvcBackend(name), domain, verdict)) == Render(base, q.file)
  {
    hide OkBase, Manages, Lines, Render, OkName, Fresh, AddText;
    EditRenders(base, p.file, content, Add(Service(SvcBackend(name), domain), verdict));
  }

  predicate ConfigOk(p: View, name: string, verdict: Verdict) {
    Has(p.file, SvcBackend(name)) || verdict.Accepted?
  }

  /** The server is there, ready, at this address and weight. */
  function Upserted(p: View, key: Key, addr: string, weight: int): View {
    if Running(p, key.backend) then p.(servers := p.servers[key := Server(addr, weight, true)]) else p
  }

  /** Like `Upserted`, but a server that is already there keeps its address. */
  function AddedOnce(p: View, key: Key, addr: string, weight: int): View {
    Upserted(p, key, if key in p.servers then p.servers[key].addr else addr, weight)
  }

  function Reweighted(p: View, key: Key, weight: int): View {
    if Lookup(p, key).Ok? then p.(servers := p.servers[key := p.servers[key].(weight := weight)]) else p
  }

  function Readdressed(p: View, key: Key, addr: string): View {
    if Lookup(p, key).Ok? then p.(servers := p.servers[key := p.servers[key].(addr := addr, ready := true)]) else p
  }

  function Dropped(p: View, key: Key): View {
    if Lookup(p, key).Ok? then p.(servers := p.servers - {key}) else p
  }

  function Assigned(p: View, name: string, domain: string, addr: string, verdict: Verdict): View {
    var q := Configured(p, name, domain, verdict);
    if ConfigOk(p, name, verdict) then Upserted(q, Key(SvcBackend(name), Primary), addr, 100) else q
  }

  predicate AssignOk(p: View, name: string, domain: string, verdict: Verdict) {
    ConfigOk(p, name, verdict) && Running(Configured(p, name, domain, verdict), SvcBackend(name))
  }

  /** A volunteer moves: its own server first, then the server of its service if it has one. */
  function Moved(p: View, id: nat, addr: string, service: Option<string>): View {
    var own := Key(VOLUNTEERS, Named(id));
    var q := Readdressed(p, own, addr);
    if own in p.servers && service.Some? then Readdressed(q, Key(SvcBackend(service.value), Primary), addr) else q
  }

  // ---- the operations as command sequences ----

  class Haproxy {
    var file: seq<Service>
    var running: set<string>
    var servers: map<Key, Server>

    function State(): View
      reads this
    {
      View(file, running, servers)
    }

    constructor (file: seq<Service>)
      ensures State() == Reloaded(View(file, {}, map[]))
    {
      this.file, running, servers := file, Names(file), map[];
    }

    // the runtime commands

    method SetAddr(key: Key, addr: string) returns (r: Reply)
      modifies this
      ensures r == Lookup(old(State()), key) && file == old(file) && running == old(running)
      ensures servers == if r.Ok? then old(servers)[key := old(servers)[key].(addr := addr)] else old(servers)
    {
      r := Lookup(State(), key);
      if r.Ok? {
        servers := servers[key := servers[key].(addr := addr)];
      }
    }

    method SetWeight(key: Key, weight: int) returns (r: Reply)
      modifies this
      ensures r == Lookup(old(State()), key) && State() == Reweighted(old(State()), key, weight)
    {
      r := Lookup(State(), key);
      if r.Ok? {
        servers := servers[key := servers[key].(weight := weight)];
      }
    }

    method SetState(key: Key, ready: bool) returns (r: Reply)
      modifies this
      ensures r == Lookup(old(State()), key) && file == old(file) && running == old(running)
      ensures servers == if r.Ok? then old(servers)[key := old(servers)[key].(ready := ready)] else old(servers)
    {
      r := Lookup(State(), key);
      if r.Ok? {
        servers := servers[key := servers[key].(ready := ready)];
      }
    }

    /** A new server starts in maintenance; adding one that exists is silently ignored. */
    method AddServer(key: Key, addr: string) returns (r: Reply)
      modifies this
      ensures r == (if Running(old(State()), key.backend) then Ok else NoSuchBackend)
      ensures file == old(file) && running == old(running)
      ensures servers == if r.Ok? && key !in old(servers) then old(servers)[key := Server(addr, 1, false)] else old(servers)
    {
      if !Running(State(), key.backend) {
        return NoSuchBackend;
      }
      if key !in servers {
        servers := servers[key := Server(addr, 1, false)];
      }
      return Ok;
    }

    /** Only a server in maintenance can be deleted. */
    method RemoveServer(key: Key) returns (r: Reply)
      modifies this
      ensures file == old(file) && running == old(running)
      ensures var found := Lookup(old(State()), key);
              r == if found.Ok? && old(servers)[key].ready then Refused else found
      ensures servers == if r.Ok? then old(servers) - {key} else old(servers)
    {
      r := Lookup(State(), key);
      if r.Ok? {
        if servers[key].ready {
          return Refused;
        }
        servers := servers - {key};
      }
    }

    // the manager's operations

    method UpsertServer(key: Key, addr: string, weight: int) returns (r: Reply)
      modifies this
      ensures State() == Upserted(old(State()), key, addr, weight)
      ensures r == if Running(old(State()), key.backend) then Ok else NoSuchBackend
    {
      r := SetAddr(key, addr);
      if r.NoSuchServer? {
        r := AddServer(key, addr);
        if !r.Ok? {
          return;
        }
      } else if !r.Ok? {
        return;
      }
      r := SetWeight(key, weight);
      r := SetState(key, true);
    }

    method AddVolunteer(key: Key, addr: string, weight: int) returns (r: Reply)
      modifies this
      ensures State() == AddedOnce(old(State()), key, addr, weight)
      ensures r == if Running(old(State()), key.backend) then Ok else NoSuchBackend
    {
      r := AddServer(key, addr);
      if !r.Ok? {
        return;
      }
      r := SetWeight(key, weight);
      r := SetState(key, true);
    }

    method RemoveVolunteer(key: Key) returns (r: Reply)
      modifies this
      ensures State() == Dropped(old(State()), key)
      ensures r == Lookup(old(State()), key)
    {
      r := SetState(key, false);
      if !r.Ok? {
        return;
      }
      r := RemoveServer(key);
    }

    method EnsureServiceConfig(name: string, domain: string, verdict: Verdict) returns (r: Reply)
      modifies this
      ensures State() == Configured(old(State()), name, domain, verdict)
      ensures r.Ok? <==> ConfigOk(old(State()), name, verdict)
      ensures r.Ok? || r.ConfigError?
    {
      if Has(file, SvcBackend(name)) {
        return Ok;
      }
      if verdict.Rejected? {
        return ConfigError(ValidationFailed);
      }
      file := file + [Service(SvcBackend(name), domain)];
      if verdict.Unreloadable? {
        return ConfigError(ReloadFailed);
      }
      running, servers := Names(file), map[];
      return Ok;
    }

    method AssignService(name: string, domain: string, addr: string, verdict: Verdict) returns (r: Reply)
      modifies this
      ensures State() == Assigned(old(State()), name, domain, addr, verdict)
      ensures r.Ok? <==> AssignOk(old(State()), name, domain, verdict)
    {
      r := EnsureServiceConfig(name, domain, verdict);
      if !r.Ok? {
        return;
      }
      r := UpsertServer(Key(SvcBackend(name), Primary), addr, 100);
    }

    /** Takes a server into maintenance, changes its address and brings it back. */
    method Readdress(key: Key, addr: string) returns (r: Reply)
      modifies this
      ensures State() == Readdressed(old(State()), key, addr) && r == Lookup(old(State()), key)
    {
      r := SetState(key, false);
      if !r.Ok? {
        return;
      }
      r := SetAddr(key, addr);
      r := SetState(key, true);
    }

    method UpdateVolunteerAddr(id: nat, addr: string, service: Option<string>) returns (r: Reply)
      modifies this
      ensures State() == Moved(old(State()), id, addr, service)
    {
      r := Readdress(Key(VOLUNTEERS, Named(id)), addr);
      if !r.Ok? {
        return;
      }
      if service.Some? {
        r := Readdress(Key(SvcBackend(service.value), Primary), addr);
      }
    }
  }
}
