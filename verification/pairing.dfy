/** One tunnel session: visitors accepted on the public port, OPEN frames to the client, and data
    connections dialled back with a 16-bit stream id. The number of a visitor in order of arrival is
    not part of the protocol; it tells which visitor and which data connection belong together. */
module Pairing {
  import opened Wire

  const IDS: nat := 0x1_0000

  // ---- the server's shared state ----

  datatype Server = Server(pending: map<u16, nat>, counter: u16)

  /** A visitor gets the next id; an unanswered visitor with the same id is overwritten. */
  function Accepted(sv: Server, visitor: nat): Server {
    Server(sv.pending[sv.counter := visitor], (sv.counter + 1) % IDS)
  }

  function Removed(sv: Server, id: u16): Server {
    sv.(pending := sv.pending - {id})
  }

  /** What the threads of one session do to their shared state. */
  class SessionState {
    var pending: map<u16, nat>
    var streamCounter: u16

    function View(): Server
      reads this
    {
      Server(pending, streamCounter)
    }

    constructor ()
      ensures View() == Server(map[], 0)
    {
      pending, streamCounter := map[], 0;
    }

    /** The public acceptor: id, wrapping increment, insertion. */
    method AcceptVisitor(visitor: nat) returns (streamId: u16)
      modifies this
      ensures streamId == old(streamCounter) && View() == Accepted(old(View()), visitor)
    {
      streamId := streamCounter;
      streamCounter := (streamCounter + 1) % 0x1_0000;
      pending := pending[streamId := visitor];
    }

    /** The data acceptor: the visitor to splice with, if the id is known. */
    method DataConnection(streamId: u16) returns (visitor: seq<nat>)
      modifies this
      ensures View() == Removed(old(View()), streamId)
      ensures visitor == if streamId in old(pending) then [old(pending)[streamId]] else []
    {
      visitor := if streamId in pending then [pending[streamId]] else [];
      pending := pending - {streamId};
    }

    /** The control reader: only CLOSE has an effect. */
    method ControlFrame(frame: Frame)
      modifies this
      ensures View() == if frame.tag == TAG_CLOSE then Removed(old(View()), frame.streamId) else old(View())
    {
      if frame.tag == TAG_CLOSE {
        pending := pending - {frame.streamId};
      }
    }
  }

  // ---- the whole session as a state machine ----

  /** An OPEN frame or a data connection: the id it carries, and the visitor it was opened for. */
  datatype Message = Message(visitor: nat, id: u16)

  datatype State = State(
    server: Server,
    accepted: nat,              // visitors accepted so far
    live: bool,                 // the public acceptor is running
    unsent: seq<Message>,       // visitor inserted, OPEN not yet written: none or one
    opens: seq<Message>,        // OPEN frames on the control connection, in order
    dialing: map<nat, u16>,     // data connections and their handlers, by the visitor opened for
    spliced: map<nat, nat>,     // data connection to visitor
    dropped: set<nat>,          // data connections that found no visitor
    closed: set<nat>,           // visitors removed by CLOSE
    overwritten: set<nat>,      // visitors whose entry was replaced
    late: set<nat>              // connections in flight when the next visitor with their id arrived
  )

  datatype Event =
    | Accept
    | SendOpen(ok: bool)
    | AcceptorEnds
    | ClientReadsOpen
    | DialFails(connection: nat)
    | Deliver(connection: nat)
    | Close(id: u16)

  const INITIAL := State(Server(map[], 0), 0, true, [], [], map[], map[], {}, {}, {}, {})

  function InFlight(s: State): set<nat> {
    (set m | m in s.unsent :: m.visitor) + (set m | m in s.opens :: m.visitor) + s.dialing.Keys
  }

  function AtId(s: State, id: u16): set<nat> {
    if id in s.server.pending then {s.server.pending[id]} else {}
  }

  function AcceptStep(s: State): State {
    var n, id := s.accepted, s.server.counter;
    s.(server := Accepted(s.server, n), accepted := n + 1, unsent := [Message(n, id)],
       overwritten := s.overwritten + AtId(s, id),
       late := s.late + set c | c in InFlight(s) && c + IDS == n)
  }

  function DeliverStep(s: State, c: nat): State
    requires c in s.dialing
  {
    var id := s.dialing[c];
    var t := s.(dialing := s.dialing - {c}, server := Removed(s.server, id));
    if id in s.server.pending then t.(spliced := s.spliced[c := s.server.pending[id]])
    else t.(dropped := s.dropped + {c})
  }

  /** Events that are not enabled change nothing. */
  function Step(s: State, e: Event): State {
    match e
    case Accept => if s.live && s.unsent == [] then AcceptStep(s) else s
    case SendOpen(ok) =>
      if s.unsent == [] then s
      else if ok then s.(opens := s.opens + s.unsent, unsent := [])
      else s.(unsent := [], live := false)
    case AcceptorEnds => if s.unsent == [] then s.(live := false) else s
    case ClientReadsOpen =>
      if s.opens == [] then s
      else s.(opens := s.opens[1..], dialing := s.dialing[s.opens[0].visitor := s.opens[0].id])
    case DialFails(c) => s.(dialing := s.dialing - {c})
    case Deliver(c) => if c in s.dialing then DeliverStep(s, c) else s
    case Close(id) => s.(server := Removed(s.server, id), closed := s.closed + AtId(s, id))
  }

  function Run(s: State, events: seq<Event>): State
    decreases |events|
  {
    if events == [] then s else Run(Step(s, events[0]), events[1..])
  }

  // ---- the invariant ----

  /** Entries are recent visitors under their own id. */
  predicate PendingOk(s: State) {
    && s.server.counter == s.accepted % IDS
    && forall id :: id in s.server.pending ==>
         var v := s.server.pending[id];
         v < s.accepted && v % IDS == id && s.accepted <= v + IDS
  }

  predicate MessagesOk(s: State, ms: seq<Message>) {
    && (forall i :: 0 <= i < |ms| ==> ms[i].visitor < s.accepted && ms[i].id == ms[i].visitor % IDS)
    && (forall i, j :: 0 <= i < j < |ms| ==> ms[i].visitor != ms[j].visitor)
  }

  predicate Settled(s: State, c: nat) {
    c in s.spliced || c in s.dropped
  }

  /** Every connection is in at most one place, and carries the id of its visitor. */
  ghost predicate FlightOk(s: State) {
    && MessagesOk(s, s.opens + s.unsent)
    && (forall i :: 0 <= i < |s.opens + s.unsent| ==>
          (s.opens + s.unsent)[i].visitor !in s.dialing && !Settled(s, (s.opens + s.unsent)[i].visitor))
    && (forall c :: c in s.dialing ==> c < s.accepted && s.dialing[c] == c % IDS && !Settled(s, c))
    && (forall c :: c in s.spliced ==> c < s.accepted && c !in s.dropped)
    && (forall c :: c in s.dropped ==> c < s.accepted)
    && |s.unsent| <= 1
  }

  predicate IsPending(s: State, v: nat) {
    v % IDS in s.server.pending && s.server.pending[v % IDS] == v
  }

  ghost predicate IsSpliced(s: State, v: nat) {
    exists c :: c in s.spliced && s.spliced[c] == v
  }

  /** Every accepted visitor has exactly one fate. */
  ghost predicate OneFate(s: State, v: nat) {
    && (IsPending(s, v) || IsSpliced(s, v) || v in s.closed || v in s.overwritten)
    && !(IsPending(s, v) && IsSpliced(s, v))
    && !(v in s.closed && (IsPending(s, v) || IsSpliced(s, v)))
    && !(v in s.overwritten && (IsPending(s, v) || IsSpliced(s, v) || v in s.closed))
  }

  ghost predicate FatesOk(s: State) {
    && (forall v: nat :: v < s.accepted ==> OneFate(s, v))
    && (forall c, d :: c in s.spliced && d in s.spliced && s.spliced[c] == s.spliced[d] ==> c == d)
    && (forall v :: v in s.closed || v in s.overwritten ==> v < s.accepted)
    && (forall c :: c in s.spliced ==> s.spliced[c] < s.accepted)
  }

  /** A connection reaches its own visitor or, when late, a later one with the same id. */
  predicate PairsOk(s: State) {
    && (forall c :: c in s.spliced ==> s.spliced[c] % IDS == c % IDS && c <= s.spliced[c])
    && (forall c :: c in s.spliced ==> (s.spliced[c] == c <==> c !in s.late))
    && (forall c :: c in InFlight(s) ==> s.accepted <= c + IDS || c in s.late)
    && (forall c :: c in s.late ==> c + IDS < s.accepted)
  }

  ghost predicate Inv(s: State) {
    PendingOk(s) && FlightOk(s) && FatesOk(s) && PairsOk(s)
  }

  lemma SameId(a: nat, b: nat, n: nat)
    requires a % IDS == b % IDS && a < n <= b + IDS
    ensures a <= b
    ensures b < n <= a + IDS ==> a == b
  {
  }

  lemma NextSameId(v: nat, n: nat)
    requires v < n <= v + IDS
    ensures v % IDS == n % IDS <==> v + IDS == n
    ensures (n + 1) % IDS == (n % IDS + 1) % IDS
  {
  }

  lemma AcceptPending(s: State)
    requires PendingOk(s)
    ensures PendingOk(AcceptStep(s))
    ensures forall v :: v in AtId(s, s.server.counter) ==> v + IDS == s.accepted
  {
    var n, id := s.accepted, s.server.counter;
    NextSameId(n, n + 1);
    hide InFlight;
    forall other | other in s.server.pending
      ensures s.server.pending[other] + IDS == n <==> other == id
    {
      NextSameId(s.server.pending[other], n);
    }
  }

  lemma AcceptFates(s: State)
    requires Inv(s)
    ensures FatesOk(AcceptStep(s))
  {
    var t, n, id := AcceptStep(s), s.accepted, s.server.counter;
    AcceptPending(s);
    forall v: nat | v < t.accepted ensures OneFate(t, v) {
      assert IsSpliced(t, v) <==> IsSpliced(s, v);
      if v == n {
        assert IsPending(t, n);
      } else {
        assert OneFate(s, v);
        if v % IDS == id {
          assert IsPending(s, v) <==> v in AtId(s, id);
          assert !IsPending(t, v);
        } else {
          assert IsPending(t, v) <==> IsPending(s, v);
        }
      }
    }
  }

  lemma AcceptFlight(s: State)
    requires FlightOk(s) && s.server.counter == s.accepted % IDS && s.unsent == []
    ensures FlightOk(AcceptStep(s)) && InFlight(AcceptStep(s)) == InFlight(s) + {s.accepted}
    ensures s.accepted !in s.spliced && s.accepted !in InFlight(s)
  {
    var t, n := AcceptStep(s), s.accepted;
    assert s.opens + s.unsent == s.opens;
    var mine := Message(n, s.server.counter);
    assert t.opens + t.unsent == s.opens + [mine];
    assert mine.id == n % IDS && n !in s.dialing && !Settled(s, n);
    assert mine in t.unsent;
  }

  lemma AcceptPairs(s: State)
    requires FlightOk(s) && PairsOk(s) && s.server.counter == s.accepted % IDS && s.unsent == []
    ensures PairsOk(AcceptStep(s))
  {
    var t := AcceptStep(s);
    AcceptFlight(s);
    SplicedNotInFlight(s);
    hide FlightOk, InFlight;
  }

  lemma SplicedNotInFlight(s: State)
    requires FlightOk(s)
    ensures forall c :: c in InFlight(s) ==> c !in s.spliced
  {
    forall i | 0 <= i < |s.opens| ensures s.opens[i].visitor !in s.spliced {
      assert (s.opens + s.unsent)[i] == s.opens[i];
    }
    forall i | 0 <= i < |s.unsent| ensures s.unsent[i].visitor !in s.spliced {
      assert (s.opens + s.unsent)[|s.opens| + i] == s.unsent[i];
    }
  }

  lemma AcceptInv(s: State)
    requires Inv(s) && s.unsent == []
    ensures Inv(AcceptStep(s))
  {
    AcceptPending(s);
    AcceptFates(s);
    AcceptFlight(s);
    AcceptPairs(s);
    hide FatesOk, FlightOk, PairsOk;
  }

  /** Steps that only move connections on: each is still in one place, and no new one appears. */
  lemma MovesInv(s: State, t: State)
    requires Inv(s) && FlightOk(t) && InFlight(t) <= InFlight(s)
    requires t.server == s.server && t.accepted == s.accepted && t.spliced == s.spliced
    requires t.closed == s.closed && t.overwritten == s.overwritten && t.late == s.late
    ensures Inv(t)
  {
    SameFates(s, t);
    hide FatesOk, FlightOk, InFlight;
  }

  lemma SendInv(s: State, ok: bool)
    requires Inv(s)
    ensures Inv(Step(s, SendOpen(ok)))
  {
    var t := Step(s, SendOpen(ok));
    assert FlightOk(t) && InFlight(t) <= InFlight(s) by {
      hide FatesOk, PendingOk, PairsOk;
      assert s.opens + s.unsent == if ok || s.unsent == [] then t.opens + t.unsent else s.opens + s.unsent;
      assert t.opens + t.unsent <= s.opens + s.unsent;
    }
    hide Inv, FlightOk, InFlight;
    MovesInv(s, t);
  }

  /** Steps that leave visitors alone leave their fates alone. */
  lemma SameFates(s: State, t: State)
    requires FatesOk(s)
    requires t.server == s.server && t.spliced == s.spliced && t.closed == s.closed
    requires t.overwritten == s.overwritten && t.accepted == s.accepted
    ensures FatesOk(t)
  {
    forall v: nat | v < t.accepted ensures OneFate(t, v) {
      assert OneFate(s, v);
      assert IsSpliced(t, v) <==> IsSpliced(s, v);
    }
  }

  lemma ReadFlight(s: State)
    requires FlightOk(s) && s.opens != []
    ensures FlightOk(Step(s, ClientReadsOpen)) && InFlight(Step(s, ClientReadsOpen)) <= InFlight(s)
  {
    var t := Step(s, ClientReadsOpen);
    var before, after := s.opens + s.unsent, t.opens + t.unsent;
    assert before == [s.opens[0]] + after;
    assert forall i :: 0 <= i < |after| ==> after[i] == before[i + 1];
    assert before[0] == s.opens[0];
  }

  lemma ReadInv(s: State)
    requires Inv(s)
    ensures Inv(Step(s, ClientReadsOpen))
  {
    if s.opens != [] {
      ReadFlight(s);
      hide FlightOk, InFlight, FatesOk, PendingOk, PairsOk;
      MovesInv(s, Step(s, ClientReadsOpen));
    }
  }

  lemma DialFailsInv(s: State, c: nat)
    requires Inv(s)
    ensures Inv(Step(s, DialFails(c)))
  {
    var t := Step(s, DialFails(c));
    assert FlightOk(t) && InFlight(t) <= InFlight(s) by { hide FatesOk, PendingOk, PairsOk; }
    hide Inv, FlightOk, InFlight;
    MovesInv(s, t);
  }

  lemma RemovedPending(s: State, t: State, id: u16)
    requires PendingOk(s) && t.server == Removed(s.server, id) && t.accepted == s.accepted
    ensures PendingOk(t)
    ensures forall v: nat :: IsPending(t, v) <==> IsPending(s, v) && v % IDS != id
    ensures forall v: nat :: IsPending(s, v) && v % IDS == id <==> v in AtId(s, id)
  {
  }

  lemma CloseInv(s: State, id: u16)
    requires Inv(s)
    ensures Inv(Step(s, Close(id)))
  {
    var t := Step(s, Close(id));
    RemovedPending(s, t, id);
    assert InFlight(t) == InFlight(s);
    forall v: nat | v < t.accepted ensures OneFate(t, v) {
      assert OneFate(s, v);
      assert IsSpliced(t, v) <==> IsSpliced(s, v);
    }
  }

  lemma DeliverFates(s: State, c: nat)
    requires Inv(s) && c in s.dialing
    ensures FatesOk(DeliverStep(s, c))
  {
    var t, id := DeliverStep(s, c), s.dialing[c];
    RemovedPending(s, t, id);
    forall v: nat | v < t.accepted ensures OneFate(t, v) {
      assert OneFate(s, v);
      if IsSpliced(s, v) {
        var d :| d in s.spliced && s.spliced[d] == v;
        assert d in t.spliced && t.spliced[d] == v;
      }
      if v in AtId(s, id) {
        assert c in t.spliced && t.spliced[c] == v;
      } else if IsSpliced(t, v) {
        var d :| d in t.spliced && t.spliced[d] == v;
        assert d in s.spliced;
      }
    }
    if id in s.server.pending {
      var v := s.server.pending[id];
      assert OneFate(s, v) && IsPending(s, v);
      assert forall d :: d in s.spliced ==> s.spliced[d] != v;
    }
  }

  lemma DeliverFlight(s: State, c: nat)
    requires FlightOk(s) && c in s.dialing
    ensures FlightOk(DeliverStep(s, c))
    ensures InFlight(DeliverStep(s, c)) <= InFlight(s) && c in InFlight(s)
  {
  }

  /** A delivered connection meets its own visitor exactly when it is not late. */
  lemma DeliverMeets(s: State, c: nat)
    requires PendingOk(s) && FlightOk(s) && PairsOk(s)
    requires c in s.dialing && s.dialing[c] in s.server.pending
    ensures var v := s.server.pending[s.dialing[c]];
            v % IDS == c % IDS && c <= v && (v == c <==> c !in s.late)
  {
    var v := s.server.pending[s.dialing[c]];
    assert c in InFlight(s);
    SameId(c, v, s.accepted);
  }

  lemma DeliverPairs(s: State, c: nat)
    requires PendingOk(s) && FlightOk(s) && PairsOk(s) && c in s.dialing
    ensures PairsOk(DeliverStep(s, c))
  {
    DeliverFlight(s, c);
    if s.dialing[c] in s.server.pending {
      DeliverMeets(s, c);
    }
    hide FlightOk, PendingOk, InFlight;
  }

  lemma DeliverInv(s: State, c: nat)
    requires Inv(s) && c in s.dialing
    ensures Inv(DeliverStep(s, c))
  {
    RemovedPending(s, DeliverStep(s, c), s.dialing[c]);
    DeliverFates(s, c);
    DeliverFlight(s, c);
    DeliverPairs(s, c);
    hide FatesOk, FlightOk, PendingOk, PairsOk;
  }

  lemma StepInv(s: State, e: Event)
    requires Inv(s)
    ensures Inv(Step(s, e))
  {
    match e
    case Accept => if s.live && s.unsent == [] { AcceptInv(s); }
    case SendOpen(ok) => SendInv(s, ok);
    case AcceptorEnds =>
      SameFates(s, Step(s, e));
      assert InFlight(Step(s, e)) == InFlight(s);
    case ClientReadsOpen => ReadInv(s);
    case DialFails(c) => DialFailsInv(s, c);
    case Deliver(c) => if c in s.dialing { DeliverInv(s, c); }
    case Close(id) => CloseInv(s, id);
  }
}
