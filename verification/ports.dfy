/** The tunnel server's port pool, shared by all agent sessions. A session takes its two ports in two
    separate critical sections and gives them back in two more, so sessions interleave freely. */
module Ports {
  import opened Options

  const PORT_RANGE_START: nat := 30000
  const PORT_RANGE_END: nat := 31000

  predicate IsFree(used: set<nat>, bindable: set<nat>, port: nat) {
    30000 <= port <= 31000 && port !in used && port in bindable
  }

  /** The lowest pool port from `from` on that is not used and that the system lets us bind. */
  function FirstFree(used: set<nat>, bindable: set<nat>, from: nat): (r: Option<nat>)
    ensures r.Some? ==> from <= r.value <= PORT_RANGE_END && r.value !in used && r.value in bindable
    ensures r.Some? ==> forall p :: from <= p < r.value ==> p in used || p !in bindable
    ensures r.None? ==> forall p :: from <= p <= PORT_RANGE_END ==> p in used || p !in bindable
    decreases PORT_RANGE_END + 1 - from
  {
    if from > PORT_RANGE_END then None
    else if from !in used && from in bindable then Some(from)
    else FirstFree(used, bindable, from + 1)
  }

  predicate Lowest(used: set<nat>, bindable: set<nat>, port: nat) {
    IsFree(used, bindable, port) && forall lower: nat :: lower < port ==> !IsFree(used, bindable, lower)
  }

  lemma LowestOnly(used: set<nat>, bindable: set<nat>)
    ensures forall p: nat :: Lowest(used, bindable, p) <==> FirstFree(used, bindable, PORT_RANGE_START) == Some(p)
  {
    var r := FirstFree(used, bindable, PORT_RANGE_START);
    if r.Some? {
      assert IsFree(used, bindable, r.value);
    }
  }

  class PortPool {
    var used: set<nat>

    constructor ()
      ensures used == {}
    {
      used := {};
    }

    /** `bindable` are the ports that the system would let this call bind. */
    method Allocate(bindable: set<nat>) returns (port: Option<nat>)
      modifies this
      ensures port == FirstFree(old(used), bindable, PORT_RANGE_START)
      ensures used == old(used) + if port.Some? then {port.value} else {}
    {
      var candidate: nat := PORT_RANGE_START;
      while candidate <= PORT_RANGE_END
        invariant candidate <= PORT_RANGE_END + 1 && used == old(used)
        invariant FirstFree(used, bindable, candidate) == FirstFree(used, bindable, PORT_RANGE_START)
      {
        if candidate !in used && candidate in bindable {
          used := used + {candidate};
          return Some(candidate);
        }
        candidate := candidate + 1;
      }
      port := None;
    }

    method Release(port: nat)
      modifies this
      ensures used == old(used) - {port}
    {
      used := used - {port};
    }

    /** One session on its own: it serves on the two lowest ports that it can have, exactly when it can have
        two and the connection holds; on every return path the pool is as before. A thread that panics while it
        serves, as when the listener cannot be made non-blocking, never gives its two ports back. */
    method RunSession(bindPublic: set<nat>, bindData: set<nat>, handshakeSent: bool, cloned: bool, panics: bool)
      returns (served: Option<(nat, nat)>)
      modifies this
      ensures served.Some? ==> served.value.0 != served.value.1 && {served.value.0, served.value.1} !! old(used)
      ensures served.Some? <==>
        && handshakeSent && cloned
        && exists p :: Lowest(old(used), bindPublic, p) && exists d :: Lowest(old(used) + {p}, bindData, d)
      ensures served.Some? ==>
        && Lowest(old(used), bindPublic, served.value.0)
        && Lowest(old(used) + {served.value.0}, bindData, served.value.1)
      ensures used == old(used) + if served.Some? && panics then {served.value.0, served.value.1} else {}
    {
      LowestOnly(used, bindPublic);
      var publicPort := Allocate(bindPublic);
      if publicPort.None? {
        return None;
      }
      LowestOnly(used, bindData);
      var dataPort := Allocate(bindData);
      if dataPort.None? {
        Release(publicPort.value);
        return None;
      }
      served := if handshakeSent && cloned then Some((publicPort.value, dataPort.value)) else None;
      if served.Some? && panics {
        return;
      }
      Release(publicPort.value);
      Release(dataPort.value);
    }
  }

  // ---- interleaved sessions ----

  /** How far one session thread has come, with the ports it must still give back. */
  datatype Session =
    | Started
    | HasPublic(public: nat)
    | Rejecting(public: nat)
    | Serving(public: nat, data: nat)
    | Returning(public: nat, data: nat)
    | HasData(data: nat)
    | Crashed(public: nat, data: nat)
    | Ended

  datatype State = State(used: set<nat>, sessions: map<nat, Session>)

  /** One critical section, or one thread-local decision, of the session `id`. */
  datatype Event =
    | Connect(id: nat)
    | TakePublic(id: nat, bindable: set<nat>)
    | TakeData(id: nat, bindable: set<nat>)
    | Leave(id: nat)
    | Crash(id: nat)
    | GiveBack(id: nat)

  function Held(s: Session): set<nat> {
    match s
    case Started => {}
    case HasPublic(p) => {p}
    case Rejecting(p) => {p}
    case Serving(p, d) => {p, d}
    case Returning(p, d) => {p, d}
    case HasData(d) => {d}
    case Crashed(p, d) => {p, d}
    case Ended => {}
  }

  const INITIAL := State({}, map[])

  function TakePublicStep(s: State, id: nat, bindable: set<nat>): State {
    match FirstFree(s.used, bindable, PORT_RANGE_START)
    case None => s.(sessions := s.sessions[id := Ended])
    case Some(p) => State(s.used + {p}, s.sessions[id := HasPublic(p)])
  }

  function TakeDataStep(s: State, id: nat, public: nat, bindable: set<nat>): State {
    match FirstFree(s.used, bindable, PORT_RANGE_START)
    case None => s.(sessions := s.sessions[id := Rejecting(public)])
    case Some(d) => State(s.used + {d}, s.sessions[id := Serving(public, d)])
  }

  function GiveBackStep(s: State, id: nat): State
    requires id in s.sessions
  {
    match s.sessions[id]
    case Rejecting(p) => State(s.used - {p}, s.sessions[id := Ended])
    case Returning(p, d) => State(s.used - {p}, s.sessions[id := HasData(d)])
    case HasData(d) => State(s.used - {d}, s.sessions[id := Ended])
    case _ => s
  }

  /** Events that are not enabled change nothing. */
  function Step(s: State, e: Event): State {
    match e
    case Connect(id) => if id in s.sessions then s else s.(sessions := s.sessions[id := Started])
    case TakePublic(id, bindable) =>
      if id in s.sessions && s.sessions[id].Started? then TakePublicStep(s, id, bindable) else s
    case TakeData(id, bindable) =>
      if id in s.sessions && s.sessions[id].HasPublic? then TakeDataStep(s, id, s.sessions[id].public, bindable) else s
    case Leave(id) =>
      if id in s.sessions && s.sessions[id].Serving?
      then s.(sessions := s.sessions[id := Returning(s.sessions[id].public, s.sessions[id].data)]) else s
    case Crash(id) =>
      if id in s.sessions && s.sessions[id].Serving?
      then s.(sessions := s.sessions[id := Crashed(s.sessions[id].public, s.sessions[id].data)]) else s
    case GiveBack(id) => if id in s.sessions then GiveBackStep(s, id) else s
  }

  function Run(s: State, events: seq<Event>): State
    decreases |events|
  {
    if events == [] then s else Run(Step(s, events[0]), events[1..])
  }

  // ---- ownership ----

  predicate OneOwner(s: State) {
    forall i, j :: i in s.sessions && j in s.sessions && i != j ==> Held(s.sessions[i]) !! Held(s.sessions[j])
  }

  predicate HoldsBoth(session: Session) {
    session.Serving? || session.Returning? || session.Crashed?
  }

  predicate TwoPorts(session: Session) {
    HoldsBoth(session) ==> session.public != session.data
  }

  ghost predicate Owned(s: State) {
    && (forall i :: i in s.sessions ==> Held(s.sessions[i]) <= s.used && TwoPorts(s.sessions[i]))
    && (forall p :: p in s.used ==> PORT_RANGE_START <= p <= PORT_RANGE_END)
    && (forall p :: p in s.used ==> exists i :: i in s.sessions && p in Held(s.sessions[i]))
    && OneOwner(s)
  }

  /** Replacing one session and adjusting the pool by exactly the difference keeps ownership. */
  lemma ReplaceOwned(s: State, id: nat, next: Session, used: set<nat>)
    requires Owned(s) && TwoPorts(next)
    requires var mine := if id in s.sessions then Held(s.sessions[id]) else {};
             && used == (s.used - mine) + Held(next)
             && (Held(next) - mine) !! s.used
    requires forall p :: p in Held(next) ==> PORT_RANGE_START <= p <= PORT_RANGE_END
    ensures Owned(State(used, s.sessions[id := next]))
  {
    var mine := if id in s.sessions then Held(s.sessions[id]) else {};
    var t := State(used, s.sessions[id := next]);
    forall i | i in s.sessions && i != id
      ensures Held(s.sessions[i]) <= s.used - mine && Held(s.sessions[i]) !! Held(next)
    {
      hide Held;
    }
    forall p | p in used ensures exists i :: i in t.sessions && p in Held(t.sessions[i]) {
      if p in Held(next) {
        assert id in t.sessions;
      } else {
        var i :| i in s.sessions && p in Held(s.sessions[i]);
        assert i in t.sessions && t.sessions[i] == s.sessions[i];
      }
    }
  }

  lemma StepOwned(s: State, e: Event)
    requires Owned(s)
    ensures Owned(Step(s, e))
  {
    hide Owned;
    var t := Step(s, e);
    if t != s {
      var next := t.sessions[e.id];
      var mine := if e.id in s.sessions then Held(s.sessions[e.id]) else {};
      assert Held(next) - mine !! s.used && TwoPorts(next) && mine <= s.used by { ChangeAllowed(s, e); }
      assert forall p :: p in Held(next) ==> PORT_RANGE_START <= p <= PORT_RANGE_END by { ChangeAllowed(s, e); }
      assert t.used == (s.used - mine) + Held(next) by { ChangeAllowed(s, e); }
      assert t == State(t.used, s.sessions[e.id := next]);
      ReplaceOwned(s, e.id, next, t.used);
    }
  }

  lemma GiveBackAllowed(s: State, id: nat)
    requires Owned(s) && id in s.sessions
    ensures var t := GiveBackStep(s, id);
            && id in t.sessions
            && Held(t.sessions[id]) <= Held(s.sessions[id]) <= s.used && TwoPorts(t.sessions[id])
            && t.used == (s.used - Held(s.sessions[id])) + Held(t.sessions[id])
  {
    hide OneOwner;
  }

  lemma ChangeAllowed(s: State, e: Event)
    requires Owned(s) && Step(s, e) != s
    ensures var t := Step(s, e);
            && e.id in t.sessions
            && var next := t.sessions[e.id];
               var mine := if e.id in s.sessions then Held(s.sessions[e.id]) else {};
               && mine <= s.used && Held(next) - mine !! s.used && TwoPorts(next)
               && t.used == (s.used - mine) + Held(next)
               && forall p :: p in Held(next) ==> PORT_RANGE_START <= p <= PORT_RANGE_END
  {
    hide FirstFree, OneOwner;
    match e
    case Connect(_) =>
    case TakePublic(_, bindable) => var r := FirstFree(s.used, bindable, PORT_RANGE_START);
    case TakeData(_, bindable) => var r := FirstFree(s.used, bindable, PORT_RANGE_START);
    case Leave(_) =>
    case Crash(_) =>
    case GiveBack(_) => GiveBackAllowed(s, e.id);
  }

  /** In every run the used set is exactly the disjoint union of what the sessions hold. */
  lemma {:induction false} RunOwned(s: State, events: seq<Event>)
    requires Owned(s)
    ensures Owned(Run(s, events))
    decreases |events|
  {
    if events != [] {
      hide Owned, Step;
      StepOwned(s, events[0]);
      RunOwned(Step(s, events[0]), events[1..]);
    }
  }

  lemma EveryRunOwned(events: seq<Event>)
    ensures Owned(Run(INITIAL, events))
  {
    RunOwned(INITIAL, events);
  }

  // ---- giving back ----

  predicate Leaving(session: Session) {
    session.Rejecting? || session.Returning? || session.HasData?
  }

  lemma RunTwo(s: State, a: Event, b: Event)
    ensures Run(s, [a, b]) == Step(Step(s, a), b)
  {
    hide Step;
    assert [a, b][1..] == [b] && [b][1..] == [];
    assert Run(Step(s, a), [b]) == Run(Step(Step(s, a), b), []);
  }

  lemma RunThree(s: State, a: Event, b: Event, c: Event)
    ensures Run(s, [a, b, c]) == Step(Step(Step(s, a), b), c)
  {
    hide Step;
    assert [a, b, c][1..] == [b, c];
    RunTwo(Step(s, a), b, c);
  }

  /** A session that has left ends with its second critical section at the latest, and frees exactly its ports. */
  lemma TwoGiveBacksEnd(s: State, id: nat)
    requires Owned(s) && id in s.sessions && Leaving(s.sessions[id])
    ensures Run(s, [GiveBack(id), GiveBack(id)])
         == State(s.used - Held(s.sessions[id]), s.sessions[id := Ended])
  {
    var e := GiveBack(id);
    RunTwo(s, e, e);
    OwnedAt(s, id);
    match s.sessions[id]
    case Returning(p, d) =>
      assert s.used - {p} - {d} == s.used - {p, d};
      assert s.sessions[id := HasData(d)][id := Ended] == s.sessions[id := Ended];
    case _ =>
  }

  lemma SessionSteps(s: State, id: nat, bindPublic: set<nat>, bindData: set<nat>, p: nat, d: nat)
    requires id in s.sessions && s.sessions[id].Started?
    requires Lowest(s.used, bindPublic, p) && Lowest(s.used + {p}, bindData, d)
    ensures var s1 := State(s.used + {p}, s.sessions[id := HasPublic(p)]);
            var s2 := State(s.used + {p, d}, s.sessions[id := Serving(p, d)]);
            && Step(s, TakePublic(id, bindPublic)) == s1 && Step(s1, TakeData(id, bindData)) == s2
            && Step(s2, Leave(id)) == State(s.used + {p, d}, s.sessions[id := Returning(p, d)])
            && s.used + {p, d} - {p, d} == s.used
  {
    LowestOnly(s.used, bindPublic);
    LowestOnly(s.used + {p}, bindData);
    hide FirstFree;
    assert p !in s.used && d !in s.used + {p};
    assert s.used + {p} + {d} == s.used + {p, d};
    assert s.sessions[id := HasPublic(p)][id := Serving(p, d)] == s.sessions[id := Serving(p, d)];
    assert s.sessions[id := Serving(p, d)][id := Returning(p, d)] == s.sessions[id := Returning(p, d)];
  }

  /** A whole session, in a reachable state with two ports for it: it serves on both and leaves nothing. */
  lemma WholeSession(events: seq<Event>, id: nat, bindPublic: set<nat>, bindData: set<nat>, p: nat, d: nat)
    requires var s := Run(INITIAL, events);
             && id in s.sessions && s.sessions[id].Started?
             && Lowest(s.used, bindPublic, p) && Lowest(s.used + {p}, bindData, d)
    ensures var s := Run(INITIAL, events);
            var t := Run(s, [TakePublic(id, bindPublic), TakeData(id, bindData), Leave(id)]);
            && Run(s, [TakePublic(id, bindPublic), TakeData(id, bindData)])
               == State(s.used + {p, d}, s.sessions[id := Serving(p, d)])
            && Run(t, [GiveBack(id), GiveBack(id)]) == State(s.used, s.sessions[id := Ended])
  {
    hide Step, Owned, Run, FirstFree, Lowest;
    var s := Run(INITIAL, events);
    EveryRunOwned(events);
    var a, b, c := TakePublic(id, bindPublic), TakeData(id, bindData), Leave(id);
    SessionSteps(s, id, bindPublic, bindData, p, d);
    RunTwo(s, a, b);
    RunThree(s, a, b, c);
    StepOwned(s, a);
    StepOwned(Step(s, a), b);
    StepOwned(Step(Step(s, a), b), c);
    var t := State(s.used + {p, d}, s.sessions[id := Returning(p, d)]);
    TwoGiveBacksEnd(t, id);
    assert t.sessions[id := Ended] == s.sessions[id := Ended];
  }

  function GivesBack(events: seq<Event>, id: nat): nat {
    if events == [] then 0
    else (if events[0] == GiveBack(id) then 1 else 0) + GivesBack(events[1..], id)
  }

  /** How many critical sections are left to a session that has left. */
  function Remaining(session: Session): nat {
    |Held(session)|
  }

  lemma HoldsSome(session: Session)
    requires Leaving(session)
    ensures Remaining(session) > 0
  {
    assert Held(session) != {};
  }

  lemma LeavingStep(s: State, e: Event, id: nat)
    requires Owned(s) && id in s.sessions && Leaving(s.sessions[id])
    ensures var t := Step(s, e);
            && id in t.sessions
            && if e == GiveBack(id)
               then Held(t.sessions[id]) < Held(s.sessions[id]) && t.used == s.used - (Held(s.sessions[id]) - Held(t.sessions[id]))
                    && Remaining(t.sessions[id]) == Remaining(s.sessions[id]) - 1
                    && (Leaving(t.sessions[id]) || t.sessions[id].Ended?)
               else t.sessions[id] == s.sessions[id]
  {
    hide Owned;
    if e == GiveBack(id) {
      OwnedAt(s, id);
      var session := s.sessions[id];
      if session.Returning? {
        assert Held(session) - {session.public} == {session.data};
        assert |Held(session)| == 2;
      }
    }
  }

  lemma OwnedAt(s: State, id: nat)
    requires Owned(s) && id in s.sessions
    ensures Held(s.sessions[id]) <= s.used && TwoPorts(s.sessions[id])
  {
  }

  /** However other sessions interleave, a session that has left ends after at most as many of its own
      critical sections as it holds ports, one or two. */
  lemma {:induction false} LeavingEnds(s: State, events: seq<Event>, id: nat)
    requires Owned(s) && id in s.sessions && Leaving(s.sessions[id])
    requires GivesBack(events, id) >= Remaining(s.sessions[id])
    ensures id in Run(s, events).sessions && Run(s, events).sessions[id].Ended?
    decreases |events|
  {
    if events == [] {
      HoldsSome(s.sessions[id]);
    } else {
      hide Owned, Held, Step;
      LeavingStep(s, events[0], id);
      StepOwned(s, events[0]);
      var t := Step(s, events[0]);
      if t.sessions[id].Ended? {
        EndedStays(t, events[1..], id);
      } else {
        LeavingEnds(t, events[1..], id);
      }
    }
  }

  lemma {:induction false} EndedStays(s: State, events: seq<Event>, id: nat)
    requires id in s.sessions && s.sessions[id].Ended?
    ensures id in Run(s, events).sessions && Run(s, events).sessions[id].Ended?
    decreases |events|
  {
    if events != [] {
      EndedStays(Step(s, events[0]), events[1..], id);
    }
  }

  // ---- capacity ----

  ghost function Range(lo: nat, hi: nat): (r: set<nat>)
    requires lo <= hi
    ensures forall p :: p in r <==> lo <= p < hi
    ensures |r| == hi - lo
    decreases hi - lo
  {
    if lo == hi then {} else Range(lo, hi - 1) + {hi - 1}
  }

  lemma SubsetSize(a: set<nat>, b: set<nat>)
    requires a <= b
    ensures |a| <= |b|
  {
    assert b == a + (b - a);
  }

  lemma {:induction false} PairsFit(ids: set<nat>, s: State, ports: set<nat>)
    requires OneOwner(s)
    requires forall i :: i in ids ==> i in s.sessions && TwoPorts(s.sessions[i])
    requires forall i :: i in ids ==> HoldsBoth(s.sessions[i])
    requires forall i :: i in ids ==> Held(s.sessions[i]) <= ports
    ensures 2 * |ids| <= |ports|
    decreases ids
  {
    if ids != {} {
      var i :| i in ids;
      var mine := Held(s.sessions[i]);
      assert mine == {s.sessions[i].public, s.sessions[i].data} && |mine| == 2;
      forall j | j in ids - {i} ensures Held(s.sessions[j]) <= ports - mine {
        hide Held;
        assert Held(s.sessions[i]) !! Held(s.sessions[j]);
      }
      PairsFit(ids - {i}, s, ports - mine);
      assert |ports - mine| == |ports| - 2 by {
        SubsetSize(mine, ports);
        assert ports == mine + (ports - mine);
      }
    }
  }

  function Holders(s: State): set<nat> {
    set i | i in s.sessions && HoldsBoth(s.sessions[i])
  }

  lemma HoldersFit(s: State)
    requires Owned(s)
    ensures |Holders(s)| <= 500
  {
    var pool := Range(PORT_RANGE_START, PORT_RANGE_END + 1);
    assert s.used <= pool;
    SubsetSize(s.used, pool);
    hide Held;
    PairsFit(Holders(s), s, s.used);
  }

  /** At most 500 sessions hold both their ports at any time. */
  lemma AtMost500(events: seq<Event>)
    ensures |Holders(Run(INITIAL, events))| <= 500
  {
    hide Run, Holders;
    RunOwned(INITIAL, events);
    HoldersFit(Run(INITIAL, events));
  }

  /** With no session in progress, the used ports are exactly those of crashed sessions, so every port is
      free again if and only if none has crashed. */
  lemma NothingLeaks(events: seq<Event>)
    requires var s := Run(INITIAL, events);
             forall i :: i in s.sessions ==> s.sessions[i].Ended? || s.sessions[i].Started? || s.sessions[i].Crashed?
    ensures var s := Run(INITIAL, events);
            && (forall p :: p in s.used <==> exists i :: i in s.sessions && s.sessions[i].Crashed? && p in Held(s.sessions[i]))
            && (s.used == {} <==> forall i :: i in s.sessions ==> !s.sessions[i].Crashed?)
  {
    var s := Run(INITIAL, events);
    RunOwned(INITIAL, events);
    forall i | i in s.sessions && s.sessions[i].Crashed? ensures s.sessions[i].public in s.used {
      assert Held(s.sessions[i]) <= s.used;
    }
  }

  predicate Exhausted(s: State, bindable: set<nat>) {
    forall p :: PORT_RANGE_START <= p <= PORT_RANGE_END ==>
      p !in bindable || exists i :: i in s.sessions && p in Held(s.sessions[i])
  }

  /** A session is turned away, at its first or its second port, exactly when each pool port is held by
      some session or cannot be bound. */
  lemma TurnedAwayExactly(events: seq<Event>, id: nat, bindable: set<nat>)
    requires id in Run(INITIAL, events).sessions
    ensures var s := Run(INITIAL, events);
            && (s.sessions[id].Started? ==>
                  var next := Step(s, TakePublic(id, bindable)).sessions[id];
                  && (next.Ended? <==> Exhausted(s, bindable))
                  && (!next.Ended? ==> next.HasPublic? && Lowest(s.used, bindable, next.public)))
            && (s.sessions[id].HasPublic? ==>
                  var next := Step(s, TakeData(id, bindable)).sessions[id];
                  && (next.Rejecting? <==> Exhausted(s, bindable))
                  && (next.Rejecting? || next.Serving?) && next.public == s.sessions[id].public
                  && (next.Serving? ==> Lowest(s.used, bindable, next.data)))
  {
    var s := Run(INITIAL, events);
    RunOwned(INITIAL, events);
    hide Held;
    assert forall p :: p in s.used <==> exists i :: i in s.sessions && p in Held(s.sessions[i]);
    assert Exhausted(s, bindable) <==> FirstFree(s.used, bindable, PORT_RANGE_START).None?;
    LowestOnly(s.used, bindable);
  }
}
