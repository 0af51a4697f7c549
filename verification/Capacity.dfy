/** The capacity for authenticated connections: a total and a limit per session, given back exactly once. */
module Capacity {

  import opened Common

  datatype Reservation = Closed | Full | Reserved(ticket: Id)

  function HeldBy(held: map<Id, Id>, session: Id): set<Id> {
    set t | t in held && held[t] == session
  }

  lemma HoldMore(held: map<Id, Id>, ticket: Id, session: Id)
    requires ticket !in held
    ensures forall s :: |HeldBy(held[ticket := session], s)| == |HeldBy(held, s)| + if s == session then 1 else 0
    ensures |held[ticket := session]| == |held| + 1
  {
    forall s ensures |HeldBy(held[ticket := session], s)| == |HeldBy(held, s)| + if s == session then 1 else 0 {
      HoldOne(held, ticket, session, s);
    }
  }

  lemma HoldOne(held: map<Id, Id>, ticket: Id, session: Id, s: Id)
    requires ticket !in held
    ensures |HeldBy(held[ticket := session], s)| == |HeldBy(held, s)| + if s == session then 1 else 0
  {
    var more := HeldBy(held[ticket := session], s);
    if s == session {
      assert more == HeldBy(held, s) + {ticket};
    } else {
      assert more == HeldBy(held, s);
    }
  }

  lemma HoldLess(held: map<Id, Id>, ticket: Id)
    requires ticket in held
    ensures forall s :: |HeldBy(held - {ticket}, s)| == |HeldBy(held, s)| - if s == held[ticket] then 1 else 0
    ensures |held - {ticket}| == |held| - 1
  {
    var less := held - {ticket};
    assert held == less[ticket := held[ticket]];
    HoldMore(less, ticket, held[ticket]);
  }

  class AuthenticatedConnectionCapacity {
    const maximumConnections: nat
    const connectionsPerSession: nat
    var connectionsBySession: map<Id, nat>
    var activeConnections: nat
    /** The sessions of the reservations that were not released yet. */
    ghost var held: map<Id, Id>

    constructor (maximumConnections: nat, connectionsPerSession: nat)
      ensures this.maximumConnections == maximumConnections && this.connectionsPerSession == connectionsPerSession
      ensures Valid() && held == map[]
    {
      this.maximumConnections, this.connectionsPerSession := maximumConnections, connectionsPerSession;
      connectionsBySession, activeConnections, held := map[], 0, map[];
      new;
      forall s ensures HeldBy(held, s) == {} {}
    }

    /** The counters are those of the reservations held, and within their limits. */
    ghost predicate Valid()
      reads this
    {
      && activeConnections == |held| <= maximumConnections
      && (forall s :: |HeldBy(held, s)| <= connectionsPerSession)
      && (forall s | s in connectionsBySession :: connectionsBySession[s] == |HeldBy(held, s)| > 0)
      && (forall s | s !in connectionsBySession :: |HeldBy(held, s)| == 0)
    }

    /** Reserves a connection exactly when the transport is open and both limits leave room. */
    method Reserve(session: Id, open: bool, ticket: Id) returns (r: Reservation)
      requires Valid() && ticket !in held
      modifies this
      ensures Valid()
      ensures r.Closed? <==> !open
      ensures r.Reserved? <==>
        open && |old(held)| < maximumConnections && |HeldBy(old(held), session)| < connectionsPerSession
      ensures r.Reserved? ==> r.ticket == ticket
      ensures held == if r.Reserved? then old(held)[ticket := session] else old(held)
    {
      if !open { return Closed; }
      var sessionConnections := if session in connectionsBySession then connectionsBySession[session] else 0;
      if activeConnections >= maximumConnections || sessionConnections >= connectionsPerSession { return Full; }
      assert sessionConnections == |HeldBy(held, session)|;
      HoldMore(held, ticket, session);
      activeConnections := activeConnections + 1;
      connectionsBySession := connectionsBySession[session := sessionConnections + 1];
      ghost var before := held;
      held := held[ticket := session];
      forall s ensures |HeldBy(held, s)| == |HeldBy(before, s)| + if s == session then 1 else 0 {}
      return Reserved(ticket);
    }

    /** Gives a reservation back; a second time has no effect. */
    method Release(session: Id, ticket: Id, released: bool)
      requires Valid() && (released <==> ticket !in held) && (!released ==> held[ticket] == session)
      modifies this
      ensures Valid() && held == old(held) - {ticket}
    {
      if released {
        assert held - {ticket} == held;
        return;
      }
      HoldLess(held, ticket);
      assert ticket in HeldBy(held, session);
      activeConnections := activeConnections - 1;
      var remaining := connectionsBySession[session] - 1;
      connectionsBySession := if remaining == 0 then connectionsBySession - {session} else connectionsBySession[session := remaining];
      held := held - {ticket};
    }
  }
}
