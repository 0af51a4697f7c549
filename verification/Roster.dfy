/** Who is in a lobby, over whole runs: names stay distinct and the lobby never overflows. */
module Roster {

  import opened Common
  import opened People
  import opened Presence
  import opened Connections
  import opened Patterns

  predicate NamesDistinct(t: Tables) {
    forall p, q | p in t.participants && q in t.participants && t.participants[p].username == t.participants[q].username :: p == q
  }

  predicate Fits(t: Tables, maximum: nat) {
    |LiveIds(t)| <= maximum
  }

  /** Nobody joins, nobody comes back, and names stay. */
  predicate NoNewcomer(t: Tables, u: Tables) {
    && (forall p | p in u.participants :: p in t.participants && u.participants[p].username == t.participants[p].username)
    && LiveIds(u) <= LiveIds(t)
  }

  lemma NoNewcomerKeeps(t: Tables, u: Tables, maximum: nat)
    requires NoNewcomer(t, u) && NamesDistinct(t) && Fits(t, maximum)
    ensures NamesDistinct(u) && Fits(u, maximum)
  {
    SubsetCount(LiveIds(u), LiveIds(t));
  }

  lemma ExpiryAddsNobody(t: Tables, now: Time)
    ensures NoNewcomer(t, ExpireDue(t, now))
  {
    hide Max, Deadlines, HasOpenSession;
    forall p | p in LiveIds(ExpireDue(t, now)) ensures p in LiveIds(t) {
      ExpiryDeparts(t, now, p);
    }
  }

  lemma SameParticipants(t: Tables, u: Tables, v: Tables)
    requires NoNewcomer(t, u) && v.participants == u.participants
    ensures NoNewcomer(t, v)
  {
    assert LiveIds(v) == LiveIds(u);
  }

  /** Joining is refused for a name in use and for a full lobby, and otherwise adds one. */
  lemma ArrivalKeeps(t: Tables, op: Op, maximum: nat)
    requires NamesDistinct(t) && Fits(t, maximum) && op.Arrive? && op.maxPlayers <= maximum && op.participant !in t.participants
    ensures var r := Join(t, op.participant, op.session, op.username, op.eligibility, op.issuedAt, op.maxPlayers, op.now);
            var u := if r.Joined? then r.tables else r.after;
            NamesDistinct(u) && Fits(u, maximum)
  {
    hide ExpireDue;
    var e := ExpireDue(t, op.now);
    ExpiryAddsNobody(t, op.now);
    NoNewcomerKeeps(t, e, maximum);
    var r := Join(t, op.participant, op.session, op.username, op.eligibility, op.issuedAt, op.maxPlayers, op.now);
    if r.Joined? {
      assert LiveIds(r.tables) <= LiveIds(e) + {op.participant};
      SubsetCount(LiveIds(r.tables), LiveIds(e) + {op.participant});
    }
  }

  lemma SomeoneArrives(w: World, op: Op, maximum: nat)
    requires NamesDistinct(w.tables) && Fits(w.tables, maximum) && op.Arrive? && op.maxPlayers <= maximum
    ensures NamesDistinct(Do(w, op).tables) && Fits(Do(w, op).tables, maximum)
  {
    hide Join, NamesDistinct, Fits;
    if op.participant !in w.tables.participants && op.session !in w.tables.sessions {
      ArrivalKeeps(w.tables, op, maximum);
    }
  }

  /** Apart from arrivals no step adds anybody. */
  lemma OthersAddNobody(w: World, op: Op)
    requires !op.Arrive?
    ensures NoNewcomer(w.tables, Do(w, op).tables)
  {
    hide ExpireDue, MayConnect, Current, LeaseHolds, Overridable, OpenIndex, LiveIds, AllPlay;
    var t := w.tables;
    var now := if op.Enroll? then 0 else op.now;
    ExpiryAddsNobody(t, now);
    Nobody(t);
    EnrollingAddsNobody(t);
    var u := Do(w, op).tables;
    if !op.Enroll? {
      if u.participants == t.participants {
        SameParticipants(t, t, u);
      } else {
        SameParticipants(t, ExpireDue(t, now), u);
      }
    }
  }

  lemma Nobody(t: Tables)
    ensures NoNewcomer(t, t)
  {
  }

  lemma EnrollingAddsNobody(t: Tables)
    ensures NoNewcomer(t, AllPlay(t))
  {
  }

  /** In every run names stay distinct, also those of the departed, and at most the maximum are present. */
  lemma {:induction false} RosterStaysSound(w: World, ops: seq<Op>, maximum: nat)
    requires NamesDistinct(w.tables) && Fits(w.tables, maximum)
    requires forall i | 0 <= i < |ops| && ops[i].Arrive? :: ops[i].maxPlayers <= maximum
    ensures NamesDistinct(Run(w, ops).tables) && Fits(Run(w, ops).tables, maximum)
  {
    hide Do, NamesDistinct, Fits;
    if ops != [] {
      var n := |ops| - 1;
      RosterStaysSound(w, ops[..n], maximum);
      var v := Run(w, ops[..n]);
      if ops[n].Arrive? {
        SomeoneArrives(v, ops[n], maximum);
      } else {
        OthersAddNobody(v, ops[n]);
        NoNewcomerKeeps(v.tables, Do(v, ops[n]).tables, maximum);
      }
    }
  }
}
