/** Who blocks a round: absence with and without override, and grace periods before and after their lease has run. */
module Blocking {

  import opened Common
  import opened People
  import opened Presence
  import L = Lobby

  predicate Needed(t: Tables, p: Id) {
    Live(t, p) && (t.participants[p].role.Host? || t.participants[p].eligibility.Playing?)
  }

  lemma CurrentAfter(t: Tables, p: Id, g: Generation)
    requires PeopleOk(t) && p in t.participants && g.endedAt.None?
    ensures Current(t, p) == Some(Newest(t, p)) && Current(WithCurrent(t, p, g), p) == Some(g)
  {
    hide HasOpenSession, HasActiveSession;
    CurrentIsNewest(t, p);
    assert ParticipantOk(t, p);
    OpenIndexIsLast(t.presence[p]);
    var gens := WithCurrent(t, p, g).presence[p];
    assert gens[|gens| - 1].endedAt.None?;
  }

  /** Whoever is connected blocks nothing, whoever is absent without override blocks if needed, and grace blocks from its end on. */
  lemma BlockingMeaning(t: Tables, p: Id, now: Time)
    requires PeopleOk(t) && p in t.participants
    ensures var g := Newest(t, p);
            L.Blocks(t, p, now) <==>
              Needed(t, p)
              && (match g.status
                  case Connected => false
                  case Gone => false
                  case Absent => !g.overridden
                  case Grace => g.graceEndsAt.Some? && g.graceEndsAt.value <= now)
  {
    hide HasOpenSession, HasActiveSession;
    CurrentIsNewest(t, p);
  }

  /** An overridden absence no longer blocks, at any time. */
  lemma OverrideUnblocks(t: Tables, p: Id, number: nat, now: Time, later: Time)
    requires PeopleOk(t) && p in t.participants && Overridable(t, p, number)
    ensures Needed(t, p) ==> L.Blocks(t, p, now)
    ensures !L.Blocks(Override(t, p, now), p, later)
  {
    hide HasOpenSession, HasActiveSession;
    CurrentIsNewest(t, p);
    CurrentAfter(t, p, Newest(t, p).(overridden := true, changedAt := now));
  }

  /** A grace period that is over blocks whether or not its lease has run yet. */
  lemma LateLeaseDoesNotMatter(t: Tables, l: Lease, now: Time, q: Id)
    requires PeopleOk(t) && LeaseHolds(t, l) && l.graceEndsAt <= now && q in t.participants
    ensures ExpireGrace(t, l, now).Expired?
    ensures L.Blocks(ExpireGrace(t, l, now).tables, q, now) <==> L.Blocks(t, q, now)
  {
    hide HasOpenSession, HasActiveSession, GenerationsOk;
    CurrentIsNewest(t, l.participant);
    CurrentAfter(t, l.participant, AbsentGeneration(Newest(t, l.participant), now));
    OthersAlone(t, l.participant, AbsentGeneration(Newest(t, l.participant), now), q);
  }

  lemma OthersAlone(t: Tables, p: Id, g: Generation, q: Id)
    requires Current(t, p).Some?
    ensures q != p ==> Current(WithCurrent(t, p, g), q) == Current(t, q)
  {
  }

  /** So executing due grace leases never changes whether the lobby is blocked. */
  lemma LobbyBlocksAlike(t: Tables, l: Lease, now: Time)
    requires PeopleOk(t) && LeaseHolds(t, l) && l.graceEndsAt <= now
    ensures L.HasBlockingPresence(ExpireGrace(t, l, now).tables, now) <==> L.HasBlockingPresence(t, now)
  {
    hide PeopleOk, LeaseHolds, ExpireGrace, L.Blocks;
    var r := ExpireGrace(t, l, now);
    LateLeaseDoesNotMatter(t, l, now, l.participant) by { LeaseIsLive(t, l); }
    SameParticipants(t, l, now);
    forall q | q in t.participants ensures L.Blocks(r.tables, q, now) <==> L.Blocks(t, q, now) {
      LateLeaseDoesNotMatter(t, l, now, q);
    }
  }

  lemma LeaseIsLive(t: Tables, l: Lease)
    requires LeaseHolds(t, l)
    ensures l.participant in t.participants
  {
  }

  lemma SameParticipants(t: Tables, l: Lease, now: Time)
    requires ExpireGrace(t, l, now).Expired?
    ensures ExpireGrace(t, l, now).tables.participants == t.participants
  {
    hide LeaseHolds;
  }
}
