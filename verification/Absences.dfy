/** What presence transactions publish, and how an absence stops the round. */
module Absences {

  import opened Common
  import opened Rows
  import opened Games
  import opened Lobby
  import opened LobbyInv
  import opened LobbyWorld
  import LobbySteps
  import Meaning
  import M = RoundMachine
  import P = People
  import Q = Presence
  import C = Connections
  import A = Accounting

  /** Nothing but the people changed. */
  function WithWorld(db: Db, w: C.World, now: Time): Db {
    db.(clock := now, world := w)
  }

  /** One event of a generation was appended. */
  function Announcing(db: Db, p: Id, g: P.Generation): Db {
    db.(lastSequence := db.lastSequence + 1,
        events := db.events + [Event(db.lastSequence + 1, None, PresencePayload(p, g), db.clock)])
  }

  /** A connection is announced exactly when it opens a new generation. */
  lemma ConnectAnnounces(db: Db, socket: Id, p: Id, session: Id, now: Time)
    requires A.Accounted(db.world) && socket !in db.world.sockets
    ensures var w := C.Do(db.world, C.Connect(socket, p, session, now));
            var r := ExecutePresence(db, C.Connect(socket, p, session, now));
            && r.Some?
            && if socket in w.sockets && p in Tables(db).presence && p in w.tables.presence && |w.tables.presence[p]| > |Tables(db).presence[p]|
               then w.tables.presence[p] != [] && r.value == Announcing(WithWorld(db, w, now), p, Q.Newest(w.tables, p))
               else r.value == WithWorld(db, w, now)
  {
    hide A.Accounted, Q.PeopleOk, P.ExpireDue, Q.Activate, Q.CountIn;
    var t := Tables(db);
    A.AccountedPeople(db.world);
    if Q.Register(t, p, session, now).number.Some? {
      Meaning.ConnectMeaning(t, p, session, now);
      NewGenerationAnnounced(t, p, session, now);
    }
  }

  lemma NewGenerationAnnounced(t: P.Tables, p: Id, session: Id, now: Time)
    requires Q.PeopleOk(t) && Q.Register(t, p, session, now).number.Some?
    ensures p in t.presence && t.presence[p] != []
    ensures var c := Q.Register(t, p, session, now);
            && p in c.tables.presence && c.tables.presence[p] != []
            && (c.announced.Some? <==> |c.tables.presence[p]| > |t.presence[p]|)
            && (c.announced.Some? ==> c.announced.value == Q.Newest(c.tables, p))
  {
    hide Q.PeopleOk, Q.Register;
    Meaning.ConnectMeaning(t, p, session, now);
  }

  /** A release is announced exactly when it takes the last socket and grace starts. */
  lemma ReleaseAnnounces(db: Db, socket: Id, chosen: Id, now: Time, rejoinMs: nat, graceMs: nat)
    requires A.Accounted(db.world) && socket in db.world.sockets
    ensures var p := db.world.sockets[socket].participant;
            var op := C.Release(socket, chosen, now, rejoinMs, graceMs);
            var w := C.Do(db.world, op);
            var r := ExecutePresence(db, op);
            && w.sockets == db.world.sockets - {socket} && r.Some?
            && if A.SocketsOf(db.world.sockets, p) == {socket}
               then p in w.tables.presence && w.tables.presence[p] != [] && Q.Newest(w.tables, p).status.Grace?
                    && r.value == Announcing(WithWorld(db, w, now), p, Q.Newest(w.tables, p))
               else r.value == WithWorld(db, w, now)
  {
    hide A.Accounted, Q.Unregister, A.LeavesAs;
    A.ReleaseMeaning(db.world, socket, chosen, now, rejoinMs, graceMs);
  }

  /** The participant is still in the grace period of the lease. */
  predicate InGrace(t: P.Tables, l: Q.Lease) {
    && l.participant in t.participants && t.participants[l.participant].departedAt.None?
    && l.participant in t.presence && t.presence[l.participant] != []
    && var g := Q.Newest(t, l.participant);
       g.number == l.number && g.status.Grace? && g.graceEndsAt == Some(l.graceEndsAt)
  }

  /** From now on the participant is absent. */
  function AbsentNow(t: P.Tables, p: Id, now: Time): P.Tables
    requires p in t.presence && t.presence[p] != []
  {
    var absent := Q.Newest(t, p).(status := P.Absent, changedAt := now, graceEndsAt := None, absentSince := Some(now), overridden := false);
    t.(presence := t.presence[p := t.presence[p][|t.presence[p]| - 1 := absent]])
  }

  /** An active round stops for the host and for every player; the host also takes over a pause that has another reason. */
  predicate Stops(db: Db, p: Id)
    requires p in Tables(db).participants
  {
    var row := Tables(db).participants[p];
    && db.game.Some?
    && var r := db.game.value.round;
       && r.startedAt.Some?
       && (|| (r.stage.StageActive? && (row.role.Host? || row.eligibility.Playing?))
           || (r.stage.StagePaused? && row.role.Host? && r.pauseReason != Some(M.HostAbsent)))
  }

  /** The round is paused and one event of it was appended. */
  function Stopped(db: Db, reason: M.PauseReason): Db
    requires db.game.Some? && db.game.value.round.startedAt.Some?
  {
    var r := db.game.value.round;
    var shown := PublicRound(r.id, r.currentPattern, r.config, PublicPaused(r.startedAt.value, reason, db.clock));
    db.(lastSequence := db.lastSequence + 1,
        events := db.events + [Event(db.lastSequence + 1, Some(r.id), StagePayload(shown), db.clock)],
        game := Some(db.game.value.(round := r.(stage := StagePaused, pausedAt := Some(db.clock), pauseReason := Some(reason), nextCallAt := None))))
  }

  /** When a grace period ends and nobody returned, the participant is absent, and the round stops if it needs the participant. */
  lemma GraceEnds(db: Db, o: Options, l: Q.Lease, now: Time)
    requires Inv(db, o) && db.clock <= now
    ensures var r := ExecutePresence(db, C.GraceElapses(l, now));
            && r.Some?
            && if InGrace(Tables(db), l) && l.graceEndsAt <= now then
                 var p := l.participant;
                 var t := AbsentNow(Tables(db), p, now);
                 t.presence[p] != [] &&
                 var absent := Announcing(WithWorld(db, db.world.(tables := t), now), p, Q.Newest(t, p));
                 r.value == if Stops(db, p) then
                              Stopped(absent, if Tables(db).participants[p].role.Host? then M.HostAbsent else M.ParticipantAbsent)
                            else absent
               else r.value == db.(clock := now)
  {
    hide Inv, Q.PeopleOk, InGrace, Q.LeaseHolds, PauseForAbsence;
    PresenceTransactionOk(db, o, C.GraceElapses(l, now));
    AccountedIn(db, o);
    A.AccountedPeople(db.world);
    GraceIsLease(Tables(db), l, now);
    if InGrace(Tables(db), l) && l.graceEndsAt <= now {
      var t := AbsentNow(Tables(db), l.participant, now);
      var absent := Announcing(WithWorld(db, db.world.(tables := t), now), l.participant, Q.Newest(t, l.participant));
      if db.game.Some? { StartedStages(db, o); }
      AbsencePausesRound(absent, l.participant);
    }
  }

  lemma GraceIsLease(t: P.Tables, l: Q.Lease, now: Time)
    requires Q.PeopleOk(t)
    ensures Q.LeaseHolds(t, l) <==> InGrace(t, l)
    ensures InGrace(t, l) ==> l.participant in t.participants && l.participant in t.presence && t.presence[l.participant] != []
    ensures InGrace(t, l) && l.graceEndsAt <= now ==>
              var u := AbsentNow(t, l.participant, now);
              u.presence[l.participant] != [] && Q.ExpireGrace(t, l, now) == Q.Expired(u, Q.Newest(u, l.participant))
  {
    hide P.HasOpenSession, P.HasActiveSession;
    if l.participant in t.participants {
      Q.CurrentIsNewest(t, l.participant);
      assert Q.ParticipantOk(t, l.participant);
      Q.OpenIndexIsLast(t.presence[l.participant]);
    } else {
      Q.NoCurrentOutside(t, l.participant);
    }
  }

  lemma StartedStages(db: Db, o: Options)
    requires Inv(db, o) && db.game.Some?
    ensures db.game.value.round.stage in {StageActive, StagePaused} ==> db.game.value.round.startedAt.Some?
  {
    hide Inv, DrawOk, CardsOk, CallsOk, MarksOk, WinnersOk, DeadlineAfterCalls;
    LobbySteps.GameFacts(db, o);
  }

  lemma AbsencePausesRound(db: Db, p: Id)
    requires p in Tables(db).participants
    requires db.game.Some? && db.game.value.round.stage in {StageActive, StagePaused} ==> db.game.value.round.startedAt.Some?
    ensures var r := PauseForAbsence(db, p, db.clock);
            r.None? || r == Some(if Stops(db, p) then
                                   Stopped(db, if Tables(db).participants[p].role.Host? then M.HostAbsent else M.ParticipantAbsent)
                                 else db)
  {
  }

  /** Arrivals play if there is no round yet and wait otherwise; neither they nor returns, further sessions and expiry are announced. */
  lemma OthersAreQuiet(db: Db, op: C.Op)
    requires op.Arrive? || op.Return? || op.Another? || op.Expiry?
    ensures var known := if op.Arrive? then op.(eligibility := if db.game.None? then P.Playing else P.Queued) else op;
            ExecutePresence(db, op) == Some(WithWorld(db, C.Do(db.world, known), op.now))
  {
    hide C.Do;
  }
}
