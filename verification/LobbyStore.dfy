/** The executor on the rows of one lobby: every transaction in place, proved equal to the step on tables. */
module LobbyStore {

  import opened Common
  import opened Patterns
  import opened Rows
  import opened Games
  import opened Lobby
  import opened LobbyInv
  import opened Transactions
  import opened LobbyWorld
  import LC = LobbyContinue
  import M = RoundMachine
  import P = People
  import Q = Presence
  import C = Connections
  import A = Accounting
  import PeopleStore
  import RoundStore

  datatype Outcome = Staging(pending: Pending) | Nothing | Raised

  predicate Performs(m: Mutation, out: Outcome, after: Db) {
    match m
    case Fault => out.Raised?
    case Refused(db) => out.Nothing? && after == db
    case Done(db, pending) => out == Staging(pending) && after == db
  }

  /** The reply without its tables. */
  datatype Answer = Answered(scope: Scope, sequence: Option<nat>, occurredAt: Time, replay: bool, events: seq<PrivateEvent>) | Denied(code: Code) | Thrown

  predicate Replies(r: Reply, a: Answer, after: Db) {
    match r
    case Acknowledged(db, scope, sequence, at, replay, events) => a == Answered(scope, sequence, at, replay, events) && after == db
    case Rejected(db, code) => a == Denied(code) && after == db
    case Failed => a.Thrown?
  }

  datatype CallReport = ReportCalled | ReportStale | ReportTooEarly | ReportBlocked | ReportExhausted | ReportFailed

  predicate Reports(c: CallOutcome, r: CallReport) {
    match c
    case CallMade(_) => r.ReportCalled?
    case CallStale => r.ReportStale?
    case CallTooEarly => r.ReportTooEarly?
    case CallBlocked => r.ReportBlocked?
    case CallExhausted(_) => r.ReportExhausted?
    case CallFailed => r.ReportFailed?
  }

  class Store {
    var status: LobbyStatus
    var pending: Option<Setup>
    var sequence: nat
    var events: seq<Event>
    var results: map<(Id, Id), Result>
    var nextId: Id
    var clock: Time
    const people: PeopleStore.Store
    var rounds: RoundStore.RoundRows?
    ghost var sockets: map<Id, C.Socket>
    ghost var log: seq<Entry>

    constructor (people: PeopleStore.Store, setup: Setup, now: Time)
      ensures this.people == people && rounds == null
      ensures Contents() == Db(LobbyWaiting, Some(setup), 0, [], C.World(people.Contents(), map[]), None, map[], [], 0, now)
    {
      this.people := people;
      status, pending, sequence, events, results, nextId, clock := LobbyWaiting, Some(setup), 0, [], map[], 0, now;
      rounds, sockets, log := null, map[], [];
    }

    ghost function Contents(): Db
      reads this, people, rounds
    {
      Db(status, pending, sequence, events, C.World(people.Contents(), sockets),
         if rounds == null then None else Some(rounds.Contents()), results, log, nextId, clock)
    }

    // ---------- queries ----------

    /** A live host or player who is absent without override, or whose grace has run out. */
    method FindBlockingPresence(now: Time) returns (blocked: bool)
      ensures blocked == HasBlockingPresence(people.Contents(), now)
    {
      var rest := people.participants.Keys;
      while rest != {}
        invariant rest <= people.participants.Keys
        invariant forall p | p in people.participants.Keys - rest :: !Blocks(people.Contents(), p, now)
      {
        var p :| p in rest;
        rest := rest - {p};
        if Blocks(people.Contents(), p, now) { return true; }
      }
      return false;
    }

    /** The event that publishes the round as it is now. */
    method StageRound() returns (out: Outcome)
      requires rounds != null
      ensures Performs(Staged(Contents(), rounds.Contents()), out, Contents())
    {
      hide Publish;
      var published := Publish(rounds.Contents());
      if published.None? { return Raised; }
      out := Staging(Public(Some(rounds.round.id),
                            if rounds.round.stage.StageEnded? then EndPayload(published.value) else StagePayload(published.value), None));
    }

    /** An active session of a participant who has not departed. */
    method FindActor(p: Id, session: Id) returns (found: bool)
      ensures found == Authenticated(Contents(), p, session)
    {
      return session in people.sessions && people.sessions[session].participant == p
        && people.sessions[session].status.SessionActive? && P.Live(people.Contents(), p);
    }

    // ---------- the body of a command ----------

    method TransitionRow(o: Options, c: M.Command, row: Round, status: LobbyStatus) returns (out: Outcome)
      requires rounds != null
      modifies this`status, rounds
      ensures rounds == old(rounds)
      ensures Performs(RowStep(old(Contents()), o, c, row, status), out, Contents())
    {
      hide Publish, ToDomain, M.Transition;
      match Decide(rounds.round, o.catalog, c)
      case Threw => return Raised;
      case Declined => return Nothing;
      case Accepted =>
        rounds.UpdateRow(row);
        this.status := status;
        out := StageRound();
    }

    method OverrideAbsence(p: Id, number: nat, now: Time) returns (out: Outcome)
      requires Q.PeopleOk(people.Contents())
      modifies people
      ensures Performs(OverrideMutation(old(Contents()), p, number, now), out, Contents())
    {
      hide Q.PeopleOk, P.ExpireDue, Q.Overridable, Q.Override;
      var ok := people.OverrideAbsence(p, number, now);
      if !ok { return Nothing; }
      var presence := people.FindCurrent(p);
      if presence.None? || presence.value.absentSince.None? { return Raised; }
      return Staging(Public(None, PresencePayload(p, presence.value), None));
    }

    method Configure(o: Options, setup: Setup) returns (out: Outcome)
      modifies this`pending, rounds
      ensures rounds == old(rounds)
      ensures Performs(ConfigureMutation(old(Contents()), o, setup), out, Contents())
    {
      hide Publish, FindPattern;
      if !Known(o.catalog, setup.pattern) { return Nothing; }
      if rounds == null {
        pending := Some(setup);
        return Staging(Public(None, ConfigurationPayload(setup), None));
      }
      if !rounds.round.stage.StageWaiting? { return Nothing; }
      rounds.UpdateRow(rounds.round.(initialPattern := setup.pattern, currentPattern := setup.pattern, config := setup.config));
      out := StageRound();
    }

    /** Deals a round to everybody present, in place of an ended one. */
    method CreateRound(o: Options, now: Time, deal: Deal) returns (out: Outcome)
      modifies this, people
      ensures rounds != old(rounds) ==> fresh(rounds)
      ensures Performs(CreateMutation(old(Contents()), o, Env(now, deal)), out, Contents())
    {
      hide Publish, FindPattern, P.ExpireDue, StripRound, Unlink, WaitingRow, C.AllPlay, Q.LiveIds;
      if rounds != null && !rounds.round.stage.StageEnded? { return Nothing; }
      if !Known(o.catalog, STANDARD_ONE_LINE) || ModeOf(o.catalog, STANDARD_ONE_LINE) != OneLine { return Nothing; }
      var departed := people.ExpireDueSessions(now);
      var n := |Q.LiveIds(people.Contents())|;
      if n < 1 || n > MAX_PLAYERS { return Nothing; }
      ReplaceRound(now, deal);
      out := StageRound();
    }

    /** Deletes the ended round with everything that refers to it, enrolls everybody, and inserts the new round. */
    method ReplaceRound(now: Time, deal: Deal)
      modifies this, people
      ensures rounds != null && fresh(rounds)
      ensures var db := old(Contents());
              var base := CreatedBase(Cleared(db), Env(now, deal), C.World(C.AllPlay(Tables(db)), db.world.sockets));
              && rounds.Contents() == NewGame(db.nextId, Setup(STANDARD_ONE_LINE, Manual), deal,
                                              WaitingRow(db.nextId, STANDARD_ONE_LINE, Manual, now))
              && Contents() == base.(game := Some(rounds.Contents()))
    {
      hide StripRound, Unlink, WaitingRow, C.AllPlay;
      if rounds != null {
        events := Unlink(events, rounds.round.id);
        results := StripRound(results, rounds.round.id);
      }
      people.EnrollEveryone();
      rounds := new RoundStore.RoundRows(WaitingRow(nextId, STANDARD_ONE_LINE, Manual, now), deal.draw, deal.cards);
      nextId := deal.limit;
      status := LobbyWaiting;
    }

    /** Starts the first round straight from the pending setup. */
    method StartFirstRound(o: Options, now: Time, deal: Deal) returns (out: Outcome)
      requires rounds == null
      modifies this, people
      ensures rounds != old(rounds) ==> fresh(rounds)
      ensures Performs(FirstStart(old(Contents()), o, Env(now, deal)), out, Contents())
    {
      hide Publish, FindPattern, P.ExpireDue, WaitingRow, StartRow, PlayerIds;
      var departed := people.ExpireDueSessions(now);
      if pending.None? || !ValidConfig(pending.value.config) || !Known(o.catalog, pending.value.pattern) { return Raised; }
      var setup := pending.value;
      var n := |PlayerIds(people.Contents())|;
      if n < 1 || n > MAX_PLAYERS { return Nothing; }
      InsertFirstRound(setup, now, deal);
      out := StageRound();
    }

    method InsertFirstRound(setup: Setup, now: Time, deal: Deal)
      requires rounds == null
      modifies this
      ensures rounds != null && fresh(rounds)
      ensures var db := old(Contents());
              var row := StartRow(WaitingRow(db.nextId, setup.pattern, setup.config, now), now);
              && rounds.Contents() == NewGame(db.nextId, setup, deal, row)
              && Contents() == db.(status := LobbyActive, pending := None, nextId := deal.limit, game := Some(rounds.Contents()))
    {
      hide WaitingRow, StartRow;
      rounds := new RoundStore.RoundRows(StartRow(WaitingRow(nextId, setup.pattern, setup.config, now), now), deal.draw, deal.cards);
      nextId := deal.limit;
      status, pending := LobbyActive, None;
    }

    method CallNext(now: Time) returns (out: Outcome)
      requires rounds != null && |rounds.draw| == BALL_COUNT && |rounds.calls| <= BALL_COUNT
      modifies this`nextId, rounds
      ensures rounds == old(rounds)
      ensures Performs(CallMutation(old(Contents()), now), out, Contents())
    {
      if !rounds.round.stage.StageActive? { return Nothing; }
      var call := rounds.CommitNextCall(now, nextId);
      if call.None? { return Nothing; }
      nextId := nextId + 1;
      return Staging(Public(Some(rounds.round.id), CallPayload(call.value), None));
    }

    method MarkCard(o: Options, p: Id, ball: nat, now: Time) returns (out: Outcome)
      requires rounds != null && Ready(rounds.Contents(), o)
      modifies this`nextId, this`log, rounds
      ensures rounds == old(rounds)
      ensures Performs(MarkMutation(old(Contents()), o, p, ball, now), out, Contents())
    {
      hide EntryOf, Games.MarkCard;
      ghost var g := rounds.Contents();
      MarkedShape(g, o, p, ball, now, nextId);
      var marked := rounds.MarkCard(o, p, ball, now, nextId);
      match marked
      case MarkThrew => return Raised;
      case MarkDeclined => return Nothing;
      case MarkMade(receipt, opens) =>
        nextId := nextId + 1;
        log := log + [EntryOf(g, o, p, ball, now)];
        if opens {
          return Staging(Public(Some(rounds.round.id), WindowPayload(receipt.attribution.value, now, now + o.windowMs), Some(receipt)));
        }
        return Staging(Private(rounds.round.id, receipt));
    }

    method Continue(o: Options, pattern: Id, now: Time) returns (out: Outcome)
      requires rounds != null && RoundStore.DistinctCards(rounds.cards) && now == clock
      modifies rounds
      ensures rounds == old(rounds)
      ensures Performs(LC.ContinueMutation(old(Contents()), o, pattern), out, Contents())
    {
      hide Lobby.Continue, Publish;
      var changed := rounds.ContinueRound(o, results, pattern, now);
      if changed.None? { return Raised; }
      if !changed.value { return Nothing; }
      out := StageRound();
    }

    /** The body of an authorized command. */
    method ExecuteMutation(o: Options, p: Id, cmd: Command, now: Time, deal: Deal) returns (out: Outcome)
      requires Inv(Contents(), o) && now == clock
      modifies this, people, rounds
      ensures rounds != old(rounds) ==> fresh(rounds)
      ensures Performs(Mutate(old(Contents()), o, p, cmd, Env(now, deal)), out, Contents())
    {
      hide Inv, OverrideMutation, CreateMutation, ConfigureMutation, FirstStart, RowStep, CallMutation, MarkMutation, Lobby.Continue,
           HasBlockingPresence, Staged, Q.PeopleOk, RoundStore.DistinctCards, Ready, Performs;
      RowsReady(Contents(), o);
      var refused := Nothing;
      RefusalPerforms(Contents());
      if cmd.action.OverrideAbsence? { out := OverrideAbsence(cmd.action.participant, cmd.action.number, now); return; }
      if cmd.action.CreateRound? { out := CreateRound(o, now, deal); return; }
      if cmd.action.Configure? { out := Configure(o, cmd.action.setup); return; }
      if cmd.action.StartRound? && rounds == null { out := StartFirstRound(o, now, deal); return; }
      if rounds == null { return Nothing; }
      if cmd.action.MarkBall? { out := MarkCard(o, p, cmd.action.ball, now); return; }
      if cmd.action.StartRound? || cmd.action.ResumeRound? || cmd.action.CallNext? || cmd.action.ContinueRound? {
        var blocked := FindBlockingPresence(now);
        if blocked { return Nothing; }
      }
      match cmd.action
      case StartRound => out := TransitionRow(o, M.Start(now), StartRow(rounds.round, now), LobbyActive);
      case PauseRound => out := TransitionRow(o, M.Pause(M.HostCommand, now), PauseRow(rounds.round, M.HostCommand, now), status);
      case ResumeRound => out := TransitionRow(o, M.Resume(now), ResumeRow(rounds.round, now), status);
      case CallNext => out := CallNext(now);
      case ContinueRound(pattern) => out := Continue(o, pattern, now);
      case EndRound => out := TransitionRow(o, M.End(now), EndRow(rounds.round, now), LobbyWaiting);
    }

    // ---------- transactions ----------

    method AppendEvent(roundId: Option<Id>, payload: Payload, now: Time) returns (number: nat)
      modifies this`sequence, this`events
      ensures Contents() == Append(old(Contents()), roundId, payload, now) && number == sequence
    {
      sequence := sequence + 1;
      events := events + [Event(sequence, roundId, payload, now)];
      number := sequence;
    }

    method CommitResult(p: Id, cmd: Command, pending: Pending, now: Time) returns (a: Answer)
      modifies this`sequence, this`events, this`results
      ensures Replies(Commit(old(Contents()), p, cmd, pending, now), a, Contents())
    {
      hide ValidPayload, EventsOf, DigestOf;
      var number: Option<nat> := None;
      if pending.Public? {
        if !ValidPayload(pending.payload) || (pending.receipt.Some? && pending.roundId.None?) { return Thrown; }
        var n := AppendEvent(pending.roundId, pending.payload, now);
        number := Some(n);
      }
      var row := ResultRow(p, cmd, pending, number, now);
      results := results[(p, cmd.id) := row];
      return Answered(row.scope, row.sequence, now, false, row.body.events);
    }

    /** Answers a repeated command from its stored result. */
    method ReplayResult(p: Id, cmd: Command) returns (a: Answer)
      requires (p, cmd.id) in results
      requires ResultOk(Contents().game, (p, cmd.id), results[(p, cmd.id)], sequence, clock)
      ensures Replies(Replay(Contents(), p, cmd, results[(p, cmd.id)]), a, Contents()) && !a.Thrown?
    {
      hide ResultOk, Replay;
      var r := results[(p, cmd.id)];
      ReplayOk(Contents(), p, cmd, r);
      if r.body.intent != cmd { return Denied(InvalidCommand); }
      return Answered(r.scope, r.sequence, r.createdAt, true, r.body.events);
    }

    /** One command of a participant under a session, from authentication to the stored result. */
    method ExecuteForActor(o: Options, p: Id, session: Id, cmd: Command, now: Time, deal: Deal) returns (a: Answer)
      requires Inv(Contents(), o) && TxOk(Contents(), CommandTx(p, session, cmd, Env(now, deal)))
      modifies this, people, rounds
      ensures rounds != old(rounds) ==> fresh(rounds)
      ensures Replies(Execute(old(Contents()), o, p, session, cmd, Env(now, deal)), a, Contents())
      ensures !a.Thrown? && Inv(Contents(), o) && clock == now
    {
      hide Inv, Authenticated, Replay, Mutate, Commit, DealFits, ResultOk, Performs;
      ghost var before := Contents();
      CommandOk(before, o, p, session, cmd, Env(now, deal));
      Tick(before, o, now);
      clock := now;
      var actor := FindActor(p, session);
      if !actor { return Denied(Unauthorized); }
      AuthenticatedRow(Contents(), p, session);
      if (p, cmd.id) in results {
        StoredResultOk(Contents(), o, (p, cmd.id));
        a := ReplayResult(p, cmd);
        return;
      }
      if !cmd.action.MarkBall? && !people.participants[p].role.Host? { return Denied(Forbidden); }
      ghost var here := Contents();
      var out := ExecuteMutation(o, p, cmd, now, deal);
      OutcomeCases(Mutate(here, o, p, cmd, Env(now, deal)), out, Contents());
      match out
      case Raised => return Thrown;
      case Nothing => return Denied(InvalidCommand);
      case Staging(pending) => a := CommitResult(p, cmd, pending, now);
    }

    /** The automatic-call lease falls due. */
    method ExecuteAutomaticCall(o: Options, l: CallLease, now: Time) returns (out: CallReport)
      requires Inv(Contents(), o) && clock <= now
      modifies this, rounds
      ensures rounds == old(rounds)
      ensures Some(Contents()) == Next(old(Contents()), o, CallTx(l, now)) && Inv(Contents(), o)
      ensures Reports(ExecuteCall(old(Contents()), l, now), out)
    {
      hide Inv, HasBlockingPresence, CommitCall;
      ghost var before := Contents();
      CallTransactionOk(before, o, l, now);
      RowsReady(before, o);
      clock := now;
      if !status.LobbyActive? || rounds == null { return ReportStale; }
      if rounds.round.id != l.roundId || !rounds.round.stage.StageActive? || !rounds.round.config.Automatic?
        || rounds.round.nextCallAt != Some(l.deadline) { return ReportStale; }
      if now < l.deadline { return ReportTooEarly; }
      var blocked := FindBlockingPresence(now);
      if blocked { return ReportBlocked; }
      out := CallAndAnnounce(now);
      DueCall(before, l, now);
    }

    /** Commits the next call and its event, or disarms the round when no ball is left. */
    method CallAndAnnounce(now: Time) returns (out: CallReport)
      requires rounds != null && |rounds.draw| == BALL_COUNT && |rounds.calls| <= BALL_COUNT
      modifies this`nextId, this`sequence, this`events, rounds
      ensures rounds == old(rounds)
      ensures Reports(CallDue(old(Contents()), now), out)
      ensures AfterCall(CallDue(old(Contents()), now), Contents()).Some? ==>
                AfterCall(CallDue(old(Contents()), now), Contents()) == Some(Contents())
    {
      hide CommitCall;
      var roundId := rounds.round.id;
      var call := rounds.CommitNextCall(now, nextId);
      if call.None? {
        rounds.UpdateRow(rounds.round.(nextCallAt := None));
        return ReportExhausted;
      }
      nextId := nextId + 1;
      if !ValidPayload(CallPayload(call.value)) { return ReportFailed; }
      var n := AppendEvent(Some(roundId), CallPayload(call.value), now);
      return ReportCalled;
    }

    /** The settlement lease of the co-winner window falls due. */
    method ExecuteCoWinnerSettlement(o: Options, l: WindowLease, now: Time) returns (settled: bool)
      requires Inv(Contents(), o) && clock <= now
      modifies this, rounds
      ensures rounds == old(rounds)
      ensures Some(Contents()) == Next(old(Contents()), o, SettleTx(l, now)) && Inv(Contents(), o)
      ensures settled <==> ExecuteSettlement(old(Contents()), o, l, now).Settled?
    {
      hide Inv, Decide, ValidResult;
      ghost var before := Contents();
      SettleTransactionOk(before, o, l, now);
      clock := now;
      if !status.LobbyActive? || rounds == null { return false; }
      if rounds.round.id != l.roundId || !rounds.round.stage.StageWindow? || rounds.round.trigger != Some(l.trigger)
        || rounds.round.closesAt != Some(l.deadline) { return false; }
      if now < l.deadline { return false; }
      var result := WinnerResult(l.trigger, rounds.round.openedAt.value, l.deadline, now, rounds.winners.Keys);
      rounds.UpdateRow(rounds.round.(stage := StageResult, settledAt := Some(now), nextCallAt := None));
      var n := AppendEvent(Some(rounds.round.id), ResultPayload(result), now);
      return true;
    }

    /** A socket connects; a new generation is announced. */
    method RegisterConnection(o: Options, socket: Id, p: Id, session: Id, now: Time) returns (number: Option<nat>)
      requires Inv(Contents(), o) && clock <= now && socket !in sockets
      modifies this, people
      ensures rounds == old(rounds)
      ensures Some(Contents()) == Next(old(Contents()), o, PresenceTx(C.Connect(socket, p, session, now))) && Inv(Contents(), o)
      ensures number.Some? <==> socket in sockets
      ensures number.Some? ==> sockets[socket] == C.Socket(p, session, number.value)
      ensures number.Some? ==> Serves(people.Contents(), p, number.value)
    {
      hide Inv, Q.PeopleOk, Q.Register, Serves;
      ghost var before := Contents();
      PresenceTransactionOk(before, o, C.Connect(socket, p, session, now));
      RowsReady(before, o);
      clock := now;
      var announced;
      number, announced := people.RegisterConnection(p, session, now);
      sockets := if number.Some? then sockets[socket := C.Socket(p, session, number.value)] else sockets;
      if announced.Some? {
        var n := AppendEvent(None, PresencePayload(p, announced.value), now);
      }
      if number.Some? { ServedBy(Contents(), o, socket); }
    }

    /** A registered socket goes; a grace period is announced when it was the last one. */
    method UnregisterConnection(o: Options, socket: Id, s: C.Socket, chosen: Id, now: Time, rejoinMs: nat, graceMs: nat)
        returns (lease: Option<Q.Lease>)
      requires Inv(Contents(), o) && clock <= now && socket in sockets && sockets[socket] == s
      modifies this, people
      ensures rounds == old(rounds)
      ensures Some(Contents()) == Next(old(Contents()), o, PresenceTx(C.Release(socket, chosen, now, rejoinMs, graceMs)))
      ensures Inv(Contents(), o)
      ensures lease.Some? <==> A.SocketsOf(old(sockets), s.participant) == {socket}
      ensures lease.Some? ==> lease.value == Q.Lease(s.participant, s.number, now + graceMs) && Q.LeaseHolds(people.Contents(), lease.value)
      ensures lease.None? ==> Serves(people.Contents(), s.participant, s.number)
    {
      hide Inv, Q.PeopleOk, Q.Unregister, Q.LeaseHolds, Serves, A.SocketsOf;
      ghost var before := Contents();
      LeaseLeft(before, o, socket, s, chosen, now, rejoinMs, graceMs);
      PresenceTransactionOk(before, o, C.Release(socket, chosen, now, rejoinMs, graceMs));
      RowsReady(before, o);
      clock := now;
      var announced := people.UnregisterConnection(s.participant, s.session, s.number, chosen, now, rejoinMs, graceMs);
      sockets := sockets - {socket};
      lease := None;
      if announced.Some? {
        var n := AppendEvent(None, PresencePayload(s.participant, announced.value), now);
        lease := if announced.value.graceEndsAt.Some?
          then Some(Q.Lease(s.participant, s.number, announced.value.graceEndsAt.value)) else None;
      }
    }

    /** A grace period runs out: the participant is absent, and the round pauses if it was waiting for nobody else. */
    method ExpirePresenceGrace(o: Options, lease: Q.Lease, now: Time) returns (expired: bool)
      requires Inv(Contents(), o) && clock <= now
      modifies this, people, rounds
      ensures rounds == old(rounds)
      ensures Some(Contents()) == Next(old(Contents()), o, PresenceTx(C.GraceElapses(lease, now))) && Inv(Contents(), o)
      ensures expired <==> Q.LeaseHolds(old(people.Contents()), lease) && lease.graceEndsAt <= now
    {
      hide Inv, Q.PeopleOk, Q.LeaseHolds, Lobby.PauseForAbsence;
      ghost var before := Contents();
      PresenceTransactionOk(before, o, C.GraceElapses(lease, now));
      RowsReady(before, o);
      clock := now;
      var absent := people.ExpirePresenceGrace(lease, now);
      if absent.None? { return false; }
      var p := lease.participant;
      var n := AppendEvent(None, PresencePayload(p, absent.value), now);
      PauseForAbsence(p, now);
      return true;
    }

    /** Pauses an active round, or makes another pause the host's; unreachable throws aside. */
    method PauseForAbsence(p: Id, now: Time)
      modifies this`sequence, this`events, rounds
      ensures rounds == old(rounds)
      ensures Lobby.PauseForAbsence(old(Contents()), p, now).Some? ==>
                Some(Contents()) == Lobby.PauseForAbsence(old(Contents()), p, now)
    {
      hide Publish, PauseRow;
      if rounds != null && ShouldPause(people.Contents(), p, rounds.round) {
        var reason := if people.participants[p].role.Host? then M.HostAbsent else M.ParticipantAbsent;
        var roundId := rounds.round.id;
        rounds.UpdateRow(PauseRow(rounds.round, reason, now));
        var published := Publish(rounds.Contents());
        if published.Some? {
          var n := AppendEvent(Some(roundId), StagePayload(published.value), now);
        }
      }
    }
  }

  /** The participant is connected with this generation. */
  predicate Serves(t: P.Tables, p: Id, number: nat) {
    P.Current(t, p).Some? && P.Current(t, p).value.status.Connected? && P.Current(t, p).value.number == number
  }

  lemma ServedBy(db: Db, o: Options, socket: Id)
    requires Inv(db, o) && socket in db.world.sockets
    ensures Serves(Tables(db), db.world.sockets[socket].participant, db.world.sockets[socket].number)
  {
    hide Inv, Q.PeopleOk;
    AccountedIn(db, o);
    A.AccountedPeople(db.world);
    assert A.SocketOk(Tables(db), db.world.sockets[socket]);
    Q.CurrentIsNewest(Tables(db), db.world.sockets[socket].participant);
  }

  lemma LeaseLeft(db: Db, o: Options, socket: Id, s: C.Socket, chosen: Id, now: Time, rejoinMs: nat, graceMs: nat)
    requires Inv(db, o) && socket in db.world.sockets && db.world.sockets[socket] == s
    ensures var c := Q.Unregister(Tables(db), s.participant, s.session, s.number, chosen, now, rejoinMs, graceMs);
            && (A.SocketsOf(db.world.sockets, s.participant) == {socket} <==> c.announced.Some?)
            && (c.announced.Some? ==>
                  c.announced.value.graceEndsAt == Some(now + graceMs)
                  && Q.LeaseHolds(c.tables, Q.Lease(s.participant, s.number, now + graceMs)))
            && (c.announced.None? ==> Serves(c.tables, s.participant, s.number))
  {
    hide Inv, A.Accounted, Q.Unregister, Q.LeaseHolds, A.SocketsOf;
    AccountedIn(db, o);
    A.ReleaseLease(db.world, socket, chosen, now, rejoinMs, graceMs);
  }

  /** The last part of an automatic call, once the lease is due and nothing blocks it. */
  function CallDue(db: Db, now: Time): CallOutcome
    requires db.game.Some?
  {
    var g := db.game.value;
    match CommitCall(g, now, db.nextId)
    case CallFault => CallFailed
    case Exhausted => CallExhausted(db.(game := Some(g.(round := g.round.(nextCallAt := None)))))
    case Called(game, call) =>
      if !ValidPayload(CallPayload(call)) then CallFailed
      else CallMade(Append(db.(game := Some(game), nextId := db.nextId + 1), Some(g.round.id), CallPayload(call), now))
  }

  lemma DueCall(db: Db, l: CallLease, now: Time)
    requires var here := db.(clock := now);
             CallLeaseHolds(here, l) && l.deadline <= now && !HasBlockingPresence(Tables(here), now)
    ensures ExecuteCall(db, l, now) == CallDue(db.(clock := now), now)
  {
    hide CommitCall, HasBlockingPresence, ValidPayload;
  }

  predicate Ready(g: Game, o: Options) {
    Known(o.catalog, g.round.currentPattern)
  }

  lemma RowsReady(db: Db, o: Options)
    requires Inv(db, o)
    ensures Q.PeopleOk(Tables(db))
    ensures db.game.Some? ==>
      && Ready(db.game.value, o) && RoundStore.DistinctCards(db.game.value.cards)
      && |db.game.value.draw| == BALL_COUNT && |db.game.value.calls| <= BALL_COUNT
  {
    hide A.SocketOk, A.CountOk, ResultsOk, WinsOk, LogOk, HostOk, PlayersOk, EventsOk, StatusOk, MarksOk, WinnersOk, DeadlineAfterCalls;
    AccountedIn(db, o);
    A.AccountedPeople(db.world);
  }

  lemma RefusalPerforms(db: Db)
    ensures Performs(Refused(db), Nothing, db)
  {
  }

  lemma OutcomeCases(m: Mutation, out: Outcome, after: Db)
    requires Performs(m, out, after)
    ensures out.Raised? <==> m.Fault?
    ensures out.Nothing? <==> m.Refused?
    ensures m.Refused? ==> after == m.db
    ensures m.Done? ==> after == m.db && out == Staging(m.pending)
  {
  }

  lemma MarkedShape(g: Game, o: Options, p: Id, ball: nat, now: Time, id: Id)
    requires Ready(g, o)
    ensures match Games.MarkCard(g, o, p, ball, now, id)
            case Marked(game, receipt, opens) =>
              p in g.cards && Known(o.catalog, g.round.currentPattern) && (opens ==> receipt.attribution.Some?) && game.round.id == g.round.id
            case _ => true
  {
    hide AttributionOf, SnapOf, RequiredBall, Decide, FindPattern;
  }
}
