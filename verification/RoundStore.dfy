/** The rows of a round as the executor updates them in place, command by command. */
module RoundStore {

  import opened Common
  import opened Patterns
  import opened Rows
  import opened Games
  import opened Lobby
  import LC = LobbyContinue
  import M = RoundMachine

  datatype MarkOutcome = MarkMade(receipt: Receipt, opens: bool) | MarkDeclined | MarkThrew

  /** The outcome and the rows are those of the specification. */
  predicate Marks(g: Game, o: Options, participant: Id, ball: nat, now: Time, id: Id, outcome: MarkOutcome, after: Game) {
    match Games.MarkCard(g, o, participant, ball, now, id)
    case Marked(game, receipt, opens) => outcome == MarkMade(receipt, opens) && after == game
    case MarkRefused => outcome.MarkDeclined? && after == g
    case MarkFault => outcome.MarkThrew?
  }

  lemma AllowedHolds(g: Game, participant: Id, ball: nat, now: Time)
    requires MarkAllowed(g, participant, ball, now)
    ensures participant in g.cards && ball in g.cards[participant].cells
  {
  }

  lemma SnapPattern(g: Game, pattern: Pattern, participant: Id, ball: nat, o: Options)
    requires participant in g.cards
    ensures SnapOf(g, pattern, participant, ball, o).pattern == pattern
  {
  }

  predicate DistinctCards(cards: map<Id, Card>) {
    forall p, q | p in cards && q in cards && p != q :: cards[p].id != cards[q].id
  }

  /** The balls that `cells` shows as called or marked. */
  method ViewCells(cells: Cells, balls: set<nat>) returns (view: CellSet)
    ensures view == View(cells, balls)
  {
    var shown: seq<bool> := [];
    for i := 0 to CELL_COUNT
      invariant |shown| == i && forall j | 0 <= j < i :: shown[j] == (cells[j] == 0 || cells[j] in balls)
    {
      shown := shown + [cells[i] == 0 || cells[i] in balls];
    }
    view := shown;
    assert view == View(cells, balls);
  }

  /** The position of the first cell that holds `ball`, or -1. */
  method FindCell(cells: Cells, ball: nat) returns (index: int)
    ensures index == IndexOf(cells, ball)
    ensures -1 <= index < CELL_COUNT
    ensures index >= 0 ==> cells[index] == ball && forall j | 0 <= j < index :: cells[j] != ball
    ensures index < 0 ==> ball !in cells
  {
    for i := 0 to CELL_COUNT
      invariant forall j | 0 <= j < i :: cells[j] != ball
    {
      if cells[i] == ball {
        FirstIndex(cells, ball, i);
        return i;
      }
    }
    return -1;
  }

  lemma {:induction false} FirstIndex(cells: seq<nat>, ball: nat, i: nat)
    requires i < |cells| && cells[i] == ball && forall j | 0 <= j < i :: cells[j] != ball
    ensures IndexOf(cells, ball) == i
  {
    if i > 0 {
      FirstIndex(cells[1..], ball, i - 1);
    }
  }

  class RoundRows {
    var round: Round
    var draw: seq<nat>
    var cards: map<Id, Card>
    var calls: seq<Call>
    var marks: map<(Id, nat), Mark>
    var winners: map<Id, Winner>

    constructor (round: Round, draw: seq<nat>, cards: map<Id, Card>)
      ensures Contents() == Game(round, draw, cards, [], map[], map[])
    {
      this.round, this.draw, this.cards := round, draw, cards;
      calls, marks, winners := [], map[], map[];
    }

    function Contents(): Game
      reads this
    {
      Game(round, draw, cards, calls, marks, winners)
    }

    /** Commits the next draw position, or reports that none is left. */
    method CommitNextCall(now: Time, id: Id) returns (call: Option<Call>)
      requires |draw| == BALL_COUNT && |calls| <= BALL_COUNT
      modifies this`calls, this`round
      ensures call.None? <==> CommitCall(old(Contents()), now, id).Exhausted?
      ensures call.Some? ==> CommitCall(old(Contents()), now, id) == Called(Contents(), call.value)
      ensures call.None? ==> Contents() == old(Contents())
    {
      var committed := |calls|;
      if committed == BALL_COUNT { return None; }
      var next := Call(id, committed + 1, draw[committed], now);
      calls := calls + [next];
      round := round.(nextCallAt := if next.position == |draw| then None else NextAutomaticCall(round.config, now));
      return Some(next);
    }

    /** Marks a called ball on the participant's card; a first completion through the latest call makes a winner. */
    method MarkCard(o: Options, participant: Id, ball: nat, now: Time, id: Id) returns (outcome: MarkOutcome)
      modifies this`marks, this`winners, this`round
      ensures Marks(old(Contents()), o, participant, ball, now, id, outcome, Contents())
    {
      hide AttributionOf, SnapOf, RequiredBall, Decide, FindPattern, WindowRow;
      if !round.stage.StageActive? && !round.stage.StagePaused? && !round.stage.StageWindow? { return MarkDeclined; }
      if round.stage.StageWindow? && (round.closesAt.None? || now >= round.closesAt.value) { return MarkDeclined; }
      if participant !in cards || ball !in cards[participant].cells { return MarkDeclined; }
      if ball !in CalledBalls(calls) { return MarkDeclined; }
      if !Known(o.catalog, round.currentPattern) { return MarkThrew; }
      if !WellFormed(FindPattern(o.catalog, round.currentPattern).value) { return MarkThrew; }
      outcome := RecordMark(o, FindPattern(o.catalog, round.currentPattern).value, participant, ball, now, id);
    }

    /** The progress after the mark, and the call it wins on. */
    method MeasureMark(o: Options, pattern: Pattern, participant: Id, ball: nat) returns (progress: Snap, won: Option<Id>)
      requires participant in cards && WellFormed(pattern)
      ensures progress == SnapOf(Contents(), pattern, participant, ball, o)
      ensures won == AttributionOf(Contents(), pattern, participant, ball)
    {
      hide Attributable, CalculateProgress, IndexOf, View, CalledBalls, MarkedBalls;
      var card := cards[participant];
      var priorMarked := MarkedBalls(marks, card.id);
      var called := ViewCells(card.cells, CalledBalls(calls));
      var marked := ViewCells(card.cells, priorMarked + {ball});
      var prior := ViewCells(card.cells, priorMarked);
      progress := Snap(pattern, called, marked, o.nearWin);
      won := None;
      var latest := LatestCall(calls);
      if (card.id, ball) !in marks && !CalculateProgress(pattern, called, prior).complete
        && CalculateProgress(pattern, called, marked).complete && latest.Some? {
        var cell := FindCell(card.cells, latest.value.ball);
        if Attributable(pattern, called, marked, prior, cell) { won := Some(latest.value.id); }
      }
    }

    method RecordMark(o: Options, pattern: Pattern, participant: Id, ball: nat, now: Time, id: Id) returns (outcome: MarkOutcome)
      requires MarkAllowed(Contents(), participant, ball, now) && WellFormed(pattern)
      requires FindPattern(o.catalog, round.currentPattern) == Some(pattern)
      modifies this`marks, this`winners, this`round
      ensures Marks(old(Contents()), o, participant, ball, now, id, outcome, Contents())
    {
      hide AttributionOf, SnapOf, RequiredBall, Decide, FindPattern, MarkAllowed;
      AllowedHolds(Contents(), participant, ball, now);
      var card := cards[participant];
      var known := (card.id, ball) in marks;
      var mark := if known then marks[(card.id, ball)] else Mark(id, now);
      var progress, won := MeasureMark(o, pattern, participant, ball);
      SnapPattern(Contents(), pattern, participant, ball, o);
      var required := RequiredBall(card.cells, progress);
      if required.None? { return MarkThrew; }
      var opens := won.Some? && !round.stage.StageWindow?;
      var joins := won.Some? && round.stage.StageWindow? && round.trigger == won;
      if opens && !Decide(round, o.catalog, M.OpenWindow(now, now + o.windowMs)).Accepted? { return MarkThrew; }
      if (opens || joins) && participant in winners { return MarkThrew; }
      marks := marks[(card.id, ball) := mark];
      if opens || joins {
        winners := winners[participant := Winner(card.id, won.value, now)];
      }
      if opens {
        round := round.(stage := StageWindow, pausedAt := None, pauseReason := None, nextCallAt := None,
                        trigger := won, openedAt := Some(now), closesAt := Some(now + o.windowMs));
      }
      return MarkMade(Receipt(card.id, ball, mark, progress, required.value, if opens || joins then won else None), opens);
    }

    /** Applies the row update of an accepted machine command. */
    method UpdateRow(row: Round)
      modifies this`round
      ensures Contents() == old(Contents()).(round := row)
    {
      round := row;
    }

    /** Checks every stored win of the winners; false is a throw. */
    method CheckContexts(results: map<(Id, Id), Result>) returns (ok: bool)
      ensures ok <==> forall p, k | p in winners && k in Contexts(results, round.id, p) :: ContextParses(k, results[k])
    {
      var rest := set k | k in results && k.0 in winners && k in Contexts(results, round.id, k.0);
      ghost var all := rest;
      ok := true;
      while rest != {} && ok
        invariant rest <= all
        invariant ok <==> forall k | k in all - rest :: ContextParses(k, results[k])
      {
        var k :| k in rest;
        rest := rest - {k};
        ok := ContextParses(k, results[k]);
        assert k in all - rest;
      }
      forall p, k | p in winners && k in Contexts(results, round.id, p) ensures k in all {}
      forall k | k in all ensures k.0 in winners && k in Contexts(results, round.id, k.0) {}
    }

    /** Finds the stored win of winner `p` and decides whether it also wins the new pattern. */
    method DecideCarry(results: map<(Id, Id), Result>, pattern: Pattern, p: Id) returns (carry: Carry)
      requires p in winners && DistinctCards(cards)
      requires forall k | k in Contexts(results, round.id, p) :: ContextParses(k, results[k])
      ensures carry == CarryWinner(Contents(), results, pattern, p, winners[p])
    {
      hide CarryOn, ContextParses, Contexts, Matching;
      var winner := winners[p];
      var contexts := Contexts(results, round.id, p);
      var matching := Matching(results, Contents(), p, winner);
      if contexts != {} && matching == {} { return CarryFailed; }
      if |matching| > 1 { return CarryFailed; }
      if matching == {} { return Dropped; }
      var holders := WinnerCard(Contents(), winner);
      if holders == {} { return CarryFailed; }
      var latest := LatestCall(calls);
      if latest.None? || winner.trigger != latest.value.id { return Dropped; }
      var k :| k in matching;
      var holder :| holder in holders;
      OneOnly(matching, k);
      OneHolder(Contents(), winner, holder);
      carry := Lobby.CarryOn(Contents(), pattern, results[k], cards[holder], latest.value) by { MatchingParses(Contents(), results, p, winner, k); }
    }

    /** Continues a settled round with another pattern and keeps the winners that the latest call carries. */
    method ContinueRound(o: Options, results: map<(Id, Id), Result>, pattern: Id, now: Time) returns (changed: Option<bool>)
      requires DistinctCards(cards)
      modifies this`winners, this`round
      ensures match Continue(old(Contents()), results, o, pattern, now)
              case Changed(game) => changed == Some(true) && Contents() == game
              case ChangeRefused => changed == Some(false) && Contents() == old(Contents())
              case ChangeFailed => changed.None?
    {
      hide CarryWinner, Contexts, ContextParses, ToDomain, M.Transition;
      if !Known(o.catalog, pattern) { return Some(false); }
      var definition := FindPattern(o.catalog, pattern).value;
      match Decide(round, o.catalog, M.Continue(definition.mode, now))
      case Threw => return None;
      case Declined => return Some(false);
      case Accepted =>
        var carried := CarriedWinners(results, definition);
        if carried.None? { return None; }
        var carries := carried.value != {};
        if carries && (round.trigger.None? || round.openedAt.None? || round.closesAt.None?) { return None; }
        winners := map p | p in winners && p in carried.value :: winners[p];
        round := round.(currentPattern := pattern, stage := if carries then StageResult else StageActive, activeAt := Some(now),
          pausedAt := None, pauseReason := None,
          nextCallAt := if !carries && |calls| < |draw| then NextAutomaticCall(round.config, now) else None,
          trigger := if carries then round.trigger else None,
          openedAt := if carries then round.openedAt else None,
          closesAt := if carries then round.closesAt else None,
          settledAt := if carries then Some(now) else None);
        return Some(true);
    }

    method CarriedWinners(results: map<(Id, Id), Result>, pattern: Pattern) returns (carried: Option<set<Id>>)
      requires DistinctCards(cards)
      ensures carried.None? <==> exists p | p in winners :: CarryWinner(Contents(), results, pattern, p, winners[p]) == CarryFailed
      ensures carried.Some? ==> carried.value == CarriedSet(Contents(), results, pattern)
    {
      var parsed := CheckContexts(results);
      if !parsed {
        UnparsedFails(Contents(), results, pattern);
        return None;
      }
      carried := CarryEach(results, pattern);
    }

    method CarryEach(results: map<(Id, Id), Result>, pattern: Pattern) returns (carried: Option<set<Id>>)
      requires DistinctCards(cards)
      requires forall p, k | p in winners && k in Contexts(results, round.id, p) :: ContextParses(k, results[k])
      ensures carried.None? <==> exists p | p in winners :: CarryWinner(Contents(), results, pattern, p, winners[p]) == CarryFailed
      ensures carried.Some? ==> carried.value == CarriedSet(Contents(), results, pattern)
    {
      hide CarryWinner, Contexts, ContextParses, DistinctCards;
      var kept: set<Id> := {};
      var rest := winners.Keys;
      while rest != {}
        invariant rest <= winners.Keys
        invariant forall p | p in winners.Keys - rest :: CarryWinner(Contents(), results, pattern, p, winners[p]) != CarryFailed
        invariant forall p :: p in kept <==>
          p in winners.Keys - rest && CarryWinner(Contents(), results, pattern, p, winners[p]) == Carried
      {
        var p :| p in rest;
        rest := rest - {p};
        var carry := DecideCarry(results, pattern, p);
        if carry.CarryFailed? { return None; }
        if carry.Carried? { kept := kept + {p}; }
      }
      return Some(kept);
    }
  }

  lemma UnparsedFails(g: Game, results: map<(Id, Id), Result>, pattern: Pattern)
    requires exists p, k :: p in g.winners && k in results && k in Contexts(results, g.round.id, p) && !ContextParses(k, results[k])
    ensures exists p | p in g.winners :: CarryWinner(g, results, pattern, p, g.winners[p]) == CarryFailed
  {
    hide ContextParses, Contexts, Matching;
    var p, k :| p in g.winners && k in results && k in Contexts(results, g.round.id, p) && !ContextParses(k, results[k]);
    assert CarryWinner(g, results, pattern, p, g.winners[p]) == CarryFailed;
  }

  lemma OneOnly<T>(s: set<T>, x: T)
    requires x in s && |s| <= 1
    ensures forall y | y in s :: y == x
  {
    LC.SingleElement(s, x);
  }

  lemma OneHolder(g: Game, w: Winner, holder: Id)
    requires holder in WinnerCard(g, w) && DistinctCards(g.cards)
    ensures forall q | q in WinnerCard(g, w) :: q == holder
  {
  }

  lemma MatchingParses(g: Game, results: map<(Id, Id), Result>, p: Id, w: Winner, k: (Id, Id))
    requires k in Matching(results, g, p, w) && forall l | l in Contexts(results, g.round.id, p) :: ContextParses(l, results[l])
    ensures k in results && results[k].body.events != [] && results[k].body.events[0].MarkResult? && results[k].body.progress.Some?
  {
    assert k in Contexts(results, g.round.id, p);
  }
}
