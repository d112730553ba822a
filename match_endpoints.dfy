/** The match endpoints that check who may act before the service runs:
    creating a match, patching it, and the start / complete / forfeit action. */
module MatchEndpoints {
  import opened Base
  import opened Models
  import MatchService

  const TournamentNotFound := ApiError(NotFound, "Tournament not found")
  const MatchNotFound := ApiError(NotFound, "Match not found")
  const OnlyOrganizersCreate := ApiError(Forbidden, "Only tournament organizers can create matches")
  const OnlyOrganizersUpdate := ApiError(Forbidden, "Only tournament organizers can update matches")
  const NotAuthorized := ApiError(Forbidden, "Not authorized to update this match")
  const WinnerRequired := ApiError(BadRequest, "Winner ID required to complete match")
  const ForfeitPlayerRequired := ApiError(BadRequest, "Forfeit player ID required")
  const OwnMatchOnly := ApiError(Forbidden, "Can only forfeit your own match")
  const InvalidAction := ApiError(BadRequest, "Invalid action. Must be 'start', 'complete', or 'forfeit'")
  const CouldNotUpdate := ApiError(BadRequest, "Could not update match status")

  /** The `MatchStatusUpdate` body. */
  datatype StatusUpdate = StatusUpdate(action: string, winnerId: Option<Id>, forfeitPlayerId: Option<Id>)

  /** The caller organizes tournament `tid`; a missing tournament has no organizer. */
  predicate IsOrganizer(ts: map<Id, Tournament>, tid: Id, caller: Id) {
    tid in ts && ts[tid].organizerId == caller
  }

  /** The authorization rule of a status change: the caller organizes the
      match's tournament or plays in the match. */
  predicate MayAct(organizer: bool, m: Match, caller: Id) {
    organizer || Plays(m, caller)
  }

  /** The checks of `update_match_status` that run before any state changes:
      which service request the call makes, or the error it raises first. */
  function Authorize(organizer: bool, m: Match, caller: Id, req: StatusUpdate, now: Time)
    : (r: Result<MatchService.Action>)
    ensures !MayAct(organizer, m, caller) ==> r == Err(NotAuthorized)
    ensures r.Ok? ==> MayAct(organizer, m, caller)
    ensures MayAct(organizer, m, caller) && req.action == "start" ==>
              r == Ok(MatchService.StartAction(now))
    ensures MayAct(organizer, m, caller) && req.action == "complete" ==>
              r == if Truthy(req.winnerId) then Ok(MatchService.CompleteAction(req.winnerId, now))
                   else Err(WinnerRequired)
    ensures MayAct(organizer, m, caller) && req.action == "forfeit" ==>
              r == if !Truthy(req.forfeitPlayerId) then Err(ForfeitPlayerRequired)
                   else if !organizer && req.forfeitPlayerId.value != caller then Err(OwnMatchOnly)
                   else Ok(MatchService.ForfeitAction(req.forfeitPlayerId.value, now))
    ensures MayAct(organizer, m, caller) && !(req.action in {"start", "complete", "forfeit"}) ==>
              r == Err(InvalidAction)
    ensures r.Ok? && r.value.ForfeitAction? ==> organizer || r.value.player == caller
  {
    if !MayAct(organizer, m, caller) then Err(NotAuthorized)
    else if req.action == "start" then Ok(MatchService.StartAction(now))
    else if req.action == "complete" then
      if !Truthy(req.winnerId) then Err(WinnerRequired)
      else Ok(MatchService.CompleteAction(req.winnerId, now))
    else if req.action == "forfeit" then
      if !Truthy(req.forfeitPlayerId) then Err(ForfeitPlayerRequired)
      else if !organizer && req.forfeitPlayerId.value != caller then Err(OwnMatchOnly)
      else Ok(MatchService.ForfeitAction(req.forfeitPlayerId.value, now))
    else Err(InvalidAction)
  }

  /** A player who is not the organizer can only ever forfeit on their own
      behalf, and can only act on a match they play in. */
  lemma PlayerActsOnlyForThemselves(m: Match, caller: Id, req: StatusUpdate, now: Time)
    ensures var r := Authorize(false, m, caller, req, now);
            r.Ok? ==> Plays(m, caller) && (r.value.ForfeitAction? ==> r.value.player == caller)
  {
  }

  /** `update_match_status`: 404 for an unknown match, the guard's error if
      it refuses, 400 if the service refuses the transition, and otherwise the
      updated match. Only the match's own row can change. */
  method UpdateMatchStatus(db: Database, caller: Id, matchId: Id, req: StatusUpdate, now: Time)
    returns (r: Result<Match>)
    modifies db`matches
    ensures matchId !in old(db.matches) ==> r == Err(MatchNotFound) && db.matches == old(db.matches)
    ensures matchId in old(db.matches) ==>
              var m := old(db.matches)[matchId];
              var guard := Authorize(IsOrganizer(db.tournaments, m.fixture.tournamentId, caller), m, caller, req, now);
              (guard.Err? ==> r == Err(guard.error) && db.matches == old(db.matches)) &&
              (guard.Ok? && MatchService.Step(m, guard.value).None? ==>
                 r == Err(CouldNotUpdate) && db.matches == old(db.matches)) &&
              (guard.Ok? && MatchService.Step(m, guard.value).Some? ==>
                 r == Ok(MatchService.Step(m, guard.value).value) &&
                 db.matches == old(db.matches)[matchId := r.value])
  {
    if matchId !in db.matches {
      return Err(MatchNotFound);
    }
    var m := db.matches[matchId];
    var isOrganizer := IsOrganizer(db.tournaments, m.fixture.tournamentId, caller);
    var guard := Authorize(isOrganizer, m, caller, req, now);
    if guard.Err? {
      return Err(guard.error);
    }
    var updated: Option<Match>;
    match guard.value {
      case StartAction(t) =>
        updated := MatchService.StartMatch(db, matchId, t);
      case CompleteAction(winner, t) =>
        updated := MatchService.CompleteMatch(db, matchId, winner, t);
      case ForfeitAction(player, t) =>
        updated := MatchService.ForfeitMatch(db, matchId, player, t);
    }
    if updated.None? {
      return Err(CouldNotUpdate);
    }
    return Ok(updated.value);
  }

  /** `create_match`: only the organizer of an existing tournament creates
      matches in it. */
  method CreateMatch(db: Database, caller: Id, data: Fixture, newId: Id) returns (r: Result<Id>)
    modifies db`matches
    ensures data.tournamentId !in db.tournaments ==>
              r == Err(TournamentNotFound) && db.matches == old(db.matches)
    ensures data.tournamentId in db.tournaments && db.tournaments[data.tournamentId].organizerId != caller ==>
              r == Err(OnlyOrganizersCreate) && db.matches == old(db.matches)
    ensures r.Ok? ==>
              IsOrganizer(db.tournaments, data.tournamentId, caller) && r.value == newId &&
              db.matches == old(db.matches)[newId := Match(data, Scheduled, None, None, None, None)]
    ensures IsOrganizer(db.tournaments, data.tournamentId, caller) && newId !in old(db.matches) ==> r.Ok?
    ensures r.Err? ==> db.matches == old(db.matches)
  {
    if data.tournamentId !in db.tournaments {
      return Err(TournamentNotFound);
    }
    if db.tournaments[data.tournamentId].organizerId != caller {
      return Err(OnlyOrganizersCreate);
    }
    var created := MatchService.Create(db, data, newId);
    if created.None? {
      return Err(IntegrityFailure);
    }
    return Ok(created.value);
  }

  /** `update_match`: only the organizer of the match's tournament patches it. */
  method UpdateMatch(db: Database, caller: Id, matchId: Id, patch: MatchService.MatchPatch)
    returns (r: Result<Match>)
    modifies db`matches
    ensures matchId !in old(db.matches) ==> r == Err(MatchNotFound) && db.matches == old(db.matches)
    ensures matchId in old(db.matches) &&
            !IsOrganizer(db.tournaments, old(db.matches)[matchId].fixture.tournamentId, caller) ==>
              r == Err(OnlyOrganizersUpdate) && db.matches == old(db.matches)
    ensures matchId in old(db.matches) &&
            IsOrganizer(db.tournaments, old(db.matches)[matchId].fixture.tournamentId, caller) ==>
              r == Ok(MatchService.Patched(old(db.matches)[matchId], patch)) &&
              db.matches == old(db.matches)[matchId := r.value]
  {
    if matchId !in db.matches {
      return Err(MatchNotFound);
    }
    var m := db.matches[matchId];
    if !IsOrganizer(db.tournaments, m.fixture.tournamentId, caller) {
      return Err(OnlyOrganizersUpdate);
    }
    var updated := MatchService.Update(db, matchId, patch);
    return Ok(updated.value);
  }
}
