/** The tournament endpoints that check who may see or change a tournament,
    and the registration endpoint with its admission and duplicate checks. */
module TournamentEndpoints {
  import opened Base
  import opened Models
  import opened Paging
  import TournamentService
  import RegistrationService

  const TournamentNotFound := ApiError(NotFound, "Tournament not found")
  const NotAuthorizedToView := ApiError(Forbidden, "Not authorized to view this tournament")
  const OnlyOrganizersUpdate := ApiError(Forbidden, "Only tournament organizers can update tournaments")
  const OnlyOrganizersCancel := ApiError(Forbidden, "Only tournament organizers can cancel tournaments")
  const CouldNotCancel := ApiError(BadRequest, "Could not cancel tournament")
  const OnlyOrganizersViewRegistrations := ApiError(Forbidden, "Only tournament organizers can view registrations")
  const NotOpen := ApiError(BadRequest, "Tournament is not open for registration or is full")
  const AlreadyRegistered := ApiError(BadRequest, "Already registered for this tournament")
  const CancelledMessage := "Tournament cancelled successfully"

  /** The check that opens the organizer-only endpoints: 404 for an unknown
      tournament, then `refusal` for anyone but its organizer. */
  function OrganizerGuard(ts: map<Id, Tournament>, tid: Id, caller: Id, refusal: ApiError)
    : (r: Result<Tournament>)
    ensures r.Ok? <==> tid in ts && ts[tid].organizerId == caller
    ensures r.Ok? ==> r.value == ts[tid]
    ensures tid !in ts ==> r == Err(TournamentNotFound)
    ensures tid in ts && ts[tid].organizerId != caller ==> r == Err(refusal)
  {
    if tid !in ts then Err(TournamentNotFound)
    else if ts[tid].organizerId != caller then Err(refusal)
    else Ok(ts[tid])
  }

  /** `get_tournament`: a public tournament is visible to everyone, a private
      one only to its organizer. */
  method GetTournament(db: Database, caller: Id, tid: Id) returns (r: Result<Tournament>)
    ensures r.Ok? <==>
              tid in db.tournaments &&
              (db.tournaments[tid].config.isPublic || db.tournaments[tid].organizerId == caller)
    ensures r.Ok? ==> r.value == db.tournaments[tid]
    ensures tid !in db.tournaments ==> r == Err(TournamentNotFound)
    ensures r.Err? && tid in db.tournaments ==> r == Err(NotAuthorizedToView)
  {
    if tid !in db.tournaments {
      return Err(TournamentNotFound);
    }
    var t := db.tournaments[tid];
    if !t.config.isPublic && t.organizerId != caller {
      return Err(NotAuthorizedToView);
    }
    return Ok(t);
  }

  /** `update_tournament`: organizer only. */
  method UpdateTournament(db: Database, caller: Id, tid: Id, patch: TournamentService.TournamentPatch)
    returns (r: Result<Tournament>)
    modifies db`tournaments
    ensures var guard := OrganizerGuard(old(db.tournaments), tid, caller, OnlyOrganizersUpdate);
            (guard.Err? ==> r == Err(guard.error) && db.tournaments == old(db.tournaments)) &&
            (guard.Ok? ==>
               r == Ok(TournamentService.Patched(guard.value, patch)) &&
               db.tournaments == old(db.tournaments)[tid := r.value])
  {
    var guard := OrganizerGuard(db.tournaments, tid, caller, OnlyOrganizersUpdate);
    if guard.Err? {
      return Err(guard.error);
    }
    var updated := TournamentService.Update(db, tid, patch);
    return Ok(updated.value);
  }

  /** `delete_tournament`: organizer only; the tournament is cancelled, not removed. */
  method DeleteTournament(db: Database, caller: Id, tid: Id) returns (r: Result<string>)
    modifies db`tournaments
    ensures var guard := OrganizerGuard(old(db.tournaments), tid, caller, OnlyOrganizersCancel);
            (guard.Err? ==> r == Err(guard.error) && db.tournaments == old(db.tournaments)) &&
            (guard.Ok? ==>
               r == Ok(CancelledMessage) &&
               db.tournaments == old(db.tournaments)[tid := guard.value.(status := TournamentStatus.Cancelled)])
  {
    var guard := OrganizerGuard(db.tournaments, tid, caller, OnlyOrganizersCancel);
    if guard.Err? {
      return Err(guard.error);
    }
    var success := TournamentService.Delete(db, tid);
    if !success {
      return Err(CouldNotCancel);
    }
    return Ok(CancelledMessage);
  }

  /** `get_tournament_registrations`: organizer only; the tournament's
      registrations, oldest first, one page of them. */
  method GetTournamentRegistrations(db: Database, caller: Id, tid: Id, skip: nat, limit: nat)
    returns (r: Result<seq<Id>>, ghost ordered: seq<Id>)
    ensures r.Ok? <==> tid in db.tournaments && db.tournaments[tid].organizerId == caller
    ensures r.Err? ==> r.error == OrganizerGuard(db.tournaments, tid, caller, OnlyOrganizersViewRegistrations).error
    ensures r.Ok? ==>
              Enumerates(ordered, RegistrationService.OfTournament(db.registrations, tid)) &&
              SortedBy(ordered, RegistrationService.DateKeys(db.registrations)) &&
              r.value == Page(ordered, skip, limit)
  {
    ordered := [];
    var guard := OrganizerGuard(db.tournaments, tid, caller, OnlyOrganizersViewRegistrations);
    if guard.Err? {
      return Err(guard.error), ordered;
    }
    var page;
    page, ordered := RegistrationService.GetByTournament(db, tid, skip, limit);
    return Ok(page), ordered;
  }

  /** `register_for_tournament`: 404 for an unknown tournament, 400 when it
      does not admit registrations, 400 when the caller already has a
      registration for it whatever its status; otherwise a pending
      registration of the caller for the tournament in the path, whatever the
      body names. */
  method RegisterForTournament(db: Database, caller: Id, tid: Id,
                               data: RegistrationService.RegistrationCreate, newId: Id, now: Time)
    returns (r: Result<Id>)
    requires db.Valid()
    modifies db`registrations
    ensures db.Valid()
    ensures tid !in db.tournaments ==> r == Err(TournamentNotFound)
    ensures tid in db.tournaments && !TournamentService.Admits(db.tournaments, old(db.registrations), tid) ==>
              r == Err(NotOpen)
    ensures TournamentService.Admits(db.tournaments, old(db.registrations), tid) &&
            PairIds(old(db.registrations), caller, tid) != {} ==>
              r == Err(AlreadyRegistered)
    ensures r.Err? ==> db.registrations == old(db.registrations)
    ensures r.Ok? ==>
              TournamentService.Admits(db.tournaments, old(db.registrations), tid) &&
              PairIds(old(db.registrations), caller, tid) == {} &&
              r.value == newId &&
              db.registrations == old(db.registrations)[newId := RegistrationService.NewRegistration(
                                    data.(tournamentId := tid), caller, now)]
    ensures TournamentService.Admits(db.tournaments, old(db.registrations), tid) &&
            PairIds(old(db.registrations), caller, tid) == {} && newId !in old(db.registrations) ==>
              r.Ok?
    ensures r.Ok? ==> PairIds(db.registrations, caller, tid) == {r.value}
    ensures r.Ok? ==> db.registrations[r.value].status == Pending
  {
    if tid !in db.tournaments {
      return Err(TournamentNotFound);
    }
    var open := TournamentService.CanRegister(db, tid);
    if !open {
      return Err(NotOpen);
    }
    var existing := RegistrationService.GetByPlayerAndTournament(db, caller, tid);
    if existing.Some? {
      return Err(AlreadyRegistered);
    }
    var body := data.(tournamentId := tid);
    var created := RegistrationService.Create(db, body, caller, newId, now);
    if created.None? {
      return Err(IntegrityFailure);
    }
    PairIsUnique(db.registrations, newId);
    return Ok(created.value);
  }
}
