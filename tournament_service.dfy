/** `TournamentService`: creation, listing, patches, the soft delete and the
    admission rule for new registrations. */
module TournamentService {
  import opened Base
  import opened Models
  import opened Paging
  import RegistrationService

  /** A `TournamentUpdate` body: any configuration field and the status. It
      cannot name the organizer. */
  datatype TournamentPatch = TournamentPatch(
    name: Field<string>,
    description: Field<Option<string>>,
    format: Field<TournamentFormat>,
    maxParticipants: Field<int>,
    entryFee: Field<int>,
    prizePool: Field<int>,
    registrationDeadline: Field<Option<Time>>,
    startDate: Field<Option<Time>>,
    endDate: Field<Option<Time>>,
    venueName: Field<Option<string>>,
    venueAddress: Field<Option<string>>,
    bestOfSets: Field<int>,
    tiebreakGames: Field<int>,
    matchDurationLimit: Field<Option<int>>,
    status: Field<TournamentStatus>,
    isPublic: Field<bool>,
    allowRegistration: Field<bool>)

  /** The configuration after `setattr` of every configuration field the patch sets. */
  function PatchedConfig(c: TournamentConfig, p: TournamentPatch): TournamentConfig {
    TournamentConfig(
      p.name.Apply(c.name),
      p.description.Apply(c.description),
      p.format.Apply(c.format),
      p.maxParticipants.Apply(c.maxParticipants),
      p.entryFee.Apply(c.entryFee),
      p.prizePool.Apply(c.prizePool),
      p.registrationDeadline.Apply(c.registrationDeadline),
      p.startDate.Apply(c.startDate),
      p.endDate.Apply(c.endDate),
      p.venueName.Apply(c.venueName),
      p.venueAddress.Apply(c.venueAddress),
      p.bestOfSets.Apply(c.bestOfSets),
      p.tiebreakGames.Apply(c.tiebreakGames),
      p.matchDurationLimit.Apply(c.matchDurationLimit),
      p.isPublic.Apply(c.isPublic),
      p.allowRegistration.Apply(c.allowRegistration))
  }

  function Patched(t: Tournament, p: TournamentPatch): Tournament {
    Tournament(PatchedConfig(t.config, p), p.status.Apply(t.status), t.organizerId, t.createdAt)
  }

  // ------------------------------------------------------------- admission

  /** `can_register`: the tournament exists, accepts registrations, is a draft
      or open for registration, and has fewer confirmed registrations than
      places. Pending registrations take no place. */
  predicate Admits(ts: map<Id, Tournament>, regs: map<Id, Registration>, tid: Id) {
    tid in ts &&
    ts[tid].config.allowRegistration &&
    (ts[tid].status == Draft || ts[tid].status == RegistrationOpen) &&
    RegistrationService.ConfirmedCount(regs, tid) < ts[tid].config.maxParticipants
  }

  /** A new (pending) registration never changes whether any tournament
      admits registrations, so pending registrations are not bounded by the
      number of places. */
  lemma PendingRegistrationKeepsAdmission(ts: map<Id, Tournament>, regs: map<Id, Registration>, id: Id,
                                          data: RegistrationService.RegistrationCreate,
                                          playerId: Id, now: Time, tid: Id)
    requires id !in regs
    ensures Admits(ts, regs[id := RegistrationService.NewRegistration(data, playerId, now)], tid)
        == Admits(ts, regs, tid)
  {
    RegistrationService.NewRegistrationIsNotCounted(regs, id, data, playerId, now, tid);
  }

  /** Confirming a pending registration that takes the last place closes the
      tournament to further registrations. */
  lemma ConfirmingLastPlaceCloses(ts: map<Id, Tournament>, regs: map<Id, Registration>, id: Id, now: Time)
    requires id in regs && regs[id].status == Pending
    requires regs[id].tournamentId in ts
    requires RegistrationService.ConfirmedCount(regs, regs[id].tournamentId) + 1
          == ts[regs[id].tournamentId].config.maxParticipants
    ensures !Admits(ts, regs[id := RegistrationService.ConfirmRecord(regs[id], now).value], regs[id].tournamentId)
  {
    RegistrationService.ConfirmAddsOne(regs, id, now, regs[id].tournamentId);
  }

  /** `confirm` does not look at the number of places: a full tournament
      still gets one more confirmed registration. */
  lemma ConfirmIgnoresCapacity(ts: map<Id, Tournament>, regs: map<Id, Registration>, id: Id, now: Time)
    requires id in regs && regs[id].status == Pending
    requires regs[id].tournamentId in ts
    requires RegistrationService.ConfirmedCount(regs, regs[id].tournamentId)
          >= ts[regs[id].tournamentId].config.maxParticipants
    ensures RegistrationService.ConfirmRecord(regs[id], now).Some?
    ensures RegistrationService.ConfirmedCount(regs[id := RegistrationService.ConfirmRecord(regs[id], now).value],
                                               regs[id].tournamentId)
          > ts[regs[id].tournamentId].config.maxParticipants
  {
    RegistrationService.ConfirmAddsOne(regs, id, now, regs[id].tournamentId);
  }

  /** A cancelled tournament admits nobody, whatever its configuration. */
  lemma CancelledAdmitsNobody(ts: map<Id, Tournament>, regs: map<Id, Registration>, tid: Id)
    requires tid in ts
    ensures !Admits(ts[tid := ts[tid].(status := TournamentStatus.Cancelled)], regs, tid)
  {
  }

  /** A patch keeps the organizer and the creation instant; setting the status
      back to draft reopens a cancelled tournament that allows registration
      and has free places. */
  lemma PatchCanReopen(ts: map<Id, Tournament>, regs: map<Id, Registration>, tid: Id, p: TournamentPatch)
    requires tid in ts && ts[tid].status == TournamentStatus.Cancelled
    requires p.status == Set(Draft) && p.allowRegistration.Unset? && p.maxParticipants.Unset?
    requires ts[tid].config.allowRegistration
    requires RegistrationService.ConfirmedCount(regs, tid) < ts[tid].config.maxParticipants
    ensures Patched(ts[tid], p).organizerId == ts[tid].organizerId
    ensures Patched(ts[tid], p).createdAt == ts[tid].createdAt
    ensures !Admits(ts, regs, tid)
    ensures Admits(ts[tid := Patched(ts[tid], p)], regs, tid)
  {
  }

  // --------------------------------------------------------------- listing

  /** The optional filters of `get_all`. */
  datatype TournamentFilter = TournamentFilter(
    includePrivate: bool,
    status: Option<TournamentStatus>,
    organizerId: Option<Id>)

  /** The conjunction of the conditions the filter supplies: without
      `include_private` only public tournaments qualify. */
  predicate Selects(f: TournamentFilter, t: Tournament) {
    (!f.includePrivate ==> t.config.isPublic) &&
    (f.status.Some? ==> t.status == f.status.value) &&
    (Truthy(f.organizerId) ==> t.organizerId == f.organizerId.value)
  }

  function Matching(ts: map<Id, Tournament>, f: TournamentFilter): set<Id> {
    set id | id in ts && Selects(f, ts[id])
  }

  /** Every tournament keyed by `created_at`, newest first. */
  function CreationKeys(ts: map<Id, Tournament>): map<Id, SortKey> {
    map id | id in ts :: Descending(ts[id].createdAt)
  }

  /** `get_all`: the tournaments the filter selects, newest first, then
      `skip` dropped and at most `limit` kept. */
  method GetAll(db: Database, skip: nat, limit: nat, filter: TournamentFilter)
    returns (r: seq<Id>, ghost ordered: seq<Id>)
    ensures Enumerates(ordered, Matching(db.tournaments, filter))
    ensures |ordered| == |Matching(db.tournaments, filter)|
    ensures SortedBy(ordered, CreationKeys(db.tournaments))
    ensures r == Page(ordered, skip, limit)
    ensures |r| <= limit && Distinct(r)
    ensures forall id :: id in r ==> id in db.tournaments && Selects(filter, db.tournaments[id])
    ensures !filter.includePrivate ==> forall id :: id in r ==> db.tournaments[id].config.isPublic
    ensures forall i, j :: 0 <= i < j < |r| ==> db.tournaments[r[j]].createdAt <= db.tournaments[r[i]].createdAt
  {
    var selected := Matching(db.tournaments, filter);
    var keys := CreationKeys(db.tournaments);
    var all := SortIds(selected, keys);
    r := Page(all, skip, limit);
    ordered := all;
    PageOfSorted(all, selected, keys, skip, limit);
    EnumerationSize(all, selected);
    forall i, j | 0 <= i < j < |r|
      ensures db.tournaments[r[j]].createdAt <= db.tournaments[r[i]].createdAt
    {
      assert KeyLe(keys[r[i]], keys[r[j]]);
    }
  }

  // ----------------------------------------------------- service operations

  /** `create`: a draft tournament with the given configuration, organized
      by the caller. Reusing an existing primary key is refused. */
  method Create(db: Database, data: TournamentConfig, organizerId: Id, newId: Id, now: Time)
    returns (r: Option<Id>)
    modifies db`tournaments
    ensures newId in old(db.tournaments) ==> r.None? && db.tournaments == old(db.tournaments)
    ensures newId !in old(db.tournaments) ==>
              r == Some(newId) &&
              db.tournaments == old(db.tournaments)[newId := Tournament(data, Draft, organizerId, now)]
  {
    if newId in db.tournaments {
      return None;
    }
    db.tournaments := db.tournaments[newId := Tournament(data, Draft, organizerId, now)];
    return Some(newId);
  }

  /** `update`: every field the request sets is written, nothing else. */
  method Update(db: Database, id: Id, patch: TournamentPatch) returns (r: Option<Tournament>)
    modifies db`tournaments
    ensures id !in old(db.tournaments) ==> r.None? && db.tournaments == old(db.tournaments)
    ensures id in old(db.tournaments) ==>
              r == Some(Patched(old(db.tournaments)[id], patch)) &&
              db.tournaments == old(db.tournaments)[id := r.value]
  {
    if id !in db.tournaments {
      return None;
    }
    var t := db.tournaments[id];
    var c := t.config;
    c := c.(name := patch.name.Apply(c.name));
    c := c.(description := patch.description.Apply(c.description));
    c := c.(format := patch.format.Apply(c.format));
    c := c.(maxParticipants := patch.maxParticipants.Apply(c.maxParticipants));
    c := c.(entryFee := patch.entryFee.Apply(c.entryFee));
    c := c.(prizePool := patch.prizePool.Apply(c.prizePool));
    c := c.(registrationDeadline := patch.registrationDeadline.Apply(c.registrationDeadline));
    c := c.(startDate := patch.startDate.Apply(c.startDate));
    c := c.(endDate := patch.endDate.Apply(c.endDate));
    c := c.(venueName := patch.venueName.Apply(c.venueName));
    c := c.(venueAddress := patch.venueAddress.Apply(c.venueAddress));
    c := c.(bestOfSets := patch.bestOfSets.Apply(c.bestOfSets));
    c := c.(tiebreakGames := patch.tiebreakGames.Apply(c.tiebreakGames));
    c := c.(matchDurationLimit := patch.matchDurationLimit.Apply(c.matchDurationLimit));
    c := c.(isPublic := patch.isPublic.Apply(c.isPublic));
    c := c.(allowRegistration := patch.allowRegistration.Apply(c.allowRegistration));
    t := t.(config := c);
    t := t.(status := patch.status.Apply(t.status));
    db.tournaments := db.tournaments[id := t];
    return Some(t);
  }

  /** `delete`: a soft delete. The row stays and only its status becomes
      cancelled; deleting again changes nothing more. */
  method Delete(db: Database, id: Id) returns (ok: bool)
    modifies db`tournaments
    ensures ok <==> id in old(db.tournaments)
    ensures db.tournaments.Keys == old(db.tournaments).Keys
    ensures ok ==> db.tournaments == old(db.tournaments)[id := old(db.tournaments)[id].(status := TournamentStatus.Cancelled)]
    ensures !ok || old(db.tournaments)[id].status == TournamentStatus.Cancelled ==>
              db.tournaments == old(db.tournaments)
  {
    if id !in db.tournaments {
      return false;
    }
    var t := db.tournaments[id];
    t := t.(status := TournamentStatus.Cancelled);
    db.tournaments := db.tournaments[id := t];
    return true;
  }

  /** `get_registration_count`: the number of confirmed registrations. */
  method GetRegistrationCount(db: Database, tid: Id) returns (n: nat)
    ensures n == RegistrationService.ConfirmedCount(db.registrations, tid)
  {
    n := RegistrationService.GetConfirmedCount(db, tid);
  }

  /** `can_register`, as the chain of early returns the service runs. */
  method CanRegister(db: Database, tid: Id) returns (ok: bool)
    ensures ok == Admits(db.tournaments, db.registrations, tid)
    ensures tid !in db.tournaments ==> !ok
    ensures ok ==> db.tournaments[tid].config.allowRegistration
    ensures ok ==> db.tournaments[tid].status == Draft || db.tournaments[tid].status == RegistrationOpen
  {
    if tid !in db.tournaments {
      return false;
    }
    var t := db.tournaments[tid];
    if !t.config.allowRegistration {
      return false;
    }
    if t.status != Draft && t.status != RegistrationOpen {
      return false;
    }
    var count := GetRegistrationCount(db, tid);
    if count >= t.config.maxParticipants {
      return false;
    }
    return true;
  }
}
