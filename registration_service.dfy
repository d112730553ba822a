/** `RegistrationService`: enrolment of a player in a tournament, the
    pending -> confirmed step, cancellation, patches and counting. */
module RegistrationService {
  import opened Base
  import opened Models
  import opened Paging

  /** The `RegistrationCreate` body. */
  datatype RegistrationCreate = RegistrationCreate(tournamentId: Id, notes: Option<string>)

  /** A `RegistrationUpdate` body. It cannot name the player or the tournament. */
  datatype RegistrationPatch = RegistrationPatch(
    status: Field<RegistrationStatus>,
    notes: Field<Option<string>>,
    paymentStatus: Field<string>,
    paymentReference: Field<Option<string>>)

  /** The row `create` inserts: the column defaults make it a pending,
      unpaid, unconfirmed registration dated `now`. */
  function NewRegistration(data: RegistrationCreate, playerId: Id, now: Time): (r: Registration)
    ensures r.playerId == playerId && r.tournamentId == data.tournamentId && r.notes == data.notes
    ensures r.status == Pending && r.registrationDate == now && r.confirmationDate.None?
    ensures r.paymentStatus == "pending" && r.paymentReference.None?
  {
    Registration(playerId, data.tournamentId, Pending, now, None, "pending", None, data.notes)
  }

  // ------------------------------------------------- lifecycle, record level

  /** The effect of `confirm` on one record: only a pending registration is
      confirmed, and it records when. */
  function ConfirmRecord(r: Registration, now: Time): (c: Option<Registration>)
    ensures c.Some? <==> r.status == Pending
    ensures c.Some? ==> c.value.status == Confirmed && c.value.confirmationDate == Some(now)
    ensures c.Some? ==> c.value.playerId == r.playerId && c.value.tournamentId == r.tournamentId &&
                        c.value.registrationDate == r.registrationDate && c.value.notes == r.notes &&
                        c.value.paymentStatus == r.paymentStatus &&
                        c.value.paymentReference == r.paymentReference
  {
    if r.status != Pending then None
    else Some(r.(status := Confirmed, confirmationDate := Some(now)))
  }

  /** The effect of `cancel` on one record, whatever its status. */
  function CancelRecord(r: Registration): (c: Registration)
    ensures c.status == RegistrationStatus.Cancelled
    ensures c.playerId == r.playerId && c.tournamentId == r.tournamentId &&
            c.registrationDate == r.registrationDate && c.confirmationDate == r.confirmationDate &&
            c.notes == r.notes && c.paymentStatus == r.paymentStatus &&
            c.paymentReference == r.paymentReference
  {
    r.(status := RegistrationStatus.Cancelled)
  }

  /** Cancelling twice is cancelling once, and a cancelled registration can no
      longer be confirmed. */
  lemma CancelIsIdempotent(r: Registration, now: Time)
    ensures CancelRecord(CancelRecord(r)) == CancelRecord(r)
    ensures ConfirmRecord(CancelRecord(r), now).None?
  {
  }

  /** The record after `setattr` of every field the patch sets. */
  function Patched(r: Registration, p: RegistrationPatch): Registration {
    r.(status := p.status.Apply(r.status),
       notes := p.notes.Apply(r.notes),
       paymentStatus := p.paymentStatus.Apply(r.paymentStatus),
       paymentReference := p.paymentReference.Apply(r.paymentReference))
  }

  /** A patch keeps the (player, tournament) pair and the dates, so it can
      never break the unique constraint. */
  lemma PatchKeepsPair(regs: map<Id, Registration>, id: Id, p: RegistrationPatch)
    requires UniquePairs(regs) && id in regs
    ensures Patched(regs[id], p).playerId == regs[id].playerId
    ensures Patched(regs[id], p).tournamentId == regs[id].tournamentId
    ensures Patched(regs[id], p).registrationDate == regs[id].registrationDate
    ensures Patched(regs[id], p).confirmationDate == regs[id].confirmationDate
    ensures UniquePairs(regs[id := Patched(regs[id], p)])
  {
  }

  // -------------------------------------------------------------- counting

  /** The confirmed registrations of tournament `tid`. */
  function ConfirmedIds(regs: map<Id, Registration>, tid: Id): set<Id> {
    set id | id in regs && regs[id].tournamentId == tid && regs[id].status == Confirmed
  }

  function ConfirmedCount(regs: map<Id, Registration>, tid: Id): nat {
    |ConfirmedIds(regs, tid)|
  }

  /** What one record adds to the confirmed count of `tid`. */
  function Weight(r: Registration, tid: Id): nat {
    if r.tournamentId == tid && r.status == Confirmed then 1 else 0
  }

  /** Writing one row changes the confirmed count of `tid` by the new row's
      weight minus the old row's. */
  lemma CountAfterWrite(regs: map<Id, Registration>, id: Id, r: Registration, tid: Id)
    ensures ConfirmedCount(regs[id := r], tid) + (if id in regs then Weight(regs[id], tid) else 0)
         == ConfirmedCount(regs, tid) + Weight(r, tid)
  {
    var before := ConfirmedIds(regs, tid);
    var after := ConfirmedIds(regs[id := r], tid);
    forall x ensures x in after - {id} <==> x in before - {id} {
      if x != id {
        assert x in after <==> x in before;
      }
    }
    assert after - {id} == before - {id};
    assert id in before <==> id in regs && Weight(regs[id], tid) == 1;
    assert id in after <==> Weight(r, tid) == 1;
    SizeWithout(before, id);
    SizeWithout(after, id);
  }

  /** Taking an element out of a set lowers its size by one exactly when it was in it. */
  lemma SizeWithout(s: set<Id>, x: Id)
    ensures |s| == |s - {x}| + (if x in s then 1 else 0)
  {
    if x in s {
      assert s == (s - {x}) + {x};
    } else {
      assert s - {x} == s;
    }
  }

  /** Confirming a pending registration of `tid` adds one to its confirmed
      count and leaves every other tournament's count alone. */
  lemma ConfirmAddsOne(regs: map<Id, Registration>, id: Id, now: Time, tid: Id)
    requires id in regs && regs[id].status == Pending
    ensures ConfirmedCount(regs[id := ConfirmRecord(regs[id], now).value], tid)
         == ConfirmedCount(regs, tid) + (if regs[id].tournamentId == tid then 1 else 0)
  {
    CountAfterWrite(regs, id, ConfirmRecord(regs[id], now).value, tid);
  }

  /** Cancelling a registration removes it from the confirmed count if it was
      counted, and otherwise changes nothing. */
  lemma CancelRemovesOne(regs: map<Id, Registration>, id: Id, tid: Id)
    requires id in regs
    ensures ConfirmedCount(regs[id := CancelRecord(regs[id])], tid)
         == ConfirmedCount(regs, tid) - Weight(regs[id], tid)
  {
    CountAfterWrite(regs, id, CancelRecord(regs[id]), tid);
  }

  /** A new registration is pending, so it leaves every confirmed count alone. */
  lemma NewRegistrationIsNotCounted(regs: map<Id, Registration>, id: Id, data: RegistrationCreate,
                                    playerId: Id, now: Time, tid: Id)
    requires id !in regs
    ensures ConfirmedCount(regs[id := NewRegistration(data, playerId, now)], tid) == ConfirmedCount(regs, tid)
  {
    CountAfterWrite(regs, id, NewRegistration(data, playerId, now), tid);
  }

  // ----------------------------------------------------- service operations

  /** `get_by_player_and_tournament`: the registration of the pair, which the
      unique constraint makes the only one. */
  method GetByPlayerAndTournament(db: Database, playerId: Id, tid: Id) returns (r: Option<Id>)
    requires db.Valid()
    ensures r.None? <==> PairIds(db.registrations, playerId, tid) == {}
    ensures r.Some? ==> PairIds(db.registrations, playerId, tid) == {r.value}
  {
    var todo := db.registrations.Keys;
    while todo != {}
      invariant todo <= db.registrations.Keys
      invariant PairIds(db.registrations, playerId, tid) <= todo
      decreases |todo|
    {
      var id :| id in todo;
      var reg := db.registrations[id];
      if reg.playerId == playerId && reg.tournamentId == tid {
        PairIsUnique(db.registrations, id);
        return Some(id);
      }
      todo := todo - {id};
    }
    return None;
  }

  /** `get_confirmed_count`: how many registrations of the tournament are
      confirmed. */
  method GetConfirmedCount(db: Database, tid: Id) returns (n: nat)
    ensures n == ConfirmedCount(db.registrations, tid)
  {
    n := 0;
    var todo := db.registrations.Keys;
    while todo != {}
      invariant todo <= db.registrations.Keys
      invariant n == |ConfirmedIds(db.registrations, tid) - todo|
      decreases |todo|
    {
      var id :| id in todo;
      var reg := db.registrations[id];
      var done := ConfirmedIds(db.registrations, tid) - todo;
      if reg.tournamentId == tid && reg.status == Confirmed {
        assert ConfirmedIds(db.registrations, tid) - (todo - {id}) == done + {id};
        n := n + 1;
      } else {
        assert ConfirmedIds(db.registrations, tid) - (todo - {id}) == done;
      }
      todo := todo - {id};
    }
  }

  /** Registrations of one tournament keyed by `registration_date`, ascending. */
  function DateKeys(regs: map<Id, Registration>): map<Id, SortKey> {
    map id | id in regs :: Ascending(Some(regs[id].registrationDate))
  }

  function OfTournament(regs: map<Id, Registration>, tid: Id): set<Id> {
    set id | id in regs && regs[id].tournamentId == tid
  }

  /** `get_by_tournament`: the tournament's registrations, oldest first, then
      `skip` dropped and at most `limit` kept. */
  method GetByTournament(db: Database, tid: Id, skip: nat, limit: nat)
    returns (r: seq<Id>, ghost ordered: seq<Id>)
    ensures Enumerates(ordered, OfTournament(db.registrations, tid))
    ensures |ordered| == |OfTournament(db.registrations, tid)|
    ensures SortedBy(ordered, DateKeys(db.registrations))
    ensures r == Page(ordered, skip, limit)
    ensures |r| <= limit && Distinct(r)
    ensures forall id :: id in r ==> id in db.registrations && db.registrations[id].tournamentId == tid
  {
    var selected := OfTournament(db.registrations, tid);
    var keys := DateKeys(db.registrations);
    var all := SortIds(selected, keys);
    r := Page(all, skip, limit);
    ordered := all;
    PageOfSorted(all, selected, keys, skip, limit);
    EnumerationSize(all, selected);
  }

  /** Registrations keyed by `registration_date`, newest first. */
  function NewestFirstKeys(regs: map<Id, Registration>): map<Id, SortKey> {
    map id | id in regs :: Descending(regs[id].registrationDate)
  }

  function OfPlayer(regs: map<Id, Registration>, playerId: Id): set<Id> {
    set id | id in regs && regs[id].playerId == playerId
  }

  /** `get_by_player`: the player's registrations, newest first, then `skip`
      dropped and at most `limit` kept. */
  method GetByPlayer(db: Database, playerId: Id, skip: nat, limit: nat)
    returns (r: seq<Id>, ghost ordered: seq<Id>)
    ensures Enumerates(ordered, OfPlayer(db.registrations, playerId))
    ensures |ordered| == |OfPlayer(db.registrations, playerId)|
    ensures SortedBy(ordered, NewestFirstKeys(db.registrations))
    ensures r == Page(ordered, skip, limit)
    ensures |r| <= limit && Distinct(r)
    ensures forall id :: id in r ==> id in db.registrations && db.registrations[id].playerId == playerId
    ensures forall i, j :: 0 <= i < j < |r| ==>
              db.registrations[r[j]].registrationDate <= db.registrations[r[i]].registrationDate
  {
    var selected := OfPlayer(db.registrations, playerId);
    var keys := NewestFirstKeys(db.registrations);
    var all := SortIds(selected, keys);
    r := Page(all, skip, limit);
    ordered := all;
    PageOfSorted(all, selected, keys, skip, limit);
    EnumerationSize(all, selected);
    forall i, j | 0 <= i < j < |r|
      ensures db.registrations[r[j]].registrationDate <= db.registrations[r[i]].registrationDate
    {
      assert KeyLe(keys[r[i]], keys[r[j]]);
    }
  }

  /** `create`: inserts a pending registration. The database refuses a
      reused primary key and a second registration of the same pair. */
  method Create(db: Database, data: RegistrationCreate, playerId: Id, newId: Id, now: Time)
    returns (r: Option<Id>)
    requires db.Valid()
    modifies db`registrations
    ensures db.Valid()
    ensures r.None? <==>
              newId in old(db.registrations) ||
              PairIds(old(db.registrations), playerId, data.tournamentId) != {}
    ensures r.None? ==> db.registrations == old(db.registrations)
    ensures r.Some? ==>
              r.value == newId &&
              db.registrations == old(db.registrations)[newId := NewRegistration(data, playerId, now)]
  {
    if newId in db.registrations {
      return None;
    }
    var existing := GetByPlayerAndTournament(db, playerId, data.tournamentId);
    if existing.Some? {
      return None;
    }
    var reg := NewRegistration(data, playerId, now);
    InsertKeepsUnique(db.registrations, newId, reg);
    db.registrations := db.registrations[newId := reg];
    return Some(newId);
  }

  /** `update`: every field the request sets is written, nothing else. */
  method Update(db: Database, id: Id, patch: RegistrationPatch) returns (r: Option<Registration>)
    requires db.Valid()
    modifies db`registrations
    ensures db.Valid()
    ensures id !in old(db.registrations) ==> r.None? && db.registrations == old(db.registrations)
    ensures id in old(db.registrations) ==>
              r == Some(Patched(old(db.registrations)[id], patch)) &&
              db.registrations == old(db.registrations)[id := r.value]
  {
    if id !in db.registrations {
      return None;
    }
    PatchKeepsPair(db.registrations, id, patch);
    var reg := db.registrations[id];
    if patch.status.Set? { reg := reg.(status := patch.status.value); }
    if patch.notes.Set? { reg := reg.(notes := patch.notes.value); }
    if patch.paymentStatus.Set? { reg := reg.(paymentStatus := patch.paymentStatus.value); }
    if patch.paymentReference.Set? { reg := reg.(paymentReference := patch.paymentReference.value); }
    db.registrations := db.registrations[id := reg];
    return Some(reg);
  }

  /** `confirm`. */
  method Confirm(db: Database, id: Id, now: Time) returns (r: Option<Registration>)
    requires db.Valid()
    modifies db`registrations
    ensures db.Valid()
    ensures id !in old(db.registrations) ==> r.None?
    ensures id in old(db.registrations) ==> r == ConfirmRecord(old(db.registrations)[id], now)
    ensures db.registrations == if r.Some? then old(db.registrations)[id := r.value] else old(db.registrations)
  {
    if id !in db.registrations {
      return None;
    }
    var reg := db.registrations[id];
    if reg.status != Pending {
      return None;
    }
    reg := reg.(status := Confirmed, confirmationDate := Some(now));
    db.registrations := db.registrations[id := reg];
    return Some(reg);
  }

  /** `cancel`. */
  method Cancel(db: Database, id: Id) returns (r: Option<Registration>)
    requires db.Valid()
    modifies db`registrations
    ensures db.Valid()
    ensures id !in old(db.registrations) ==> r.None? && db.registrations == old(db.registrations)
    ensures id in old(db.registrations) ==>
              r == Some(CancelRecord(old(db.registrations)[id])) &&
              db.registrations == old(db.registrations)[id := r.value]
  {
    if id !in db.registrations {
      return None;
    }
    var reg := db.registrations[id];
    reg := reg.(status := RegistrationStatus.Cancelled);
    db.registrations := db.registrations[id := reg];
    return Some(reg);
  }
}
