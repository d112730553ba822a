/** `MatchService`: the match lifecycle (start, complete, forfeit), the
    field-wise patch and the filtered, paginated listing. */
module MatchService {
  import opened Base
  import opened Models
  import opened Paging

  // ------------------------------------------------- lifecycle, record level

  /** The effect of `start_match` on one record: only a scheduled match
      starts; it becomes in progress and records its start instant. */
  function StartRecord(m: Match, now: Time): (r: Option<Match>)
    ensures r.Some? <==> m.status == Scheduled
    ensures r.Some? ==> r.value.status == MatchStatus.InProgress && r.value.startedAt == Some(now)
    ensures r.Some? ==> r.value.fixture == m.fixture && r.value.winner == m.winner &&
                        r.value.forfeitBy == m.forfeitBy && r.value.completedAt == m.completedAt
  {
    if m.status != Scheduled then None
    else Some(m.(status := MatchStatus.InProgress, startedAt := Some(now)))
  }

  /** The effect of `complete_match` on one record: only a match in progress
      completes. The winner column is overwritten only by a non-empty id;
      otherwise it keeps what it held. */
  function CompleteRecord(m: Match, winner: Option<Id>, now: Time): (r: Option<Match>)
    ensures r.Some? <==> m.status == MatchStatus.InProgress
    ensures r.Some? ==> r.value.status == MatchStatus.Completed && r.value.completedAt == Some(now)
    ensures r.Some? && Truthy(winner) ==> r.value.winner == winner
    ensures r.Some? && !Truthy(winner) ==> r.value.winner == m.winner
    ensures r.Some? ==> r.value.fixture == m.fixture && r.value.startedAt == m.startedAt &&
                        r.value.forfeitBy == m.forfeitBy
  {
    if m.status != MatchStatus.InProgress then None
    else
      var done := m.(status := MatchStatus.Completed, completedAt := Some(now));
      Some(if Truthy(winner) then done.(winner := winner) else done)
  }

  /** The effect of `forfeit_match` on one record: a scheduled match or one in
      progress is forfeited by `player`, and the other player becomes the
      winner. A forfeiter in neither slot leaves the winner as it was. */
  function ForfeitRecord(m: Match, player: Id, now: Time): (r: Option<Match>)
    ensures r.Some? <==> m.status == Scheduled || m.status == MatchStatus.InProgress
    ensures r.Some? ==> r.value.status == Forfeit && r.value.forfeitBy == Some(player) &&
                        r.value.completedAt == Some(now)
    ensures r.Some? && player == m.fixture.player1 ==> r.value.winner == m.fixture.player2
    ensures r.Some? && player != m.fixture.player1 && m.fixture.player2 == Some(player) ==>
              r.value.winner == Some(m.fixture.player1)
    ensures r.Some? && !Plays(m, player) ==> r.value.winner == m.winner
    ensures r.Some? ==> r.value.fixture == m.fixture && r.value.startedAt == m.startedAt
  {
    if m.status != Scheduled && m.status != MatchStatus.InProgress then None
    else
      var gone := m.(status := Forfeit, forfeitBy := Some(player), completedAt := Some(now));
      if player == m.fixture.player1 then Some(gone.(winner := m.fixture.player2))
      else if m.fixture.player2 == Some(player) then Some(gone.(winner := Some(m.fixture.player1)))
      else Some(gone)
  }

  /** A player of a match between two different players who forfeits it hands
      the win to the opponent, or to nobody when the opponent slot is a bye. */
  lemma ForfeitHandsWinToOpponent(m: Match, player: Id, now: Time)
    requires m.status == Scheduled || m.status == MatchStatus.InProgress
    requires Plays(m, player) && m.fixture.player2 != Some(m.fixture.player1)
    ensures ForfeitRecord(m, player, now).Some?
    ensures ForfeitRecord(m, player, now).value.winner != Some(player)
    ensures ForfeitRecord(m, player, now).value.winner.None? <==> m.fixture.player2.None?
    ensures ForfeitRecord(m, player, now).value.winner.Some? ==>
              Plays(m, ForfeitRecord(m, player, now).value.winner.value)
  {
  }

  /** Nothing stops a match from naming the same player in both slots; when
      that player forfeits it, the forfeiter becomes the winner. */
  lemma ForfeitOfSelfMatchWinsIt(m: Match, now: Time)
    requires m.status == Scheduled || m.status == MatchStatus.InProgress
    requires m.fixture.player2 == Some(m.fixture.player1)
    ensures ForfeitRecord(m, m.fixture.player1, now).Some?
    ensures ForfeitRecord(m, m.fixture.player1, now).value.winner == Some(m.fixture.player1)
    ensures ForfeitRecord(m, m.fixture.player1, now).value.forfeitBy == Some(m.fixture.player1)
  {
  }

  // ----------------------------------------------- lifecycle, whole histories

  /** A status change request handed to the service. */
  datatype Action =
    | StartAction(now: Time)
    | CompleteAction(winner: Option<Id>, now: Time)
    | ForfeitAction(player: Id, now: Time)

  function Step(m: Match, a: Action): Option<Match> {
    match a
    case StartAction(now) => StartRecord(m, now)
    case CompleteAction(winner, now) => CompleteRecord(m, winner, now)
    case ForfeitAction(player, now) => ForfeitRecord(m, player, now)
  }

  /** The record after a sequence of requests; a refused request changes nothing. */
  function Run(m: Match, actions: seq<Action>): Match
    decreases |actions|
  {
    if actions == [] then m
    else
      var next := Step(m, actions[0]);
      Run(if next.Some? then next.value else m, actions[1..])
  }

  /** How many requests of the sequence the service accepts. */
  function Accepted(m: Match, actions: seq<Action>): nat
    decreases |actions|
  {
    if actions == [] then 0
    else
      var next := Step(m, actions[0]);
      (if next.Some? then 1 else 0) + Accepted(if next.Some? then next.value else m, actions[1..])
  }

  /** Position of a status in the lifecycle: scheduled, in progress, finished. */
  function Stage(s: MatchStatus): nat {
    match s
    case Scheduled => 0
    case InProgress => 1
    case _ => 2
  }

  predicate Finished(s: MatchStatus) {
    Stage(s) == 2
  }

  /** Each accepted request moves the match strictly forward. */
  lemma StepAdvances(m: Match, a: Action)
    requires Step(m, a).Some?
    ensures Stage(Step(m, a).value.status) == Stage(m.status) + 1 ||
            (Stage(m.status) == 0 && Finished(Step(m, a).value.status))
    ensures Step(m, a).value.fixture == m.fixture
  {
  }

  /** Along any history the match never moves backwards, and the accepted
      requests are at most the stages it moved through. */
  lemma {:induction false} RunAdvances(m: Match, actions: seq<Action>)
    ensures Stage(m.status) + Accepted(m, actions) <= Stage(Run(m, actions).status)
    ensures Run(m, actions).fixture == m.fixture
    decreases |actions|
  {
    if actions != [] {
      var next := Step(m, actions[0]);
      if next.Some? {
        StepAdvances(m, actions[0]);
        RunAdvances(next.value, actions[1..]);
      } else {
        RunAdvances(m, actions[1..]);
      }
    }
  }

  /** Through start, complete and forfeit a match changes status at most twice. */
  lemma AtMostTwoTransitions(m: Match, actions: seq<Action>)
    ensures Accepted(m, actions) <= 2
  {
    RunAdvances(m, actions);
  }

  /** Completed, forfeited and cancelled matches accept no request: the
      record, its winner included, stays exactly as it is. */
  lemma {:induction false} FinishedIsFinal(m: Match, actions: seq<Action>)
    requires Finished(m.status)
    ensures Run(m, actions) == m && Accepted(m, actions) == 0
    decreases |actions|
  {
    if actions != [] {
      assert Step(m, actions[0]).None?;
      FinishedIsFinal(m, actions[1..]);
    }
  }

  /** Start, complete and forfeit never cancel a match: only `update` can. */
  lemma {:induction false} NeverCancelledByLifecycle(m: Match, actions: seq<Action>)
    requires m.status != MatchStatus.Cancelled
    ensures Run(m, actions).status != MatchStatus.Cancelled
    decreases |actions|
  {
    if actions != [] {
      var next := Step(m, actions[0]);
      NeverCancelledByLifecycle(if next.Some? then next.value else m, actions[1..]);
    }
  }

  // ---------------------------------------------------------------- update

  /** A `MatchUpdate` body: the fields it sets, the others left unset. */
  datatype MatchPatch = MatchPatch(
    round: Field<MatchRound>,
    matchNumber: Field<Option<int>>,
    player2: Field<Option<Id>>,
    scheduledAt: Field<Option<Time>>,
    status: Field<MatchStatus>,
    bestOfSets: Field<int>,
    courtNumber: Field<Option<string>>,
    winner: Field<Option<Id>>)

  /** The record after `setattr` of every field the patch sets. */
  function Patched(m: Match, p: MatchPatch): Match {
    Match(
      Fixture(
        m.fixture.tournamentId,
        p.round.Apply(m.fixture.round),
        p.matchNumber.Apply(m.fixture.matchNumber),
        m.fixture.player1,
        p.player2.Apply(m.fixture.player2),
        p.scheduledAt.Apply(m.fixture.scheduledAt),
        p.bestOfSets.Apply(m.fixture.bestOfSets),
        p.courtNumber.Apply(m.fixture.courtNumber)),
      p.status.Apply(m.status),
      m.startedAt,
      m.completedAt,
      p.winner.Apply(m.winner),
      m.forfeitBy)
  }

  /** A patch never moves a match to another tournament or replaces its first
      player, never touches the lifecycle instants or the forfeiter, and
      applying it twice is applying it once. */
  lemma PatchFrame(m: Match, p: MatchPatch)
    ensures Patched(m, p).fixture.tournamentId == m.fixture.tournamentId
    ensures Patched(m, p).fixture.player1 == m.fixture.player1
    ensures Patched(m, p).startedAt == m.startedAt && Patched(m, p).completedAt == m.completedAt
    ensures Patched(m, p).forfeitBy == m.forfeitBy
    ensures Patched(Patched(m, p), p) == Patched(m, p)
  {
  }

  /** `update` writes the status column without the lifecycle guards: a
      finished match can be put back to scheduled and then started again. */
  lemma UpdateBypassesLifecycle(m: Match, p: MatchPatch, now: Time)
    requires Finished(m.status) && p.status == Set(Scheduled)
    ensures StartRecord(m, now).None?
    ensures StartRecord(Patched(m, p), now).Some?
  {
  }

  // --------------------------------------------------------------- listing

  /** The optional filters of `get_all`. An id filter that is `None` or empty
      is not applied. */
  datatype MatchFilter = MatchFilter(
    tournamentId: Option<Id>,
    playerId: Option<Id>,
    status: Option<MatchStatus>,
    round: Option<MatchRound>)

  /** The conjunction of the conditions the filter supplies. */
  predicate Selects(f: MatchFilter, m: Match) {
    (Truthy(f.tournamentId) ==> m.fixture.tournamentId == f.tournamentId.value) &&
    (Truthy(f.playerId) ==> Plays(m, f.playerId.value)) &&
    (f.status.Some? ==> m.status == f.status.value) &&
    (f.round.Some? ==> m.fixture.round == f.round.value)
  }

  function Matching(matches: map<Id, Match>, f: MatchFilter): set<Id> {
    set id | id in matches && Selects(f, matches[id])
  }

  /** Every match keyed by `scheduled_at`, ascending, NULLs first. */
  function ScheduleKeys(matches: map<Id, Match>): map<Id, SortKey> {
    map id | id in matches :: Ascending(matches[id].fixture.scheduledAt)
  }

  /** `get_all`: the matches the filter selects, ordered by `scheduled_at`,
      then `skip` of them dropped and at most `limit` kept. */
  method GetAll(db: Database, skip: nat, limit: nat, filter: MatchFilter)
    returns (r: seq<Id>, ghost ordered: seq<Id>)
    ensures Enumerates(ordered, Matching(db.matches, filter))
    ensures |ordered| == |Matching(db.matches, filter)|
    ensures SortedBy(ordered, ScheduleKeys(db.matches))
    ensures r == Page(ordered, skip, limit)
    ensures |r| <= limit && Distinct(r) && SortedBy(r, ScheduleKeys(db.matches))
    ensures forall id :: id in r ==> id in db.matches && Selects(filter, db.matches[id])
  {
    var selected := Matching(db.matches, filter);
    var keys := ScheduleKeys(db.matches);
    var all := SortIds(selected, keys);
    r := Page(all, skip, limit);
    ordered := all;
    PageOfSorted(all, selected, keys, skip, limit);
    EnumerationSize(all, selected);
  }

  // ----------------------------------------------------- service operations

  /** `create`: a new scheduled match with no result. Reusing an existing
      primary key is refused by the database. */
  method Create(db: Database, data: Fixture, newId: Id) returns (r: Option<Id>)
    modifies db`matches
    ensures newId in old(db.matches) ==> r.None? && db.matches == old(db.matches)
    ensures newId !in old(db.matches) ==>
              r == Some(newId) &&
              db.matches == old(db.matches)[newId := Match(data, Scheduled, None, None, None, None)]
  {
    if newId in db.matches {
      return None;
    }
    db.matches := db.matches[newId := Match(data, Scheduled, None, None, None, None)];
    return Some(newId);
  }

  /** `update`: every field the request sets is written, nothing else. */
  method Update(db: Database, id: Id, patch: MatchPatch) returns (r: Option<Match>)
    modifies db`matches
    ensures id !in old(db.matches) ==> r.None? && db.matches == old(db.matches)
    ensures id in old(db.matches) ==>
              r == Some(Patched(old(db.matches)[id], patch)) &&
              db.matches == old(db.matches)[id := r.value]
  {
    if id !in db.matches {
      return None;
    }
    var m := db.matches[id];
    if patch.round.Set? { m := m.(fixture := m.fixture.(round := patch.round.value)); }
    if patch.matchNumber.Set? { m := m.(fixture := m.fixture.(matchNumber := patch.matchNumber.value)); }
    if patch.player2.Set? { m := m.(fixture := m.fixture.(player2 := patch.player2.value)); }
    if patch.scheduledAt.Set? { m := m.(fixture := m.fixture.(scheduledAt := patch.scheduledAt.value)); }
    if patch.status.Set? { m := m.(status := patch.status.value); }
    if patch.bestOfSets.Set? { m := m.(fixture := m.fixture.(bestOfSets := patch.bestOfSets.value)); }
    if patch.courtNumber.Set? { m := m.(fixture := m.fixture.(courtNumber := patch.courtNumber.value)); }
    if patch.winner.Set? { m := m.(winner := patch.winner.value); }
    db.matches := db.matches[id := m];
    return Some(m);
  }

  /** `start_match`. */
  method StartMatch(db: Database, id: Id, now: Time) returns (r: Option<Match>)
    modifies db`matches
    ensures id !in old(db.matches) ==> r.None?
    ensures id in old(db.matches) ==> r == StartRecord(old(db.matches)[id], now)
    ensures db.matches == if r.Some? then old(db.matches)[id := r.value] else old(db.matches)
  {
    if id !in db.matches {
      return None;
    }
    var m := db.matches[id];
    if m.status != Scheduled {
      return None;
    }
    m := m.(status := MatchStatus.InProgress, startedAt := Some(now));
    db.matches := db.matches[id := m];
    return Some(m);
  }

  /** `complete_match`. */
  method CompleteMatch(db: Database, id: Id, winner: Option<Id>, now: Time) returns (r: Option<Match>)
    modifies db`matches
    ensures id !in old(db.matches) ==> r.None?
    ensures id in old(db.matches) ==> r == CompleteRecord(old(db.matches)[id], winner, now)
    ensures db.matches == if r.Some? then old(db.matches)[id := r.value] else old(db.matches)
  {
    if id !in db.matches {
      return None;
    }
    var m := db.matches[id];
    if m.status != MatchStatus.InProgress {
      return None;
    }
    m := m.(status := MatchStatus.Completed, completedAt := Some(now));
    if Truthy(winner) {
      m := m.(winner := winner);
    }
    db.matches := db.matches[id := m];
    return Some(m);
  }

  /** `forfeit_match`. */
  method ForfeitMatch(db: Database, id: Id, player: Id, now: Time) returns (r: Option<Match>)
    modifies db`matches
    ensures id !in old(db.matches) ==> r.None?
    ensures id in old(db.matches) ==> r == ForfeitRecord(old(db.matches)[id], player, now)
    ensures db.matches == if r.Some? then old(db.matches)[id := r.value] else old(db.matches)
  {
    if id !in db.matches {
      return None;
    }
    var m := db.matches[id];
    if m.status != Scheduled && m.status != MatchStatus.InProgress {
      return None;
    }
    m := m.(status := Forfeit, forfeitBy := Some(player), completedAt := Some(now));
    if player == m.fixture.player1 {
      m := m.(winner := m.fixture.player2);
    } else if m.fixture.player2 == Some(player) {
      m := m.(winner := Some(m.fixture.player1));
    }
    db.matches := db.matches[id := m];
    return Some(m);
  }
}
