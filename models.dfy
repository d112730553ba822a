/** The persisted entities (matches, tournaments, registrations) and the
    in-memory tables that stand for the database. */
module Models {
  import opened Base

  // ---------------------------------------------------------------- matches

  datatype MatchStatus = Scheduled | InProgress | Completed | Forfeit | Cancelled

  datatype MatchRound =
    | RoundRobin
    | Round32 | Round16 | QuarterFinal | SemiFinal | Final
    | WinnersBracket | LosersBracket | GrandFinal

  /** The fields a match is created with (the `MatchBase` schema): which
      tournament, which round, who plays whom, when and where. The second
      player slot is empty for a bye. */
  datatype Fixture = Fixture(
    tournamentId: Id,
    round: MatchRound,
    matchNumber: Option<int>,
    player1: Id,
    player2: Option<Id>,
    scheduledAt: Option<Time>,
    bestOfSets: int,
    courtNumber: Option<string>)

  /** A match row: its fixture plus the lifecycle columns. */
  datatype Match = Match(
    fixture: Fixture,
    status: MatchStatus,
    startedAt: Option<Time>,
    completedAt: Option<Time>,
    winner: Option<Id>,
    forfeitBy: Option<Id>)

  /** True when `player` occupies one of the two slots of `m`. */
  predicate Plays(m: Match, player: Id) {
    player == m.fixture.player1 || m.fixture.player2 == Some(player)
  }

  // ------------------------------------------------------------ tournaments

  datatype TournamentFormat = RoundRobin | SingleElimination | DoubleElimination

  datatype TournamentStatus =
    Draft | RegistrationOpen | RegistrationClosed | InProgress | Completed | Cancelled

  /** The configuration an organizer supplies (the `TournamentBase` schema). */
  datatype TournamentConfig = TournamentConfig(
    name: string,
    description: Option<string>,
    format: TournamentFormat,
    maxParticipants: int,
    entryFee: int,
    prizePool: int,
    registrationDeadline: Option<Time>,
    startDate: Option<Time>,
    endDate: Option<Time>,
    venueName: Option<string>,
    venueAddress: Option<string>,
    bestOfSets: int,
    tiebreakGames: int,
    matchDurationLimit: Option<int>,
    isPublic: bool,
    allowRegistration: bool)

  /** A tournament row: its configuration, its status, its organizer and the
      instant the row was inserted. */
  datatype Tournament = Tournament(
    config: TournamentConfig,
    status: TournamentStatus,
    organizerId: Id,
    createdAt: Time)

  // ---------------------------------------------------------- registrations

  datatype RegistrationStatus = Pending | Confirmed | Waitlisted | Cancelled | Rejected

  datatype Registration = Registration(
    playerId: Id,
    tournamentId: Id,
    status: RegistrationStatus,
    registrationDate: Time,
    confirmationDate: Option<Time>,
    paymentStatus: string,
    paymentReference: Option<string>,
    notes: Option<string>)

  /** The ids of the registrations of `player` for tournament `tid`. */
  function PairIds(regs: map<Id, Registration>, player: Id, tid: Id): set<Id> {
    set id | id in regs && regs[id].playerId == player && regs[id].tournamentId == tid
  }

  /** The unique constraint on (player_id, tournament_id). */
  predicate UniquePairs(regs: map<Id, Registration>) {
    forall a, b ::
      a in regs && b in regs && regs[a].playerId == regs[b].playerId &&
      regs[a].tournamentId == regs[b].tournamentId
      ==> a == b
  }

  /** Under the unique constraint a (player, tournament) pair names at most one
      registration; `id` is that one when it carries the pair. */
  lemma PairIsUnique(regs: map<Id, Registration>, id: Id)
    requires UniquePairs(regs) && id in regs
    ensures PairIds(regs, regs[id].playerId, regs[id].tournamentId) == {id}
  {
  }

  /** Inserting a row whose pair is not yet registered keeps the constraint. */
  lemma InsertKeepsUnique(regs: map<Id, Registration>, id: Id, r: Registration)
    requires UniquePairs(regs) && id !in regs
    requires PairIds(regs, r.playerId, r.tournamentId) == {}
    ensures UniquePairs(regs[id := r])
  {
    forall a | a in regs
      ensures !(regs[a].playerId == r.playerId && regs[a].tournamentId == r.tournamentId)
    {
      assert a !in PairIds(regs, r.playerId, r.tournamentId);
    }
  }

  // --------------------------------------------------------------- database

  /** The tables of the database, keyed by row id. Every service call reads
      and writes them as one atomic step. */
  class Database {
    var matches: map<Id, Match>
    var tournaments: map<Id, Tournament>
    var registrations: map<Id, Registration>

    ghost predicate Valid()
      reads this
    {
      UniquePairs(registrations)
    }

    constructor ()
      ensures Valid()
      ensures matches == map[] && tournaments == map[] && registrations == map[]
    {
      matches := map[];
      tournaments := map[];
      registrations := map[];
    }
  }
}
