# Tennis tournament backend: lifecycles and admission rules

This project is a Dafny model of the core of a tennis-tournament web backend.
That core is made of three services and two sets of endpoints:

- **`MatchService`** moves a match through its lifecycle. A scheduled match
  starts. A match in progress completes, with an optional winner. A
  scheduled match or one in progress is forfeited by one of its players, and
  the other player becomes the winner. The service also patches a match field
  by field and lists matches through filters with paging.
- **`RegistrationService`** enrols a player in a tournament as a pending
  registration. It confirms a pending registration and cancels a
  registration whatever its status. It also patches and counts
  registrations. The database allows one registration per (player,
  tournament) pair.
- **`TournamentService`** creates, lists and patches tournaments. Its delete
  is a soft delete that marks the tournament cancelled. Its admission rule
  `can_register` holds when the tournament allows registration, is a draft or
  open for registration, and has fewer confirmed registrations than places.
- **The match and tournament endpoints** check who may act before the
  services run. They also decide which HTTP error is raised first.

The database is the class `Models.Database`. It has one map from id to row
per table. Every service operation is an imperative method that changes only
the table it writes (`modifies db`matches` and so on). Each lifecycle and
patch method is proved against a pure record-level function: `StartRecord`,
`CompleteRecord`, `ForfeitRecord`, `ConfirmRecord`, `CancelRecord` or
`Patched`; `CanRegister` is proved equal to the predicate `Admits`. The
`Create` methods are specified by the row they insert, and the listings by
an enumeration of exactly the filtered set (`Matching`, `Enumerates`). The
lemmas beside these functions state what the lifecycle promises over whole
histories of requests.

The one invariant of the database is `Database.Valid()`. It says that no two
registrations share a (player, tournament) pair; this is the unique
constraint of the registrations table. Every method that writes
registrations keeps it.

Conventions of the model:

- New primary keys (uuid4) are a parameter `newId`. When it collides with an
  existing key, the service returns `None`. When a registration repeats a
  pair, the service also returns `None`. The endpoints answer both with the
  500 response that an unhandled integrity error produces.
- Timestamps (`func.now()` and the `server_default` of
  `registration_date`) are a parameter `now: int`.
- Request bodies parsed with `exclude_unset=True` are records of
  `Field<T> = Unset | Set(value)`.
- Python truthiness of optional ids (`if winner_id:`) is `Base.Truthy`. Both
  `None` and the empty string are false.
- `ORDER BY` is modelled by `Paging.SortIds`, and `OFFSET`/`LIMIT` by
  `Paging.Page`. The database leaves the order of equal keys open, so a
  listing is specified against a ghost enumeration `ordered`. It returns
  `Page(ordered, skip, limit)` of it. `scheduled_at` sorts with NULLs first,
  as SQLite does for an ascending order.
- Listings return the ids of the rows. The rows themselves are the map
  entries.

## Model

| member | source | states |
|---|---|---|
| Models.InsertKeepsUnique | backend/app/models/registration.py:61-63 | inserting a registration under a fresh key, for a pair no registration holds yet, keeps the (player, tournament) pair unique |
| MatchService.StartRecord | backend/app/services/match.py:116-120 | start succeeds exactly when the match is scheduled; the result is in progress with its start instant set; fixture, winner, forfeiter and completion instant unchanged |
| MatchService.CompleteRecord | backend/app/services/match.py:135-141 | complete succeeds exactly when the match is in progress; the result is completed with its completion instant; the winner is overwritten only by a non-empty id and otherwise keeps its old value; everything else unchanged |
| MatchService.ForfeitRecord | backend/app/services/match.py:156-167 | forfeit succeeds exactly from scheduled or in progress; status forfeit, forfeiter and completion instant set; player1 forfeiting makes player2 (possibly none) the winner, player2 forfeiting makes player1 the winner, a forfeiter in neither slot leaves the winner unchanged |
| MatchService.ForfeitHandsWinToOpponent | backend/app/services/match.py:163-167 | for a match whose two slots name different players (a condition the source never enforces), a player who forfeits it is never the winner; the winner is empty exactly for a bye, and otherwise it is the other player of the match |
| MatchService.ForfeitOfSelfMatchWinsIt | backend/app/services/match.py:164-165 | for a match naming the same player in both slots, that player forfeiting it becomes its winner and its forfeiter |
| MatchService.StepAdvances | backend/app/services/match.py:116-167 | every accepted start, complete or forfeit moves the match one lifecycle stage forward (or from scheduled straight to finished) and keeps its fixture |
| MatchService.RunAdvances | backend/app/services/match.py:109-171 | over any sequence of requests the match never moves backwards; the number of accepted requests is bounded by the stages it advanced, and its fixture never changes |
| MatchService.AtMostTwoTransitions | backend/app/services/match.py:109-171 | start, complete and forfeit together change a match's status at most twice |
| MatchService.FinishedIsFinal | backend/app/services/match.py:116-167 | a completed, forfeited or cancelled match accepts no start, complete or forfeit request, and its record, winner included, stays as it is |
| MatchService.NeverCancelledByLifecycle | backend/app/services/match.py:116-167 | start, complete and forfeit never produce a cancelled match |
| MatchService.PatchFrame | backend/app/services/match.py:101-103 | a patch keeps the tournament, the first player, the start and completion instants and the forfeiter, and applying it twice equals applying it once |
| MatchService.UpdateBypassesLifecycle | backend/app/services/match.py:101-103 | `update` may write any status: a finished match that start refuses can be patched back to scheduled and then started |
| MatchService.GetAll | backend/app/services/match.py:52-90 | result is the page at `skip` of at most `limit` ids of an enumeration of exactly the matches satisfying every supplied filter (tournament, player in either slot, status, round), ordered by `scheduled_at` ascending with NULLs first; the enumeration is as long as the set of matching matches; each returned match satisfies the filters |
| MatchService.Create | backend/app/services/match.py:17-34 | a new match under the new key is scheduled with no start, completion, winner or forfeiter and carries the given fixture; a reused key is refused with no change |
| MatchService.Update | backend/app/services/match.py:92-107 | unknown id gives none and no change; otherwise the stored match becomes the patched record and no other row changes |
| MatchService.StartMatch | backend/app/services/match.py:109-124 | unknown id gives none; otherwise the result is the record-level start of the stored match; the table changes in that row exactly when start succeeds |
| MatchService.CompleteMatch | backend/app/services/match.py:126-145 | unknown id gives none; otherwise the result is the record-level completion; the table changes in that row exactly when it succeeds |
| MatchService.ForfeitMatch | backend/app/services/match.py:147-171 | unknown id gives none; otherwise the result is the record-level forfeit; the table changes in that row exactly when it succeeds |
| RegistrationService.NewRegistration | backend/app/models/registration.py:43-54 | a new registration names the given player, tournament and notes; it is pending, dated now, unconfirmed, with payment status "pending" and no payment reference |
| RegistrationService.ConfirmRecord | backend/app/services/registration.py:115-121 | confirm succeeds exactly from pending; the result is confirmed with its confirmation date; player, tournament, registration date, notes and payment fields unchanged |
| RegistrationService.CancelRecord | backend/app/services/registration.py:134 | cancel makes any registration cancelled and changes no other field |
| RegistrationService.CancelIsIdempotent | backend/app/services/registration.py:127-138 | cancelling twice equals cancelling once, and a cancelled registration cannot be confirmed |
| RegistrationService.PatchKeepsPair | backend/app/services/registration.py:100-102 | a patch keeps the player, the tournament and both dates, so the patched table still has unique pairs |
| RegistrationService.CountAfterWrite | backend/app/services/registration.py:141-151 | writing one row changes a tournament's confirmed count by the new row's weight minus the old row's |
| RegistrationService.ConfirmAddsOne | backend/app/services/registration.py:115-121 | confirming a pending registration adds one to its own tournament's confirmed count and leaves every other count unchanged |
| RegistrationService.CancelRemovesOne | backend/app/services/registration.py:134 | cancelling a registration lowers the confirmed count by one exactly when the registration was a confirmed one of that tournament |
| RegistrationService.NewRegistrationIsNotCounted | backend/app/services/registration.py:16-29 | a new registration changes no tournament's confirmed count |
| RegistrationService.GetByPlayerAndTournament | backend/app/services/registration.py:47-59 | none exactly when no registration holds the pair; otherwise the id of the only registration of the pair |
| RegistrationService.GetConfirmedCount | backend/app/services/registration.py:141-151 | the number of registrations of the tournament whose status is confirmed |
| RegistrationService.GetByTournament | backend/app/services/registration.py:62-74 | the page at `skip`, of at most `limit` ids, of an enumeration of exactly the tournament's registrations (as long as that set), oldest registration date first |
| RegistrationService.GetByPlayer | backend/app/services/registration.py:77-89 | the page at `skip`, of at most `limit` ids, of an enumeration of exactly the player's registrations (as long as that set), newest registration date first; registration dates non-increasing along the result |
| RegistrationService.Create | backend/app/services/registration.py:16-29 | fails with no change exactly when the key is taken or the pair is already registered; otherwise inserts the new pending registration under the new key; pairs stay unique |
| RegistrationService.Update | backend/app/services/registration.py:92-106 | unknown id gives none and no change; otherwise the row becomes the patched record, nothing else changes, and pairs stay unique |
| RegistrationService.Confirm | backend/app/services/registration.py:109-125 | unknown id gives none; otherwise the result is the record-level confirm; the table changes in that row exactly when it succeeds; pairs stay unique |
| RegistrationService.Cancel | backend/app/services/registration.py:128-138 | unknown id gives none and no change; otherwise the row becomes cancelled and nothing else changes; pairs stay unique |
| TournamentService.PendingRegistrationKeepsAdmission | backend/app/services/tournament.py:181-187 | a new pending registration never changes whether a tournament admits registrations, so pending registrations are not bounded by the places |
| TournamentService.ConfirmingLastPlaceCloses | backend/app/services/tournament.py:181-187 | confirming the registration that fills the last place makes the tournament stop admitting registrations |
| TournamentService.ConfirmIgnoresCapacity | backend/app/services/registration.py:115-121 | confirm never checks the places: a full tournament still gets one more confirmed registration and goes over its maximum |
| TournamentService.CancelledAdmitsNobody | backend/app/services/tournament.py:174-178 | a cancelled tournament admits no registration whatever its configuration |
| TournamentService.PatchCanReopen | backend/app/services/tournament.py:99-101 | a patch keeps the organizer and the creation instant, and a patch to draft makes a cancelled tournament with free places admit registrations again |
| TournamentService.GetAll | backend/app/services/tournament.py:61-88 | the page at `skip`, of at most `limit` ids, of an enumeration of exactly the tournaments satisfying every supplied filter (as long as that set); without `include_private` only public tournaments; creation instants non-increasing along the result |
| TournamentService.Create | backend/app/services/tournament.py:17-44 | a new tournament under the new key carries the given configuration, is a draft, is organized by the caller and is dated now; a reused key is refused with no change |
| TournamentService.Update | backend/app/services/tournament.py:91-105 | unknown id gives none and no change; otherwise the row becomes the patched record (organizer and creation instant kept) and nothing else changes |
| TournamentService.Delete | backend/app/services/tournament.py:108-116 | true exactly when the tournament exists; the row is kept with status cancelled and nothing else changes; deleting a cancelled tournament changes nothing |
| TournamentService.GetRegistrationCount | backend/app/services/tournament.py:152-162 | the number of confirmed registrations of the tournament |
| TournamentService.CanRegister | backend/app/services/tournament.py:165-187 | true exactly when the tournament exists, allows registration, is a draft or open for registration, and has fewer confirmed registrations than places |
| MatchEndpoints.Authorize | backend/app/api/v1/endpoints/matches.py:163-203 | 403 unless the caller organizes the tournament or plays in the match; start passes; complete without a non-empty winner is 400; forfeit without a non-empty player is 400; a non-organizer forfeiting for someone else is 403; any other action is 400; an accepted forfeit is by the caller or ordered by the organizer |
| MatchEndpoints.PlayerActsOnlyForThemselves | backend/app/api/v1/endpoints/matches.py:163-195 | a caller who does not organize the tournament gets a request through only for a match they play in, and a forfeit only on their own behalf |
| MatchEndpoints.UpdateMatchStatus | backend/app/api/v1/endpoints/matches.py:148-211 | unknown match 404; a guard error leaves the table unchanged; a transition the service refuses is 400 with no change; otherwise the match row becomes the result of the service step and nothing else changes |
| MatchEndpoints.CreateMatch | backend/app/api/v1/endpoints/matches.py:18-39 | unknown tournament 404, non-organizer 403, both with no change; on success the caller organizes the tournament and the new scheduled match is inserted |
| MatchEndpoints.UpdateMatch | backend/app/api/v1/endpoints/matches.py:122-145 | unknown match 404; 403 when the tournament is missing or the caller does not organize it; otherwise the patched match is stored |
| TournamentEndpoints.OrganizerGuard | backend/app/api/v1/endpoints/tournaments.py:84-95 | passes exactly for the organizer of an existing tournament; unknown tournament 404; anyone else gets the endpoint's 403 |
| TournamentEndpoints.GetTournament | backend/app/api/v1/endpoints/tournaments.py:53-73 | unknown tournament 404; a private tournament is visible only to its organizer, others get 403; a public one is visible to everyone |
| TournamentEndpoints.UpdateTournament | backend/app/api/v1/endpoints/tournaments.py:76-100 | organizer only (404 / 403 with no change); the organizer's patch is stored |
| TournamentEndpoints.DeleteTournament | backend/app/api/v1/endpoints/tournaments.py:103-130 | organizer only (404 / 403 with no change); the organizer's tournament becomes cancelled and the success message is returned |
| TournamentEndpoints.GetTournamentRegistrations | backend/app/api/v1/endpoints/tournaments.py:190-215 | organizer only (404 / 403); the organizer gets a page of the tournament's registrations, oldest first |
| TournamentEndpoints.RegisterForTournament | backend/app/api/v1/endpoints/tournaments.py:148-187 | unknown tournament 404; not admitting registrations 400; any existing registration of the pair, whatever its status, 400; an admitting tournament, a caller with no registration for it and a fresh key always succeed; a success inserts a pending registration of the caller for the tournament in the path (whatever the body names), and afterwards the caller has exactly one registration for it |

## Left out

- Bracket generation, winner progression and standings have no code in the source, so they are not modelled.
- Set and game records only hold scores and carry no logic.
- Authentication is not modelled: JWT decoding, password hashing and `get_current_active_user` are foreign library calls. The caller's id is a parameter.
- The database engine, sessions, `commit`/`refresh`, `async`/`await` and the application wiring are left out. Each service call is one atomic update of the tables.
- Foreign keys are not enforced, as with SQLite's default. A match or registration may name a tournament or player that does not exist, and the model keeps that possibility.
- `func.now()` and uuid4 are parameters of the operations that use them. Only the timestamps the core reads or sets are modelled: `started_at`, `completed_at`, `registration_date`, `confirmation_date` and the `created_at` of tournaments.
- `updated_at` (`onupdate=func.now()`) is not modelled on any table, and neither is `created_at` of matches and registrations. The source rewrites `updated_at` on every start, complete, forfeit, update, confirm, cancel and delete that changes a row. The "unchanged" and "nothing else changes" clauses of the contracts cover the modelled columns only.
- `TournamentService.search` is left out. It performs SQL `ILIKE` case-insensitive matching, and the model has no case folding.
- The player services and endpoints are left out.
- The pydantic schemas are left out beyond which fields a request may set. Their field validation is framework behaviour.
- An explicit `null` in an update body is not modelled for the nullable columns the model holds as plain values. For tournaments these are `max_participants`, `entry_fee`, `prize_pool`, `best_of_sets`, `tiebreak_games`, `status`, `is_public` and `allow_registration`. For matches they are `status` and `best_of_sets`, and for registrations `status` and `payment_status`. The model therefore does not capture what a stored null does. With a null `max_participants`, `can_register` compares the count with `None`, raises a `TypeError` and the request fails with 500. With a null `is_public`, `get_tournament` treats the tournament as private and `get_all` leaves it out unless private tournaments are included. A null `status` or `allow_registration` makes `can_register` false.
- An explicit `null` for a column that is `nullable=False` is not modelled either. These are `round` of a match, and `name` and `format` of a tournament, which the update schemas declare optional. In the source, `setattr` stores `None`, the commit fails with a NOT NULL integrity error, the request answers 500 and nothing is written. `Field<MatchRound>`, `Field<string>` and `Field<TournamentFormat>` cannot express that body.
- `MatchEndpoints.UpdateMatch`, `MatchService.Update`: promise that the organizer's patch is stored; this holds for every body except one with an explicit `null` `round`, which the source answers with 500 and no change.
- `TournamentEndpoints.UpdateTournament`, `TournamentService.Update`: promise that the organizer's patch is stored; this holds for every body except one with an explicit `null` `name` or `format`, which the source answers with 500 and no change.
- The thin read wrappers are not modelled separately. These are the `get_by_id` of each service, `MatchService.get_by_tournament`, `get_by_player`, `get_upcoming_matches` and `get_live_matches`, and `TournamentService.get_by_organizer`. Each is the model's map lookup, or `MatchService.get_all` or `TournamentService.get_all` with some filters fixed. `RegistrationService.get_by_player` has its own filter and order and is modelled as `RegistrationService.GetByPlayer`.
- Endpoints without a guard of their own are not modelled separately. `create_tournament` forwards to `TournamentService.Create` with the caller as organizer. `get_tournaments` calls the left-out `search` when its `search` parameter is non-empty and `TournamentService.get_all` otherwise. The `my/*` lists and the match list and read endpoints forward to the listings and lookups above.
- `MatchService.GetAll`, `RegistrationService.GetByTournament`, `RegistrationService.GetByPlayer`, `TournamentService.GetAll`: return ids, not rows with their eager-loaded relationships.
- `MatchService.CompleteRecord`: as in the source, the winner of a completed match is not checked to be one of its players.
- `MatchEndpoints.Authorize`: as in the source, an organizer may forfeit a match on behalf of an id that plays in neither slot. That records the forfeiter and leaves the winner unchanged.
