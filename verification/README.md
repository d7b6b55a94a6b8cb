# Chatix backend: verified model

A Dafny model of the parts of the Chatix backend where state, races and arithmetic meet, with proofs of what they
keep.

- **Fight club.** `FightClub.dfy` is the in-memory duel engine as a transition system: one step per stretch of code
  between two awaits, with the suspended code (a join waiting for its room, a fired grace timer waiting for
  `fetchSockets`, a pending settlement) as explicit frames, so that every interleaving is a run.
  `FightClubServices.dfy` has the service and the gateway as the classes they are, each method proved to make exactly
  one step. `FightClubDuel.dfy` reads a duel as a log of swings; `FightClubInvariant.dfy`, `FightClubSteps.dfy` and
  `FightClubRuns.dfy` hold the invariant and what follows for whole runs. `FightClubPlays.dfy` goes the other way:
  every duel that the rules allow is the log of some run. `FightClubWarnings.dfy` says exactly who is warned of a
  bot-like cadence. `FightClubAnswers.dfy` (hits), `FightClubDisconnects.dfy` and `FightClubEvents.dfy` (all else) say
  of every event when each of its outcomes occurs and what it changes, on the fields and the log alone, without the
  functions of the transition system; `FightClubOrigins.dfy` traces every stake to the event that set it.
  `FightPrompt.dfy` is the prompt generator and the cadence detector over the reals.
- **Settlement and backfill.** `Settlement.dfy` is the repository's transaction; `Backfill.dfy` is the script that
  recomputes counters and streaks from the fights table alone, with its loops. It reads by `created_at` what was
  committed in some order: `BackfillOrder.dfy` says exactly when the two agree, `BackfillWindow.dfy` what its one-hour
  test finds.
- **Economy.** `Catalog.dfy`, `Shop.dfy`, `ConsumableItems.dfy`, `Stimulus.dfy` and `Users.dfy` are the services over
  the tables of `Store.dfy`; each `db.transaction` reads a snapshot and commits whole or not at all. `Ledger.dfy` runs
  them all against one database with a log of what the tables forget; `LedgerInvariant.dfy`, `LedgerSteps.dfy` and
  `LedgerRuns.dfy` prove the conservation laws over every run; `LedgerUses.dfy` and `ShopAnswers.dfy` say on the
  tables alone when a use or purchase goes through and what it does. `Boosts.dfy` counts the milliseconds a room is
  lit; `BackwardClock.dfy` shows what a clock that turns back can do. `JointRuns.dfy` runs fight club and economy
  together, with every repository call carried out, or failing, at any later moment.
- **History pages.** `Pagination.dfy` follows `nextCursor` over a table that changes between the requests.
- **Texts.** `IpTag.dfy` expands and canonicalises IPv6 text (section 2.2 of RFC 4291); `IpTagDotted.dfy` does IPv4.
  `ContentFilter.dfy` is the keyword filter, with its patterns as languages rather than as calls to a regex engine;
  `ContentTokens.dfy` and `ContentWords.dfy` say on words what it normalises to and what it finds. `Strings.dfy` has
  split and join, `Durations.dfy` the hour and the day.

Clocks are arbitrary integers in milliseconds, and no step assumes that they move forward. Theorems that need it say
so: `LedgerRuns.BoostTimeIsConserved`, `Boosts.BoostsAddUp`, and those that compare the order of `created_at` with the
order of commits (`BackfillOrder.InOrderIsRead`, `BackfillWindow.WindowMatchesLiveCount`). `randomInt` results and
uuids are parameters. `dafny verify dfyconfig.toml` checks everything.

Four properties that the code seems meant to have fail. That one target never has two active curses of a kind: the
code tests only that a curse has not expired, so a clock that turns back past the later curse's check finds both
active (`BackwardClock.BothStampsActive`); `LedgerRuns.CursesNeverOverlap` says exactly from which readings on at most
one is. That the script finds the live streaks: it goes by `created_at`, they by commits
(`BackwardClock.ScriptTurnsStreakRound`); `LedgerRuns.StreaksMatchTheScript` has the exact condition. That its
one-hour test finds whom the live count found: the test is about three fights stamped within an hour, the count about
all that were committed before and stamped after a reading (`BackfillWindow.CountOverreaches`);
`BackfillWindow.WindowMatchesLiveCount` and `BackfillWindow.LiveCountByHistory` say exactly what each finds, that
whoever the test finds the count found, and that they agree where no fight of the user is stamped before one committed
earlier. And `normalizeIp` takes any text that starts with `::ffff:` for a mapped IPv4 address and cuts those seven
characters off, so such a spelling of an IPv6 address is tagged as another one (`IpTag.MappedExample`,
`IpTag.MappedTagsAnother`). `IpTag.ExpandsUnlessMapped` gives the exact condition.

## Model

| member | source | states |
|---|---|---|
| FightPrompt.Choices | src/fight-club/fight-prompt.ts:8-11 | The keys to choose from are exactly the 26 letters except the previous one: 25 of them, or 26 when there is none. |
| FightPrompt.CreatePrompt | src/fight-club/fight-prompt.ts:10-17 | For every roll of the die the prompt's key is one letter and never the previous prompt's. |
| FightPrompt.SuspicionByDeviation | src/fight-club/fight-prompt.ts:33-35 | Comparing the variance with 15 squared decides what comparing the standard deviation with 15 decides. |
| FightPrompt.CadenceClosedForm | src/fight-club/fight-prompt.ts:26-36 | On the last eleven times, suspicion is ten times the sum of squared intervals minus the squared span being below 22500. |
| FightPrompt.CadenceShiftInvariant | src/fight-club/fight-prompt.ts:26-36 | Shifting all times alike does not change the verdict. |
| FightPrompt.SteadyHandIsSuspicious | src/fight-club/fight-prompt.ts:26-36 | Ten intervals within 30 ms of each other are always flagged (Popoviciu's bound). |
| FightPrompt.SuspiciousMeansSteady | src/fight-club/fight-prompt.ts:26-36 | In a flagged window the squared difference of any two intervals is below 4500. |
| FightClubDuel.OneComboAtATime | src/fight-club/fight-club.service.ts:180-188 | In every legal duel combos are at most 2 and at most one player has one. |
| FightClubDuel.DamageAccount | src/fight-club/fight-club.service.ts:180-189 | Damage is hits plus four per crit, and every crit costs three hits of its own. |
| FightClubDuel.ThirtyDamageTakesFourteenHits | src/fight-club/fight-club.service.ts:180-196 | Thirty damage takes at least fourteen landed hits. |
| FightClubDuel.FewHitsWhileBothStand | src/fight-club/fight-club.service.ts:180-196 | While neither player has taken 30 damage, at most 58 hits have landed. |
| FightClubDuel.LandingsAreSpaced | src/fight-club/fight-club.service.ts:151-162 | Every landed hit is at least 120 ms after the start and after every earlier landed hit of either player, with no assumption on the clock. |
| FightClubDuel.OwnHitsAreSpaced | src/fight-club/fight-club.service.ts:148-150 | The i-th and j-th landed hits of one player are at least 150 times j - i ms apart. |
| FightClubDuel.StunIsServed | src/fight-club/fight-club.service.ts:145-162 | After a miss a player swings again no earlier than 1000 ms later, after a hit no earlier than 150 ms. |
| FightClubDuel.PromptsLandOnce | src/fight-club/fight-club.service.ts:151-190 | A prompt lands at most one hit across both players, and two consecutive landed hits answer different keys. |
| FightClubDuel.KnockoutBounds | src/fight-club/fight-club.service.ts:145-196 | A knockout needs 14 landed hits by the winner, at least 2070 ms from the start, and comes within 59 landed hits. |
| FightClubDuel.KnockoutBoundsAreSharp | src/fight-club/fight-club.service.ts:145-196 | Legal duels meet every bound: one of 14 hits, the last 2070 ms after the start, and one of 59 hits. |
| FightClubPlays.EveryFairDuelHappens | src/fight-club/fight-club.service.ts:124-211 | The converse of EveryDuelIsFair: every duel that keeps the rules, with single-letter keys, up to and including a knockout, is the log of a fight in some run. |
| FightClubPlays.KnockoutsHappen | src/fight-club/fight-club.service.ts:164-209 | Every knockout that keeps the rules is settled as such in some run. |
| FightClubPlays.RunsMeetTheBounds | src/fight-club/fight-club.service.ts:145-209 | Runs settle a knockout after 14 hits and 2070 ms, and one at the 59th hit. |
| FightClubDuel.LandDescribes | src/fight-club/fight-club.service.ts:164-194 | After a landed hit the match is again the one its extended log describes: hp, combos, times, stuns and prompt. |
| FightClubDuel.MissDescribes | src/fight-club/fight-club.service.ts:155-162 | After a miss the match is again the one its extended log describes. |
| FightClubDuel.LandedHitsDrainHp | src/fight-club/fight-club.service.ts:189 | Every landed hit strictly lowers the sum of both hp, which stays at least 0. |
| FightClubDuel.KnockoutIsKnockedOut | src/fight-club/fight-club.service.ts:189-197 | The hit that empties the other player's hp is a knockout in the sense of the log. |
| FightClubRuns.RunKeeps | src/fight-club/fight-club.service.ts:51-353 | The whole invariant holds in every state that any interleaving of steps can reach. |
| FightClubRuns.ExactlyOneOutcome | src/fight-club/fight-club.service.ts:196-257 | In every run each match has no repository call while it is in the lobby or being fought and exactly one in all once it is over or gone; its players hear exactly one verdict, once it is gone. |
| FightClubOrigins.TermsAreKept | src/fight-club/fight-club.service.ts:51-73 | In every run each live match, and each settlement or cancellation ever called for a match, has the stake and the creator that the one event which created the match asked for, and a live match its title. |
| FightClubDisconnects.DisconnectAnswers | src/fight-club/fight-club.service.ts:259-321 | In every run, when a socket disconnects, the first fight in insertion order that seats its user on it gets one call, a rage quit that the user loses to the other player; without such a fight there is no call; each lobby seat on it before that fight is left with a new timer; no other match, timer or frame changes. |
| FightClubDisconnects.OneFirstFight | src/fight-club/fight-club.service.ts:260-284 | There is always exactly one place at which that loop stops. |
| FightClubRuns.SettlementsNameThePlayers | src/fight-club/fight-club.service.ts:213-229 | Every settlement of every run names the match's two distinct players as winner and loser, and a valid stake. |
| FightClubRuns.VerdictsAreSettled | src/fight-club/fight-club.service.ts:213-257 | A game-over is only announced for a winner and loser that the repository was called to settle. |
| JointRuns.OneRowPerMatch | src/fight-club/fight-club.repository.ts:114-140 | With club and economy on one database, every fights row was written for one match and a match adds at most one row, over every joint run. |
| JointRuns.VerdictsMatchTheBooks | src/fight-club/fight-club.service.ts:213-257 | In every joint run, once a match is gone its players have heard of a winner exactly when a row with that winner was committed for it, and of a failed settlement exactly when the settlement was called and left no row; an undecided match has no row. |
| JointRuns.CommitWrites | src/fight-club/fight-club.repository.ts:16-140 | A call that is carried out adds exactly one row, and the row is the call's. |
| FightClubRuns.MatchesMoveForward | src/fight-club/fight-club.service.ts:196-306 | Every step moves every match only from lobby to fighting to over to gone, or from the lobby to gone; a gone id never comes back. |
| FightClubRuns.PendingTimerMeansAway | src/fight-club/fight-club.service.ts:259-321 | A pending grace timer for a live match means a lobby whose player is not joined; a fight has no pending timer. |
| FightClubRuns.OnlyAbandonedLobbiesExpire | src/fight-club/fight-club.service.ts:323-341 | Whatever happens while `fetchSockets` is awaited, the timer removes only a lobby whose player has not joined since the disconnect that started the timer. |
| FightClubEvents.SocketsAnswer | src/fight-club/fight-club.service.ts:330-353 | In every run the awaited `fetchSockets` removes the timer's match if and only if no socket was found, it is still a lobby, and its user still sits on the socket that set the timer; then it leaves its place in order and list, everyone hears of it once, its players of the cancellation, one cancelled row with its players and stake is called for, and nothing else changes; otherwise nothing does. |
| FightClubEvents.TimerAnswers | src/fight-club/fight-club.service.ts:323-330 | In every run a timer that fires is current: its entry goes and the sockets are fetched. |
| FightClubRuns.OneTimerPerSeat | src/fight-club/fight-club.service.ts:308-321 | No player ever has two timers for one match. |
| FightClubRuns.RejoinDisarms | src/fight-club/fight-club.service.ts:89-104 | A successful join leaves no timer for that player and match. |
| FightClubRuns.ReadyLobbiesStart | src/fight-club/fight-club.gateway.ts:92-107 | A lobby with both players in it always has a join in flight that will start it. |
| FightClubRuns.ClientListAgrees | src/fight-club/fight-club.gateway.ts:46-54 | Across any run, a client that took the list at any moment and folds the broadcasts in order holds exactly `listChallenges()`. |
| FightClubRuns.ListedMeansJoinable | src/fight-club/fight-club.service.ts:75-111 | Someone who is not in a match can join it exactly when it is on the list. |
| FightClubEvents.ListIsExact | src/fight-club/fight-club.service.ts:75-79 | In every run the list has exactly the lobbies without a second player, with their creator, title and stake, in insertion order. |
| FightClubEvents.CreateAnswers | src/fight-club/fight-club.service.ts:51-73 | A creation adds one lobby with the requested title and stake and its creator seated, not joined, with 30 hp, at the end of the list, and sends the whole list and then the new challenge; nothing else changes. |
| FightClubEvents.JoinAnswers | src/fight-club/fight-club.service.ts:81-111 | In every run a join succeeds exactly for the players of the match and, while it is a lobby with an empty seat, for anyone; it seats the user on this socket, stops the user's timer, tells everyone if the seat was taken, and shows the match; a refusal says whether the match is missing or full and changes nothing. |
| FightClubEvents.StateShows | src/fight-club/fight-club.service.ts:414-435 | What a player is sent shows the match with that player as `you` and the other, if there is one, as opponent. |
| FightClubEvents.RoomJoinedAnswers | src/fight-club/fight-club.service.ts:287-306 | In every run a returning `client.join` starts the fight exactly if both players are in the lobby, with an empty log and a fresh letter; otherwise nothing changes. |
| FightClubEvents.SettleAnswers | src/fight-club/fight-club.service.ts:213-257 | In every run a settlement that returns is followed by the awards; one that failed is told to the players, and the match leaves order and list. |
| FightClubEvents.AwardsAnswer | src/fight-club/fight-club.service.ts:230-257 | In every run, after the awards, the players are told of the settled winner and loser and the match leaves order and list; nothing else changes. |
| FightClubRuns.EveryDuelIsFair | src/fight-club/fight-club.service.ts:124-211 | The log of every fight in every run is a legal duel. |
| FightClubRuns.FightingMatchesMatchTheirLog | src/fight-club/fight-club.service.ts:145-196 | While fighting both hp are 1 to 30 and equal 30 minus the damage taken, one combo at most and at most 2, and the stored times are the last eleven landed hits. |
| FightClubRuns.SettledKnockoutBounds | src/fight-club/fight-club.service.ts:196-209 | Every knockout ever settled took 14 hits by the winner and 2070 ms and came within 59 landed hits. |
| FightClubRuns.DuelDiscipline | src/fight-club/fight-club.service.ts:145-190 | Of any two swings of a fight in any run: landed ones use different prompts and are 120 ms apart; one player's are 150 ms apart after a hit, 1000 ms after a miss. |
| FightClubAnswers.HitAnswers | src/fight-club/fight-club.service.ts:124-162 | In every reachable state a key press adds a landed hit to the log exactly if its sender sits in the fight on that very socket, is past stun and cooldown, answers the prompt that is up, no sooner than 120 ms, with its letter in either case; a miss exactly if only the time or the letter is wrong; otherwise nothing changes at all. |
| FightClubAnswers.HitLands | src/fight-club/fight-club.service.ts:164-210 | A hit that lands leaves the match of its longer log, with a new prompt of another letter; the answer tells the hp, combos and damage of that log; from thirty damage on the match is over and one call names the player who hit as winner and the other as loser. |
| FightClubAnswers.HitMisses | src/fight-club/fight-club.service.ts:155-162 | A miss leaves the match of its longer log, prompt and calls as they were, and is answered with a stun of 1000 ms. |
| FightClubAnswers.HitReasons | src/fight-club/fight-club.service.ts:130-153 | A refusal gives the reason of the first of the six conditions that fails. |
| FightClubWarnings.WarnedExactly | src/fight-club/fight-club.service.ts:164-178 | In any run a player of a fight has been warned in it exactly if some landed hit of that player made the last eleven times suspicious, and then once. |
| FightClubServices.FightClubService.ListChallenges | src/fight-club/fight-club.service.ts:75-79 | The loop returns the open lobbies in insertion order. |
| FightClubServices.FightClubService.CreateMatch | src/fight-club/fight-club.service.ts:51-73 | A fresh lobby is appended with its creator seated but not joined, and the defaults of an untitled match. |
| FightClubServices.FightClubService.JoinMatch | src/fight-club/fight-club.service.ts:81-111 | Rejoining, taking the second seat and both refusals, with the timer cleared and the removal broadcast, as one step of the transition system. |
| FightClubServices.FightClubService.StartMatch | src/fight-club/fight-club.service.ts:287-306 | The fight starts exactly when the lobby is ready, with its first prompt. |
| FightClubServices.FightClubService.HandleHit | src/fight-club/fight-club.service.ts:124-211 | The guards in order, miss, hit, crit, cadence warning and knockout make exactly the step that the duel theorems are about. |
| FightClubServices.FightClubService.ApplyHit | src/fight-club/fight-club.service.ts:164-194 | The in-place updates of both players yield the hit of the specification, with its damage and crit. |
| FightClubServices.FightClubService.SettleReturned | src/fight-club/fight-club.service.ts:221-256 | What follows the settlement's await: awards next, or the error message and the match gone. |
| FightClubServices.FightClubService.AwardsReturned | src/fight-club/fight-club.service.ts:230-256 | After the awards the game-over is announced and the match is gone. |
| FightClubServices.FightClubService.HandlePlayerDisconnect | src/fight-club/fight-club.service.ts:259-285 | The loop puts lobbies on grace until the first fight of the socket, which it settles as a rage quit and returns. |
| FightClubServices.FightClubService.ScheduleLobbyGrace | src/fight-club/fight-club.service.ts:308-321 | The earlier timer of the key is cleared and a new one armed. |
| FightClubServices.FightClubService.ClearLobbyGrace | src/fight-club/fight-club.service.ts:402-407 | The key's host timer is cleared and its entry removed; nothing else changes. |
| FightClubServices.FightClubService.ExpireLobbyChallenge | src/fight-club/fight-club.service.ts:323-331 | A fired timer whose entry is no longer its own ends there; otherwise the entry goes and the sockets are fetched. |
| FightClubServices.FightClubService.SocketsReturned | src/fight-club/fight-club.service.ts:331-353 | With the sockets known, the lobby is cancelled, broadcast and recorded only if it is still abandoned. |
| FightClubServices.FightClubGateway.HandleConnection | src/fight-club/fight-club.gateway.ts:46-54 | A new client is sent exactly the current list. |
| FightClubServices.FightClubGateway.HandleCreate | src/fight-club/fight-club.gateway.ts:109-127 | Create, then the whole list, then the new challenge, in one step that keeps the invariant. |
| FightClubServices.FightClubGateway.HandleJoin | src/fight-club/fight-club.gateway.ts:92-100 | The join up to its await is one step that keeps the invariant, with the service's result. |
| FightClubServices.FightClubGateway.HandleJoined | src/fight-club/fight-club.gateway.ts:100-107 | After the await the match starts if it is ready then, and the player is sent the state of that moment, or the one from before if the match is gone. |
| FightClubServices.FightClubGateway.HandleHit | src/fight-club/fight-club.gateway.ts:56-90 | A hit is one step that keeps the invariant, with the service's result: a miss stuns its client, a hit is sent to the room, a rejection sends nothing; a knockout sends nothing yet and leaves the handler awaiting the settlement of its winner and loser. |
| FightClubServices.FightClubGateway.ReportKnockOut | src/fight-club/fight-club.gateway.ts:79-86 | When the settlement of a knockout has ended, the room gets the last update and then the game-over with the winner, the loser and the stake that the repository was called with, and the match is gone; or nothing if the settlement failed. |
| FightClubServices.FightClubGateway.HandleDisconnect | src/fight-club/fight-club.gateway.ts:129-134 | A disconnect is one step that keeps the invariant. |
| Settlement.FightClubRepository.Settle | src/fight-club/fight-club.repository.ts:16-124 | Commits or throws exactly as its guards say; a throw changes nothing; the tables are then those of `Settled`; the sums of aura and of debt over all users stay what they were. |
| Settlement.SettledIsZeroSum | src/fight-club/fight-club.repository.ts:44-97 | Between two different users a settlement leaves total aura and total debt unchanged, insured or not. |
| Settlement.FightClubRepository.RecordCancelled | src/fight-club/fight-club.repository.ts:126-140 | One row without winner, or an error and no change when a player does not exist. |
| Settlement.FightClubRepository.CountRecentFights | src/fight-club/fight-club.repository.ts:142-157 | The loop counts a user's fights of the last hour that were not cancelled. |
| Backfill.ScanStreak | scripts/backfill-achievements.ts:75-82 | The scan that stops at the first change of result finds the length of the leading run of wins, or of losses. |
| Backfill.FileFights | scripts/backfill-achievements.ts:63-70 | The buckets hold, for every user, exactly the user's fights in row order. |
| Backfill.Recount | scripts/backfill-achievements.ts:8-89 | On whatever rows the ordered query returns, the four columns of every user become the counts of the fights table and the leading runs of the user's finished fights in those rows. |
| BackfillOrder.MineMultiset | scripts/backfill-achievements.ts:61-74 | In whatever order the query returns ties, a user's part of its rows has exactly the user's finished fights. |
| BackfillOrder.InOrderIsRead | scripts/backfill-achievements.ts:61-74 | If each finished fight of a user is stamped later than the one committed before it, that part is those fights in the order of their commits, last first. |
| BackfillOrder.RunBounds | scripts/backfill-achievements.ts:75-82 | The run the script finds has every fight stamped after the newest one of the other result, and beyond these only some stamped at its very time. |
| BackfillOrder.StreaksAgreeExactly | scripts/backfill-achievements.ts:61-87 | The script finds the live streaks on every rows its query may return if and only if the streak is clear: after the newest fight, by time, of the result that the last commit does not have, the user has exactly as many fights as the streak counts, and none of the other result at its very time. |
| BackfillOrder.RunOnGoodCounters | scripts/backfill-achievements.ts:8-89 | Where the live counters are right, the script changes nothing but the streaks of users whose streak is not clear; where all are clear, nothing. |
| Backfill.FinishedSnoc | src/fight-club/fight-club.repository.ts:98-140 | A new finished fight heads its players' histories in the order of commits and touches no other; a cancelled one touches none. |
| Backfill.SettledKeepsCounters | src/fight-club/fight-club.repository.ts:98-122 | A settlement keeps all four live columns of all users equal to the table's account of them: wins, losses, and the run of one result that ends with the last commit. |
| Backfill.CancelledKeepsCounters | src/fight-club/fight-club.repository.ts:126-140 | A cancelled row keeps them equal to that account, wherever it falls. |
| BackfillWindow.StrideTestFindsThree | scripts/backfill-achievements.ts:107-118 | On a newest-first history the stride-2 test holds exactly when some hour has three of the fights in it, and exactly when some fight and those before it reach three within the hour before it. |
| BackfillWindow.WindowMatchesLiveCount | scripts/backfill-achievements.ts:107-118 | Whatever rows the query returns, the script's test holds exactly when three finished fights of the user are stamped within an hour; then the live count did reach three at some fight of the user, and only then if no fight of the user is stamped before one committed earlier. |
| BackfillWindow.LiveCountByHistory | src/fight-club/fight-club.repository.ts:142-157 | The live count reached three at some fight of the user exactly when, of some finished fight and those committed before it, three are stamped no more than an hour before it. |
| BackfillWindow.CountOverreaches | src/fight-club/fight-club.repository.ts:142-157 | A table on which the live count reaches three and the script's test fails. |
| Catalog.FoundShape | src/shop/catalog.ts:413-415 | What `find` returns has the key asked for; it is permanent exactly for the permanent key shapes, consumable exactly for the seven usable keys and the soap, and names a palette colour where its prefix promises one. |
| Catalog.ItemShape | src/shop/catalog.ts:90-390 | Every item on sale has a key of its kind's shape. |
| Catalog.SoapGrantsPermanents | src/shop/catalog.ts:402-411 | For every roll, every prize is a permanent item of the catalog. |
| Catalog.SoapPoolsAreNotEmpty | src/shop/shop.service.ts:291-301 | No roll meets an empty pool. |
| Catalog.OneSlotPerItem | src/shop/equipment.ts:18-30 | No item fits two slots, and nothing that fits a slot can be used up. |
| Shop.ShopService.Purchase | src/shop/shop.service.ts:129-202 | Refused with the first code that applies and nothing changed; otherwise the tables of `Bought`, the buyer's aura after it, and grant or refund reported exactly for a soap or a dupe. |
| Shop.ShopService.OpenMysterySoap | src/shop/shop.service.ts:204-240 | The purchase is recorded; a permanent already owned refunds half the price, anything else is granted. |
| Shop.ShopService.Equip | src/shop/shop.service.ts:67-113 | Null clears the slot; otherwise the first refusal that applies, or the slot holds the item and nothing else changes. |
| Shop.ShopService.Grant | src/shop/shop.service.ts:258-266 | The upsert leaves one more of the item. |
| ShopAnswers.BuyAnswers | src/shop/shop.service.ts:129-240 | A purchase goes through exactly if the catalog has the item, it is unlocked, not a second copy of something permanent, and affordable; the price is paid and recorded, and the item, or the soap's prize, is one more, or half the price comes back for a prize already owned; otherwise nothing changes. |
| ShopAnswers.BuyRefusals | src/shop/shop.service.ts:146-188 | Each refusal code is given exactly when its condition is the first to fail. |
| ShopAnswers.PrizesByRoll | src/shop/shop.service.ts:291-301 | Rolls below 70 give exactly the sold quotes and titles, below 95 the backgrounds, icons and colours, the others the badge. |
| ShopAnswers.EquipAnswers | src/shop/shop.service.ts:67-110 | A slot is filled exactly with a key of its kind that is free or both sold and owned; clearing always works; nothing else changes. |
| ShopAnswers.ShownAsWorn | src/shop/cosmetics.service.ts:36-50 | What others see of background, title, icon, quote style and badge is what is worn there. |
| Shop.SoapCosts | src/shop/shop.service.ts:43 | The soap is sold for 180, so a dupe refunds 90. |
| ConsumableItems.ConsumablesService.Use | src/shop/consumables.service.ts:67-100 | Refused with the first code that applies and nothing changed, the inventory included; otherwise one item less and the effect of its kind. |
| ConsumableItems.ConsumablesService.ApplyProfileEffect | src/shop/consumables.service.ts:154-211 | A curse is let through only if none of its kind is active on the target at the moment of the check; it is on the target and lasts 24 hours, or one for a renaming. |
| ConsumableItems.ConsumablesService.ActiveEffect | src/shop/consumables.service.ts:186-196 | The scan finds an active effect exactly when there is one. |
| ConsumableItems.ConsumablesService.BoostRoom | src/shop/consumables.service.ts:214-279 | The room's end time moves on from now or from itself, whichever is later. |
| ConsumableItems.ConsumablesService.SpotlightMessage | src/shop/consumables.service.ts:281-349 | Only an author's own living message of a live room is spotlit, for ten minutes. |
| ConsumableItems.ConsumablesService.ArmInsurance | src/shop/consumables.service.ts:351-368 | Insurance is armed only while it is not, for one item. |
| ConsumableItems.ConsumablesService.Consume | src/shop/consumables.service.ts:371-400 | One item less, the row gone with the last; without any, an error. |
| LedgerUses.UseAnswers | src/shop/consumables.service.ts:67-400 | A use is carried out exactly if the user holds the item and the condition of its kind holds: a curse on another existing user, no admin, with no curse of the kind still to expire; a boost or tax on a live room of the user's own; a spotlight on the user's own undeleted message in a live room; insurance not yet armed. It takes one item and has its kind's effect, written out; otherwise nothing changes. |
| LedgerUses.UseRefusals | src/shop/consumables.service.ts:154-389 | Each refusal code is given exactly when its condition is the first to fail. |
| LedgerUses.PatronsAreCreators | src/shop/consumables.service.ts:214-268 | After any run, whoever sponsors a room, and whoever has ever boosted or taxed it, is its creator. |
| Stimulus.StimulusService.Claim | src/economy/stimulus.service.ts:30-77 | Grants exactly when due, reports exactly the aura it adds, and changes nothing when it does not grant. |
| Stimulus.ClaimByDay | src/economy/utc-time.ts:3-11 | In terms of UTC days, a grant is due when the last one lies on an earlier day, and continues the streak when that was yesterday or later. |
| Stimulus.ClaimExtendsStreak | src/economy/stimulus.service.ts:43-68 | At any clock reading: a grant falls on a day later than all before, the stored streak stays the trailing run of granted days, and a reset is reported exactly when a day was missed after an earlier grant. |
| Stimulus.TrailingRunIsMaximal | src/economy/stimulus.service.ts:44 | The trailing run is a block of consecutive days that cannot be extended backwards. |
| Stimulus.StreakPays | src/economy/stimulus.service.ts:12-14 | An n-day streak pays 10n + 5n(n - 1)/2 up to nine days and 270 + 50(n - 9) after. |
| Stimulus.PaidSplitsAtStreak | src/economy/stimulus.service.ts:12-14 | All that was paid is what was paid before the current streak plus that streak's own sum. |
| Users.UsersRepository.IncrementAura | src/users/users.repository.ts:160-173 | One aura and one farm count more, or nothing for an unknown user. |
| Users.UsersRepository.PayDebt | src/users/users.repository.ts:215-238 | A unit of debt is paid exactly when there is some, and the row's numbers are reported. |
| Users.UsersRepository.UpdateModifiers | src/admin/admin.repository.ts:157-190 | An admin's deltas are added to aura and debt. |
| Boosts.BoostsAddUp | src/shop/consumables.service.ts:250-268 | n boosts at non-decreasing times light exactly n times their worth of milliseconds, without a gap from the last use to the end. |
| Boosts.LitMeansLitAt | src/shop/consumables.service.ts:250-268 | The counted instants are those at which some boost made by then has set an end time still to come. |
| LedgerRuns.RunKeeps | src/shop/shop.service.ts:129-274 | The ledger's invariant holds after every run of purchases, uses, fights, claims, payments, corrections and room changes. |
| LedgerRuns.UsablesAreConserved | src/shop/consumables.service.ts:371-400 | Over any run, for every user and usable item: bought = held + successfully used. |
| LedgerRuns.PermanentsAreKept | src/shop/shop.service.ts:165-173 | Over any run a permanent item is held at most once, held = bought + granted by soap, and it is never used up. |
| LedgerRuns.SoapIsOpenedAtOnce | src/shop/shop.service.ts:191-240 | Over any run no soap is ever held, and soaps bought = grants + dupes. |
| LedgerRuns.RowsHoldSomething | src/shop/consumables.service.ts:389-399 | Every inventory row belongs to a user, names a catalog item and holds at least one. |
| LedgerRuns.AuraIsAccountedFor | src/shop/shop.service.ts:175-240 | Over any run, aura = 1000 + farmed + net aura stakes + stimulus paid + admin corrections - (recorded prices - 90 per dupe). |
| LedgerRuns.DebtIsAccountedFor | src/users/users.repository.ts:215-238 | Over any run, debt = admin corrections - net debt stakes - units paid - 100 per forgiveness used. |
| LedgerRuns.FightsMakeNoMoney | src/fight-club/fight-club.repository.ts:44-97 | After any run the net stakes of all users, in aura and in debt, add up to zero, insured fights included. |
| LedgerRuns.NoBuyingOnCredit | src/shop/shop.service.ts:175-188 | Whatever a purchase does, nobody but the buyer is touched, and a buyer whose purchase goes through is left with at least zero aura; a refused purchase changes nothing. |
| LedgerRuns.InsuranceIsAccountedFor | src/shop/consumables.service.ts:351-368 | Over any run, policies used = finished fights entered while armed, plus one if still armed; insured losses never exceed them, nor they the policies bought. |
| LedgerRuns.StreaksMatchTheScript | scripts/backfill-achievements.ts:8-89 | After any run the script's counts are the live ones, and it leaves a user's row as it is on every rows its query may return if and only if the user's streak is clear; it is if the user's finished fights are stamped in the order of their commits. |
| BackwardClock.ScriptTurnsStreakRound | scripts/backfill-achievements.ts:61-87 | A run with a win stamped after a later loss: the live row says one loss in a row, and the script makes it one win. |
| LedgerRuns.StimulusDaysIncrease | src/economy/stimulus.service.ts:30-77 | Over any run granted days strictly increase and the stored streak is the length of the run ending with the last. |
| LedgerRuns.WornIsOwned | src/shop/shop.service.ts:83-110 | Over any run whatever is worn fits its slot, is free or held, and is worn in no other slot. |
| LedgerRuns.ColoursResolve | src/shop/cosmetics.service.ts:30-49 | Over any run a worn accent or name colour always resolves to a colour of the palette, and to its own. |
| LedgerRuns.CursesNeverOverlap | src/shop/consumables.service.ts:186-210 | Over any run, of two curses of one kind on one target the earlier expires no later than the check that lets the later through; against the code's own test, from a clock reading on at most one is active exactly if that reading is not before the first of the two expiries. |
| BackwardClock.BothStampsActive | src/shop/consumables.service.ts:186-210 | A run after which a clock reading before the later check finds both curses active. |
| LedgerRuns.BoostTimeIsConserved | src/shop/consumables.service.ts:250-268 | Over any run a room's end times are those of its own boosts and taxes, and while the clock does not run backwards they light it for exactly one hour each, or one day each. |
| LedgerRuns.FightClubCallsAreFair | src/fight-club/fight-club.service.ts:213-229 | Every repository call that any fight club run makes is an event the ledger allows, and a settlement can only fail for missing users. |
| Pagination.MessagesRepository.FindMany | src/messages/messages.repository.ts:117-133 | The rows are the newest candidates in descending order, as many as the limit allows. |
| Pagination.MessagesRepository.GetRoomHistory | src/messages/messages.repository.ts:106-154 | Limit plus one, slice and reverse yield the page that the ascending listing of the room defines, with the cursor of its oldest message exactly when there is more; an unknown cursor yields an empty page. |
| Pagination.MessagesRepository.DeleteMessage | src/messages/messages.repository.ts:162-178 | The row stays, with its text replaced; its attachments go. |
| Pagination.TextIsGone | src/messages/messages.repository.ts:162-178 | Whatever the text was, the table after the deletion is the same: row, room and place stay, and no other row is touched. |
| Pagination.AscendingLists | src/messages/messages.repository.ts:132 | The listing is strictly ascending by time and id and holds exactly the room's messages. |
| Pagination.OneAscendingList | src/messages/messages.repository.ts:132 | There is only one such listing. |
| Pagination.CursorSees | src/messages/messages.repository.ts:118-131 | However the room has grown, a request with a cursor on a listed message sees exactly what was listed before it. |
| Pagination.PageOfPrefix | src/messages/messages.repository.ts:148-153 | A page is the end of what its request sees, and its cursor is where the next request goes on. |
| Pagination.WalkIsComplete | src/messages/messages.repository.ts:106-154 | Following the cursors to the end takes max(1, ceil(n / limit)) requests, and the pages joined are the room of the first request in order, each message once, under newer messages and soft deletes in between. |
| Pagination.ChangesGrow | src/messages/messages.repository.ts:162-178 | Soft deletes and later messages are changes the walk tolerates. |
| IpTag.TextExpands | src/common/net/ip-tag.ts:6-13 | Every spelling of forms 1 and 2 expands to eight hextets that read as its address's groups. |
| IpTag.ExpandsUnlessMapped | src/common/net/client-ip.ts:10-12 | From the raw text, over every spelling of every address: the hextets are the address's groups exactly when the text does not start with "::ffff:" in any case. |
| IpTag.MappedTagsAnother | src/common/net/client-ip.ts:10-12 | Every spelling with that prefix gets the tag of an address that it does not spell. |
| IpTag.MappedExample | src/common/net/client-ip.ts:10-12 | "::ffff:1" spells 0:0:0:0:0:0:ffff:1 but is read as "1::", and its tag differs from that of the full spelling for every digest. |
| IpTag.TagOfSpelling | src/common/net/ip-tag.ts:4-28 | For every other spelling the tag is a function of the address alone, whatever the case, leading zeros or place of "::", for any digest. |
| IpTag.CanonicalTextTellsAddresses | src/common/net/ip-tag.ts:14-23 | Different addresses have different canonical texts. |
| IpTag.MappedPrefixIsDropped | src/common/net/client-ip.ts:10-12 | What follows a mapped prefix in any case gets the tag it gets alone. |
| IpTagDotted.DottedShowsThree | src/common/net/ip-tag.ts:17-26 | For every IPv4 address in dotted decimals the tag is its first three numbers and three digits of the digest of the whole. |
| IpTagDotted.MappedDottedIsDotted | src/common/net/client-ip.ts:10-12 | Behind a mapped prefix in any case it gets the same tag. |
| ContentFilter.NormalizeIsTidy | src/rooms/room/room-content-filter.ts:20-27 | The result has kept characters only, no leet digits, single spaces and none around. |
| ContentFilter.NormalizeIsIdempotent | src/rooms/room/room-content-filter.ts:20-27 | Normalising twice is normalising once. |
| ContentTokens.NormalizeJoinsWords | src/rooms/room/room-content-filter.ts:20-27 | For every text and case folding the result is the maximal runs of letters, digits and plus signs after case and leet folding, joined by single spaces. |
| ContentFilter.DisguisesAreSeenThrough | src/rooms/room/room-content-filter.ts:9-27 | A tidy text with any of its letters written as their leet digits or signs normalises to the text itself. |
| ContentFilter.TermHasWords | src/rooms/room/room-content-filter.ts:32-35 | Every listed term's pattern is a non-empty list of non-empty words, so no pattern matches everything. |
| ContentFilter.BodyIsSolid | src/rooms/room/room-content-filter.ts:32-35 | What a pattern matches starts and ends inside a word and contains no slash. |
| ContentWords.HitsWholeWords | src/rooms/room/room-content-filter.ts:32-35 | In a part that normalises to a text without plus signs, a listed term is found exactly if its words are some of the text's words, one after another: never inside a longer word. |
| ContentFilter.MatchesInSome | src/rooms/room/room-content-filter.ts:141-149 | A pattern is found in the joined texts exactly when it is found in one of them. |
| ContentFilter.ClassifyIsCompositional | src/rooms/room/room-content-filter.ts:138-156 | The verdict is the first blocked term that some single part contains, else the first mature one, else fine. |
| ContentFilter.SeverityIsWorst | src/rooms/room/room-content-filter.ts:138-156 | The severity is the maximum over the parts classified alone. |
| ContentFilter.MorePartsNeverLower | src/rooms/room/room-content-filter.ts:138-156 | More parts, in any order, never lower the severity. |

## Left out

- Controllers, guards, request validation, socket transport, logging, storage, hashing and serializers. What
  validation lets through is a precondition of the member that relies on it.
- The SQL engine, row locks and column widths: a transaction is atomic. An integer column that overflows makes its
  transaction fail and change nothing, as any thrown error does. `Pagination.MessagesRepository.FindMany` stands for
  one query.
- Matches are values in a map, not shared objects: the aliasing of a match held across an await is modelled by looking
  it up again, which the identity of the map entry justifies while the match is in the map.
- Real time: the ten seconds of the grace period, and a `clearTimeout` too late to stop its timer. A timer may fire at
  any step.
- Claims that the code does not make: that a dropped socket ends all its fights (the disconnect loop returns after the
  first), that every abandoned lobby is cancelled (a second socket of the user drops the timer), that the aura history
  follows every change.
- `fightTitle`, `aura_history`, achievements and system-message texts: written beside what is modelled and read by
  none of it.
- FightClubRuns.VerdictsAreSettled: speaks of the call; that the settlement was committed is
  JointRuns.VerdictsMatchTheBooks.
- JointRuns.VerdictsMatchTheBooks: a settlement returns what became of its transaction; a commit whose acknowledgement
  is lost is not modelled.
- Users.UsersRepository.UpdateModifiers: only aura and debt; the profile, ban and mute fields it also sets touch
  nothing modelled.
- FightPrompt.SuspicionByDeviation: averages and square roots are exact reals, not 64-bit floats.
- FightClubServices.FightClubService.HandleHit: `toUpperCase` beyond ASCII knows only the two letters whose capital is
  ASCII.
- Settlement.FightClubRepository.Settle: `created_at` is the reading handed to it as `now`. In the database it is a
  default, the start of the transaction by the database's clock, so it may disagree with the order of commits even if
  no clock turns back; that disagreement is what `BackfillOrder.StreaksAgreeExactly` is about. It has microseconds, of
  which the one-hour tests see milliseconds; here both order and tests use one integer.
- BackfillWindow.WindowMatchesLiveCount: the live count is taken at the fight's own `created_at`; the code reads its
  clock a moment later, after the commit.
- Backfill.Recount: the achievements that the script grants, and its counts of messages and respects.
- FightClubRuns.OnlyAbandonedLobbiesExpire: rests, as `FightClubRuns.RunKeeps` does, on the assumption that a socket
  whose disconnect was handled sends no create or join any more (`FightClub.Enabled`). The transport is trusted for
  it.
- FightClubServices.FightClubGateway.ReportKnockOut: the handler goes on right after `finishMatch`; its game-over is
  one step with the removal of the match, where the code lets other callbacks come between. The last update is a local
  of the suspended handler and so a parameter.
- Pagination.WalkIsComplete: `createdAt` is one exact ordered value in the table and in the cursor; database
  timestamps have microseconds that a JavaScript date drops.
- IpTag.TagOfSpelling: malformed addresses, and IPv6 addresses that end in dotted decimals, are modelled but not
  characterised, except for the mapped prefix.
- ContentWords.HitsWholeWords: beside a plus sign, which is no letter or digit to the pattern's look-arounds, a term
  is also found inside a word; texts with plus signs are modelled but not characterised.
- LedgerUses.UseAnswers: an empty id in a request counts as missing, as it does in the code.
- Shop.SoapCosts: the other prices and the lists of names are the catalog's data; nothing is proved of them.
- Pagination.TextIsGone: `attachmentUrl`, which a deletion also replaces, is left out.
- ContentFilter.NormalizeIsIdempotent: case folding is a parameter that leaves `[a-z0-9+ ]` alone.
- Warnings, bans, moderation states, widgets, leaderboards and file policies.
