# Team Coup rule engine, modelled in Dafny

This project models `GameState` in `game.py`. `GameState` is the rule engine of a team variant of the card game Coup. Two teams, A and B, seat their players alternately. Each player holds two face-down influence cards drawn from a 15-card deck (three each of Duke, Assassin, Captain, Ambassador and Contessa).

The engine is a single-object state machine. Its phases run from the lobby through action selection, the challenge window, the block window, the loss choice and the Ambassador swap choice, to game over. An illegal move raises `InvalidMove`. The Super Team mode adds "super" abilities that need two copies of a role.

The model has two layers:

- **`Rules`** (`rules.dfy`, over the types of `types.dfy`). It has one pure function per method of `GameState`, on a `State` value that holds every field of the object. Each function returns the new state and an `Outcome`. `InvalidMove` is `Fail(e)`, with one `Error` constructor per message. When the source changes a field and then raises, the model keeps that change: `player_action` clears the old pending state before its later checks.
- **`Game.GameState`** (`game.dfy`). It is a class with the object's fields. Its methods update those fields step by step, as the source does. The loops are kept: seat rotation, the dealing loop, the draw loop of the exchange, and the pairing loop of `start_game`. Each method is proved to leave the object in the state the matching `Rules` function gives: `ensures (Data(), outcome) == Rules.X(old(Data()), ...)`.

What the source promises is then proved as lemmas about the `Rules` functions, one module per area:

- `Turns`: seat rotation and the victory check.
- `Lobby`: joining and start-up.
- `Actions`: `player_action`.
- `Coins`: no balance goes negative, and steals conserve coins.
- `Challenges`, `Blocks`, `Resolution`, `Losses` and `Exchange`: the rest of a turn.
- `Views`: `to_public_view`.

Each shuffle (game.py:135, 218, 854) is modelled as an arbitrary permutation. The `Rules` functions take the shuffled deck as a parameter. The class methods pick one through `Game.Shuffle`, which promises only the multiset, and return it as a ghost out-parameter.

Behaviours of the source that look unintended are reproduced as written and exhibited by lemmas:

- **A victim with no card left.** `_start_loss_choice` returns without changing the phase when the victim holds no card (game.py:653-657). `Losses.SoftLock` shows a game reaching this state:
  1. The one-card target of an assassination bluffs a Contessa block.
  2. The bluff is challenged, so the target loses its last card.
  3. The block fails and the assassination goes through.
  4. The game is left in the loss choice phase with nobody to choose.

  `Losses.Stuck` shows that every operation is refused there.
- **Repeated keep indices.** `finish_exchange` counts the kept indices with repetitions but builds the hand from the set of distinct indices. `Exchange.RepeatedKeepLosesCard` shows a player with two cards and a pool of four keeping `[0, 0]` and leaving with one card; `Exchange.FinishConserves` shows the lost card goes back to the deck.
- **The two-Contessa block of a coup.** `block_coup` checks only that the target holds two cards. `Blocks.BlockCoupWithoutContessa` shows a Duke and a Captain being accepted for it; the claim is looked at only if someone challenges it.
- **Super coup.** A super coup skips the block window (`Blocks.SuperCoupUnblockable`).
- **The first pass resolves the action.** The first `player_no_block`, or the first `player_no_challenge`, settles its window whoever sends it (`Blocks.NoBlockSpec`, `Challenges.NoChallengeSpec`).
- **Tax and steal after a win.** Tax and steal run the victory check and then set the phase to action selection. A winner named there would not end the game (`Resolution.SettleKeepsPlaying`, `Resolution.ResolveTaxSpec`, `Resolution.ResolveStealSpec`).

## Model

| member | source | states |
|---|---|---|
| Game.GameState.constructor | game.py:60-91 | a new game in the lobby with no players, an empty deck and nothing pending |
| Game.GameState.AddPlayer | game.py:97-108 | the object ends in the state `Rules.AddPlayer` gives, and returns its result (its rules: `Lobby.AddPlayerSpec`) |
| Game.GameState.StartGame | game.py:110-148 | the deck is shuffled to some permutation of the 15-card deck, and the object ends as `Rules.StartGame` gives for that shuffle |
| Game.GameState.SeatPlayers | game.py:121-130 | the pairing loop sets the turn order to A1, B1, A2, B2, ... and the turn index to 0 |
| Game.GameState.DealCards | game.py:138-142 | the dealing loop gives each seat, in turn order, the last two cards of the deck and 0 coins, and the deck loses those cards |
| Game.GameState.DrawCard | game.py:154-157 | returns the last card of the deck and removes it |
| Game.GameState.CheckVictory | game.py:174-186 | the object ends as `Rules.CheckVictory` gives (its meaning: `Turns.CheckVictorySpec`) |
| Game.GameState.AdvanceTurn | game.py:188-197 | the rotation loop ends in the state `Rules.AdvanceTurn` gives (its meaning: `Turns.AdvanceTurnSpec`) |
| Game.GameState.ReplaceClaimCard | game.py:203-220 | the deck with the shown card put back is shuffled to a permutation of itself, and the card drawn off it replaces the shown one |
| Game.GameState.PlayerAction | game.py:230-434 | the object ends as `Rules.PlayerAction` gives, with the same outcome |
| Game.GameState.PlayerChallenge | game.py:440-502 | the object ends as `Rules.PlayerChallenge` gives; a reshuffle happens only for a truthful claim |
| Game.GameState.PlayerNoChallenge | game.py:504-523 | the object ends as `Rules.PlayerNoChallenge` gives |
| Game.GameState.PlayerBlock | game.py:529-607 | the object ends as `Rules.PlayerBlock` gives |
| Game.GameState.PlayerNoBlock | game.py:609-615 | the object ends as `Rules.PlayerNoBlock` gives |
| Game.GameState.BlockStands | game.py:617-632 | the object ends as `Rules.BlockStands` gives |
| Game.GameState.BlockFails | game.py:634-643 | the object ends as `Rules.BlockFails` gives |
| Game.GameState.StartLossChoice | game.py:649-662 | the object ends as `Rules.StartLossChoice` gives |
| Game.GameState.ChooseLossCard | game.py:664-711 | the object ends as `Rules.ChooseLossCard` gives |
| Game.GameState.ResolvePendingAction | game.py:713-811 | the object ends as `Rules.ResolvePendingAction` gives |
| Game.GameState.StartExchange | game.py:817-828 | the draw loop ends in the state `Rules.StartExchange` gives |
| Game.GameState.FinishExchange | game.py:831-861 | the returned cards join the deck, which is shuffled to a permutation of the old deck plus the returned cards; the object ends as `Rules.FinishExchange` gives |
| Game.Shuffle | game.py:854 | the shuffled list holds the same cards, as a multiset |
| Turns.AdvanceTurnSpec | game.py:188-197 | a no-op in game over; otherwise only the turn index changes, it stays in `[0, len(turn_order))`, and it lands on the first later seat, going round, whose player holds a card, or back on the current seat when nobody holds one |
| Turns.CheckVictorySpec | game.py:174-186 | the game ends with team A (or B) as winner exactly when only that team has a player holding a card; otherwise nothing changes |
| Turns.AliveListNonEmpty | game.py:171-172 | the list of a team's players holding cards is non-empty exactly when such a player exists |
| Lobby.InitialRoster | game.py:60-91 | a new game's bookkeeping holds: no players, empty team lists |
| Lobby.AddPlayerSpec | game.py:97-108 | joining succeeds exactly in the lobby with team "A" or "B"; a refusal changes nothing; the new player is p(n+1), with 0 coins and no cards, at the end of its team's list |
| Lobby.AddPlayerRoster | game.py:103-106 | joining keeps the ids dense and each team list in joining order on its own team; the new id was free |
| Lobby.StartGameOutcome | game.py:110-119 | start succeeds exactly in the lobby with 4 or 6 players and equal teams; a refusal changes nothing |
| Lobby.StartGameSeats | game.py:121-144 | after start the turn order seats every player exactly once, alternating A, B, A, B, ...; seat 0 plays; phase action selection |
| Lobby.StartGameHands | game.py:137-142 | after start every player holds exactly 2 cards, dealt off the end of the shuffled deck in seat order, and 0 coins |
| Lobby.StartGameDeck | game.py:132-140 | after start the deck is the undealt rest of the shuffled deck, and dealt plus undealt cards are the whole deck |
| Actions.PlayerActionLegal | game.py:230-405 | `player_action` accepts a move exactly when every rule holds: right phase and player, the actor has influence, two cards for a super ability other than super coup, a coup at 10+ (normal) or 11+ (super) coins, a target that exists and is an enemy with cards, a known action, super abilities only in Super Team mode, a target where needed, and enough coins (coup 7, super coup 12, assassinate 3) |
| Actions.SuperPrefix | game.py:240-245 | for a known action, the "super_" prefix test picks out exactly the super abilities |
| Actions.CoupNames | game.py:250-254 | the string tests of the forced-coup rule agree with the parsed action |
| Actions.PlayerActionSteps | game.py:231-275 | a failed early check changes nothing; once the early checks pass, the old pending state is cleared before anything else |
| Actions.RefusalState | game.py:268-275 | a refused move leaves the state unchanged, except that a move refused after the early checks has already cleared the old pending state |
| Actions.IncomeEffect | game.py:277-283 | income gives exactly one coin, leaves nothing pending and ends in action selection or game over |
| Actions.SuperCoupEffect | game.py:323-338 | a super coup costs 12, leaves nothing pending, and puts its target straight into the loss choice, with the turn to pass afterwards |
| Actions.AnnounceEffect | game.py:285-417 | any other accepted move pays its cost and records its claim; a role action opens the challenge window, foreign aid and coup the block window |
| Actions.ClaimTable | game.py:341-384 | the role-action table: which actions need a target, and that only the assassinations cost 3 |
| Actions.SuperLabels | game.py:938-961 | the label of each super ability is "Super " followed by the label of its plain version |
| Actions.LabelsDistinct | game.py:938-961 | the known actions have pairwise different labels |
| Actions.LabelFallback | game.py:960-961 | an action without an entry in the label table is its own label |
| Actions.ActionNameRoundTrip | game.py:386-387 | every action name the engine tests reads back as the same action |
| Coins.StealMoves | game.py:772-775 | the steal step with a given amount takes `min(amount, target coins)` from a target with coins and gives it to the actor; nobody else's coins change |
| Coins.StealConserves | game.py:772-775 | a steal leaves the sum of the actor's and the target's coins unchanged |
| Coins.PlayerActionSolvent | game.py:300-417 | no move makes a balance negative, since each cost is taken only after a balance check |
| Coins.ResolvePendingActionSolvent | game.py:713-811 | resolving any action keeps every balance non-negative |
| Coins.PlayerChallengeSolvent | game.py:440-502 | a challenge keeps every balance non-negative |
| Coins.PlayerNoChallengeSolvent | game.py:504-523 | passing on a challenge keeps every balance non-negative |
| Coins.PlayerBlockSolvent | game.py:529-607 | a block keeps every balance non-negative |
| Coins.PlayerNoBlockSolvent | game.py:609-615 | passing on a block keeps every balance non-negative |
| Coins.BlockStandsSolvent | game.py:617-632 | a standing block keeps every balance non-negative |
| Coins.BlockFailsSolvent | game.py:634-643 | a failed block keeps every balance non-negative |
| Coins.ChooseLossCardSolvent | game.py:664-711 | losing a card, and everything that follows it, keeps every balance non-negative |
| Coins.FinishExchangeSolvent | game.py:831-861 | finishing an exchange keeps every balance non-negative |
| Coins.AddPlayerSolvent | game.py:97-108 | a player joins with no debt |
| Coins.DealSolvent | game.py:138-142 | the dealing loop leaves every balance non-negative |
| Coins.StartGameSolvent | game.py:110-148 | after start every balance is non-negative |
| Challenges.TruthfulCount | game.py:457-460 | a claim is truthful exactly when the claimant holds at least 2 copies of the role (for a claim of two) or 1 |
| Challenges.ChallengeAccepted | game.py:440-485 | a challenge is accepted exactly in the challenge window, against a pending claim of a role, by a player of the other team; a refusal changes nothing |
| Challenges.ReplaceConserves | game.py:203-220 | a truthful claimant's shown card is replaced in place by the card drawn off the reshuffled deck; hand plus deck hold the same cards as before |
| Challenges.TruthfulClaim | game.py:460-466 | after a truthful claim only the claimant's hand changes, keeping its size; the pending claim stays; a challenger holding a card must choose one to lose, after which the block stands or the action goes through |
| Challenges.LyingClaim | game.py:467-502 | after a false claim no card moves, and a claimant holding a card must choose one to lose, after which the block fails or the action is cancelled |
| Challenges.NoChallengeSpec | game.py:504-515 | passing is refused outside the challenge window or with nothing pending (changing nothing), and does not depend on who passes |
| Challenges.NoChallengeOpensBlocks | game.py:517-520 | an unchallenged steal or assassination moves on to the block window and nothing else changes |
| Blocks.BlockClaimSpec | game.py:546-587 | the per-type block checks accept exactly: Duke against another team's foreign aid; Captain or Ambassador by the target of a steal; Contessa by the target of an assassination; the two-Contessa block by a target with 2+ cards of a coup in Super Team mode; each claims its role |
| Blocks.PlayerBlockSpec | game.py:529-595 | a block is accepted exactly in the block window, with an action pending, no block yet, a known type and the per-type rule met; a refusal changes nothing; an accepted block records blocker, type and claim and reopens the challenge window |
| Blocks.BlockCoupCountsCards | game.py:574-584 | the coup block looks only at the number of cards the target holds, not at which cards |
| Blocks.BlockCoupWithoutContessa | game.py:581-584 | a target holding a Duke and a Captain may declare the two-Contessa block, a claim that is false |
| Blocks.NoBlockSpec | game.py:609-615 | passing is refused outside the block window or with nothing pending; otherwise the first pass, by anyone, resolves the action |
| Blocks.SuperCoupUnblockable | game.py:332-337 | right after a super coup every block is refused for being outside the block window |
| Blocks.BlockStandsSpec | game.py:617-632 | a standing block cancels the action, moves no card or coin, and ends the game exactly when just one team still has a player holding a card |
| Resolution.ResolveForeignAidSpec | game.py:722-730 | foreign aid that goes through pays 2 coins and ends the game exactly when just one team still has a player holding a card |
| Resolution.ResolveStealSpec | game.py:755-781 | a pending steal that goes through takes 2 coins, a super steal 3, or all the target has if fewer, and gives them to the actor; a target without coins or a missing target loses nothing; nothing stays pending and the phase is action selection, the winner of the victory check kept |
| Resolution.StealSettles | game.py:762-781 | the steal step moves `min(amount, target coins)` from a target with coins to the actor and changes no other hand, coin or card; the phase goes back to action selection with the victory check's winner kept |
| Resolution.ResolveTaxSpec | game.py:744-753 | tax pays 3 coins, super tax 5, and the phase then is action selection even when a winner is named |
| Resolution.SettleKeepsPlaying | game.py:749-752 | the victory check followed by the phase reset leaves action selection even after naming a winner |
| Resolution.ResolveLoss | game.py:732-806 | a coup or assassination that goes through makes its target, if holding a card, choose a card to lose, with the turn to pass afterwards; a refundable super assassination refunds its cost first |
| Resolution.SuperAssassinRefund | game.py:799-800 | a super assassination that goes through gives back its 3 coins |
| Exchange.StartExchangeSpec | game.py:817-828 | the pool is the actor's hand followed by up to 2 (or 3) cards taken off the end of the deck; nobody's hand changes; pool plus deck hold the hand plus the old deck |
| Exchange.DrawConserves | game.py:819-823 | the draw loop moves cards from the deck to the drawn list without making or losing any |
| Exchange.FinishExchangeChecks | game.py:831-846 | finishing is accepted exactly in the swap choice, by the exchanging player, with as many indices as cards in hand, each inside the pool; a refusal changes nothing |
| Exchange.FinishExchangeSpec | game.py:848-861 | the actor's hand becomes the kept cards of the pool, every other hand stays, the deck is the shuffled deck, the exchange is cleared, and the phase is action selection or game over |
| Exchange.SelectSorted | game.py:848-849 | the kept cards are the pool read along any strictly increasing list of exactly the kept indices, that is at `sorted(keep_set)` |
| Exchange.FinishExchangeHand | game.py:848-852 | after an accepted finish the actor's hand is the pool at the distinct kept indices in increasing order, whatever the order and repetitions of the keep list |
| Exchange.SelectPartition | game.py:848-850 | the kept and returned cards together are the pool, as a multiset |
| Exchange.DistinctKeep | game.py:848-850 | with distinct indices the new hand is as large as the old one, and hand plus returned cards are the pool |
| Exchange.FinishConserves | game.py:848-854 | for every accepted keep list, repeated indices included, the new hand and the new deck together hold exactly the pool and the old deck: a repeated index costs the hand a card but not the game |
| Exchange.RepeatedKeepLosesCard | game.py:842-849 | keeping index 0 twice from a hand of two and a pool of four is accepted and leaves one card, returning the three others |
| Losses.StartLossChoiceSpec | game.py:649-662 | a victim holding a card becomes the one to choose, in the loss choice phase; a victim holding none leaves the phase and the chooser as they were |
| Losses.ChooseLossChecks | game.py:664-671 | choosing is accepted exactly in the loss choice, by the player who must choose, with an index inside the hand; a refusal changes nothing |
| Losses.LoseCardSpec | game.py:673-680 | exactly the card at the index leaves the hand (the rest keeping their order), the same card joins the revealed cards, and the player is out when the hand is empty |
| Losses.ChooseLossCardSpec | game.py:664-686 | after a loss every hand stays as the loss left it and the lost card is on the revealed pile; the game is over, with the winner named, exactly when after the loss just one team has a player holding a card |
| Losses.AfterLossKeeps | game.py:688-711 | whatever follows a loss changes no hand and no revealed card, and names no winner |
| Losses.ResolveKeeps | game.py:713-811 | resolving an action changes no hand and no revealed card, and names no winner that was not already decided |
| Losses.BlockStandsKeeps | game.py:617-632 | a standing block changes no hand |
| Losses.BlockFailsKeeps | game.py:634-643 | a failed block changes no hand |
| Losses.Stuck | game.py:653-657 | in the loss choice with nobody to choose, every operation is refused and changes nothing |
| Losses.SoftLock | game.py:653-657 | an assassination target with one non-Contessa card who bluffs a Contessa block and is challenged ends up in the loss choice with nobody to choose |
| Views.ViewPrivacy | game.py:867-910 | cards are shown only to whoever may see them: each hand to its holder, the pool to the exchanging player while choosing, the hand to lose from to the player choosing |
| Views.ViewPlayers | game.py:868-878 | each player's id, name, team, coins and card count are shown as they are, and "alive" exactly when a card is left |
| Views.ViewHidesCards | game.py:867-932 | a viewer cannot tell apart two states that differ only in other players' cards (same counts), the deck order and contents (same size), and another player's exchange pool (same size) |
| Views.PoolSizeCountsDraw | game.py:899-904 | right after an exchange starts, the pool size shown is the number of cards drawn |
| Views.ViewTurnAndClaims | game.py:880-919 | the current player is shown once the game has started and until it is over; the pending action and block are shown by names that read back as them |

## Left out

- The log (`logs` and `_log` throughout): its messages carry no rule, so the model has no log field.
- The HTTP layer, tokens and game registry of `server.py`: server.py is not part of this model.
- The concrete order `random.shuffle` produces: each shuffle is any permutation of its input.
- Player ids: "p<k>" is the number k. That makes `sorted(team)` in `start_game` the team list in joining order, which the lobby's bookkeeping (`Lobby.Roster`) keeps increasing.
- `to_public_view`'s game id is a parameter and its `logs` entry is absent. The view's mode and phase are the model's enumerations rather than their strings.
- Errors the source raises only for states its callers never produce: "Deck is empty" (`_draw_card`), "Invalid loss-choice player" (`_start_loss_choice`), and a player record missing from `players` (a KeyError). These become preconditions that every id the state refers to names a player (`Rules.Refs`) and that the deck suffices.
- `to_public_view` is modelled as the function `Views.ToPublicView` of the class's state (`Game.GameState.Data`), not as a member of the class.

