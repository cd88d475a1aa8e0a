/** Vocabulary of the Team Coup rule engine: roles, teams, phases, actions, blocks,
    the records the engine keeps pending, the errors it raises, and the whole
    engine state as one value. */
module CoupTypes {

  datatype Option<T> = None | Some(value: T)

  datatype Result<T> = Ok(value: T) | Err(error: Error)

  /** The outcome of an operation that returns nothing: it passes or raises `InvalidMove`. */
  datatype Outcome = Pass | Fail(error: Error)

  /** A player id is the string "p<k>"; the model keeps the number k. */
  type PlayerId = nat

  datatype Role = Duke | Assassin | Captain | Ambassador | Contessa

  datatype Team = A | B

  /** "normal_team" or "super_team". */
  datatype Mode = NormalTeam | SuperTeam

  datatype Phase =
    | Lobby
    | ActionSelection
    | ChallengeWindow
    | BlockWindow
    | SwapChoice
    | LossChoice
    | GameOver

  /** The actions a player may name; any other string is kept as `Unknown`. */
  datatype Action =
    | Income
    | ForeignAid
    | Coup
    | SuperCoup
    | Tax
    | SuperTax
    | Steal
    | SuperSteal
    | Exchange
    | SuperExchange
    | Assassinate
    | SuperAssassinate
    | Unknown(name: string)

  function ActionName(a: Action): string {
    match a
    case Income => "income"
    case ForeignAid => "foreign_aid"
    case Coup => "coup"
    case SuperCoup => "super_coup"
    case Tax => "tax"
    case SuperTax => "super_tax"
    case Steal => "steal"
    case SuperSteal => "super_steal"
    case Exchange => "exchange"
    case SuperExchange => "super_exchange"
    case Assassinate => "assassinate"
    case SuperAssassinate => "super_assassinate"
    case Unknown(name) => name
  }

  /** The string comparisons of `player_action`: a known name, or anything else. */
  function ParseAction(s: string): (a: Action)
    ensures ActionName(a) == s
  {
    if s == "income" then Income
    else if s == "foreign_aid" then ForeignAid
    else if s == "coup" then Coup
    else if s == "super_coup" then SuperCoup
    else if s == "tax" then Tax
    else if s == "super_tax" then SuperTax
    else if s == "steal" then Steal
    else if s == "super_steal" then SuperSteal
    else if s == "exchange" then Exchange
    else if s == "super_exchange" then SuperExchange
    else if s == "assassinate" then Assassinate
    else if s == "super_assassinate" then SuperAssassinate
    else Unknown(s)
  }

  /** An action value that a string can denote: `Unknown` never carries a known name. */
  predicate Canonical(a: Action) {
    a.Unknown? ==> ParseAction(a.name).Unknown?
  }

  /** `action.startswith("super_")`. */
  predicate StartsWithSuper(s: string) {
    |s| >= 6 && s[..6] == "super_"
  }

  /** `_human_action`: the label the engine's messages use for an action. */
  function HumanAction(a: Action): string {
    match a
    case Tax => "Duke"
    case SuperTax => "Super Duke"
    case Exchange => "Ambassador"
    case SuperExchange => "Super Ambassador"
    case Steal => "Captain steal"
    case SuperSteal => "Super Captain steal"
    case Assassinate => "Assassin"
    case SuperAssassinate => "Super Assassin"
    case ForeignAid => "Foreign Aid"
    case Coup => "Coup"
    case SuperCoup => "Super Coup"
    case Income => "income"
    case Unknown(name) => name
  }

  /** The claim a role-based action makes (the `ROLE_ACTIONS` table). */
  datatype Claim = Claim(role: Role, two: bool, needsTarget: bool, cost: nat, refundable: bool)

  function ClaimOf(a: Action): Option<Claim> {
    match a
    case Tax => Some(Claim(Duke, false, false, 0, false))
    case SuperTax => Some(Claim(Duke, true, false, 0, false))
    case Steal => Some(Claim(Captain, false, true, 0, false))
    case SuperSteal => Some(Claim(Captain, true, true, 0, false))
    case Exchange => Some(Claim(Ambassador, false, false, 0, false))
    case SuperExchange => Some(Claim(Ambassador, true, false, 0, false))
    case Assassinate => Some(Claim(Assassin, false, true, 3, false))
    case SuperAssassinate => Some(Claim(Assassin, true, true, 3, true))
    case _ => None
  }

  /** `_is_blockable_action`: the actions that pass a challenge window before a block window. */
  predicate IsBlockable(a: Action) {
    a == Steal || a == SuperSteal || a == Assassinate || a == SuperAssassinate
  }

  datatype BlockKind =
    | BlockForeignAid
    | BlockStealCaptain
    | BlockStealAmbassador
    | BlockAssassinate
    | BlockCoup

  function BlockName(k: BlockKind): string {
    match k
    case BlockForeignAid => "block_foreign_aid"
    case BlockStealCaptain => "block_steal_captain"
    case BlockStealAmbassador => "block_steal_ambassador"
    case BlockAssassinate => "block_assassinate"
    case BlockCoup => "block_coup"
  }

  function ParseBlock(s: string): (k: Option<BlockKind>)
    ensures k.Some? ==> BlockName(k.value) == s
  {
    if s == "block_foreign_aid" then Some(BlockForeignAid)
    else if s == "block_steal_captain" then Some(BlockStealCaptain)
    else if s == "block_steal_ambassador" then Some(BlockStealAmbassador)
    else if s == "block_assassinate" then Some(BlockAssassinate)
    else if s == "block_coup" then Some(BlockCoup)
    else None
  }

  function ParseTeam(s: string): (t: Option<Team>)
    ensures t == Some(A) <==> s == "A"
    ensures t == Some(B) <==> s == "B"
  {
    if s == "A" then Some(A) else if s == "B" then Some(B) else None
  }

  /** The deck at game start: three of each role, in the order `roles * 3` lists them. */
  function FullDeck(): seq<Role> {
    var roles := [Duke, Assassin, Captain, Ambassador, Contessa];
    roles + roles + roles
  }

  /** The messages with which `InvalidMove` is raised. */
  datatype Error =
    | CannotJoinAfterStart
    | InvalidTeam
    | GameAlreadyStarted
    | NeedFourOrSixPlayers
    | UnequalTeams
    | CannotActNow
    | NotYourTurn
    | NoInfluence
    | NeedTwoCopies
    | MustCoup(threshold: nat)
    | InvalidTarget
    | CannotTargetTeammate
    | TargetHasNoInfluence
    | CoupNeedsTarget
    | NotEnoughCoinsForCoup
    | SuperCoupOnlyInSuperMode
    | SuperCoupNeedsTarget
    | NotEnoughCoinsForSuperCoup
    | UnknownAction(name: string)
    | SuperOnlyInSuperMode
    | ActionNeedsTarget
    | NotEnoughCoins
    | NoActionToChallenge
    | CannotChallengeTeammateBlock
    | BlockNotChallengeable
    | NoPendingAction
    | CannotChallengeTeammate
    | ActionNotChallengeable
    | NotInChallengeWindow
    | NotInBlockWindow
    | NoPendingActionToBlock
    | BlockAlreadyDeclared
    | CannotBlockWithDuke
    | CannotBlockTeammateForeignAid
    | CannotBlockAsCaptainOrAmbassador
    | OnlyTargetBlocksSteal
    | CannotBlockAsContessa
    | OnlyTargetBlocksAssassinate
    | OnlyCoupsBlockedBySuperContessa
    | SuperContessaOnlyInSuperMode
    | OnlyTargetBlocksCoup
    | NeedTwoContessas
    | UnknownBlockType
    | NoPendingActionToResolve
    | NotChoosingLoss
    | NotTheLossChooser
    | InvalidCardIndex
    | NotInExchange
    | NotExchanging
    | NoExchangeCards
    | MustKeepExactlyNumCards
    | InvalidKeepIndex

  datatype Player = Player(name: string, team: Team, coins: int, cards: seq<Role>, alive: bool)

  datatype PendingAction = PendingAction(
    actor: PlayerId,
    action: Action,
    target: Option<PlayerId>,
    role: Option<Role>,
    two: bool,
    cost: int,
    refundable: bool)

  datatype PendingBlock = PendingBlock(blocker: PlayerId, kind: BlockKind, role: Option<Role>, two: bool)

  /** What `choose_loss_card` does once the card is gone (`_post_loss_action`). */
  datatype PostLoss = ResolveAfterLoss | CancelAfterLoss | BlockStandsAfterLoss | BlockFailsAfterLoss | NextTurnAfterLoss

  /** Every field of a `GameState` except its id and its log. */
  datatype State = State(
    mode: Mode,
    phase: Phase,
    players: map<PlayerId, Player>,
    turnOrder: seq<PlayerId>,
    current: int,
    teamA: seq<PlayerId>,
    teamB: seq<PlayerId>,
    deck: seq<Role>,
    revealed: seq<Role>,
    winner: Option<Team>,
    pendingAction: Option<PendingAction>,
    pendingBlock: Option<PendingBlock>,
    exchangeActor: Option<PlayerId>,
    exchangeCards: Option<seq<Role>>,
    lossChooser: Option<PlayerId>,
    postLoss: Option<PostLoss>,
    nextTurnAfterLoss: bool)
}
