/** `to_public_view`: what one viewer is shown of the game. Every player's
    coins and card count are public; cards are shown only to their holder,
    the exchange pool only to the exchanging player while choosing, and the
    hand to lose from only to the player choosing. The log is not modelled. */
module Views {
  import opened CoupTypes
  import opened Rules

  datatype PlayerView = PlayerView(
    id: PlayerId,
    name: string,
    team: Team,
    coins: int,
    alive: bool,
    numCards: nat,
    cards: Option<seq<Role>>)

  datatype ActionView = ActionView(actor: PlayerId, action: string, target: Option<PlayerId>)

  datatype BlockView = BlockView(blocker: PlayerId, blockType: string)

  datatype PublicView = PublicView(
    gameId: string,
    mode: Mode,
    phase: Phase,
    you: PlayerId,
    currentPlayer: Option<PlayerId>,
    turnOrder: seq<PlayerId>,
    players: map<PlayerId, PlayerView>,
    winner: Option<Team>,
    pendingAction: Option<ActionView>,
    pendingBlock: Option<BlockView>,
    exchangePoolSize: nat,
    exchangeCards: Option<seq<Role>>,
    lossChooser: Option<PlayerId>,
    lossChoiceCards: Option<seq<Role>>,
    deckSize: nat,
    revealed: seq<Role>)

  /** One player as `viewer` sees them: "alive" is read off the card count. */
  function ViewPlayer(pid: PlayerId, p: Player, viewer: PlayerId): PlayerView {
    PlayerView(pid, p.name, p.team, p.coins, |p.cards| > 0, |p.cards|,
               if pid == viewer then Some(p.cards) else None)
  }

  /** The number of cards the exchange drew: the pool less the hand, never
      below zero, and zero with no exchange under way. */
  function PoolSize(s: State): nat
    requires Refs(s)
  {
    if s.exchangeCards.Some? && s.exchangeActor.Some? then
      var extra := |s.exchangeCards.value| - |s.players[s.exchangeActor.value].cards|;
      if extra < 0 then 0 else extra
    else 0
  }

  function ToPublicView(s: State, gameId: string, viewer: PlayerId): PublicView
    requires Refs(s)
  {
    PublicView(
      gameId, s.mode, s.phase, viewer,
      if s.phase == Lobby || s.phase == GameOver then None else Some(s.turnOrder[s.current]),
      s.turnOrder,
      map pid | pid in s.players :: ViewPlayer(pid, s.players[pid], viewer),
      s.winner,
      match s.pendingAction
      case None => None
      case Some(pa) => Some(ActionView(pa.actor, ActionName(pa.action), pa.target)),
      match s.pendingBlock
      case None => None
      case Some(pb) => Some(BlockView(pb.blocker, BlockName(pb.kind))),
      PoolSize(s),
      if s.exchangeCards.Some? && s.exchangeActor == Some(viewer) && s.phase == SwapChoice
      then s.exchangeCards else None,
      s.lossChooser,
      if s.phase == LossChoice && s.lossChooser == Some(viewer) then Some(s.players[viewer].cards) else None,
      |s.deck|,
      s.revealed)
  }

  /** Cards are shown to nobody but whoever may see them: each hand to its
      holder alone, the pool to the exchanging player while choosing, the
      hand to lose from to the player choosing. */
  lemma ViewPrivacy(s: State, gameId: string, viewer: PlayerId, pid: PlayerId)
    requires Refs(s) && pid in s.players
    ensures var v := ToPublicView(s, gameId, viewer);
            && pid in v.players
            && (v.players[pid].cards.Some? <==> pid == viewer)
            && (v.players[pid].cards.Some? ==> v.players[pid].cards.value == s.players[pid].cards)
    ensures var v := ToPublicView(s, gameId, viewer);
            && (v.exchangeCards.Some? <==> s.exchangeCards.Some? && s.exchangeActor == Some(viewer) && s.phase == SwapChoice)
            && (v.exchangeCards.Some? ==> v.exchangeCards == s.exchangeCards)
            && (v.lossChoiceCards.Some? <==> s.phase == LossChoice && s.lossChooser == Some(viewer))
  {
  }

  /** The public facts about each player: coins, team, name and card count as
      they are, and "alive" exactly when a card is left. */
  lemma ViewPlayers(s: State, gameId: string, viewer: PlayerId, pid: PlayerId)
    requires Refs(s) && pid in s.players
    ensures var v := ToPublicView(s, gameId, viewer).players[pid];
            var p := s.players[pid];
            && v.id == pid && v.name == p.name && v.team == p.team && v.coins == p.coins
            && v.numCards == |p.cards|
            && (v.alive <==> HasCards(p))
  {
  }

  /** A viewer cannot tell apart two states that differ only in what that
      viewer may not see: the cards of other players (with the same counts),
      the order and contents of the deck (with the same size), and the
      exchange pool of another player (with the same size). */
  lemma ViewHidesCards(s: State, t: State, gameId: string, viewer: PlayerId)
    requires Refs(s) && Refs(t)
    requires t == s.(players := t.players, deck := t.deck, exchangeCards := t.exchangeCards)
    requires t.players.Keys == s.players.Keys
    requires forall pid :: pid in s.players ==> Hidden(s.players[pid], t.players[pid], pid == viewer)
    requires |t.deck| == |s.deck|
    requires t.exchangeCards.Some? == s.exchangeCards.Some?
    requires t.exchangeCards.Some? ==> |t.exchangeCards.value| == |s.exchangeCards.value|
    requires s.exchangeActor == Some(viewer) ==> t.exchangeCards == s.exchangeCards
    ensures ToPublicView(t, gameId, viewer) == ToPublicView(s, gameId, viewer)
  {
    var vs := ToPublicView(s, gameId, viewer);
    var vt := ToPublicView(t, gameId, viewer);
    assert vt.players == vs.players by {
      forall pid | pid in s.players
        ensures ViewPlayer(pid, t.players[pid], viewer) == ViewPlayer(pid, s.players[pid], viewer)
      {
      }
    }
    assert PoolSize(t) == PoolSize(s);
  }

  /** `q` differs from `p` at most in its cards, which are as many, and the
      same when `shown`. */
  predicate Hidden(p: Player, q: Player, shown: bool) {
    && q == p.(cards := q.cards)
    && |q.cards| == |p.cards|
    && (shown ==> q.cards == p.cards)
  }

  /** Right after `_start_exchange` the pool size shown to everybody is the
      number of cards drawn from the deck. */
  lemma PoolSizeCountsDraw(s: State, gameId: string, viewer: PlayerId, actor: PlayerId, k: nat)
    requires InPlay(s) && actor in s.players
    ensures ToPublicView(StartExchange(s, actor, k), gameId, viewer).exchangePoolSize == Min(k, |s.deck|)
  {
  }

  /** The current player is shown once the game has started and until it is
      over; the pending action and block are shown by name, and those names
      read back as the action and block they stand for. */
  lemma ViewTurnAndClaims(s: State, gameId: string, viewer: PlayerId)
    requires Refs(s)
    ensures var v := ToPublicView(s, gameId, viewer);
            && (v.currentPlayer.Some? <==> s.phase != Lobby && s.phase != GameOver)
            && (v.currentPlayer.Some? ==> v.currentPlayer.value == s.turnOrder[s.current])
            && (s.pendingAction.Some? && Canonical(s.pendingAction.value.action) ==>
                  v.pendingAction.Some? && ParseAction(v.pendingAction.value.action) == s.pendingAction.value.action)
            && (s.pendingBlock.Some? ==>
                  v.pendingBlock.Some? && ParseBlock(v.pendingBlock.value.blockType) == Some(s.pendingBlock.value.kind))
  {
  }
}
