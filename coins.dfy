/** Coin bookkeeping: no balance ever goes negative, and a steal moves coins
    without making or losing any. */
module Coins {
  import opened CoupTypes
  import opened Rules

  /** No player owes coins, and a pending cost (the refund of a Super
      Assassin) is not negative. */
  ghost predicate Solvent(s: State) {
    && (forall pid :: pid in s.players ==> s.players[pid].coins >= 0)
    && (s.pendingAction.Some? ==> s.pendingAction.value.cost >= 0)
  }

  lemma AddCoinsSolvent(s: State, pid: PlayerId, delta: int)
    requires Refs(s) && pid in s.players && Solvent(s) && s.players[pid].coins + delta >= 0
    ensures Solvent(AddCoins(s, pid, delta))
  {
  }

  /** The turn bookkeeping touches no coin. */
  lemma TurnKeepsCoins(s: State)
    requires InPlay(s)
    ensures CheckVictory(s).players == s.players && CheckVictory(s).pendingAction == s.pendingAction
    ensures AdvanceTurn(s).players == s.players && AdvanceTurn(s).pendingAction == s.pendingAction
    ensures NextTurn(s).players == s.players && NextTurn(s).pendingAction == s.pendingAction
    ensures SettleTurn(s).players == s.players && SettleTurn(s).pendingAction == s.pendingAction
  {
  }

  lemma StartLossChoiceKeepsCoins(s: State, victim: PlayerId, post: PostLoss)
    requires InPlay(s) && victim in s.players
    ensures StartLossChoice(s, victim, post).players == s.players
    ensures StartLossChoice(s, victim, post).pendingAction == s.pendingAction
  {
  }

  lemma ResolveForeignAidSolvent(s: State, pa: PendingAction)
    requires InPlay(s) && ActionRefs(pa, s.players) && Solvent(s)
    ensures Solvent(ResolveForeignAid(s, pa))
  {
    var x := AddCoins(s, pa.actor, 2).(pendingAction := None, phase := ActionSelection);
    TurnKeepsCoins(x);
    TurnKeepsCoins(CheckVictory(x));
  }

  lemma ResolveTaxSolvent(s: State, pa: PendingAction, amount: nat)
    requires InPlay(s) && ActionRefs(pa, s.players) && Solvent(s)
    ensures Solvent(ResolveTax(s, pa, amount))
  {
    var x := AddCoins(s, pa.actor, amount).(pendingAction := None);
    TurnKeepsCoins(x);
  }

  /** A steal takes `min(amount, coins)` from a target with coins and gives
      it to the thief; nobody else's coins change. */
  lemma StealMoves(s: State, pa: PendingAction, amount: nat)
    requires InPlay(s) && ActionRefs(pa, s.players)
    requires pa.target.Some? && pa.target.value != pa.actor
    ensures var r := ResolveSteal(s, pa, amount);
            var t := pa.target.value;
            var take := if s.players[t].coins <= 0 then 0 else Min(amount, s.players[t].coins);
            && r.players.Keys == s.players.Keys
            && r.players[t].coins == s.players[t].coins - take
            && r.players[pa.actor].coins == s.players[pa.actor].coins + take
            && (forall pid :: pid in s.players && pid != t && pid != pa.actor ==>
                  r.players[pid].coins == s.players[pid].coins)
  {
    var t := pa.target.value;
    if s.players[t].coins <= 0 {
      TurnKeepsCoins(s);
    } else {
      TurnKeepsCoins(Transfer(s, t, pa.actor, Min(amount, s.players[t].coins)));
    }
  }

  /** So a steal conserves the coins of thief and target together. */
  lemma StealConserves(s: State, pa: PendingAction, amount: nat)
    requires InPlay(s) && ActionRefs(pa, s.players)
    requires pa.target.Some? && pa.target.value != pa.actor
    ensures var r := ResolveSteal(s, pa, amount);
            var t := pa.target.value;
            && r.players.Keys == s.players.Keys
            && r.players[t].coins + r.players[pa.actor].coins == s.players[t].coins + s.players[pa.actor].coins
  {
    StealMoves(s, pa, amount);
  }

  /** Moving at most what `from` holds keeps everybody solvent. */
  lemma TransferSolvent(s: State, from: PlayerId, to: PlayerId, take: int)
    requires InPlay(s) && from in s.players && to in s.players && Solvent(s)
    requires 0 <= take <= s.players[from].coins
    ensures Solvent(Transfer(s, from, to, take))
  {
    AddCoinsSolvent(s, from, -take);
    AddCoinsSolvent(AddCoins(s, from, -take), to, take);
  }

  lemma ResolveStealSolvent(s: State, pa: PendingAction, amount: nat)
    requires InPlay(s) && ActionRefs(pa, s.players) && Solvent(s) && s.pendingAction.None?
    ensures Solvent(ResolveSteal(s, pa, amount))
  {
    if pa.target.None? {
      TurnKeepsCoins(s.(phase := ActionSelection));
    } else {
      var t := pa.target.value;
      if s.players[t].coins <= 0 {
        TurnKeepsCoins(s);
      } else {
        var take := Min(amount, s.players[t].coins);
        TransferSolvent(s, t, pa.actor, take);
        TurnKeepsCoins(Transfer(s, t, pa.actor, take));
      }
    }
  }

  lemma ResolveAssassinateSolvent(s: State, pa: PendingAction)
    requires InPlay(s) && ActionRefs(pa, s.players) && Solvent(s) && s.pendingAction.None? && pa.cost >= 0
    ensures Solvent(ResolveAssassinate(s, pa))
  {
    if pa.target.None? {
      TurnKeepsCoins(s.(phase := ActionSelection));
    } else {
      var refunded :=
        if pa.action == SuperAssassinate && pa.cost != 0 && pa.refundable
        then AddCoins(s, pa.actor, pa.cost) else s;
      if pa.action == SuperAssassinate && pa.cost != 0 && pa.refundable {
        AddCoinsSolvent(s, pa.actor, pa.cost);
      }
      StartLossChoiceKeepsCoins(refunded, pa.target.value, NextTurnAfterLoss);
    }
  }

  lemma ResolvePaysSolvent(s: State)
    requires InPlay(s) && Solvent(s) && s.pendingAction.Some?
    requires s.pendingAction.value.action in {ForeignAid, Tax, SuperTax}
    ensures Solvent(ResolvePendingAction(s))
  {
    var pa := s.pendingAction.value;
    if pa.action == ForeignAid {
      assert ResolvePendingAction(s) == ResolveForeignAid(s, pa);
      ResolveForeignAidSolvent(s, pa);
    } else {
      var n := if pa.action == Tax then 3 else 5;
      assert ResolvePendingAction(s) == ResolveTax(s, pa, n);
      ResolveTaxSolvent(s, pa, n);
    }
  }

  lemma ResolveTargetsSolvent(s: State)
    requires InPlay(s) && Solvent(s) && s.pendingAction.Some?
    requires s.pendingAction.value.action in {Steal, SuperSteal, Assassinate, SuperAssassinate}
    ensures Solvent(ResolvePendingAction(s))
  {
    var pa := s.pendingAction.value;
    var cleared := s.(pendingAction := None);
    if pa.action == Steal || pa.action == SuperSteal {
      var n := if pa.action == Steal then 2 else 3;
      assert ResolvePendingAction(s) == ResolveSteal(cleared, pa, n);
      ResolveStealSolvent(cleared, pa, n);
    } else {
      assert ResolvePendingAction(s) == ResolveAssassinate(cleared, pa);
      ResolveAssassinateSolvent(cleared, pa);
    }
  }

  lemma ResolveTurnsSolvent(s: State)
    requires InPlay(s) && Solvent(s) && s.pendingAction.Some?
    requires s.pendingAction.value.action !in {ForeignAid, Tax, SuperTax, Steal, SuperSteal, Assassinate, SuperAssassinate}
    ensures Solvent(ResolvePendingAction(s))
  {
    var pa := s.pendingAction.value;
    var cleared := s.(pendingAction := None);
    if pa.action == Coup && pa.target.Some? {
      assert ResolvePendingAction(s) == StartLossChoice(cleared, pa.target.value, NextTurnAfterLoss);
      StartLossChoiceKeepsCoins(cleared, pa.target.value, NextTurnAfterLoss);
    } else if pa.action == Exchange || pa.action == SuperExchange {
      var k := if pa.action == Exchange then 2 else 3;
      assert ResolvePendingAction(s) == StartExchange(s, pa.actor, k).(pendingAction := None);
    } else {
      assert ResolvePendingAction(s) == NextTurn(cleared);
      TurnKeepsCoins(cleared.(phase := ActionSelection));
    }
  }

  /** Whatever action goes through, nobody's coins go negative. */
  lemma ResolvePendingActionSolvent(s: State)
    requires InPlay(s) && Solvent(s)
    ensures Solvent(ResolvePendingAction(s))
  {
    if s.pendingAction.Some? {
      var a := s.pendingAction.value.action;
      if a in {ForeignAid, Tax, SuperTax} {
        ResolvePaysSolvent(s);
      } else if a in {Steal, SuperSteal, Assassinate, SuperAssassinate} {
        ResolveTargetsSolvent(s);
      } else {
        ResolveTurnsSolvent(s);
      }
    }
  }

  lemma BlockStandsSolvent(s: State)
    requires InPlay(s) && Solvent(s)
    ensures Solvent(BlockStands(s))
  {
    if s.pendingAction.Some? && s.pendingBlock.Some? {
      var x := s.(pendingAction := None, pendingBlock := None, phase := ActionSelection);
      TurnKeepsCoins(x);
      TurnKeepsCoins(CheckVictory(x));
    }
  }

  lemma BlockFailsSolvent(s: State)
    requires InPlay(s) && Solvent(s)
    ensures Solvent(BlockFails(s))
  {
    if s.pendingAction.Some? && s.pendingBlock.Some? {
      ResolvePendingActionSolvent(s.(pendingBlock := None));
    }
  }

  lemma AfterLossSolvent(s: State, post: Option<PostLoss>)
    requires InPlay(s) && Solvent(s)
    ensures Solvent(AfterLoss(s, post))
  {
    match post
    case Some(ResolveAfterLoss) => ResolvePendingActionSolvent(s);
    case Some(CancelAfterLoss) => TurnKeepsCoins(s.(pendingAction := None, pendingBlock := None, phase := ActionSelection));
    case Some(BlockStandsAfterLoss) => BlockStandsSolvent(s);
    case Some(BlockFailsAfterLoss) => BlockFailsSolvent(s);
    case _ =>
      if s.nextTurnAfterLoss {
        TurnKeepsCoins(s.(nextTurnAfterLoss := false, phase := ActionSelection));
      }
  }

  /** Losing a card touches no coin. */
  lemma LoseCardSolvent(s: State, pid: PlayerId, idx: nat)
    requires Refs(s) && pid in s.players && idx < |s.players[pid].cards| && Solvent(s)
    ensures Solvent(LoseCard(s, pid, idx))
  {
  }

  /** `choose_loss_card` keeps everybody solvent. */
  lemma ChooseLossCardSolvent(s: State, pid: PlayerId, idx: int)
    requires Refs(s) && Solvent(s)
    ensures Solvent(ChooseLossCard(s, pid, idx).0)
  {
    if s.phase == LossChoice && Some(pid) == s.lossChooser && 0 <= idx < |s.players[pid].cards| {
      var lost := LoseCard(s, pid, idx);
      LoseCardSolvent(s, pid, idx);
      var checked := CheckVictory(lost);
      TurnKeepsCoins(lost);
      if checked.phase != GameOver {
        AfterLossSolvent(checked.(postLoss := None), checked.postLoss);
      }
    }
  }

  lemma ReplaceClaimCardSolvent(s: State, pid: PlayerId, role: Role, shuffled: seq<Role>)
    requires InPlay(s) && pid in s.players && |shuffled| == |s.deck| + 1 && Solvent(s)
    ensures Solvent(ReplaceClaimCard(s, pid, role, shuffled))
  {
  }

  /** `player_challenge` keeps everybody solvent. */
  lemma PlayerChallengeSolvent(s: State, cid: PlayerId, shuffled: seq<Role>)
    requires Refs(s) && cid in s.players && |shuffled| == |s.deck| + 1 && Solvent(s)
    ensures Solvent(PlayerChallenge(s, cid, shuffled).0)
  {
    if s.phase == ChallengeWindow {
      match s.pendingBlock
      case Some(pb) =>
        if pb.role.Some? {
          ReplaceClaimCardSolvent(s, pb.blocker, pb.role.value, shuffled);
          StartLossChoiceKeepsCoins(ReplaceClaimCard(s, pb.blocker, pb.role.value, shuffled), cid, BlockStandsAfterLoss);
          StartLossChoiceKeepsCoins(s, pb.blocker, BlockFailsAfterLoss);
        }
      case None =>
        match s.pendingAction
        case None =>
        case Some(pa) =>
          if pa.role.Some? {
            ReplaceClaimCardSolvent(s, pa.actor, pa.role.value, shuffled);
            StartLossChoiceKeepsCoins(ReplaceClaimCard(s, pa.actor, pa.role.value, shuffled), cid, ResolveAfterLoss);
            StartLossChoiceKeepsCoins(s, pa.actor, CancelAfterLoss);
          }
    }
  }

  /** `player_no_challenge` keeps everybody solvent. */
  lemma PlayerNoChallengeSolvent(s: State, pid: PlayerId)
    requires Refs(s) && Solvent(s)
    ensures Solvent(PlayerNoChallenge(s, pid).0)
  {
    if s.phase == ChallengeWindow {
      BlockStandsSolvent(s);
      ResolvePendingActionSolvent(s);
    }
  }

  /** Declaring a block touches no coin and leaves the pending action alone. */
  lemma PlayerBlockKeepsCoins(s: State, pid: PlayerId, blockType: string)
    requires Refs(s) && pid in s.players
    ensures var r := PlayerBlock(s, pid, blockType).0;
            r == s.(pendingBlock := r.pendingBlock, phase := r.phase)
  {
  }

  /** `player_block` keeps everybody solvent. */
  lemma PlayerBlockSolvent(s: State, pid: PlayerId, blockType: string)
    requires Refs(s) && pid in s.players && Solvent(s)
    ensures Solvent(PlayerBlock(s, pid, blockType).0)
  {
    PlayerBlockKeepsCoins(s, pid, blockType);
  }

  /** `player_no_block` keeps everybody solvent. */
  lemma PlayerNoBlockSolvent(s: State, pid: PlayerId)
    requires Refs(s) && Solvent(s)
    ensures Solvent(PlayerNoBlock(s, pid).0)
  {
    if s.phase == BlockWindow {
      ResolvePendingActionSolvent(s);
    }
  }

  /** A claimed action costs only what the actor was checked to hold, and
      its pending cost is not negative. */
  lemma ClaimActionSolvent(s: State, pid: PlayerId, action: string, target: Option<PlayerId>)
    requires InPlay(s) && pid in s.players && (target.Some? ==> target.value in s.players) && Solvent(s)
    ensures Solvent(ClaimAction(s, pid, action, target).0)
  {
    var c := ClaimOf(ParseAction(action));
    if c.Some? && c.value.cost != 0 && s.players[pid].coins >= c.value.cost {
      AddCoinsSolvent(s, pid, -(c.value.cost as int));
    }
  }

  /** Every cost is paid only after the balance is checked. */
  lemma DispatchActionSolvent(s: State, pid: PlayerId, action: string, target: Option<PlayerId>)
    requires InPlay(s) && pid in s.players && (target.Some? ==> target.value in s.players)
    requires Solvent(s) && s.pendingAction.None?
    ensures Solvent(DispatchAction(s, pid, action, target).0)
  {
    var a := ParseAction(action);
    if a == Income {
      AddCoinsSolvent(s, pid, 1);
      TurnKeepsCoins(AddCoins(s, pid, 1));
      TurnKeepsCoins(CheckVictory(AddCoins(s, pid, 1)));
    } else if a == Coup {
      if target.Some? && s.players[pid].coins >= 7 {
        AddCoinsSolvent(s, pid, -7);
      }
    } else if a == SuperCoup {
      if s.mode == SuperTeam && target.Some? && s.players[pid].coins >= 12 {
        AddCoinsSolvent(s, pid, -12);
        StartLossChoiceKeepsCoins(AddCoins(s, pid, -12).(pendingAction := None), target.value, NextTurnAfterLoss);
      }
    } else if a != ForeignAid {
      ClaimActionSolvent(s, pid, action, target);
    }
  }

  /** `player_action` keeps everybody solvent. */
  lemma PlayerActionSolvent(s: State, pid: PlayerId, action: string, target: Option<PlayerId>)
    requires Refs(s) && Solvent(s)
    ensures Solvent(PlayerAction(s, pid, action, target).0)
  {
    if s.phase == ActionSelection && pid == s.turnOrder[s.current] {
      AllInIndex(s.turnOrder, s.players, s.current);
      if target.None? || target.value in s.players {
        DispatchActionSolvent(ClearPending(s), pid, action, target);
      }
    }
  }

  /** Swapping hands touches no coin. */
  lemma SwapHandSolvent(s: State, pid: PlayerId, hand: seq<Role>, shuffled: seq<Role>)
    requires InPlay(s) && pid in s.players && Solvent(s)
    ensures Solvent(SwapHand(s, pid, hand, shuffled))
  {
  }

  /** `finish_exchange` keeps everybody solvent. */
  lemma FinishExchangeSolvent(s: State, pid: PlayerId, keep: seq<int>, shuffled: seq<Role>)
    requires Refs(s) && Solvent(s)
    ensures Solvent(FinishExchange(s, pid, keep, shuffled).0)
  {
    if && s.phase == SwapChoice && Some(pid) == s.exchangeActor && s.exchangeCards.Some?
       && |keep| == |s.players[pid].cards| && !AnyOutside(keep, |s.exchangeCards.value|)
    {
      var hand := Select(s.exchangeCards.value, set i | i in keep, true);
      var x := SwapHand(s, pid, hand, shuffled);
      SwapHandSolvent(s, pid, hand, shuffled);
      assert FinishExchange(s, pid, keep, shuffled).0 == AdvanceTurn(CheckVictory(x));
      TurnKeepsCoins(x);
      TurnKeepsCoins(CheckVictory(x));
    } else {
      assert FinishExchange(s, pid, keep, shuffled).0 == s;
    }
  }

  /** A player joins with no coins. */
  lemma AddPlayerSolvent(s: State, name: string, team: string)
    requires Refs(s) && Solvent(s)
    ensures Solvent(AddPlayer(s, name, team).0)
  {
    if s.phase == Lobby && ParseTeam(team).Some? {
      JoinSolvent(s, |s.players| + 1, Player(name, ParseTeam(team).value, 0, [], true));
    }
  }

  lemma JoinSolvent(s: State, id: PlayerId, p: Player)
    requires Solvent(s) && p.coins >= 0
    ensures Solvent(Join(s, id, p))
  {
  }

  /** The dealing loop sets the coins of every seated player to 0. */
  lemma {:induction false} DealSolvent(order: seq<PlayerId>, players: map<PlayerId, Player>, deck: seq<Role>)
    requires AllIn(order, players) && |deck| >= 2 * |order|
    requires forall pid :: pid in players ==> players[pid].coins >= 0
    ensures forall pid :: pid in Deal(order, players, deck).0 ==> Deal(order, players, deck).0[pid].coins >= 0
    decreases |order|
  {
    if order != [] {
      var n := |deck|;
      var more := players[order[0] := players[order[0]].(cards := [deck[n - 1], deck[n - 2]], coins := 0, alive := true)];
      DealStep(order, players, deck, deck[n - 1], deck[n - 2]);
      DealSolvent(order[1..], more, deck[..n - 2]);
    }
  }

  /** `start_game` keeps everybody solvent. */
  lemma StartGameSolvent(s: State, shuffled: seq<Role>)
    requires Refs(s) && |s.teamA| + |s.teamB| == |s.players| && |shuffled| == 15 && Solvent(s)
    ensures Solvent(StartGame(s, shuffled).0)
  {
    if StartGame(s, shuffled).1 == Pass {
      var order := Interleave(s.teamA, s.teamB);
      InterleaveAllIn(s.teamA, s.teamB, s.players);
      DealSolvent(order, s.players, shuffled);
      assert StartGame(s, shuffled).0 == Setup(s, shuffled);
      assert Setup(s, shuffled).players == Deal(order, s.players, shuffled).0;
      assert Setup(s, shuffled).pendingAction == s.pendingAction;
    }
  }
}
