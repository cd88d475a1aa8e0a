/** Losing influence (`_start_loss_choice`, `choose_loss_card`): who may
    choose, what the loss does to the hand and the revealed pile, when the
    game ends, and the state a victim with no card leaves behind. */
module Losses {
  import opened CoupTypes
  import opened Rules

  /** Two player tables with the same players, each holding the same cards
      and equally alive; coins may differ. */
  ghost predicate SameInfluence(a: map<PlayerId, Player>, b: map<PlayerId, Player>) {
    && a.Keys == b.Keys
    && (forall pid :: pid in a ==> a[pid].cards == b[pid].cards && a[pid].alive == b[pid].alive)
  }

  /** The winner depends on the hands and the team lists alone. */
  lemma VictorByInfluence(a: State, b: State)
    requires SameInfluence(a.players, b.players) && a.teamA == b.teamA && a.teamB == b.teamB
    ensures Victor(a) == Victor(b)
  {
    assert TeamHasHolder(a.players, a.teamA) == TeamHasHolder(b.players, b.teamA);
    assert TeamHasHolder(a.players, a.teamB) == TeamHasHolder(b.players, b.teamB);
  }

  /** What an operation after a loss keeps: every hand, the revealed pile,
      the team lists, and (with no winner to name) a game still going. */
  ghost predicate Keeps(r: State, s: State) {
    && SameInfluence(r.players, s.players)
    && r.revealed == s.revealed && r.teamA == s.teamA && r.teamB == s.teamB
    && (s.phase != GameOver && Victor(s).None? ==> r.phase != GameOver)
  }

  lemma AddCoinsKeeps(s: State, pid: PlayerId, n: int)
    requires Refs(s) && pid in s.players && s.phase != GameOver
    ensures Keeps(AddCoins(s, pid, n), s) && AddCoins(s, pid, n).phase == s.phase
  {
  }

  lemma SettleKeeps(s: State, x: State)
    requires InPlay(x) && Keeps(x, s) && x.phase == s.phase && s.phase != GameOver
    ensures Keeps(SettleTurn(x), s)
  {
  }

  lemma CloseKeeps(s: State, x: State)
    requires InPlay(x) && Keeps(x, s) && x.phase == ActionSelection && s.phase != GameOver
    ensures Keeps(AdvanceTurn(CheckVictory(x)), s)
  {
    VictorByInfluence(x, s);
  }

  lemma TransferKeeps(s: State, from: PlayerId, to: PlayerId, take: int)
    requires InPlay(s) && s.phase != GameOver && from in s.players && to in s.players
    ensures Keeps(Transfer(s, from, to, take), s) && Transfer(s, from, to, take).phase == s.phase
  {
    var y := AddCoins(s, from, -take);
    AddCoinsKeeps(s, from, -take);
    AddCoinsKeeps(y, to, take);
    assert Victor(y) == Victor(s) by {
      VictorByInfluence(y, s);
    }
  }

  lemma StealKeeps(s: State, pa: PendingAction, n: int)
    requires InPlay(s) && ActionRefs(pa, s.players) && s.phase != GameOver
    ensures Keeps(ResolveSteal(s, pa, n), s)
  {
    if pa.target.None? {
      NextTurnKeeps(s, s);
    } else if s.players[pa.target.value].coins <= 0 {
      SettleKeeps(s, s);
    } else {
      var t := pa.target.value;
      var take := Min(n, s.players[t].coins);
      TransferKeeps(s, t, pa.actor, take);
      SettleKeeps(s, Transfer(s, t, pa.actor, take));
    }
  }

  lemma NextTurnKeeps(s: State, x: State)
    requires InPlay(x) && Keeps(x, s) && s.phase != GameOver
    ensures Keeps(NextTurn(x), s)
  {
  }

  lemma StartLossKeeps(s: State, x: State, victim: PlayerId, post: PostLoss)
    requires InPlay(x) && victim in x.players && Keeps(x, s) && x.phase == s.phase && s.phase != GameOver
    ensures Keeps(StartLossChoice(x, victim, post), s)
  {
  }

  lemma AssassinateKeeps(s: State, pa: PendingAction)
    requires InPlay(s) && ActionRefs(pa, s.players) && s.phase != GameOver
    ensures Keeps(ResolveAssassinate(s, pa), s)
  {
    if pa.target.Some? {
      if pa.action == SuperAssassinate && pa.cost != 0 && pa.refundable {
        AddCoinsKeeps(s, pa.actor, pa.cost);
        StartLossKeeps(s, AddCoins(s, pa.actor, pa.cost), pa.target.value, NextTurnAfterLoss);
      } else {
        StartLossKeeps(s, s, pa.target.value, NextTurnAfterLoss);
      }
    }
  }

  lemma ExchangeKeeps(s: State, actor: PlayerId, k: nat)
    requires InPlay(s) && actor in s.players && s.phase != GameOver
    ensures Keeps(StartExchange(s, actor, k).(pendingAction := None), s)
  {
  }

  lemma ResolvePaysKeep(s: State)
    requires InPlay(s) && s.phase != GameOver && s.pendingAction.Some?
    requires s.pendingAction.value.action in {ForeignAid, Tax, SuperTax}
    ensures Keeps(ResolvePendingAction(s), s)
  {
    var pa := s.pendingAction.value;
    if pa.action == ForeignAid {
      assert ResolvePendingAction(s) == ResolveForeignAid(s, pa);
      AddCoinsKeeps(s, pa.actor, 2);
      CloseKeeps(s, AddCoins(s, pa.actor, 2).(pendingAction := None, phase := ActionSelection));
    } else {
      var n := if pa.action == Tax then 3 else 5;
      assert ResolvePendingAction(s) == ResolveTax(s, pa, n);
      AddCoinsKeeps(s, pa.actor, n);
      SettleKeeps(s, AddCoins(s, pa.actor, n).(pendingAction := None));
    }
  }

  lemma ResolveStealsKeep(s: State)
    requires InPlay(s) && s.phase != GameOver && s.pendingAction.Some?
    requires s.pendingAction.value.action == Steal || s.pendingAction.value.action == SuperSteal
    ensures Keeps(ResolvePendingAction(s), s)
  {
    var pa := s.pendingAction.value;
    var cleared := s.(pendingAction := None);
    var n := if pa.action == Steal then 2 else 3;
    assert ResolvePendingAction(s) == ResolveSteal(cleared, pa, n);
    StealKeeps(cleared, pa, n);
  }

  lemma ResolveAssassinationsKeep(s: State)
    requires InPlay(s) && s.phase != GameOver && s.pendingAction.Some?
    requires s.pendingAction.value.action == Assassinate || s.pendingAction.value.action == SuperAssassinate
    ensures Keeps(ResolvePendingAction(s), s)
  {
    var pa := s.pendingAction.value;
    var cleared := s.(pendingAction := None);
    assert ResolvePendingAction(s) == ResolveAssassinate(cleared, pa);
    AssassinateKeeps(cleared, pa);
  }

  lemma ResolveTurnsKeep(s: State)
    requires InPlay(s) && s.phase != GameOver && s.pendingAction.Some?
    requires s.pendingAction.value.action !in {ForeignAid, Tax, SuperTax, Steal, SuperSteal, Assassinate, SuperAssassinate}
    ensures Keeps(ResolvePendingAction(s), s)
  {
    var pa := s.pendingAction.value;
    var cleared := s.(pendingAction := None);
    if pa.action == Coup && pa.target.Some? {
      assert ResolvePendingAction(s) == StartLossChoice(cleared, pa.target.value, NextTurnAfterLoss);
      StartLossKeeps(s, cleared, pa.target.value, NextTurnAfterLoss);
    } else if pa.action == Exchange {
      assert ResolvePendingAction(s) == StartExchange(s, pa.actor, 2).(pendingAction := None);
      ExchangeKeeps(s, pa.actor, 2);
    } else if pa.action == SuperExchange {
      assert ResolvePendingAction(s) == StartExchange(s, pa.actor, 3).(pendingAction := None);
      ExchangeKeeps(s, pa.actor, 3);
    } else {
      assert ResolvePendingAction(s) == NextTurn(cleared);
      NextTurnKeeps(s, cleared);
    }
  }

  /** `_resolve_pending_action` moves coins at most: no card is lost, drawn or
      revealed, and no winner appears. */
  lemma ResolveKeeps(s: State)
    requires InPlay(s) && s.phase != GameOver
    ensures Keeps(ResolvePendingAction(s), s)
  {
    if s.pendingAction.Some? {
      var a := s.pendingAction.value.action;
      if a in {ForeignAid, Tax, SuperTax} {
        ResolvePaysKeep(s);
      } else if a == Steal || a == SuperSteal {
        ResolveStealsKeep(s);
      } else if a == Assassinate || a == SuperAssassinate {
        ResolveAssassinationsKeep(s);
      } else {
        ResolveTurnsKeep(s);
      }
    }
  }

  /** `_block_stands` and `_block_fails` keep every hand as well. */
  lemma BlockStandsKeeps(s: State)
    requires InPlay(s) && s.phase != GameOver
    ensures Keeps(BlockStands(s), s)
  {
    if s.pendingAction.Some? && s.pendingBlock.Some? {
      CloseKeeps(s, s.(pendingAction := None, pendingBlock := None, phase := ActionSelection));
    }
  }

  lemma BlockFailsKeeps(s: State)
    requires InPlay(s) && s.phase != GameOver
    ensures Keeps(BlockFails(s), s)
  {
    if s.pendingAction.Some? && s.pendingBlock.Some? {
      var x := s.(pendingBlock := None);
      ResolveKeeps(x);
      VictorByInfluence(x, s);
    }
  }

  /** Whatever follows a loss keeps every hand. */
  lemma AfterLossKeeps(s: State, post: Option<PostLoss>)
    requires InPlay(s) && s.phase != GameOver
    ensures Keeps(AfterLoss(s, post), s)
  {
    match post
    case Some(ResolveAfterLoss) => ResolveKeeps(s);
    case Some(BlockStandsAfterLoss) => BlockStandsKeeps(s);
    case Some(BlockFailsAfterLoss) => BlockFailsKeeps(s);
    case _ =>
  }

  /** `_start_loss_choice`: a victim holding a card becomes the one to choose,
      in the loss choice phase, with `post` to follow. A victim holding none
      leaves the phase and the chooser as they were, and forgets `post`. */
  lemma StartLossChoiceSpec(s: State, victim: PlayerId, post: PostLoss)
    requires InPlay(s) && victim in s.players
    ensures var r := StartLossChoice(s, victim, post);
            && r.players == s.players
            && (HasCards(s.players[victim]) ==>
                  r.phase == LossChoice && r.lossChooser == Some(victim) && r.postLoss == Some(post))
            && (!HasCards(s.players[victim]) ==>
                  r.phase == s.phase && r.lossChooser == s.lossChooser && r.postLoss.None?)
  {
  }

  /** The rules of `choose_loss_card`: the loss choice, by the player who must
      choose, of a card index inside the hand. */
  ghost predicate LossLegal(s: State, pid: PlayerId, idx: int)
    requires Refs(s)
  {
    && s.phase == LossChoice
    && s.lossChooser == Some(pid)
    && 0 <= idx < |s.players[pid].cards|
  }

  /** `choose_loss_card` is accepted exactly when it meets the rules, and a
      refused one changes nothing. */
  lemma ChooseLossChecks(s: State, pid: PlayerId, idx: int)
    requires Refs(s)
    ensures ChooseLossCard(s, pid, idx).1 == Pass <==> LossLegal(s, pid, idx)
    ensures ChooseLossCard(s, pid, idx).1.Fail? ==> ChooseLossCard(s, pid, idx).0 == s
  {
  }

  /** Losing the card at `idx`: it leaves the hand, which keeps the other
      cards in order, and goes on top of the revealed pile; the player is
      out when the hand is empty; nobody else changes. */
  lemma LoseCardSpec(s: State, pid: PlayerId, idx: nat)
    requires Refs(s) && pid in s.players && idx < |s.players[pid].cards|
    ensures var r := LoseCard(s, pid, idx);
            var p := s.players[pid];
            && r.players == s.players[pid := r.players[pid]]
            && r.players[pid].cards == p.cards[..idx] + p.cards[idx + 1..]
            && |r.players[pid].cards| == |p.cards| - 1
            && multiset(r.players[pid].cards) + multiset{p.cards[idx]} == multiset(p.cards)
            && r.revealed == s.revealed + [p.cards[idx]]
            && r.players[pid].alive == (p.alive && |p.cards| > 1)
            && r.players[pid].coins == p.coins && r.players[pid].team == p.team
            && r.lossChooser.None?
  {
    var p := s.players[pid];
    assert p.cards == p.cards[..idx] + [p.cards[idx]] + p.cards[idx + 1..];
  }

  /** An accepted `choose_loss_card` leaves every hand as the loss left it and
      the lost card on the revealed pile; the game is over, with the winner
      named, exactly when after the loss just one team has a player holding
      a card. */
  lemma ChooseLossCardSpec(s: State, pid: PlayerId, idx: int)
    requires Refs(s) && LossLegal(s, pid, idx)
    ensures var lost := LoseCard(s, pid, idx);
            var r := ChooseLossCard(s, pid, idx).0;
            && SameInfluence(r.players, lost.players)
            && r.revealed == s.revealed + [s.players[pid].cards[idx]]
            && (r.phase == GameOver <==> Victor(lost).Some?)
            && (r.phase == GameOver ==> r.winner == Victor(lost))
  {
    var lost := LoseCard(s, pid, idx);
    var checked := CheckVictory(lost);
    if checked.phase != GameOver {
      AfterLossKeeps(checked.(postLoss := None), checked.postLoss);
      assert ChooseLossCard(s, pid, idx).0 == AfterLoss(checked.(postLoss := None), checked.postLoss);
    }
  }

  /** The state a 0-card victim leaves behind: the loss choice phase with
      nobody to choose. Every operation is refused there and changes
      nothing, so the game cannot go on. */
  lemma Stuck(s: State, pid: PlayerId, idx: int, action: string, target: Option<PlayerId>,
              blockType: string, keep: seq<int>, shuffled: seq<Role>, name: string, team: string)
    requires Refs(s) && s.phase == LossChoice && s.lossChooser.None?
    requires pid in s.players && |shuffled| == |s.deck| + 1
    ensures ChooseLossCard(s, pid, idx) == (s, Fail(NotTheLossChooser))
    ensures PlayerAction(s, pid, action, target) == (s, Fail(CannotActNow))
    ensures PlayerChallenge(s, pid, shuffled) == (s, Fail(NoActionToChallenge))
    ensures PlayerNoChallenge(s, pid) == (s, Fail(NotInChallengeWindow))
    ensures PlayerBlock(s, pid, blockType) == (s, Fail(NotInBlockWindow))
    ensures PlayerNoBlock(s, pid) == (s, Fail(NotInBlockWindow))
    ensures FinishExchange(s, pid, keep, shuffled) == (s, Fail(NotInExchange))
    ensures AddPlayer(s, name, team) == (s, Err(CannotJoinAfterStart))
  {
  }

  /** How the game gets there: the target of an assassination, holding one
      card that is not a Contessa, blocks as Contessa; the block is
      challenged and the target loses that card; the block fails, the
      assassination goes through against a player with no card left, and the
      loss choice phase stays with nobody to choose. (The teammates and
      opponents still holding cards keep the game from ending.) */
  lemma SoftLock(s: State, cid: PlayerId, t: PlayerId, shuffled: seq<Role>)
    requires InPlay(s) && cid in s.players && t in s.players && |shuffled| == |s.deck| + 1
    requires s.phase == ChallengeWindow
    requires s.pendingAction.Some? && s.pendingAction.value.action == Assassinate
    requires s.pendingAction.value.target == Some(t)
    requires s.pendingBlock == Some(PendingBlock(t, BlockAssassinate, Some(Contessa), false))
    requires s.players[t].cards == [Duke] && s.players[cid].team != s.players[t].team
    requires Victor(s.(players := s.players[t := WithoutCard(s.players[t], 0)])).None?
    ensures var r := PlayerChallenge(s, cid, shuffled);
            && r.1 == Pass && r.0.phase == LossChoice && r.0.lossChooser == Some(t)
    ensures var x := PlayerChallenge(s, cid, shuffled).0;
            var r := ChooseLossCard(x, t, 0);
            && r.1 == Pass && r.0.phase == LossChoice && r.0.lossChooser.None?
  {
    assert !ClaimTruthful(s.players[t].cards, Contessa, false) by {
      assert multiset(s.players[t].cards)[Contessa] == 0;
    }
    var x := PlayerChallenge(s, cid, shuffled).0;
    assert x == StartLossChoice(s, t, BlockFailsAfterLoss);
    var lost := LoseCard(x, t, 0);
    assert Victor(lost) == Victor(s.(players := s.players[t := WithoutCard(s.players[t], 0)]));
    var checked := CheckVictory(lost);
    assert checked == lost;
    var y := checked.(postLoss := None);
    assert ChooseLossCard(x, t, 0).0 == BlockFails(y);
    var cleared := y.(pendingBlock := None).(pendingAction := None);
    assert BlockFails(y) == ResolveAssassinate(cleared, s.pendingAction.value);
    assert cleared.players[t].cards == [];
  }
}
