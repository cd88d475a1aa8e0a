/** What `_resolve_pending_action` does with each action once it goes
    through: the coins it pays, the player it makes lose a card, the refund
    of a Super Assassin. */
module Resolution {
  import opened CoupTypes
  import opened Rules

  /** The players after `pid` gains `n` coins. */
  function Gain(players: map<PlayerId, Player>, pid: PlayerId, n: int): map<PlayerId, Player>
    requires pid in players
  {
    players[pid := players[pid].(coins := players[pid].coins + n)]
  }

  /** A change of coins alone does not change who has won. */
  lemma VictorIgnoresCoins(s: State, pid: PlayerId, n: int)
    requires Refs(s) && pid in s.players
    ensures Victor(AddCoins(s, pid, n)) == Victor(s)
  {
    var r := AddCoins(s, pid, n);
    assert forall id :: id in s.players ==> HasCards(r.players[id]) == HasCards(s.players[id]);
    assert TeamHasHolder(r.players, s.teamA) == TeamHasHolder(s.players, s.teamA);
    assert TeamHasHolder(r.players, s.teamB) == TeamHasHolder(s.players, s.teamB);
  }

  /** The victory check and the turn that follows it in action selection:
      the game ends exactly when just one team still has a player holding a
      card, and nothing but the phase, the winner and the turn index changes. */
  lemma CloseTurn(s: State)
    requires InPlay(s) && s.phase == ActionSelection
    ensures var r := AdvanceTurn(CheckVictory(s));
            && r == s.(phase := r.phase, winner := r.winner, current := r.current)
            && (r.phase == GameOver <==> Victor(s).Some?)
            && (r.phase != GameOver ==> r.phase == ActionSelection && r.winner == s.winner)
  {
  }

  /** The victory check followed by a return to action selection, as tax and
      steal do: the phase is action selection even when the check has just
      named a winner. */
  lemma SettleKeepsPlaying(s: State)
    requires InPlay(s)
    ensures var r := SettleTurn(s);
            && r == s.(phase := ActionSelection, winner := r.winner, current := r.current)
            && r.winner == (if Victor(s).Some? then Victor(s) else s.winner)
  {
  }

  /** Foreign aid that goes through pays the actor 2 coins and leaves
      nothing pending; the game ends exactly when just one team still has a
      player holding a card, the turn passing otherwise. */
  lemma ResolveForeignAidSpec(s: State)
    requires InPlay(s) && s.pendingAction.Some? && s.pendingAction.value.action == ForeignAid
    ensures var pa := s.pendingAction.value;
            var r := ResolvePendingAction(s);
            && r.players == Gain(s.players, pa.actor, 2)
            && r.deck == s.deck && r.pendingAction.None?
            && (r.phase == GameOver <==> Victor(s).Some?)
            && (r.phase != GameOver ==> r.phase == ActionSelection)
  {
    var pa := s.pendingAction.value;
    var x := AddCoins(s, pa.actor, 2).(pendingAction := None, phase := ActionSelection);
    VictorIgnoresCoins(s, pa.actor, 2);
    CloseTurn(x);
  }

  /** Tax that goes through pays the actor 3 coins, super tax 5, and leaves
      nothing pending; the phase is action selection afterwards, even when
      the victory check has named a winner. */
  lemma ResolveTaxSpec(s: State)
    requires InPlay(s) && s.pendingAction.Some? && s.pendingAction.value.action in {Tax, SuperTax}
    ensures var pa := s.pendingAction.value;
            var r := ResolvePendingAction(s);
            && r.players == Gain(s.players, pa.actor, if pa.action == Tax then 3 else 5)
            && r.deck == s.deck && r.pendingAction.None?
            && r.phase == ActionSelection
            && (Victor(s).Some? ==> r.winner == Victor(s))
  {
    var pa := s.pendingAction.value;
    var n := if pa.action == Tax then 3 else 5;
    var x := AddCoins(s, pa.actor, n).(pendingAction := None);
    assert x.players == Gain(s.players, pa.actor, n);
    assert ResolvePendingAction(s) == SettleTurn(x);
    VictorIgnoresCoins(s, pa.actor, n);
    SettleKeepsPlaying(x);
  }

  /** A steal that goes through takes 2 coins, a super steal 3, or as many
      as the target has if fewer, and gives them to the actor; a target with
      no coins loses none, and a missing target none either. Nothing is left
      pending and the phase is action selection afterwards, even when the
      victory check has named a winner. */
  lemma ResolveStealSpec(s: State)
    requires InPlay(s) && s.pendingAction.Some?
    requires s.pendingAction.value.action == Steal || s.pendingAction.value.action == SuperSteal
    requires s.pendingAction.value.target.Some? ==> s.pendingAction.value.target.value != s.pendingAction.value.actor
    ensures var pa := s.pendingAction.value;
            var r := ResolvePendingAction(s);
            var amount := if pa.action == Steal then 2 else 3;
            && r.deck == s.deck && r.pendingAction.None?
            && r.phase == ActionSelection
            && (pa.target.None? ==> r.players == s.players)
            && (pa.target.Some? ==>
                  var t := pa.target.value;
                  var take := if s.players[t].coins <= 0 then 0 else Min(amount, s.players[t].coins);
                  && r.players == Gain(Gain(s.players, t, -take), pa.actor, take)
                  && (Victor(s).Some? ==> r.winner == Victor(s)))
  {
    var pa := s.pendingAction.value;
    var amount := if pa.action == Steal then 2 else 3;
    var cleared := s.(pendingAction := None);
    assert ResolvePendingAction(s) == ResolveSteal(cleared, pa, amount);
    if pa.target.Some? {
      StealSettles(cleared, pa, amount);
    } else {
      StealMissing(cleared, pa, amount);
    }
  }

  /** A steal without a target just passes the turn. */
  lemma StealMissing(s: State, pa: PendingAction, amount: nat)
    requires InPlay(s) && ActionRefs(pa, s.players) && pa.target.None?
    ensures var r := ResolveSteal(s, pa, amount);
            && r.players == s.players && r.deck == s.deck && r.pendingAction == s.pendingAction
            && r.phase == ActionSelection
  {
  }

  /** The steal step on its own: the coins move, the deck and the pending
      records stay, and the victory check's winner is kept while the phase
      goes back to action selection. */
  lemma StealSettles(s: State, pa: PendingAction, amount: nat)
    requires InPlay(s) && ActionRefs(pa, s.players)
    requires pa.target.Some? && pa.target.value != pa.actor
    ensures var r := ResolveSteal(s, pa, amount);
            var t := pa.target.value;
            var take := if s.players[t].coins <= 0 then 0 else Min(amount, s.players[t].coins);
            && r.players == Gain(Gain(s.players, t, -take), pa.actor, take)
            && r.deck == s.deck && r.pendingAction == s.pendingAction
            && r.phase == ActionSelection
            && (Victor(s).Some? ==> r.winner == Victor(s))
  {
    var t := pa.target.value;
    if s.players[t].coins <= 0 {
      assert Gain(Gain(s.players, t, 0), pa.actor, 0) == s.players;
      SettleKeepsPlaying(s);
    } else {
      StealTakes(s, pa, amount);
    }
  }

  /** A steal from a target with coins: `take` coins move, nothing else but
      the turn changes. */
  lemma StealTakes(s: State, pa: PendingAction, amount: nat)
    requires InPlay(s) && ActionRefs(pa, s.players)
    requires pa.target.Some? && pa.target.value != pa.actor
    requires s.players[pa.target.value].coins > 0
    ensures var r := ResolveSteal(s, pa, amount);
            var t := pa.target.value;
            var take := Min(amount, s.players[t].coins);
            && r.players == Gain(Gain(s.players, t, -take), pa.actor, take)
            && r.deck == s.deck && r.pendingAction == s.pendingAction
            && r.phase == ActionSelection
            && (Victor(s).Some? ==> r.winner == Victor(s))
  {
    var t := pa.target.value;
    var take := Min(amount, s.players[t].coins);
    var x := Transfer(s, t, pa.actor, take);
    assert ResolveSteal(s, pa, amount) == SettleTurn(x);
    TransferGain(s, t, pa.actor, take);
    VictorIgnoresCoins(s, t, -take);
    VictorIgnoresCoins(AddCoins(s, t, -take), pa.actor, take);
    SettleKeepsPlaying(x);
  }

  /** A transfer changes the two players' coins and nothing else. */
  lemma TransferGain(s: State, from: PlayerId, to: PlayerId, take: int)
    requires InPlay(s) && from in s.players && to in s.players
    ensures Transfer(s, from, to, take) == s.(players := Gain(Gain(s.players, from, -take), to, take))
  {
  }

  /** A coup or an assassination that goes through leaves nothing pending
      and makes its target, if holding a card, choose one to lose, with the
      turn to pass afterwards; a Super Assassin gets its refund back first. */
  lemma ResolveLoss(s: State)
    requires InPlay(s) && s.pendingAction.Some?
    requires s.pendingAction.value.action in {Coup, Assassinate, SuperAssassinate}
    requires s.pendingAction.value.target.Some?
    requires HasCards(s.players[s.pendingAction.value.target.value])
    ensures var pa := s.pendingAction.value;
            var r := ResolvePendingAction(s);
            var refund := if pa.action == SuperAssassinate && pa.refundable then pa.cost else 0;
            && r.players == Gain(s.players, pa.actor, refund)
            && r.deck == s.deck && r.pendingAction.None?
            && r.phase == LossChoice && r.lossChooser == pa.target
            && r.postLoss == Some(NextTurnAfterLoss) && r.nextTurnAfterLoss
  {
    var pa := s.pendingAction.value;
    if pa.action == SuperAssassinate && pa.refundable && pa.cost == 0 {
      assert Gain(s.players, pa.actor, 0) == s.players;
    } else if pa.action != SuperAssassinate || !pa.refundable {
      assert Gain(s.players, pa.actor, 0) == s.players;
    }
  }

  /** An unblocked Super Assassin costs nothing in the end: the 3 coins it
      paid come back when it goes through. */
  lemma SuperAssassinRefund(s: State)
    requires InPlay(s) && s.pendingAction.Some?
    requires s.pendingAction.value == PendingAction(s.pendingAction.value.actor, SuperAssassinate,
                                                    s.pendingAction.value.target, Some(Assassin), true, 3, true)
    requires s.pendingAction.value.target.Some?
    requires HasCards(s.players[s.pendingAction.value.target.value])
    ensures var a := s.pendingAction.value.actor;
            ResolvePendingAction(s).players[a].coins == s.players[a].coins + 3
  {
    ResolveLoss(s);
  }
}
