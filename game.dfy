/** `GameState` of game.py as a class whose fields are the Python object's.
    Every method is proved to leave the object in the state, and to return the
    outcome, that the corresponding function of `Rules` gives; every shuffle
    picks some permutation of the cards and returns it as a ghost result. */
module Game {
  import opened CoupTypes
  import Rules

  /** `random.shuffle`: some permutation of `cards`, which one is not modelled. */
  method Shuffle(cards: seq<Role>) returns (mixed: seq<Role>)
    ensures multiset(mixed) == multiset(cards)
  {
    mixed :| multiset(mixed) == multiset(cards);
  }

  class GameState {
    const gameId: string
    const mode: Mode

    var phase: Phase
    var players: map<PlayerId, Player>
    var turnOrder: seq<PlayerId>
    var currentPlayerIndex: int
    var teamA: seq<PlayerId>
    var teamB: seq<PlayerId>
    var deck: seq<Role>
    var revealedCards: seq<Role>
    var winnerTeam: Option<Team>
    var pendingAction: Option<PendingAction>
    var pendingBlock: Option<PendingBlock>
    var exchangeActorId: Option<PlayerId>
    var exchangeCards: Option<seq<Role>>
    var lossChoicePlayerId: Option<PlayerId>
    var postLossAction: Option<PostLoss>
    var nextTurnAfterLoss: bool

    /** The object's fields as one value. */
    function Data(): State
      reads this
    {
      State(mode, phase, players, turnOrder, currentPlayerIndex, teamA, teamB, deck, revealedCards,
                  winnerTeam, pendingAction, pendingBlock, exchangeActorId, exchangeCards,
                  lossChoicePlayerId, postLossAction, nextTurnAfterLoss)
    }

    constructor (gameId: string, mode: Mode)
      ensures this.gameId == gameId
      ensures Data() == Rules.Initial(mode)
    {
      this.gameId := gameId;
      this.mode := mode;
      phase := Lobby;
      players := map[];
      turnOrder := [];
      currentPlayerIndex := 0;
      teamA := [];
      teamB := [];
      deck := [];
      revealedCards := [];
      winnerTeam := None;
      pendingAction := None;
      pendingBlock := None;
      exchangeActorId := None;
      exchangeCards := None;
      lossChoicePlayerId := None;
      postLossAction := None;
      nextTurnAfterLoss := false;
    }

    // ── Lobby and setup ──────────────────────────────────────────────────

    method AddPlayer(name: string, team: string) returns (result: Result<PlayerId>)
      requires Rules.Refs(Data())
      modifies this
      ensures (Data(), result) == Rules.AddPlayer(old(Data()), name, team)
    {
      if phase != Lobby {
        return Err(CannotJoinAfterStart);
      }
      if team != "A" && team != "B" {
        return Err(InvalidTeam);
      }
      var t := if team == "A" then A else B;
      var id: PlayerId := |players| + 1;
      Join(id, Player(name, t, 0, [], true));
      result := Ok(id);
    }

    method Join(id: PlayerId, p: Player)
      modifies this
      ensures Data() == Rules.Join(old(Data()), id, p)
    {
      players := players[id := p];
      if p.team == A {
        teamA := teamA + [id];
      } else {
        teamB := teamB + [id];
      }
    }

    method StartGame() returns (outcome: Outcome, ghost shuffled: seq<Role>)
      requires Rules.Refs(Data()) && |teamA| + |teamB| == |players|
      modifies this
      ensures multiset(shuffled) == multiset(FullDeck()) && |shuffled| == 15
      ensures (Data(), outcome) == Rules.StartGame(old(Data()), shuffled)
    {
      shuffled := FullDeck();
      if phase != Lobby {
        return Fail(GameAlreadyStarted), shuffled;
      }
      if |players| != 4 && |players| != 6 {
        return Fail(NeedFourOrSixPlayers), shuffled;
      }
      if |teamA| != |teamB| {
        return Fail(UnequalTeams), shuffled;
      }

      shuffled := Setup();
      outcome := Pass;
    }

    /** What `start_game` does once its checks pass. */
    method Setup() returns (ghost shuffled: seq<Role>)
      requires Rules.Refs(Data()) && 0 < |teamA| == |teamB| && 4 * |teamA| <= 15
      modifies this
      ensures multiset(shuffled) == multiset(FullDeck()) && |shuffled| == 15
      ensures Data() == Rules.Setup(old(Data()), shuffled)
    {
      SeatPlayers();
      Rules.InterleaveAllIn(teamA, teamB, players);
      shuffled := ShuffleNewDeck();
      DealCards();
      phase := ActionSelection;
    }

    /** The seating of `start_game`: A1, B1, A2, B2, ... */
    method SeatPlayers()
      requires |teamA| == |teamB|
      modifies this
      ensures Data() == old(Data()).(turnOrder := Rules.Interleave(old(teamA), old(teamB)), current := 0)
    {
      var order: seq<PlayerId> := [];
      var i := 0;
      while i < |teamA|
        invariant 0 <= i <= |teamA|
        invariant |order| == 2 * i
        invariant forall j :: 0 <= j < |order| ==> order[j] == if j % 2 == 0 then teamA[j / 2] else teamB[j / 2]
      {
        order := order + [teamA[i], teamB[i]];
        i := i + 1;
      }
      assert order == Rules.Interleave(teamA, teamB);
      turnOrder := order;
      currentPlayerIndex := 0;
    }

    /** The fresh deck of `start_game`, shuffled. */
    method ShuffleNewDeck() returns (ghost shuffled: seq<Role>)
      modifies this
      ensures multiset(shuffled) == multiset(FullDeck())
      ensures |shuffled| == 15
      ensures Data() == old(Data()).(deck := shuffled)
    {
      var mixed := Shuffle(FullDeck());
      deck := mixed;
      shuffled := mixed;
      assert |shuffled| == |multiset(shuffled)| == 15;
    }

    /** The dealing loop of `start_game`: each player in turn order draws two
        cards off the end of the deck and is reset to 0 coins and alive. */
    method DealCards()
      requires Rules.AllIn(turnOrder, players) && 2 * |turnOrder| <= |deck|
      modifies this
      ensures Data() == old(Data()).(players := Rules.Deal(old(turnOrder), old(players), old(deck)).0,
                                     deck := Rules.Deal(old(turnOrder), old(players), old(deck)).1)
    {
      var order, dealt, rest := turnOrder, players, deck;
      var k := 0;
      while k < |order|
        invariant 0 <= k <= |order|
        invariant |rest| == |old(deck)| - 2 * k
        invariant Rules.AllIn(order[k..], dealt)
        invariant Rules.Deal(order[k..], dealt, rest) == Rules.Deal(order, old(players), old(deck))
        modifies {}
      {
        var pid := order[k];
        var first := rest[|rest| - 1];
        var second := rest[|rest| - 2];
        Rules.DealStep(order[k..], dealt, rest, first, second);
        dealt := dealt[pid := dealt[pid].(cards := [first, second], coins := 0, alive := true)];
        rest := rest[..|rest| - 2];
        assert order[k..][1..] == order[k + 1..];
        k := k + 1;
      }
      assert order[k..] == [];
      players := dealt;
      deck := rest;
    }

    // ── Helpers ──────────────────────────────────────────────────────────

    /** `_draw_card`: pops the last card. Every caller has a card to pop. */
    method DrawCard() returns (card: Role)
      requires |deck| > 0
      modifies this
      ensures card == old(deck)[|old(deck)| - 1]
      ensures Data() == old(Data()).(deck := old(deck)[..|old(deck)| - 1])
    {
      card := deck[|deck| - 1];
      deck := deck[..|deck| - 1];
    }

    method CheckVictory()
      requires Rules.InPlay(Data())
      modifies this
      ensures Data() == Rules.CheckVictory(old(Data()))
    {
      Rules.AllInMembers(teamA, players);
      Rules.AllInMembers(teamB, players);
      var aliveA := Rules.HoldersIn(teamA, players);
      var aliveB := Rules.HoldersIn(teamB, players);
      assert |aliveA| > 0 <==> Rules.TeamHasHolder(players, teamA) by {
        if |aliveA| > 0 { assert aliveA[0] in aliveA; }
      }
      assert |aliveB| > 0 <==> Rules.TeamHasHolder(players, teamB) by {
        if |aliveB| > 0 { assert aliveB[0] in aliveB; }
      }
      if |aliveA| > 0 && |aliveB| > 0 {
        return;
      }
      if |aliveA| > 0 && |aliveB| == 0 {
        winnerTeam := Some(A);
        phase := GameOver;
      } else if |aliveB| > 0 && |aliveA| == 0 {
        winnerTeam := Some(B);
        phase := GameOver;
      }
    }

    method AdvanceTurn()
      requires Rules.InPlay(Data())
      modifies this
      ensures Data() == Rules.AdvanceTurn(old(Data()))
    {
      if phase == GameOver {
        return;
      }
      var n := |turnOrder|;
      var idx := currentPlayerIndex;
      var k := 0;
      while k < n
        invariant 0 <= k <= n
        invariant 0 <= idx < n
        invariant Rules.Seek(turnOrder, players, currentPlayerIndex, n) == Rules.Seek(turnOrder, players, idx, n - k)
        modifies {}
      {
        var prev := idx;
        idx := (idx + 1) % n;
        Rules.AllInIndex(turnOrder, players, idx);
        if |players[turnOrder[idx]].cards| > 0 {
          assert Rules.Seek(turnOrder, players, prev, n - k) == idx;
          break;
        }
        k := k + 1;
      }
      currentPlayerIndex := idx;
    }

    /** Back to action selection and on to the next player. */
    method NextTurn()
      requires Rules.InPlay(Data())
      modifies this
      ensures Data() == Rules.NextTurn(old(Data()))
    {
      phase := ActionSelection;
      AdvanceTurn();
    }

    /** `_check_victory`, back to action selection, and on to the next player. */
    method SettleTurn()
      requires Rules.InPlay(Data())
      modifies this
      ensures Data() == Rules.SettleTurn(old(Data()))
    {
      CheckVictory();
      phase := ActionSelection;
      AdvanceTurn();
    }

    method ReplaceClaimCard(pid: PlayerId, role: Role) returns (ghost shuffled: seq<Role>)
      requires Rules.InPlay(Data()) && pid in players
      modifies this
      ensures multiset(shuffled) == multiset(old(deck)) + multiset{role}
      ensures |shuffled| == |old(deck)| + 1
      ensures Data() == Rules.ReplaceClaimCard(old(Data()), pid, role, shuffled)
    {
      shuffled := deck + [role];
      var p := players[pid];
      if role !in p.cards {
        return;
      }
      var idx := Rules.IndexOf(p.cards, role);
      var mixed := Shuffle(deck + [role]);
      deck := mixed;
      shuffled := mixed;
      assert |shuffled| == |multiset(shuffled)|;
      var card := DrawCard();
      players := players[pid := p.(cards := p.cards[idx := card])];
    }

    method StartLossChoice(victim: PlayerId, post: PostLoss)
      requires Rules.InPlay(Data()) && victim in players
      modifies this
      ensures Data() == Rules.StartLossChoice(old(Data()), victim, post)
    {
      if |players[victim].cards| == 0 {
        SetPostLoss(None, false);
        return;
      }
      lossChoicePlayerId := Some(victim);
      phase := LossChoice;
      SetPostLoss(Some(post), post == NextTurnAfterLoss);
    }

    method SetPostLoss(post: Option<PostLoss>, nextTurn: bool)
      modifies this
      ensures Data() == old(Data()).(postLoss := post, nextTurnAfterLoss := nextTurn)
    {
      postLossAction := post;
      nextTurnAfterLoss := nextTurn;
    }

    method AddCoins(pid: PlayerId, delta: int)
      requires Rules.Refs(Data()) && pid in players
      modifies this
      ensures Data() == Rules.AddCoins(old(Data()), pid, delta)
    {
      players := players[pid := players[pid].(coins := players[pid].coins + delta)];
    }

    method StartExchange(actorId: PlayerId, drawCount: nat)
      requires Rules.InPlay(Data()) && actorId in players
      modifies this
      ensures Data() == Rules.StartExchange(old(Data()), actorId, drawCount)
    {
      var drawn: seq<Role> := [];
      var rest := deck;
      var k := 0;
      while k < drawCount
        invariant 0 <= k <= drawCount
        invariant Rules.DrawUpTo(deck, drawCount).0 == Rules.DrawUpTo(rest, drawCount - k).0
        invariant Rules.DrawUpTo(deck, drawCount).1 == drawn + Rules.DrawUpTo(rest, drawCount - k).1
        modifies {}
      {
        if |rest| == 0 {
          break;
        }
        var card := rest[|rest| - 1];
        assert Rules.DrawUpTo(rest, drawCount - k).1 == [card] + Rules.DrawUpTo(rest[..|rest| - 1], drawCount - k - 1).1;
        rest := rest[..|rest| - 1];
        drawn := drawn + [card];
        k := k + 1;
      }
      assert Rules.DrawUpTo(rest, drawCount - k) == (rest, []);
      assert drawn + Rules.DrawUpTo(rest, drawCount - k).1 == drawn;
      deck := rest;
      OpenSwap(actorId, players[actorId].cards + drawn);
    }

    method OpenSwap(actorId: PlayerId, pool: seq<Role>)
      modifies this
      ensures Data() == old(Data()).(exchangeActor := Some(actorId), exchangeCards := Some(pool), phase := SwapChoice)
    {
      exchangeActorId := Some(actorId);
      exchangeCards := Some(pool);
      phase := SwapChoice;
    }

    method ResolveForeignAid(pa: PendingAction)
      requires Rules.InPlay(Data()) && Rules.ActionRefs(pa, players)
      modifies this
      ensures Data() == Rules.ResolveForeignAid(old(Data()), pa)
    {
      AddCoins(pa.actor, 2);
      pendingAction := None;
      phase := ActionSelection;
      CheckVictory();
      AdvanceTurn();
    }

    method ResolveTax(pa: PendingAction, amount: int)
      requires Rules.InPlay(Data()) && Rules.ActionRefs(pa, players)
      modifies this
      ensures Data() == Rules.ResolveTax(old(Data()), pa, amount)
    {
      AddCoins(pa.actor, amount);
      pendingAction := None;
      SettleTurn();
    }

    method Transfer(from: PlayerId, to: PlayerId, take: int)
      requires Rules.InPlay(Data()) && from in players && to in players
      modifies this
      ensures Data() == Rules.Transfer(old(Data()), from, to, take)
    {
      AddCoins(from, -take);
      AddCoins(to, take);
    }

    method ResolveSteal(pa: PendingAction, amount: int)
      requires Rules.InPlay(Data()) && Rules.ActionRefs(pa, players)
      modifies this
      ensures Data() == Rules.ResolveSteal(old(Data()), pa, amount)
    {
      if pa.target.None? {
        NextTurn();
        return;
      }
      var t := pa.target.value;
      if players[t].coins <= 0 {
        SettleTurn();
        return;
      }
      var take := Rules.Min(amount, players[t].coins);
      Transfer(t, pa.actor, take);
      SettleTurn();
    }

    method ResolveAssassinate(pa: PendingAction)
      requires Rules.InPlay(Data()) && Rules.ActionRefs(pa, players)
      modifies this
      ensures Data() == Rules.ResolveAssassinate(old(Data()), pa)
    {
      if pa.target.None? {
        NextTurn();
        return;
      }
      if pa.action == SuperAssassinate && pa.cost != 0 && pa.refundable {
        AddCoins(pa.actor, pa.cost);
      }
      StartLossChoice(pa.target.value, NextTurnAfterLoss);
    }

    method ResolvePendingAction()
      requires Rules.InPlay(Data())
      modifies this
      ensures Data() == Rules.ResolvePendingAction(old(Data()))
    {
      if pendingAction.None? {
        return;
      }
      var pa := pendingAction.value;
      match pa.action {
        case ForeignAid =>
          ResolveForeignAid(pa);
        case Coup =>
          pendingAction := None;
          if pa.target.None? {
            NextTurn();
          } else {
            StartLossChoice(pa.target.value, NextTurnAfterLoss);
          }
        case Tax =>
          ResolveTax(pa, 3);
        case SuperTax =>
          ResolveTax(pa, 5);
        case Steal =>
          pendingAction := None;
          ResolveSteal(pa, 2);
        case SuperSteal =>
          pendingAction := None;
          ResolveSteal(pa, 3);
        case Exchange =>
          StartExchange(pa.actor, 2);
          pendingAction := None;
        case SuperExchange =>
          StartExchange(pa.actor, 3);
          pendingAction := None;
        case Assassinate =>
          pendingAction := None;
          ResolveAssassinate(pa);
        case SuperAssassinate =>
          pendingAction := None;
          ResolveAssassinate(pa);
        case _ =>
          pendingAction := None;
          NextTurn();
      }
    }

    method BlockStands()
      requires Rules.InPlay(Data())
      modifies this
      ensures Data() == Rules.BlockStands(old(Data()))
    {
      if pendingAction.None? || pendingBlock.None? {
        return;
      }
      pendingAction := None;
      pendingBlock := None;
      phase := ActionSelection;
      CheckVictory();
      AdvanceTurn();
    }

    method BlockFails()
      requires Rules.InPlay(Data())
      modifies this
      ensures Data() == Rules.BlockFails(old(Data()))
    {
      if pendingAction.None? || pendingBlock.None? {
        return;
      }
      pendingBlock := None;
      ResolvePendingAction();
    }

    // ── Main action entry ────────────────────────────────────────────────

    /** The "clear old state" step of `player_action`, in two halves. */
    method ClearPending()
      requires Rules.InPlay(Data())
      modifies this
      ensures Data() == Rules.ClearPending(old(Data()))
    {
      ClearClaims();
      ClearLoss();
    }

    method ClearClaims()
      modifies this
      ensures Data() == old(Data()).(pendingAction := None, pendingBlock := None, exchangeActor := None, exchangeCards := None)
    {
      pendingAction := None;
      pendingBlock := None;
      exchangeActorId := None;
      exchangeCards := None;
    }

    method ClearLoss()
      modifies this
      ensures Data() == old(Data()).(lossChooser := None, postLoss := None, nextTurnAfterLoss := false)
    {
      lossChoicePlayerId := None;
      postLossAction := None;
      nextTurnAfterLoss := false;
    }

    method PlayerAction(pid: PlayerId, action: string, target: Option<PlayerId>) returns (outcome: Outcome)
      requires Rules.Refs(Data())
      modifies this
      ensures (Data(), outcome) == Rules.PlayerAction(old(Data()), pid, action, target)
    {
      if phase != ActionSelection {
        return Fail(CannotActNow);
      }
      if pid != turnOrder[currentPlayerIndex] {
        return Fail(NotYourTurn);
      }
      Rules.AllInIndex(turnOrder, players, currentPlayerIndex);
      var player := players[pid];
      if |player.cards| == 0 {
        return Fail(NoInfluence);
      }
      if StartsWithSuper(action) && action != "super_coup" && |player.cards| < 2 {
        return Fail(NeedTwoCopies);
      }
      var threshold := if mode == SuperTeam then 11 else 10;
      var mayCoup := action == "coup" || (mode == SuperTeam && action == "super_coup");
      if player.coins >= threshold && !mayCoup {
        return Fail(MustCoup(threshold));
      }
      if target.Some? {
        if target.value !in players {
          return Fail(InvalidTarget);
        }
        var t := players[target.value];
        if t.team == player.team {
          return Fail(CannotTargetTeammate);
        }
        if |t.cards| == 0 {
          return Fail(TargetHasNoInfluence);
        }
      }

      ClearPending();

      outcome := DispatchAction(pid, action, target);
    }

    /** `player_action` from "Income" on. */
    method DispatchAction(pid: PlayerId, action: string, target: Option<PlayerId>) returns (outcome: Outcome)
      requires Rules.InPlay(Data()) && pid in players && (target.Some? ==> target.value in players)
      modifies this
      ensures (Data(), outcome) == Rules.DispatchAction(old(Data()), pid, action, target)
    {
      var a := ParseAction(action);
      match a {
        case Income =>
          AddCoins(pid, 1);
          CheckVictory();
          AdvanceTurn();
          return Pass;
        case ForeignAid =>
          Announce(PendingAction(pid, ForeignAid, None, None, false, 0, false), BlockWindow);
          return Pass;
        case Coup =>
          if target.None? {
            return Fail(CoupNeedsTarget);
          }
          if players[pid].coins < 7 {
            return Fail(NotEnoughCoinsForCoup);
          }
          AddCoins(pid, -7);
          Announce(PendingAction(pid, Coup, target, None, false, 7, false), BlockWindow);
          return Pass;
        case SuperCoup =>
          if mode != SuperTeam {
            return Fail(SuperCoupOnlyInSuperMode);
          }
          if target.None? {
            return Fail(SuperCoupNeedsTarget);
          }
          if players[pid].coins < 12 {
            return Fail(NotEnoughCoinsForSuperCoup);
          }
          AddCoins(pid, -12);
          pendingAction := None;
          StartLossChoice(target.value, NextTurnAfterLoss);
          return Pass;
        case _ =>
          outcome := ClaimAction(pid, action, target);
      }
    }


    /** The announcement of an action: it is pending, and the window opens. */
    method Announce(pa: PendingAction, window: Phase)
      modifies this
      ensures Data() == old(Data()).(pendingAction := Some(pa), phase := window)
    {
      pendingAction := Some(pa);
      phase := window;
    }

    /** The role-based (challengeable) actions of `player_action`. */
    method ClaimAction(pid: PlayerId, action: string, target: Option<PlayerId>) returns (outcome: Outcome)
      requires Rules.InPlay(Data()) && pid in players && (target.Some? ==> target.value in players)
      modifies this
      ensures Data() == Rules.ClaimAction(old(Data()), pid, action, target).0
      ensures outcome == Rules.ClaimAction(old(Data()), pid, action, target).1
    {
      var a := ParseAction(action);
      // Every other action is announced as a claim on a role
      var claim := ClaimOf(a);
      if claim.None? {
        return Fail(UnknownAction(action));
      }
      if mode == NormalTeam && StartsWithSuper(action) {
        return Fail(SuperOnlyInSuperMode);
      }
      var c := claim.value;
      if c.needsTarget && target.None? {
        return Fail(ActionNeedsTarget);
      }
      if c.cost != 0 {
        if players[pid].coins < c.cost {
          return Fail(NotEnoughCoins);
        }
        AddCoins(pid, -(c.cost as int));
      }
      Announce(PendingAction(pid, a, target, Some(c.role), c.two, c.cost, c.refundable), ChallengeWindow);
      outcome := Pass;
    }

    // ── Challenge resolution ─────────────────────────────────────────────

    method PlayerChallenge(cid: PlayerId) returns (outcome: Outcome, ghost shuffled: seq<Role>)
      requires Rules.Refs(Data()) && cid in players
      modifies this
      ensures |shuffled| == |old(deck)| + 1
      ensures Rules.ChallengedClaim(old(Data())).Some? ==>
                multiset(shuffled) == multiset(old(deck)) + multiset{Rules.ChallengedClaim(old(Data())).value}
      ensures (Data(), outcome) == Rules.PlayerChallenge(old(Data()), cid, shuffled)
    {
      shuffled := deck + [if Rules.ChallengedClaim(Data()).Some? then Rules.ChallengedClaim(Data()).value else Duke];
      if phase != ChallengeWindow {
        return Fail(NoActionToChallenge), shuffled;
      }
      var challenger := players[cid];
      if pendingBlock.Some? {
        var pb := pendingBlock.value;
        var blocker := players[pb.blocker];
        if challenger.team == blocker.team {
          return Fail(CannotChallengeTeammateBlock), shuffled;
        }
        if pb.role.None? {
          return Fail(BlockNotChallengeable), shuffled;
        }
        var role := pb.role.value;
        if Rules.ClaimTruthful(blocker.cards, role, pb.two) {
          shuffled := ReplaceClaimCard(pb.blocker, role);
          StartLossChoice(cid, BlockStandsAfterLoss);
        } else {
          StartLossChoice(pb.blocker, BlockFailsAfterLoss);
        }
        return Pass, shuffled;
      }

      if pendingAction.None? {
        return Fail(NoPendingAction), shuffled;
      }
      var pa := pendingAction.value;
      var actor := players[pa.actor];
      if challenger.team == actor.team {
        return Fail(CannotChallengeTeammate), shuffled;
      }
      if pa.role.None? {
        return Fail(ActionNotChallengeable), shuffled;
      }
      var role := pa.role.value;
      if Rules.ClaimTruthful(actor.cards, role, pa.two) {
        shuffled := ReplaceClaimCard(pa.actor, role);
        StartLossChoice(cid, ResolveAfterLoss);
      } else {
        StartLossChoice(pa.actor, CancelAfterLoss);
      }
      outcome := Pass;
    }

    method PlayerNoChallenge(pid: PlayerId) returns (outcome: Outcome)
      requires Rules.Refs(Data())
      modifies this
      ensures (Data(), outcome) == Rules.PlayerNoChallenge(old(Data()), pid)
    {
      if phase != ChallengeWindow {
        return Fail(NotInChallengeWindow);
      }
      if pendingBlock.Some? {
        BlockStands();
        return Pass;
      }
      if pendingAction.None? {
        return Fail(NoPendingAction);
      }
      if IsBlockable(pendingAction.value.action) {
        phase := BlockWindow;
      } else {
        ResolvePendingAction();
      }
      outcome := Pass;
    }

    // ── Blocking ─────────────────────────────────────────────────────────

    method PlayerBlock(pid: PlayerId, blockType: string) returns (outcome: Outcome)
      requires Rules.Refs(Data()) && pid in players
      modifies this
      ensures (Data(), outcome) == Rules.PlayerBlock(old(Data()), pid, blockType)
    {
      if phase != BlockWindow {
        return Fail(NotInBlockWindow);
      }
      if pendingAction.None? {
        return Fail(NoPendingActionToBlock);
      }
      if pendingBlock.Some? {
        return Fail(BlockAlreadyDeclared);
      }
      var pa := pendingAction.value;
      var actor := players[pa.actor];
      var blocker := players[pid];
      var isTarget := pa.target == Some(pid);
      var kind := ParseBlock(blockType);
      var role: Role;
      var two: bool;
      match kind {
        case None =>
          return Fail(UnknownBlockType);
        case Some(BlockForeignAid) =>
          if pa.action != ForeignAid {
            return Fail(CannotBlockWithDuke);
          }
          if blocker.team == actor.team {
            return Fail(CannotBlockTeammateForeignAid);
          }
          role, two := Duke, false;
        case Some(BlockStealCaptain) =>
          if pa.action != Steal && pa.action != SuperSteal {
            return Fail(CannotBlockAsCaptainOrAmbassador);
          }
          if !isTarget {
            return Fail(OnlyTargetBlocksSteal);
          }
          role, two := Captain, false;
        case Some(BlockStealAmbassador) =>
          if pa.action != Steal && pa.action != SuperSteal {
            return Fail(CannotBlockAsCaptainOrAmbassador);
          }
          if !isTarget {
            return Fail(OnlyTargetBlocksSteal);
          }
          role, two := Ambassador, false;
        case Some(BlockAssassinate) =>
          if pa.action != Assassinate && pa.action != SuperAssassinate {
            return Fail(CannotBlockAsContessa);
          }
          if !isTarget {
            return Fail(OnlyTargetBlocksAssassinate);
          }
          role, two := Contessa, false;
        case Some(BlockCoup) =>
          if pa.action != Coup {
            return Fail(OnlyCoupsBlockedBySuperContessa);
          }
          if mode != SuperTeam {
            return Fail(SuperContessaOnlyInSuperMode);
          }
          if !isTarget {
            return Fail(OnlyTargetBlocksCoup);
          }
          if |blocker.cards| < 2 {
            return Fail(NeedTwoContessas);
          }
          role, two := Contessa, true;
      }
      pendingBlock := Some(PendingBlock(pid, kind.value, Some(role), two));
      phase := ChallengeWindow;
      outcome := Pass;
    }

    method PlayerNoBlock(pid: PlayerId) returns (outcome: Outcome)
      requires Rules.Refs(Data())
      modifies this
      ensures (Data(), outcome) == Rules.PlayerNoBlock(old(Data()), pid)
    {
      if phase != BlockWindow {
        return Fail(NotInBlockWindow);
      }
      if pendingAction.None? {
        return Fail(NoPendingActionToResolve);
      }
      ResolvePendingAction();
      outcome := Pass;
    }

    // ── Loss choice ──────────────────────────────────────────────────────

    method ChooseLossCard(pid: PlayerId, cardIndex: int) returns (outcome: Outcome)
      requires Rules.Refs(Data())
      modifies this
      ensures (Data(), outcome) == Rules.ChooseLossCard(old(Data()), pid, cardIndex)
    {
      if phase != LossChoice {
        return Fail(NotChoosingLoss);
      }
      if Some(pid) != lossChoicePlayerId {
        return Fail(NotTheLossChooser);
      }
      var victim := players[pid];
      if !(0 <= cardIndex < |victim.cards|) {
        return Fail(InvalidCardIndex);
      }
      LoseCard(pid, cardIndex);
      CheckVictory();
      if phase == GameOver {
        return Pass;
      }
      var post := postLossAction;
      postLossAction := None;
      AfterLoss(post);
      outcome := Pass;
    }

    /** The first half of `choose_loss_card`: the chosen card is revealed. */
    method LoseCard(pid: PlayerId, cardIndex: nat)
      requires Rules.Refs(Data()) && pid in players && cardIndex < |players[pid].cards|
      modifies this
      ensures Data() == Rules.LoseCard(old(Data()), pid, cardIndex)
    {
      var victim := players[pid];
      var lost := victim.cards[cardIndex];
      var rest := victim.cards[..cardIndex] + victim.cards[cardIndex + 1..];
      victim := victim.(cards := rest);
      revealedCards := revealedCards + [lost];
      if |victim.cards| == 0 {
        victim := victim.(alive := false);
      }
      players := players[pid := victim];
      lossChoicePlayerId := None;
    }

    /** What `choose_loss_card` does once the card is gone and the game goes on. */
    method AfterLoss(post: Option<PostLoss>)
      requires Rules.InPlay(Data())
      modifies this
      ensures Data() == Rules.AfterLoss(old(Data()), post)
    {
      match post {
        case Some(ResolveAfterLoss) =>
          ResolvePendingAction();
        case Some(CancelAfterLoss) =>
          pendingAction := None;
          pendingBlock := None;
          NextTurn();
        case Some(BlockStandsAfterLoss) =>
          BlockStands();
        case Some(BlockFailsAfterLoss) =>
          BlockFails();
        case _ =>
          if nextTurnAfterLoss {
            nextTurnAfterLoss := false;
            NextTurn();
          } else {
            phase := ActionSelection;
          }
      }
    }

    // ── Ambassador exchange ──────────────────────────────────────────────

    method FinishExchange(pid: PlayerId, keepIndices: seq<int>) returns (outcome: Outcome, ghost shuffled: seq<Role>)
      requires Rules.Refs(Data())
      modifies this
      ensures outcome.Pass? ==>
                multiset(shuffled) == multiset(old(deck)) + multiset(Rules.ExchangeReturned(old(Data()), keepIndices))
      ensures (Data(), outcome) == Rules.FinishExchange(old(Data()), pid, keepIndices, shuffled)
    {
      shuffled := deck;
      if phase != SwapChoice {
        return Fail(NotInExchange), shuffled;
      }
      if Some(pid) != exchangeActorId {
        return Fail(NotExchanging), shuffled;
      }
      if exchangeCards.None? {
        return Fail(NoExchangeCards), shuffled;
      }
      var actor := players[pid];
      var pool := exchangeCards.value;
      if |keepIndices| != |actor.cards| {
        return Fail(MustKeepExactlyNumCards), shuffled;
      }
      if Rules.AnyOutside(keepIndices, |pool|) {
        return Fail(InvalidKeepIndex), shuffled;
      }
      var keepSet := set i | i in keepIndices;
      var newHand := Rules.Select(pool, keepSet, true);
      var returned := Rules.Select(pool, keepSet, false);
      shuffled := SwapHand(pid, newHand, returned);
      CheckVictory();
      AdvanceTurn();
      outcome := Pass;
    }

    /** The swap of `finish_exchange`: the actor keeps `newHand`, the other
        cards go back into the deck, which is shuffled. */
    method SwapHand(pid: PlayerId, newHand: seq<Role>, returned: seq<Role>) returns (ghost shuffled: seq<Role>)
      requires Rules.InPlay(Data()) && pid in players
      modifies this
      ensures multiset(shuffled) == multiset(old(deck)) + multiset(returned)
      ensures Data() == Rules.SwapHand(old(Data()), pid, newHand, shuffled)
    {
      players := players[pid := players[pid].(cards := newHand)];
      var mixed := Shuffle(deck + returned);
      deck := mixed;
      shuffled := mixed;
      EndExchange();
    }

    method EndExchange()
      modifies this
      ensures Data() == old(Data()).(exchangeActor := None, exchangeCards := None, phase := ActionSelection)
    {
      exchangeActorId := None;
      exchangeCards := None;
      phase := ActionSelection;
    }
  }
}
