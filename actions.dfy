/** The rules of `player_action`: which moves it accepts, what an accepted
    move costs and what it leaves pending. */
module Actions {
  import opened CoupTypes
  import opened Rules

  /** The `super_*` actions of Super Team mode. */
  predicate IsSuper(a: Action) {
    a == SuperCoup || a == SuperTax || a == SuperSteal || a == SuperExchange || a == SuperAssassinate
  }

  /** The actions that must name a target. */
  predicate NeedsTarget(a: Action) {
    a == Coup || a == SuperCoup || a == Steal || a == SuperSteal || a == Assassinate || a == SuperAssassinate
  }

  /** The coins an action costs up front: a coup 7, a super coup 12, an
      assassination (plain or super) 3, anything else nothing. */
  function ActionCost(a: Action): nat {
    match a
    case Coup => 7
    case SuperCoup => 12
    case Assassinate => 3
    case SuperAssassinate => 3
    case _ => 0
  }

  /** The number of coins from which a player must coup: 11 in Super Team
      mode, 10 otherwise. */
  function CoupThreshold(m: Mode): int {
    if m == SuperTeam then 11 else 10
  }

  /** The actions open to a player at or above the coup threshold. */
  predicate MayCoup(m: Mode, a: Action) {
    a == Coup || (m == SuperTeam && a == SuperCoup)
  }

  /** The checks `player_action` makes before it clears the old pending
      state: the right phase and player, an actor with influence, two cards
      for a super ability, a coup when rich, and a valid enemy target. */
  ghost predicate ActorChecks(s: State, pid: PlayerId, action: string, target: Option<PlayerId>)
    requires Refs(s)
  {
    var a := ParseAction(action);
    && s.phase == ActionSelection
    && pid == s.turnOrder[s.current]
    && pid in s.players
    && |s.players[pid].cards| > 0
    && (StartsWithSuper(action) && a != SuperCoup ==> |s.players[pid].cards| >= 2)
    && (s.players[pid].coins >= CoupThreshold(s.mode) ==> MayCoup(s.mode, a))
    && (target.Some? ==>
          target.value in s.players
          && s.players[target.value].team != s.players[pid].team
          && |s.players[target.value].cards| > 0)
  }

  /** The checks `player_action` makes once the old pending state is
      cleared: a known action, a super ability only in Super Team mode, a
      target where one is needed, and the coins the action costs. */
  predicate MoveChecks(m: Mode, coins: int, a: Action, target: Option<PlayerId>) {
    && !a.Unknown?
    && (IsSuper(a) ==> m == SuperTeam)
    && (NeedsTarget(a) ==> target.Some?)
    && (ActionCost(a) != 0 ==> coins >= ActionCost(a))
  }

  /** Every rule a move must meet for `player_action` to accept it. */
  ghost predicate ActionLegal(s: State, pid: PlayerId, action: string, target: Option<PlayerId>)
    requires Refs(s)
  {
    ActorChecks(s, pid, action, target)
    && MoveChecks(s.mode, s.players[pid].coins, ParseAction(action), target)
  }

  /** For a known action, `action.startswith("super_")` tells the super abilities apart. */
  lemma SuperPrefix(action: string)
    requires !ParseAction(action).Unknown?
    ensures StartsWithSuper(action) <==> IsSuper(ParseAction(action))
  {
    var a := ParseAction(action);
    assert action == ActionName(a);
    if IsSuper(a) {
      assert action[..6] == "super_";
    } else if |action| >= 6 {
      assert action[..6][0] == action[0] != 's';
    }
  }

  /** The string tests of the coup rule agree with the parsed action. */
  lemma CoupNames(action: string)
    ensures action == "coup" <==> ParseAction(action) == Coup
    ensures action == "super_coup" <==> ParseAction(action) == SuperCoup
  {
  }

  /** A failed common check leaves the state untouched; once they pass,
      `player_action` clears the old pending state and dispatches. */
  lemma PlayerActionSteps(s: State, pid: PlayerId, action: string, target: Option<PlayerId>)
    requires Refs(s)
    ensures var r := PlayerAction(s, pid, action, target);
            !ActorChecks(s, pid, action, target) ==> r.0 == s && r.1.Fail?
    ensures ActorChecks(s, pid, action, target) ==>
              PlayerAction(s, pid, action, target) == DispatchAction(ClearPending(s), pid, action, target)
  {
    CoupNames(action);
    if s.phase == ActionSelection {
      AllInIndex(s.turnOrder, s.players, s.current);
    }
  }

  /** A role-based action is accepted exactly when the later checks pass. */
  lemma ClaimPasses(s: State, pid: PlayerId, action: string, target: Option<PlayerId>)
    requires InPlay(s) && pid in s.players && (target.Some? ==> target.value in s.players)
    requires ClaimOf(ParseAction(action)).Some?
    ensures ClaimAction(s, pid, action, target).1 == Pass
            <==> MoveChecks(s.mode, s.players[pid].coins, ParseAction(action), target)
  {
    SuperPrefix(action);
    ClaimTable(ParseAction(action));
  }

  /** The `ROLE_ACTIONS` table agrees with `NeedsTarget` and `ActionCost`. */
  lemma ClaimTable(a: Action)
    requires ClaimOf(a).Some?
    ensures !a.Unknown? && a != Income && a != ForeignAid && a != Coup && a != SuperCoup
    ensures ClaimOf(a).value.needsTarget == NeedsTarget(a)
    ensures ClaimOf(a).value.cost == ActionCost(a)
  {
  }

  /** After the common checks, a move is accepted exactly when the later
      checks pass. */
  lemma DispatchPasses(s: State, pid: PlayerId, action: string, target: Option<PlayerId>)
    requires InPlay(s) && pid in s.players && (target.Some? ==> target.value in s.players)
    ensures DispatchAction(s, pid, action, target).1 == Pass
            <==> MoveChecks(s.mode, s.players[pid].coins, ParseAction(action), target)
  {
    var a := ParseAction(action);
    if ClaimOf(a).Some? {
      ClaimPasses(s, pid, action, target);
    }
  }

  /** `player_action` accepts a move exactly when it meets every rule. */
  lemma PlayerActionLegal(s: State, pid: PlayerId, action: string, target: Option<PlayerId>)
    requires Refs(s)
    ensures PlayerAction(s, pid, action, target).1 == Pass <==> ActionLegal(s, pid, action, target)
  {
    PlayerActionSteps(s, pid, action, target);
    if ActorChecks(s, pid, action, target) {
      DispatchPasses(ClearPending(s), pid, action, target);
    }
  }

  /** The players after `pid` has paid what `a` costs. */
  function Paid(players: map<PlayerId, Player>, pid: PlayerId, a: Action): map<PlayerId, Player>
    requires pid in players
  {
    players[pid := players[pid].(coins := players[pid].coins - ActionCost(a))]
  }

  /** The record an accepted move of `a` leaves pending (for every action but
      income and super coup): a role-based action carries the claim of its
      `ROLE_ACTIONS` row and its target; foreign aid has no target; a coup
      carries its cost. */
  function Announced(pid: PlayerId, a: Action, target: Option<PlayerId>): PendingAction {
    match ClaimOf(a)
    case Some(c) => PendingAction(pid, a, target, Some(c.role), c.two, c.cost, c.refundable)
    case None => PendingAction(pid, a, if a == ForeignAid then None else target, None, false, ActionCost(a), false)
  }

  /** An accepted income gives the actor one coin, leaves nothing pending and
      ends the turn (or the game). */
  lemma IncomeEffect(s: State, pid: PlayerId, action: string, target: Option<PlayerId>)
    requires Refs(s) && ParseAction(action) == Income
    requires PlayerAction(s, pid, action, target).1 == Pass
    ensures pid in s.players
    ensures var r := PlayerAction(s, pid, action, target).0;
            && r.players == s.players[pid := s.players[pid].(coins := s.players[pid].coins + 1)]
            && r.pendingAction.None? && r.pendingBlock.None? && r.lossChooser.None?
            && (r.phase == ActionSelection || r.phase == GameOver)
  {
    PlayerActionSteps(s, pid, action, target);
    var x := AddCoins(ClearPending(s), pid, 1);
    assert CheckVictory(x).players == x.players;
  }

  /** An accepted super coup costs 12 and, skipping the block window, puts
      the target straight into the loss choice, with the turn to pass after. */
  lemma SuperCoupEffect(s: State, pid: PlayerId, action: string, target: Option<PlayerId>)
    requires Refs(s) && ParseAction(action) == SuperCoup
    requires PlayerAction(s, pid, action, target).1 == Pass
    ensures pid in s.players && target.Some?
    ensures var r := PlayerAction(s, pid, action, target).0;
            && r.players == Paid(s.players, pid, SuperCoup)
            && r.pendingAction.None? && r.pendingBlock.None?
            && r.phase == LossChoice && r.lossChooser == target
            && r.postLoss == Some(NextTurnAfterLoss) && r.nextTurnAfterLoss
  {
    PlayerActionSteps(s, pid, action, target);
    PlayerActionLegal(s, pid, action, target);
  }

  /** A role-based move that passes its checks pays its cost and leaves its
      claim pending in the challenge window. */
  lemma ClaimAnnounces(s: State, pid: PlayerId, action: string, target: Option<PlayerId>)
    requires InPlay(s) && pid in s.players && (target.Some? ==> target.value in s.players)
    requires ClaimOf(ParseAction(action)).Some? && ClaimAction(s, pid, action, target).1 == Pass
    ensures var a := ParseAction(action);
            ClaimAction(s, pid, action, target).0
            == s.(players := Paid(s.players, pid, a), pendingAction := Some(Announced(pid, a, target)), phase := ChallengeWindow)
  {
    var a := ParseAction(action);
    ClaimTable(a);
    if ActionCost(a) == 0 {
      assert Paid(s.players, pid, a) == s.players;
    }
  }

  /** After the common checks, a move other than income and super coup that
      is accepted pays its cost and leaves `Announced` pending. */
  lemma DispatchAnnounces(s: State, pid: PlayerId, action: string, target: Option<PlayerId>)
    requires InPlay(s) && pid in s.players && (target.Some? ==> target.value in s.players)
    requires ParseAction(action) != Income && ParseAction(action) != SuperCoup
    requires DispatchAction(s, pid, action, target).1 == Pass
    ensures var a := ParseAction(action);
            DispatchAction(s, pid, action, target).0
            == s.(players := Paid(s.players, pid, a),
                  pendingAction := Some(Announced(pid, a, target)),
                  phase := if ClaimOf(a).Some? then ChallengeWindow else BlockWindow)
  {
    var a := ParseAction(action);
    if ClaimOf(a).Some? {
      ClaimAnnounces(s, pid, action, target);
    } else if a == ForeignAid {
      assert Paid(s.players, pid, a) == s.players;
    }
  }

  /** Any other accepted move pays its cost and leaves `Announced` pending:
      a role-based claim opens the challenge window, foreign aid and coup
      the block window. Nothing else changes but the cleared old state. */
  lemma AnnounceEffect(s: State, pid: PlayerId, action: string, target: Option<PlayerId>)
    requires Refs(s) && ParseAction(action) != Income && ParseAction(action) != SuperCoup
    requires PlayerAction(s, pid, action, target).1 == Pass
    ensures pid in s.players
    ensures var a := ParseAction(action);
            PlayerAction(s, pid, action, target).0
            == ClearPending(s).(players := Paid(s.players, pid, a),
                                pendingAction := Some(Announced(pid, a, target)),
                                phase := if ClaimOf(a).Some? then ChallengeWindow else BlockWindow)
  {
    PlayerActionSteps(s, pid, action, target);
    DispatchAnnounces(ClearPending(s), pid, action, target);
  }

  /** A move refused after the common checks changes nothing more. */
  lemma DispatchRefusalKeeps(s: State, pid: PlayerId, action: string, target: Option<PlayerId>)
    requires InPlay(s) && pid in s.players && (target.Some? ==> target.value in s.players)
    ensures DispatchAction(s, pid, action, target).1.Fail? ==> DispatchAction(s, pid, action, target).0 == s
  {
  }

  /** A refused move leaves the state as it was, except that a move refused
      after the common checks has already cleared the old pending state, as
      `player_action` does before its later raises. */
  lemma RefusalState(s: State, pid: PlayerId, action: string, target: Option<PlayerId>)
    requires Refs(s) && PlayerAction(s, pid, action, target).1.Fail?
    ensures var r := PlayerAction(s, pid, action, target).0;
            if ActorChecks(s, pid, action, target) then r == ClearPending(s) else r == s
  {
    PlayerActionSteps(s, pid, action, target);
    if ActorChecks(s, pid, action, target) {
      DispatchRefusalKeeps(ClearPending(s), pid, action, target);
    }
  }

  // ── Action names and labels ───────────────────────────────────────────

  /** Every action a string can denote is named back by that string. */
  lemma ActionNameRoundTrip(a: Action)
    requires Canonical(a)
    ensures ParseAction(ActionName(a)) == a
  {
  }

  /** The super version of a plain action, where there is one. */
  function SuperOf(a: Action): Option<Action> {
    match a
    case Tax => Some(SuperTax)
    case Steal => Some(SuperSteal)
    case Exchange => Some(SuperExchange)
    case Assassinate => Some(SuperAssassinate)
    case Coup => Some(SuperCoup)
    case _ => None
  }

  /** `_human_action` labels a super ability as "Super " and the label of its
      plain version. */
  lemma SuperLabels(a: Action)
    requires SuperOf(a).Some?
    ensures HumanAction(SuperOf(a).value) == "Super " + HumanAction(a)
  {
  }

  /** `_human_action` gives the known actions pairwise different labels. */
  lemma LabelsDistinct(a: Action, b: Action)
    requires !a.Unknown? && !b.Unknown? && a != b
    ensures HumanAction(a) != HumanAction(b)
  {
  }

  /** A string outside the label table (income included) is its own label. */
  lemma LabelFallback(action: string)
    requires ParseAction(action) == Income || ParseAction(action).Unknown?
    ensures HumanAction(ParseAction(action)) == action
  {
  }
}
