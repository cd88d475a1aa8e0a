/** The rules of `GameState` (game.py) as functions on the engine's state.
    Each public operation returns the state it leaves behind together with its
    outcome; when it raises `InvalidMove` after having changed some fields
    (`player_action` clears the pending fields before some of its checks), the
    returned state keeps those changes, as the Python object does. */
module Rules {
  import opened CoupTypes

  // ── Well-formedness ────────────────────────────────────────────────────

  /** Every id of `ids` names a player. */
  predicate AllIn(ids: seq<PlayerId>, players: map<PlayerId, Player>) {
    |ids| == 0 || (ids[0] in players && AllIn(ids[1..], players))
  }

  lemma {:induction false} AllInIndex(ids: seq<PlayerId>, players: map<PlayerId, Player>, i: int)
    requires AllIn(ids, players) && 0 <= i < |ids|
    ensures ids[i] in players
    decreases i
  {
    if i > 0 {
      AllInIndex(ids[1..], players, i - 1);
    }
  }

  lemma {:induction false} AllInMembers(ids: seq<PlayerId>, players: map<PlayerId, Player>)
    requires AllIn(ids, players)
    ensures forall id :: id in ids ==> id in players
    decreases |ids|
  {
    if |ids| > 0 {
      AllInMembers(ids[1..], players);
    }
  }

  lemma {:induction false} AllInFromMembers(ids: seq<PlayerId>, players: map<PlayerId, Player>)
    requires forall id :: id in ids ==> id in players
    ensures AllIn(ids, players)
    decreases |ids|
  {
    if |ids| > 0 {
      AllInFromMembers(ids[1..], players);
    }
  }

  /** A map that keeps every key keeps every id of `ids` named. */
  lemma {:induction false} AllInGrow(ids: seq<PlayerId>, players: map<PlayerId, Player>, more: map<PlayerId, Player>)
    requires AllIn(ids, players) && players.Keys <= more.Keys
    ensures AllIn(ids, more)
    decreases |ids|
  {
    if |ids| > 0 {
      AllInGrow(ids[1..], players, more);
    }
  }

  lemma {:induction false} AllInSnoc(ids: seq<PlayerId>, players: map<PlayerId, Player>, id: PlayerId)
    requires AllIn(ids, players) && id in players
    ensures AllIn(ids + [id], players)
    decreases |ids|
  {
    if |ids| > 0 {
      assert (ids + [id])[1..] == ids[1..] + [id];
      AllInSnoc(ids[1..], players, id);
    }
  }

  /** Replacing the player of an existing id keeps every reference valid. */
  lemma RefsUpdate(s: State, pid: PlayerId, p: Player)
    requires Refs(s) && pid in s.players
    ensures Refs(s.(players := s.players[pid := p]))
  {
    var more := s.players[pid := p];
    AllInGrow(s.turnOrder, s.players, more);
    AllInGrow(s.teamA, s.players, more);
    AllInGrow(s.teamB, s.players, more);
  }

  ghost predicate ActionRefs(pa: PendingAction, players: map<PlayerId, Player>) {
    pa.actor in players && (pa.target.Some? ==> pa.target.value in players)
  }

  /** Every id the state refers to names a player, and once the game has
      started the turn index points into the turn order. */
  ghost predicate Refs(s: State) {
    !Dangling(s)
  }

  /** Some id of the state names no player, or the turn index is out of range.
      (Stated as a disjunction so that a proof of `Refs` is one obligation.) */
  ghost predicate Dangling(s: State) {
    || !AllIn(s.turnOrder, s.players)
    || !AllIn(s.teamA, s.players)
    || !AllIn(s.teamB, s.players)
    || (s.pendingAction.Some? && !ActionRefs(s.pendingAction.value, s.players))
    || (s.pendingBlock.Some? && s.pendingBlock.value.blocker !in s.players)
    || (s.exchangeActor.Some? && s.exchangeActor.value !in s.players)
    || (s.lossChooser.Some? && s.lossChooser.value !in s.players)
    || s.current < 0
    || (s.phase != Lobby && s.current >= |s.turnOrder|)
  }

  /** A well-formed state of a game that has started. */
  ghost predicate InPlay(s: State) {
    Refs(s) && s.phase != Lobby
  }

  // ── Small helpers ──────────────────────────────────────────────────────

  function Min(a: int, b: int): int {
    if a <= b then a else b
  }

  predicate HasCards(p: Player) {
    |p.cards| > 0
  }

  /** A claim of `role` (twice over when `two`) is truthful about `cards`. */
  predicate ClaimTruthful(cards: seq<Role>, role: Role, two: bool) {
    multiset(cards)[role] >= (if two then 2 else 1)
  }

  function AddCoins(s: State, pid: PlayerId, delta: int): (r: State)
    requires Refs(s) && pid in s.players
    ensures Refs(r)
  {
    RefsUpdate(s, pid, s.players[pid].(coins := s.players[pid].coins + delta));
    s.(players := s.players[pid := s.players[pid].(coins := s.players[pid].coins + delta)])
  }

  /** The ids of `ids`, in order, whose player still holds a card (`_alive_players_in_team`). */
  function HoldersIn(ids: seq<PlayerId>, players: map<PlayerId, Player>): (r: seq<PlayerId>)
    requires forall id :: id in ids ==> id in players
    ensures forall id :: id in r <==> id in ids && HasCards(players[id])
  {
    if ids == [] then []
    else (if HasCards(players[ids[0]]) then [ids[0]] else []) + HoldersIn(ids[1..], players)
  }

  /** Some player of the team list `ids` still holds a card. */
  predicate TeamHasHolder(players: map<PlayerId, Player>, ids: seq<PlayerId>) {
    exists id :: id in ids && id in players && HasCards(players[id])
  }

  /** The team that has won: the only one of the two with a player holding a card. */
  function Victor(s: State): Option<Team> {
    var a := TeamHasHolder(s.players, s.teamA);
    var b := TeamHasHolder(s.players, s.teamB);
    if a && !b then Some(A) else if b && !a then Some(B) else None
  }

  // ── Turn and victory ──────────────────────────────────────────────────

  /** `_check_victory`: a team none of whose players holds a card has lost. */
  function CheckVictory(s: State): (r: State)
    requires InPlay(s)
    ensures InPlay(r)
    ensures r.players == s.players
  {
    match Victor(s)
    case None => s
    case Some(t) => s.(winner := Some(t), phase := GameOver)
  }

  /** The seat after seat `i` of `n`, going round: `(i + 1) % n` for a seat in range. */
  function NextSeat(i: nat, n: nat): (j: nat)
    requires i < n
    ensures j < n
    ensures j == (i + 1) % n
  {
    if i + 1 == n then
      assert (i + 1) % n == n % n == 0;
      0
    else
      assert (i + 1) % n == i + 1;
      i + 1
  }

  /** The loop of `_advance_turn`: `k` more steps from seat `i`, stopping early
      on a seat whose player holds a card. */
  function Seek(order: seq<PlayerId>, players: map<PlayerId, Player>, i: nat, k: nat): (r: nat)
    requires AllIn(order, players)
    requires i < |order| && k <= |order|
    ensures r < |order|
    ensures k == 0 ==> r == i
    decreases k
  {
    if k == 0 then i
    else
      var j := NextSeat(i, |order|);
      AllInIndex(order, players, j);
      if HasCards(players[order[j]]) then j else Seek(order, players, j, k - 1)
  }

  /** `_advance_turn`. */
  function AdvanceTurn(s: State): (r: State)
    requires InPlay(s)
    ensures InPlay(r)
    ensures r.players == s.players
  {
    if s.phase == GameOver then s
    else s.(current := Seek(s.turnOrder, s.players, s.current, |s.turnOrder|))
  }

  /** Back to action selection and on to the next player. */
  function NextTurn(s: State): (r: State)
    requires InPlay(s)
    ensures InPlay(r)
  {
    AdvanceTurn(s.(phase := ActionSelection))
  }

  /** `_check_victory`, then back to action selection and on to the next
      player. The phase is set after the check, as the tax and steal
      resolutions do. */
  function SettleTurn(s: State): (r: State)
    requires InPlay(s)
    ensures InPlay(r)
  {
    AdvanceTurn(CheckVictory(s).(phase := ActionSelection))
  }

  // ── Cards ─────────────────────────────────────────────────────────────

  function IndexOf(cards: seq<Role>, role: Role): (i: nat)
    requires role in cards
    ensures i < |cards| && cards[i] == role
    ensures forall j :: 0 <= j < i ==> cards[j] != role
  {
    if cards[0] == role then 0 else 1 + IndexOf(cards[1..], role)
  }

  /** `_replace_claim_card`: the claimed card goes back into the deck, the deck
      is shuffled (`shuffled` is the shuffled deck), and the top card replaces
      the claimed one in the same hand position. */
  function ReplaceClaimCard(s: State, pid: PlayerId, role: Role, shuffled: seq<Role>): (r: State)
    requires InPlay(s) && pid in s.players
    requires |shuffled| == |s.deck| + 1
    ensures InPlay(r)
    ensures r == s.(deck := r.deck, players := r.players)
    ensures r.players.Keys == s.players.Keys
    ensures r.players == s.players[pid := r.players[pid]]
    ensures |r.players[pid].cards| == |s.players[pid].cards|
  {
    var p := s.players[pid];
    if role !in p.cards then s
    else
      var idx := IndexOf(p.cards, role);
      var drawn := shuffled[|shuffled| - 1];
      RefsUpdate(s, pid, p.(cards := p.cards[idx := drawn]));
      s.(deck := shuffled[..|shuffled| - 1],
         players := s.players[pid := p.(cards := p.cards[idx := drawn])])
  }

  /** Up to `k` cards popped one at a time off the end of `deck`, while it lasts
      (the draw loop of `_start_exchange`): the remaining deck and the cards
      drawn, first drawn first. */
  function DrawUpTo(deck: seq<Role>, k: nat): (r: (seq<Role>, seq<Role>))
    ensures |r.1| == Min(k, |deck|)
    decreases k
  {
    if k == 0 || |deck| == 0 then (deck, [])
    else
      var rest := DrawUpTo(deck[..|deck| - 1], k - 1);
      (rest.0, [deck[|deck| - 1]] + rest.1)
  }

  /** `_start_exchange`. */
  function StartExchange(s: State, actor: PlayerId, drawCount: nat): (r: State)
    requires InPlay(s) && actor in s.players
    ensures InPlay(r)
  {
    var d := DrawUpTo(s.deck, drawCount);
    s.(deck := d.0,
       exchangeActor := Some(actor),
       exchangeCards := Some(s.players[actor].cards + d.1),
       phase := SwapChoice)
  }

  /** The cards of `pool` at the indices whose membership in `ks` is `kept`,
      in increasing index order. With `kept` true this is
      `[pool[i] for i in sorted(keep_set)]` of `finish_exchange` (the indices
      are all inside the pool there); with `kept` false it is `returned`. */
  function Select(pool: seq<Role>, ks: set<int>, kept: bool): (r: seq<Role>)
    decreases |pool|
  {
    if pool == [] then []
    else
      Select(pool[..|pool| - 1], ks, kept)
      + (if ((|pool| - 1) in ks) == kept then [pool[|pool| - 1]] else [])
  }

  // ── Loss choice ───────────────────────────────────────────────────────

  /** `_start_loss_choice`. A victim who holds no card leaves the phase as it is. */
  function StartLossChoice(s: State, victim: PlayerId, post: PostLoss): (r: State)
    requires InPlay(s) && victim in s.players
    ensures InPlay(r)
  {
    if |s.players[victim].cards| == 0 then
      s.(postLoss := None, nextTurnAfterLoss := false)
    else
      s.(lossChooser := Some(victim),
         phase := LossChoice,
         postLoss := Some(post),
         nextTurnAfterLoss := post == NextTurnAfterLoss)
  }

  // ── Resolution of the pending action ──────────────────────────────────

  /** Foreign aid goes through: two coins, and the turn passes. */
  function ResolveForeignAid(s: State, pa: PendingAction): (r: State)
    requires InPlay(s) && ActionRefs(pa, s.players)
    ensures InPlay(r)
  {
    AdvanceTurn(CheckVictory(AddCoins(s, pa.actor, 2).(pendingAction := None, phase := ActionSelection)))
  }

  /** A Duke claim goes through: `amount` coins, and the turn passes. */
  function ResolveTax(s: State, pa: PendingAction, amount: int): (r: State)
    requires InPlay(s) && ActionRefs(pa, s.players)
    ensures InPlay(r)
  {
    SettleTurn(AddCoins(s, pa.actor, amount).(pendingAction := None))
  }

  /** `take` coins move from `from` to `to`. */
  function Transfer(s: State, from: PlayerId, to: PlayerId, take: int): (r: State)
    requires InPlay(s) && from in s.players && to in s.players
    ensures InPlay(r)
  {
    AddCoins(AddCoins(s, from, -take), to, take)
  }

  function ResolveSteal(s: State, pa: PendingAction, amount: int): (r: State)
    requires InPlay(s) && ActionRefs(pa, s.players)
    ensures InPlay(r)
  {
    if pa.target.None? then NextTurn(s)
    else
      var t := pa.target.value;
      if s.players[t].coins <= 0 then SettleTurn(s)
      else
        SettleTurn(Transfer(s, t, pa.actor, Min(amount, s.players[t].coins)))
  }

  function ResolveAssassinate(s: State, pa: PendingAction): (r: State)
    requires InPlay(s) && ActionRefs(pa, s.players)
    ensures InPlay(r)
  {
    if pa.target.None? then NextTurn(s)
    else
      var refunded :=
        if pa.action == SuperAssassinate && pa.cost != 0 && pa.refundable
        then AddCoins(s, pa.actor, pa.cost) else s;
      StartLossChoice(refunded, pa.target.value, NextTurnAfterLoss)
  }

  /** `_resolve_pending_action`. */
  function ResolvePendingAction(s: State): (r: State)
    requires InPlay(s)
    ensures InPlay(r)
  {
    match s.pendingAction
    case None => s
    case Some(pa) =>
      var cleared := s.(pendingAction := None);
      match pa.action
      case ForeignAid => ResolveForeignAid(s, pa)
      case Coup =>
        if pa.target.None? then NextTurn(cleared)
        else StartLossChoice(cleared, pa.target.value, NextTurnAfterLoss)
      case Tax => ResolveTax(s, pa, 3)
      case SuperTax => ResolveTax(s, pa, 5)
      case Steal => ResolveSteal(cleared, pa, 2)
      case SuperSteal => ResolveSteal(cleared, pa, 3)
      case Exchange => StartExchange(s, pa.actor, 2).(pendingAction := None)
      case SuperExchange => StartExchange(s, pa.actor, 3).(pendingAction := None)
      case Assassinate => ResolveAssassinate(cleared, pa)
      case SuperAssassinate => ResolveAssassinate(cleared, pa)
      case _ => NextTurn(cleared)
  }

  /** `_block_stands`: the action is cancelled; what it cost stays paid. */
  function BlockStands(s: State): (r: State)
    requires InPlay(s)
    ensures InPlay(r)
  {
    if s.pendingAction.None? || s.pendingBlock.None? then s
    else AdvanceTurn(CheckVictory(s.(pendingAction := None, pendingBlock := None, phase := ActionSelection)))
  }

  /** `_block_fails`: the block is dropped and the action goes through. */
  function BlockFails(s: State): (r: State)
    requires InPlay(s)
    ensures InPlay(r)
  {
    if s.pendingAction.None? || s.pendingBlock.None? then s
    else ResolvePendingAction(s.(pendingBlock := None))
  }

  // ── Lobby and start ───────────────────────────────────────────────────

  /** `GameState.__init__`. */
  function Initial(mode: Mode): State {
    State(mode, Lobby, map[], [], 0, [], [], [], [], None, None, None, None, None, None, None, false)
  }

  /** `add_player`: the new player is "p<n+1>" for the n players already in. */
  function AddPlayer(s: State, name: string, team: string): (r: (State, Result<PlayerId>))
    requires Refs(s)
    ensures Refs(r.0)
  {
    if s.phase != Lobby then (s, Err(CannotJoinAfterStart))
    else
      match ParseTeam(team)
      case None => (s, Err(InvalidTeam))
      case Some(t) =>
        var id: PlayerId := |s.players| + 1;
        var p := Player(name, t, 0, [], true);
        var more := s.players[id := p];
        AllInGrow(s.turnOrder, s.players, more);
        AllInGrow(s.teamA, s.players, more);
        AllInGrow(s.teamB, s.players, more);
        AllInSnoc(s.teamA, more, id);
        AllInSnoc(s.teamB, more, id);
        (Join(s, id, p), Ok(id))
  }

  /** The new player `p` is entered under `id` and appended to its team's list. */
  function Join(s: State, id: PlayerId, p: Player): State {
    var joined := s.(players := s.players[id := p]);
    if p.team == A then joined.(teamA := joined.teamA + [id])
    else joined.(teamB := joined.teamB + [id])
  }

  /** The seating of `start_game`: A1, B1, A2, B2, ... (`zip` of the two teams). */
  function Interleave(xs: seq<PlayerId>, ys: seq<PlayerId>): (r: seq<PlayerId>)
    requires |xs| == |ys|
    ensures |r| == 2 * |xs|
    ensures forall i :: 0 <= i < |r| ==> r[i] == if i % 2 == 0 then xs[i / 2] else ys[i / 2]
  {
    if xs == [] then [] else [xs[0], ys[0]] + Interleave(xs[1..], ys[1..])
  }

  lemma InterleaveAllIn(xs: seq<PlayerId>, ys: seq<PlayerId>, players: map<PlayerId, Player>)
    requires |xs| == |ys| && AllIn(xs, players) && AllIn(ys, players)
    ensures AllIn(Interleave(xs, ys), players)
  {
    var order := Interleave(xs, ys);
    AllInMembers(xs, players);
    AllInMembers(ys, players);
    forall id | id in order ensures id in players {
      var i :| 0 <= i < |order| && order[i] == id;
    }
    AllInFromMembers(order, players);
  }

  /** The dealing loop of `start_game`: in turn order, each player draws two
      cards off the end of the deck and is reset to 0 coins and alive. */
  function Deal(order: seq<PlayerId>, players: map<PlayerId, Player>, deck: seq<Role>)
    : (r: (map<PlayerId, Player>, seq<Role>))
    requires AllIn(order, players)
    requires |deck| >= 2 * |order|
    ensures r.0.Keys == players.Keys
    ensures r.1 == deck[..|deck| - 2 * |order|]
    decreases |order|
  {
    if order == [] then (players, deck)
    else
      var n := |deck|;
      var more := players[order[0] := players[order[0]].(cards := [deck[n - 1], deck[n - 2]], coins := 0, alive := true)];
      AllInGrow(order[1..], players, more);
      Deal(order[1..], more, deck[..n - 2])
  }

  /** One round of the dealing loop. */
  lemma DealStep(order: seq<PlayerId>, players: map<PlayerId, Player>, deck: seq<Role>, first: Role, second: Role)
    requires order != [] && AllIn(order, players) && |deck| >= 2 * |order|
    requires first == deck[|deck| - 1] && second == deck[|deck| - 2]
    ensures AllIn(order[1..], players[order[0] := players[order[0]].(cards := [first, second], coins := 0, alive := true)])
    ensures Deal(order, players, deck)
            == Deal(order[1..], players[order[0] := players[order[0]].(cards := [first, second], coins := 0, alive := true)],
                    deck[..|deck| - 2])
  {
    AllInGrow(order[1..], players, players[order[0] := players[order[0]].(cards := [first, second], coins := 0, alive := true)]);
  }

  /** `start_game`. `shuffled` is the shuffled 15-card deck (the game object
      proves it a permutation of `FullDeck()`). The team lists are
      used as they stand: ids join in increasing order, so `sorted` leaves them
      unchanged. */
  function StartGame(s: State, shuffled: seq<Role>): (r: (State, Outcome))
    requires Refs(s) && |s.teamA| + |s.teamB| == |s.players|
    requires |shuffled| == 15
    ensures Refs(r.0)
  {
    if s.phase != Lobby then (s, Fail(GameAlreadyStarted))
    else if |s.players| != 4 && |s.players| != 6 then (s, Fail(NeedFourOrSixPlayers))
    else if |s.teamA| != |s.teamB| then (s, Fail(UnequalTeams))
    else (Setup(s, shuffled), Pass)
  }

  /** The setup of `start_game` once its checks pass: seat the players, deal
      two cards each off the end of the shuffled deck, and begin. */
  function Setup(s: State, shuffled: seq<Role>): (r: State)
    requires Refs(s) && 0 < |s.teamA| == |s.teamB| && 4 * |s.teamA| <= |shuffled|
    ensures InPlay(r)
  {
    var order := Interleave(s.teamA, s.teamB);
    InterleaveAllIn(s.teamA, s.teamB, s.players);
    var dealt := Deal(order, s.players, shuffled);
    AllInGrow(order, s.players, dealt.0);
    AllInGrow(s.teamA, s.players, dealt.0);
    AllInGrow(s.teamB, s.players, dealt.0);
    s.(turnOrder := order, current := 0, players := dealt.0, deck := dealt.1, phase := ActionSelection)
  }

  // ── Actions ───────────────────────────────────────────────────────────

  /** The "clear old state" step of `player_action`. */
  function ClearPending(s: State): (r: State)
    requires InPlay(s)
    ensures InPlay(r)
  {
    s.(pendingAction := None, pendingBlock := None, exchangeActor := None, exchangeCards := None,
       lossChooser := None, postLoss := None, nextTurnAfterLoss := false)
  }

  /** The role-based (challengeable) branch of `player_action`. */
  function ClaimAction(s: State, pid: PlayerId, action: string, target: Option<PlayerId>): (r: (State, Outcome))
    requires InPlay(s) && pid in s.players && (target.Some? ==> target.value in s.players)
    ensures InPlay(r.0)
  {
    var a := ParseAction(action);
    match ClaimOf(a)
    case None => (s, Fail(UnknownAction(action)))
    case Some(c) =>
      if s.mode == NormalTeam && StartsWithSuper(action) then (s, Fail(SuperOnlyInSuperMode))
      else if c.needsTarget && target.None? then (s, Fail(ActionNeedsTarget))
      else if c.cost != 0 && s.players[pid].coins < c.cost then (s, Fail(NotEnoughCoins))
      else
        var paid := if c.cost != 0 then AddCoins(s, pid, -(c.cost as int)) else s;
        (paid.(pendingAction := Some(PendingAction(pid, a, target, Some(c.role), c.two, c.cost, c.refundable)),
               phase := ChallengeWindow),
         Pass)
  }

  /** `player_action` from "Income" on, once the common checks have passed. */
  function DispatchAction(s: State, pid: PlayerId, action: string, target: Option<PlayerId>): (r: (State, Outcome))
    requires InPlay(s) && pid in s.players && (target.Some? ==> target.value in s.players)
    ensures InPlay(r.0)
  {
    match ParseAction(action)
    case Income => (AdvanceTurn(CheckVictory(AddCoins(s, pid, 1))), Pass)
    case ForeignAid =>
      (s.(pendingAction := Some(PendingAction(pid, ForeignAid, None, None, false, 0, false)), phase := BlockWindow),
       Pass)
    case Coup =>
      if target.None? then (s, Fail(CoupNeedsTarget))
      else if s.players[pid].coins < 7 then (s, Fail(NotEnoughCoinsForCoup))
      else
        (AddCoins(s, pid, -7).(pendingAction := Some(PendingAction(pid, Coup, target, None, false, 7, false)),
                               phase := BlockWindow),
         Pass)
    case SuperCoup =>
      if s.mode != SuperTeam then (s, Fail(SuperCoupOnlyInSuperMode))
      else if target.None? then (s, Fail(SuperCoupNeedsTarget))
      else if s.players[pid].coins < 12 then (s, Fail(NotEnoughCoinsForSuperCoup))
      else (StartLossChoice(AddCoins(s, pid, -12).(pendingAction := None), target.value, NextTurnAfterLoss), Pass)
    case _ => ClaimAction(s, pid, action, target)
  }

  /** `player_action`. */
  function PlayerAction(s: State, pid: PlayerId, action: string, target: Option<PlayerId>): (r: (State, Outcome))
    requires Refs(s)
    ensures Refs(r.0)
  {
    if s.phase != ActionSelection then (s, Fail(CannotActNow))
    else if pid != s.turnOrder[s.current] then (s, Fail(NotYourTurn))
    else
      AllInIndex(s.turnOrder, s.players, s.current);
      var player := s.players[pid];
      var threshold := if s.mode == SuperTeam then 11 else 10;
      var mayCoup := action == "coup" || (s.mode == SuperTeam && action == "super_coup");
      if |player.cards| == 0 then (s, Fail(NoInfluence))
      else if StartsWithSuper(action) && action != "super_coup" && |player.cards| < 2 then (s, Fail(NeedTwoCopies))
      else if player.coins >= threshold && !mayCoup then (s, Fail(MustCoup(threshold)))
      else if target.Some? && target.value !in s.players then (s, Fail(InvalidTarget))
      else if target.Some? && s.players[target.value].team == player.team then (s, Fail(CannotTargetTeammate))
      else if target.Some? && |s.players[target.value].cards| == 0 then (s, Fail(TargetHasNoInfluence))
      else DispatchAction(ClearPending(s), pid, action, target)
  }

  // ── Challenges ────────────────────────────────────────────────────────

  /** The role whose claim a challenge in the current window would test: the
      block's when a block is pending, otherwise the action's. */
  function ChallengedClaim(s: State): Option<Role> {
    if s.pendingBlock.Some? then s.pendingBlock.value.role
    else if s.pendingAction.Some? then s.pendingAction.value.role
    else None
  }

  /** `player_challenge`. `shuffled` is the deck after the claimed card has gone
      back in and been shuffled; it is read only when the claim was truthful. */
  function PlayerChallenge(s: State, cid: PlayerId, shuffled: seq<Role>): (r: (State, Outcome))
    requires Refs(s) && cid in s.players
    requires |shuffled| == |s.deck| + 1
    ensures Refs(r.0)
  {
    if s.phase != ChallengeWindow then (s, Fail(NoActionToChallenge))
    else
      var challenger := s.players[cid];
      match s.pendingBlock
      case Some(pb) =>
        var blocker := s.players[pb.blocker];
        if challenger.team == blocker.team then (s, Fail(CannotChallengeTeammateBlock))
        else if pb.role.None? then (s, Fail(BlockNotChallengeable))
        else if ClaimTruthful(blocker.cards, pb.role.value, pb.two) then
          (StartLossChoice(ReplaceClaimCard(s, pb.blocker, pb.role.value, shuffled), cid, BlockStandsAfterLoss), Pass)
        else (StartLossChoice(s, pb.blocker, BlockFailsAfterLoss), Pass)
      case None =>
        match s.pendingAction
        case None => (s, Fail(NoPendingAction))
        case Some(pa) =>
          var actor := s.players[pa.actor];
          if challenger.team == actor.team then (s, Fail(CannotChallengeTeammate))
          else if pa.role.None? then (s, Fail(ActionNotChallengeable))
          else if ClaimTruthful(actor.cards, pa.role.value, pa.two) then
            (StartLossChoice(ReplaceClaimCard(s, pa.actor, pa.role.value, shuffled), cid, ResolveAfterLoss), Pass)
          else (StartLossChoice(s, pa.actor, CancelAfterLoss), Pass)
  }

  /** `player_no_challenge`. The passing player is not looked at: the first pass
      settles the window. */
  function PlayerNoChallenge(s: State, pid: PlayerId): (r: (State, Outcome))
    requires Refs(s)
    ensures Refs(r.0)
  {
    if s.phase != ChallengeWindow then (s, Fail(NotInChallengeWindow))
    else if s.pendingBlock.Some? then (BlockStands(s), Pass)
    else if s.pendingAction.None? then (s, Fail(NoPendingAction))
    else if IsBlockable(s.pendingAction.value.action) then (s.(phase := BlockWindow), Pass)
    else (ResolvePendingAction(s), Pass)
  }

  // ── Blocks ────────────────────────────────────────────────────────────

  function DeclareBlock(s: State, pid: PlayerId, kind: BlockKind, role: Role, two: bool): (r: (State, Outcome))
    requires InPlay(s) && pid in s.players
    ensures InPlay(r.0)
  {
    (s.(pendingBlock := Some(PendingBlock(pid, kind, Some(role), two)), phase := ChallengeWindow), Pass)
  }

  /** The checks `player_block` makes for a block of `kind` by `blocker`
      (id `pid`) against the pending `pa` of a player of team `actorTeam`:
      the role the block claims and whether it claims two copies, or the
      error raised. */
  function BlockClaim(mode: Mode, pa: PendingAction, actorTeam: Team, pid: PlayerId, blocker: Player, kind: BlockKind)
    : Result<(Role, bool)>
  {
    var isTarget := pa.target == Some(pid);
    match kind
    case BlockForeignAid =>
      if pa.action != ForeignAid then Err(CannotBlockWithDuke)
      else if blocker.team == actorTeam then Err(CannotBlockTeammateForeignAid)
      else Ok((Duke, false))
    case BlockStealCaptain =>
      if pa.action != Steal && pa.action != SuperSteal then Err(CannotBlockAsCaptainOrAmbassador)
      else if !isTarget then Err(OnlyTargetBlocksSteal)
      else Ok((Captain, false))
    case BlockStealAmbassador =>
      if pa.action != Steal && pa.action != SuperSteal then Err(CannotBlockAsCaptainOrAmbassador)
      else if !isTarget then Err(OnlyTargetBlocksSteal)
      else Ok((Ambassador, false))
    case BlockAssassinate =>
      if pa.action != Assassinate && pa.action != SuperAssassinate then Err(CannotBlockAsContessa)
      else if !isTarget then Err(OnlyTargetBlocksAssassinate)
      else Ok((Contessa, false))
    case BlockCoup =>
      if pa.action != Coup then Err(OnlyCoupsBlockedBySuperContessa)
      else if mode != SuperTeam then Err(SuperContessaOnlyInSuperMode)
      else if !isTarget then Err(OnlyTargetBlocksCoup)
      else if |blocker.cards| < 2 then Err(NeedTwoContessas)
      else Ok((Contessa, true))
  }

  /** `player_block`. */
  function PlayerBlock(s: State, pid: PlayerId, blockType: string): (r: (State, Outcome))
    requires Refs(s) && pid in s.players
    ensures Refs(r.0)
  {
    if s.phase != BlockWindow then (s, Fail(NotInBlockWindow))
    else if s.pendingAction.None? then (s, Fail(NoPendingActionToBlock))
    else if s.pendingBlock.Some? then (s, Fail(BlockAlreadyDeclared))
    else
      var pa := s.pendingAction.value;
      match ParseBlock(blockType)
      case None => (s, Fail(UnknownBlockType))
      case Some(kind) =>
        match BlockClaim(s.mode, pa, s.players[pa.actor].team, pid, s.players[pid], kind)
        case Err(e) => (s, Fail(e))
        case Ok(claim) => DeclareBlock(s, pid, kind, claim.0, claim.1)
  }

  /** `player_no_block`. The passing player is not looked at: the first pass
      resolves the action. */
  function PlayerNoBlock(s: State, pid: PlayerId): (r: (State, Outcome))
    requires Refs(s)
    ensures Refs(r.0)
  {
    if s.phase != BlockWindow then (s, Fail(NotInBlockWindow))
    else if s.pendingAction.None? then (s, Fail(NoPendingActionToResolve))
    else (ResolvePendingAction(s), Pass)
  }

  // ── Losing a card ─────────────────────────────────────────────────────

  /** What `choose_loss_card` does after the card is gone and the game is not over. */
  function AfterLoss(s: State, post: Option<PostLoss>): (r: State)
    requires InPlay(s)
    ensures InPlay(r)
  {
    match post
    case Some(ResolveAfterLoss) => ResolvePendingAction(s)
    case Some(CancelAfterLoss) =>
      NextTurn(s.(pendingAction := None, pendingBlock := None))
    case Some(BlockStandsAfterLoss) => BlockStands(s)
    case Some(BlockFailsAfterLoss) => BlockFails(s)
    case _ =>
      if s.nextTurnAfterLoss then NextTurn(s.(nextTurnAfterLoss := false))
      else s.(phase := ActionSelection)
  }

  /** The hand after the card at `idx` is removed, and its player with it. */
  function WithoutCard(p: Player, idx: nat): (q: Player)
    requires idx < |p.cards|
  {
    var rest := p.cards[..idx] + p.cards[idx + 1..];
    p.(cards := rest, alive := if |rest| == 0 then false else p.alive)
  }

  /** The first half of `choose_loss_card`: the card at `idx` leaves the hand
      for the revealed pile, and nobody is choosing any more. */
  function LoseCard(s: State, pid: PlayerId, idx: nat): (r: State)
    requires Refs(s) && pid in s.players && idx < |s.players[pid].cards|
    ensures Refs(r)
  {
    RefsUpdate(s, pid, WithoutCard(s.players[pid], idx));
    s.(players := s.players[pid := WithoutCard(s.players[pid], idx)],
       revealed := s.revealed + [s.players[pid].cards[idx]],
       lossChooser := None)
  }

  /** `choose_loss_card`. */
  function ChooseLossCard(s: State, pid: PlayerId, idx: int): (r: (State, Outcome))
    requires Refs(s)
    ensures Refs(r.0)
  {
    if s.phase != LossChoice then (s, Fail(NotChoosingLoss))
    else if Some(pid) != s.lossChooser then (s, Fail(NotTheLossChooser))
    else
      var victim := s.players[pid];
      if !(0 <= idx < |victim.cards|) then (s, Fail(InvalidCardIndex))
      else
        var checked := CheckVictory(LoseCard(s, pid, idx));
        if checked.phase == GameOver then (checked, Pass)
        else (AfterLoss(checked.(postLoss := None), checked.postLoss), Pass)
  }

  // ── Exchange ──────────────────────────────────────────────────────────

  /** Some index of `keep` lies outside a pool of `n` cards. */
  predicate AnyOutside(keep: seq<int>, n: int) {
    exists i :: i in keep && (i < 0 || i >= n)
  }

  /** The cards `finish_exchange` puts back into the deck for `keep`. */
  function ExchangeReturned(s: State, keep: seq<int>): seq<Role> {
    if s.exchangeCards.None? then [] else Select(s.exchangeCards.value, set i | i in keep, false)
  }

  /** The swap of `finish_exchange`: the actor's hand becomes `hand`, the deck
      becomes `shuffled`, and the exchange is over. */
  function SwapHand(s: State, pid: PlayerId, hand: seq<Role>, shuffled: seq<Role>): (r: State)
    requires InPlay(s) && pid in s.players
    ensures InPlay(r)
    ensures r.players.Keys == s.players.Keys
  {
    RefsUpdate(s, pid, s.players[pid].(cards := hand));
    s.(players := s.players[pid := s.players[pid].(cards := hand)],
       deck := shuffled,
       exchangeActor := None,
       exchangeCards := None,
       phase := ActionSelection)
  }

  /** `finish_exchange`. `shuffled` is the deck after the returned cards have
      gone back in and been shuffled. */
  function FinishExchange(s: State, pid: PlayerId, keep: seq<int>, shuffled: seq<Role>): (r: (State, Outcome))
    requires Refs(s)
    ensures Refs(r.0)
    ensures r.0.players.Keys == s.players.Keys
  {
    if s.phase != SwapChoice then (s, Fail(NotInExchange))
    else if Some(pid) != s.exchangeActor then (s, Fail(NotExchanging))
    else if s.exchangeCards.None? then (s, Fail(NoExchangeCards))
    else
      var actor := s.players[pid];
      var pool := s.exchangeCards.value;
      if |keep| != |actor.cards| then (s, Fail(MustKeepExactlyNumCards))
      else if AnyOutside(keep, |pool|) then (s, Fail(InvalidKeepIndex))
      else
        var ks := set i | i in keep;
        (AdvanceTurn(CheckVictory(SwapHand(s, pid, Select(pool, ks, true), shuffled))), Pass)
  }
}
