/** The rules of `player_block`, `player_no_block` and `_block_stands`: who
    may block what, what a block claims, and what the first pass does. */
module Blocks {
  import opened CoupTypes
  import opened Rules
  import opened Actions

  /** The role a block claims: Duke against foreign aid, Captain or
      Ambassador against a steal, Contessa against an assassination or a
      coup. */
  function BlockRole(kind: BlockKind): Role {
    match kind
    case BlockForeignAid => Duke
    case BlockStealCaptain => Captain
    case BlockStealAmbassador => Ambassador
    case BlockAssassinate => Contessa
    case BlockCoup => Contessa
  }

  /** Who may block with `kind` the pending `pa` of a player of `actorTeam`:
      Duke blocks foreign aid by a player of the other team; the steal,
      assassination and coup blocks are the target's own, a coup only in
      Super Team mode and only by a target holding two cards. */
  predicate MayBlock(m: Mode, pa: PendingAction, actorTeam: Team, pid: PlayerId, blocker: Player, kind: BlockKind) {
    || (kind == BlockForeignAid && pa.action == ForeignAid && blocker.team != actorTeam)
    || ((kind == BlockStealCaptain || kind == BlockStealAmbassador)
        && (pa.action == Steal || pa.action == SuperSteal) && pa.target == Some(pid))
    || (kind == BlockAssassinate
        && (pa.action == Assassinate || pa.action == SuperAssassinate) && pa.target == Some(pid))
    || (kind == BlockCoup && pa.action == Coup && m == SuperTeam && pa.target == Some(pid) && |blocker.cards| >= 2)
  }

  /** The per-kind checks accept exactly the blocks `MayBlock` allows, and
      such a block claims `BlockRole(kind)`, twice over only for a coup. */
  lemma BlockClaimSpec(m: Mode, pa: PendingAction, actorTeam: Team, pid: PlayerId, blocker: Player, kind: BlockKind)
    ensures BlockClaim(m, pa, actorTeam, pid, blocker, kind).Ok? <==> MayBlock(m, pa, actorTeam, pid, blocker, kind)
    ensures BlockClaim(m, pa, actorTeam, pid, blocker, kind).Ok? ==>
              BlockClaim(m, pa, actorTeam, pid, blocker, kind).value == (BlockRole(kind), kind == BlockCoup)
  {
  }

  /** The rules a block by `pid` must meet: the block window, an action
      pending and no block yet, a known block type, and `MayBlock`. */
  ghost predicate BlockLegal(s: State, pid: PlayerId, blockType: string)
    requires Refs(s) && pid in s.players
  {
    && s.phase == BlockWindow
    && s.pendingAction.Some?
    && s.pendingBlock.None?
    && ParseBlock(blockType).Some?
    && MayBlock(s.mode, s.pendingAction.value, s.players[s.pendingAction.value.actor].team,
                pid, s.players[pid], ParseBlock(blockType).value)
  }

  /** `player_block` is accepted exactly when it meets the rules. A refused
      block changes nothing; an accepted one records the block and its claim
      and reopens the challenge window, and changes nothing else. */
  lemma PlayerBlockSpec(s: State, pid: PlayerId, blockType: string)
    requires Refs(s) && pid in s.players
    ensures PlayerBlock(s, pid, blockType).1 == Pass <==> BlockLegal(s, pid, blockType)
    ensures PlayerBlock(s, pid, blockType).1.Fail? ==> PlayerBlock(s, pid, blockType).0 == s
    ensures var kind := ParseBlock(blockType);
            PlayerBlock(s, pid, blockType).1 == Pass ==>
              PlayerBlock(s, pid, blockType).0
              == s.(pendingBlock := Some(PendingBlock(pid, kind.value, Some(BlockRole(kind.value)), kind.value == BlockCoup)),
                    phase := ChallengeWindow)
  {
    if s.phase == BlockWindow && s.pendingAction.Some? && s.pendingBlock.None? && ParseBlock(blockType).Some? {
      var pa := s.pendingAction.value;
      BlockClaimSpec(s.mode, pa, s.players[pa.actor].team, pid, s.players[pid], ParseBlock(blockType).value);
    }
  }

  /** A coup block looks only at how many cards the target holds, not at
      which: any two cards let the target declare one. */
  lemma BlockCoupCountsCards(m: Mode, pa: PendingAction, actorTeam: Team, pid: PlayerId, blocker: Player, cards: seq<Role>)
    requires |cards| == |blocker.cards|
    ensures MayBlock(m, pa, actorTeam, pid, blocker, BlockCoup) == MayBlock(m, pa, actorTeam, pid, blocker.(cards := cards), BlockCoup)
  {
  }

  /** For example, a target holding a Duke and a Captain may declare the
      two-Contessa block of a coup, a claim that is false. */
  lemma BlockCoupWithoutContessa(pa: PendingAction, pid: PlayerId, blocker: Player)
    requires pa.action == Coup && pa.target == Some(pid) && blocker.cards == [Duke, Captain]
    ensures BlockClaim(SuperTeam, pa, A, pid, blocker, BlockCoup) == Ok((Contessa, true))
    ensures !ClaimTruthful(blocker.cards, Contessa, true)
  {
    assert multiset(blocker.cards)[Contessa] == 0;
  }

  /** `player_no_block` is refused outside the block window or with no action
      pending, and then changes nothing. Otherwise the first pass, by
      whoever makes it, resolves the action at once. */
  lemma NoBlockSpec(s: State, pid: PlayerId, other: PlayerId)
    requires Refs(s)
    ensures PlayerNoBlock(s, pid).1.Fail? <==> s.phase != BlockWindow || s.pendingAction.None?
    ensures PlayerNoBlock(s, pid).1.Fail? ==> PlayerNoBlock(s, pid).0 == s
    ensures PlayerNoBlock(s, pid) == PlayerNoBlock(s, other)
    ensures PlayerNoBlock(s, pid).1 == Pass ==> PlayerNoBlock(s, pid).0 == ResolvePendingAction(s)
  {
  }

  /** A super coup leaves no block window: right after it, every block is
      refused for being out of the block window. */
  lemma SuperCoupUnblockable(s: State, pid: PlayerId, action: string, target: Option<PlayerId>, q: PlayerId, blockType: string)
    requires Refs(s) && ParseAction(action) == SuperCoup
    requires PlayerAction(s, pid, action, target).1 == Pass
    requires q in PlayerAction(s, pid, action, target).0.players
    ensures var r := PlayerAction(s, pid, action, target).0;
            PlayerBlock(r, q, blockType) == (r, Fail(NotInBlockWindow))
  {
    SuperCoupEffect(s, pid, action, target);
  }

  /** `_block_stands`: the action is cancelled with nothing pending, what it
      cost stays paid, no card moves, and the game ends exactly when just one
      team still has a player holding a card, the turn passing otherwise. */
  lemma BlockStandsSpec(s: State)
    requires InPlay(s) && s.pendingAction.Some? && s.pendingBlock.Some?
    ensures var r := BlockStands(s);
            && r.players == s.players && r.deck == s.deck && r.revealed == s.revealed
            && r.pendingAction.None? && r.pendingBlock.None?
            && (r.phase == GameOver <==> Victor(s).Some?)
            && (r.phase != GameOver ==> r.phase == ActionSelection)
  {
  }
}
