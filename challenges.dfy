/** The rules of `player_challenge` and `player_no_challenge`: who may
    challenge, when a claim counts as truthful, who then loses a card, and
    what a truthful claimant's hand and the deck look like afterwards. */
module Challenges {
  import opened CoupTypes
  import opened Rules

  /** `cards.count(role)`. */
  function Count(cards: seq<Role>, role: Role): nat {
    if cards == [] then 0 else (if cards[0] == role then 1 else 0) + Count(cards[1..], role)
  }

  lemma {:induction false} CountIsMultiplicity(cards: seq<Role>, role: Role)
    ensures Count(cards, role) == multiset(cards)[role]
  {
    if cards != [] {
      assert cards == [cards[0]] + cards[1..];
      CountIsMultiplicity(cards[1..], role);
    }
  }

  /** A claim counts as truthful exactly when the claimant holds the copies
      it needs: two for a claim of two, one otherwise. */
  lemma TruthfulCount(cards: seq<Role>, role: Role, two: bool)
    ensures ClaimTruthful(cards, role, two) <==> Count(cards, role) >= (if two then 2 else 1)
  {
    CountIsMultiplicity(cards, role);
  }

  /** The player whose claim a challenge now would test: the blocker when a
      block is pending, otherwise the actor. */
  function Claimant(s: State): Option<PlayerId> {
    if s.pendingBlock.Some? then Some(s.pendingBlock.value.blocker)
    else if s.pendingAction.Some? then Some(s.pendingAction.value.actor)
    else None
  }

  /** Whether that claim is of two copies. */
  function ClaimsTwo(s: State): bool {
    if s.pendingBlock.Some? then s.pendingBlock.value.two
    else s.pendingAction.Some? && s.pendingAction.value.two
  }

  /** The rules a challenge by `cid` must meet: the challenge window, a
      pending claim of a role, made by a player of the other team. */
  ghost predicate ChallengeLegal(s: State, cid: PlayerId)
    requires Refs(s) && cid in s.players
  {
    && s.phase == ChallengeWindow
    && Claimant(s).Some?
    && ChallengedClaim(s).Some?
    && s.players[Claimant(s).value].team != s.players[cid].team
  }

  /** `player_challenge` is accepted exactly when it meets the rules, and a
      refused challenge changes nothing. */
  lemma ChallengeAccepted(s: State, cid: PlayerId, shuffled: seq<Role>)
    requires Refs(s) && cid in s.players && |shuffled| == |s.deck| + 1
    ensures PlayerChallenge(s, cid, shuffled).1 == Pass <==> ChallengeLegal(s, cid)
    ensures PlayerChallenge(s, cid, shuffled).1.Fail? ==> PlayerChallenge(s, cid, shuffled).0 == s
  {
  }

  /** Trading the card at `i` for the last card of `shuffled`, when
      `shuffled` is `deck` with that card put in, keeps hand and deck
      together the same multiset. */
  lemma TradeConserves(cards: seq<Role>, i: nat, deck: seq<Role>, shuffled: seq<Role>)
    requires i < |cards| && |shuffled| == |deck| + 1
    requires multiset(shuffled) == multiset(deck) + multiset{cards[i]}
    ensures multiset(cards[i := shuffled[|deck|]]) + multiset(shuffled[..|deck|]) == multiset(cards) + multiset(deck)
  {
    var n := |deck|;
    var x := shuffled[n];
    assert shuffled == shuffled[..n] + [x];
    assert multiset(shuffled[..n]) + multiset{x} == multiset(deck) + multiset{cards[i]};
    assert cards == cards[..i] + [cards[i]] + cards[i + 1..];
    assert multiset(cards) == multiset(cards[..i]) + multiset{cards[i]} + multiset(cards[i + 1..]);
    assert cards[i := x] == cards[..i] + [x] + cards[i + 1..];
    assert multiset(cards[i := x]) == multiset(cards[..i]) + multiset{x} + multiset(cards[i + 1..]);
    var rest := multiset(cards[..i]) + multiset(cards[i + 1..]);
    assert multiset(cards[i := x]) + multiset(shuffled[..n]) == rest + (multiset(shuffled[..n]) + multiset{x});
    assert multiset(cards) + multiset(deck) == rest + (multiset(deck) + multiset{cards[i]});
  }

  /** `_replace_claim_card` for a card the player holds: the first copy of
      the role is replaced, in place, by the card drawn off the end of the
      shuffled deck, which loses that card. When the shuffled deck is the
      old deck with the role put back, the hand and the deck together hold
      the same cards as before. */
  lemma ReplaceConserves(s: State, pid: PlayerId, role: Role, shuffled: seq<Role>)
    requires InPlay(s) && pid in s.players && |shuffled| == |s.deck| + 1
    requires role in s.players[pid].cards
    ensures var r := ReplaceClaimCard(s, pid, role, shuffled);
            var cards := s.players[pid].cards;
            && r.players[pid].cards == cards[IndexOf(cards, role) := shuffled[|s.deck|]]
            && r.deck == shuffled[..|s.deck|]
    ensures var r := ReplaceClaimCard(s, pid, role, shuffled);
            multiset(shuffled) == multiset(s.deck) + multiset{role} ==>
              multiset(r.players[pid].cards) + multiset(r.deck) == multiset(s.players[pid].cards) + multiset(s.deck)
  {
    var cards := s.players[pid].cards;
    if multiset(shuffled) == multiset(s.deck) + multiset{role} {
      TradeConserves(cards, IndexOf(cards, role), s.deck, shuffled);
    }
  }

  /** A truthful claimant keeps a hand of the same size (with the claimed card
      traded for a fresh one), nobody else's hand changes, the pending action
      and block stay, and the challenger, if holding a card, must choose one
      to lose, after which the block stands or the action goes through. */
  lemma TruthfulClaim(s: State, cid: PlayerId, shuffled: seq<Role>)
    requires Refs(s) && cid in s.players && |shuffled| == |s.deck| + 1
    requires ChallengeLegal(s, cid)
    requires ClaimTruthful(s.players[Claimant(s).value].cards, ChallengedClaim(s).value, ClaimsTwo(s))
    ensures var r := PlayerChallenge(s, cid, shuffled).0;
            var c := Claimant(s).value;
            && r.players.Keys == s.players.Keys
            && r.players == s.players[c := r.players[c]]
            && |r.players[c].cards| == |s.players[c].cards|
            && r.pendingAction == s.pendingAction && r.pendingBlock == s.pendingBlock
    ensures var r := PlayerChallenge(s, cid, shuffled).0;
            HasCards(s.players[cid]) ==>
              && r.phase == LossChoice && r.lossChooser == Some(cid)
              && r.postLoss == Some(if s.pendingBlock.Some? then BlockStandsAfterLoss else ResolveAfterLoss)
  {
    var c := Claimant(s).value;
    var x := ReplaceClaimCard(s, c, ChallengedClaim(s).value, shuffled);
    var post := if s.pendingBlock.Some? then BlockStandsAfterLoss else ResolveAfterLoss;
    assert PlayerChallenge(s, cid, shuffled).0 == StartLossChoice(x, cid, post);
    assert x.players[cid] == s.players[cid];
  }

  /** A claimant caught lying must choose a card to lose (if holding one),
      after which the block fails or the action is cancelled; no hand and
      no deck card changes. */
  lemma LyingClaim(s: State, cid: PlayerId, shuffled: seq<Role>)
    requires Refs(s) && cid in s.players && |shuffled| == |s.deck| + 1
    requires ChallengeLegal(s, cid)
    requires !ClaimTruthful(s.players[Claimant(s).value].cards, ChallengedClaim(s).value, ClaimsTwo(s))
    ensures var r := PlayerChallenge(s, cid, shuffled).0;
            var c := Claimant(s).value;
            && r.players == s.players && r.deck == s.deck
            && r.pendingAction == s.pendingAction && r.pendingBlock == s.pendingBlock
            && (HasCards(s.players[c]) ==>
                  && r.phase == LossChoice && r.lossChooser == Some(c)
                  && r.postLoss == Some(if s.pendingBlock.Some? then BlockFailsAfterLoss else CancelAfterLoss))
  {
  }

  /** `player_no_challenge` is refused outside the challenge window or with
      nothing pending, and then changes nothing. The passing player is not
      looked at: whoever passes first settles the window. */
  lemma NoChallengeSpec(s: State, pid: PlayerId, other: PlayerId)
    requires Refs(s)
    ensures PlayerNoChallenge(s, pid).1.Fail?
            <==> s.phase != ChallengeWindow || (s.pendingBlock.None? && s.pendingAction.None?)
    ensures PlayerNoChallenge(s, pid).1.Fail? ==> PlayerNoChallenge(s, pid).0 == s
    ensures PlayerNoChallenge(s, pid) == PlayerNoChallenge(s, other)
  {
  }

  /** With no block pending, an unchallenged steal or assassination moves on
      to the block window, and nothing else changes. */
  lemma NoChallengeOpensBlocks(s: State, pid: PlayerId)
    requires Refs(s) && s.phase == ChallengeWindow && s.pendingBlock.None? && s.pendingAction.Some?
    requires IsBlockable(s.pendingAction.value.action)
    ensures PlayerNoChallenge(s, pid) == (s.(phase := BlockWindow), Pass)
  {
  }
}
