/** Properties of the lobby (`add_player`) and of `start_game`. */
module Lobby {
  import opened CoupTypes
  import opened Rules

  predicate Increasing(ids: seq<PlayerId>) {
    forall i, j :: 0 <= i < j < |ids| ==> ids[i] < ids[j]
  }

  predicate Distinct(ids: seq<PlayerId>) {
    forall i, j :: 0 <= i < j < |ids| ==> ids[i] != ids[j]
  }

  /** The players are p1 ... pn. */
  ghost predicate Dense(players: map<PlayerId, Player>) {
    forall id :: id in players <==> 1 <= id <= |players|
  }

  /** Every id of `ids` names a player of team `t`. */
  ghost predicate OnTeam(players: map<PlayerId, Player>, ids: seq<PlayerId>, t: Team) {
    forall i :: 0 <= i < |ids| ==> ids[i] in players && players[ids[i]].team == t
  }

  /** Every player is on one of the two lists. */
  ghost predicate Covered(players: map<PlayerId, Player>, xs: seq<PlayerId>, ys: seq<PlayerId>) {
    forall id :: id in players ==> id in xs || id in ys
  }

  /** The bookkeeping of the lobby: the players are p1 ... pn, every player
      is on the list of its own team, and each list is in joining order. */
  ghost predicate Roster(s: State) {
    !Unrostered(s)
  }

  /** Some fact of `Roster` fails (a disjunction, so that `Roster` is proved
      as one obligation). */
  ghost predicate Unrostered(s: State) {
    || !Dense(s.players)
    || !Covered(s.players, s.teamA, s.teamB)
    || |s.teamA| + |s.teamB| != |s.players|
    || !Increasing(s.teamA) || !OnTeam(s.players, s.teamA, A)
    || !Increasing(s.teamB) || !OnTeam(s.players, s.teamB, B)
  }

  lemma InitialRoster(mode: Mode)
    ensures Roster(Initial(mode)) && Refs(Initial(mode))
  {
  }

  /** `add_player` succeeds exactly in the lobby and for team "A" or "B"; a
      refusal changes nothing; a new player gets the next id, 0 coins and no
      cards, and goes at the end of its team's list. */
  lemma AddPlayerSpec(s: State, name: string, team: string)
    requires Refs(s)
    ensures var (r, res) := AddPlayer(s, name, team);
            (res.Ok? <==> s.phase == Lobby && (team == "A" || team == "B"))
            && (res.Err? ==> r == s)
            && (res.Ok? ==>
                  var id := |s.players| + 1;
                  var t := if team == "A" then A else B;
                  res.value == id
                  && r.players == s.players[id := Player(name, t, 0, [], true)]
                  && r.teamA == (if t == A then s.teamA + [id] else s.teamA)
                  && r.teamB == (if t == B then s.teamB + [id] else s.teamB)
                  && r == s.(players := r.players, teamA := r.teamA, teamB := r.teamB))
  {
  }

  /** `add_player` keeps the lobby's bookkeeping, and the id it hands out is
      not already taken. */
  lemma AddPlayerRoster(s: State, name: string, team: string)
    requires Refs(s) && Roster(s)
    ensures Roster(AddPlayer(s, name, team).0)
    ensures AddPlayer(s, name, team).1.Ok? ==> AddPlayer(s, name, team).1.value !in s.players
  {
    if s.phase == Lobby && (team == "A" || team == "B") {
      var id := |s.players| + 1;
      var t := if team == "A" then A else B;
      assert AddPlayer(s, name, team).0 == Join(s, id, Player(name, t, 0, [], true));
      JoinRoster(s, Player(name, t, 0, [], true));
    }
  }

  lemma DenseGrow(players: map<PlayerId, Player>, p: Player)
    requires Dense(players)
    ensures |players| + 1 !in players
    ensures Dense(players[|players| + 1 := p])
  {
    var id := |players| + 1;
    assert id !in players;
    assert |players[id := p]| == id;
  }

  /** A player entered under a new id leaves a team list's facts intact, and
      one of team `t` may be appended to the list of `t`. */
  lemma OnTeamGrow(players: map<PlayerId, Player>, ids: seq<PlayerId>, t: Team, id: PlayerId, p: Player)
    requires OnTeam(players, ids, t) && id !in players
    ensures OnTeam(players[id := p], ids, t)
    ensures p.team == t ==> OnTeam(players[id := p], ids + [id], t)
  {
  }

  lemma IncreasingSnoc(players: map<PlayerId, Player>, ids: seq<PlayerId>, t: Team)
    requires Dense(players) && OnTeam(players, ids, t) && Increasing(ids)
    ensures Increasing(ids + [|players| + 1])
  {
    forall i | 0 <= i < |ids| ensures ids[i] < |players| + 1 { }
  }

  /** Entering a player under the next id keeps the bookkeeping. */
  lemma JoinRoster(s: State, p: Player)
    requires Roster(s)
    ensures |s.players| + 1 !in s.players
    ensures Roster(Join(s, |s.players| + 1, p))
  {
    var id := |s.players| + 1;
    var more := s.players[id := p];
    DenseGrow(s.players, p);
    OnTeamGrow(s.players, s.teamA, A, id, p);
    OnTeamGrow(s.players, s.teamB, B, id, p);
    IncreasingSnoc(s.players, s.teamA, A);
    IncreasingSnoc(s.players, s.teamB, B);
    var r := Join(s, id, p);
    assert r.players == more;
    assert Covered(more, r.teamA, r.teamB);
  }

  /** `start_game` passes exactly in the lobby with 4 or 6 players split
      evenly; a refusal changes nothing. */
  lemma StartGameOutcome(s: State, shuffled: seq<Role>)
    requires Refs(s) && |s.teamA| + |s.teamB| == |s.players|
    requires |shuffled| == 15
    ensures var (r, out) := StartGame(s, shuffled);
            (out == Pass <==> s.phase == Lobby && (|s.players| == 4 || |s.players| == 6) && |s.teamA| == |s.teamB|)
            && (out != Pass ==> r == s)
  {
  }

  lemma DistinctTail(ids: seq<PlayerId>)
    requires Distinct(ids) && ids != []
    ensures Distinct(ids[1..]) && ids[0] !in ids[1..]
  {
    forall i, j | 0 <= i < j < |ids| - 1 ensures ids[1..][i] != ids[1..][j] {
      assert ids[1..][i] == ids[i + 1] && ids[1..][j] == ids[j + 1];
    }
    forall j | 0 <= j < |ids| - 1 ensures ids[1..][j] != ids[0] {
      assert ids[1..][j] == ids[j + 1];
    }
  }

  /** The dealing loop leaves a player who has no seat alone. */
  lemma {:induction false} DealUnseated(order: seq<PlayerId>, players: map<PlayerId, Player>, deck: seq<Role>, id: PlayerId)
    requires AllIn(order, players) && |deck| >= 2 * |order|
    requires id in players && id !in order
    ensures Deal(order, players, deck).0[id] == players[id]
    decreases |order|
  {
    if order != [] {
      var n := |deck|;
      var more := players[order[0] := players[order[0]].(cards := [deck[n - 1], deck[n - 2]], coins := 0, alive := true)];
      AllInGrow(order[1..], players, more);
      DealUnseated(order[1..], more, deck[..n - 2], id);
    }
  }

  /** The dealing loop gives the player in seat `k` the cards `2k` and
      `2k + 1` from the end of the deck, 0 coins, and marks it alive. */
  lemma {:induction false} DealSeat(order: seq<PlayerId>, players: map<PlayerId, Player>, deck: seq<Role>, k: nat)
    requires AllIn(order, players) && |deck| >= 2 * |order| && Distinct(order) && k < |order|
    ensures order[k] in players
    ensures Deal(order, players, deck).0[order[k]]
            == players[order[k]].(cards := [deck[|deck| - 1 - 2 * k], deck[|deck| - 2 - 2 * k]], coins := 0, alive := true)
    decreases |order|
  {
    AllInIndex(order, players, k);
    var n := |deck|;
    var o := order[0];
    var more := players[o := players[o].(cards := [deck[n - 1], deck[n - 2]], coins := 0, alive := true)];
    AllInGrow(order[1..], players, more);
    DistinctTail(order);
    if k == 0 {
      DealUnseated(order[1..], more, deck[..n - 2], o);
    } else {
      assert order[1..][k - 1] == order[k];
      DealSeat(order[1..], more, deck[..n - 2], k - 1);
    }
  }

  /** The dealing loop over a repetition-free order that seats every player:
      seat `k` gets the cards `2k` and `2k + 1` from the end of the deck,
      every player ends with exactly two cards and 0 coins and keeps name and
      team, and the deck keeps what was not dealt. */
  lemma DealAll(order: seq<PlayerId>, players: map<PlayerId, Player>, deck: seq<Role>)
    requires AllIn(order, players) && |deck| >= 2 * |order| && Distinct(order)
    requires forall id :: id in players ==> id in order
    ensures var r := Deal(order, players, deck);
            && (forall k :: 0 <= k < |order| ==>
                  order[k] in r.0 && r.0[order[k]].cards == [deck[|deck| - 1 - 2 * k], deck[|deck| - 2 - 2 * k]])
            && (forall id :: id in r.0 ==>
                  id in players && |r.0[id].cards| == 2 && r.0[id].coins == 0
                  && r.0[id].team == players[id].team && r.0[id].name == players[id].name)
            && r.1 == deck[..|deck| - 2 * |order|]
  {
    var r := Deal(order, players, deck);
    forall k | 0 <= k < |order|
      ensures order[k] in r.0 && r.0[order[k]].cards == [deck[|deck| - 1 - 2 * k], deck[|deck| - 2 - 2 * k]]
    {
      DealSeat(order, players, deck, k);
    }
    forall id | id in r.0
      ensures id in players && |r.0[id].cards| == 2 && r.0[id].coins == 0
      ensures r.0[id].team == players[id].team && r.0[id].name == players[id].name
    {
      var k :| 0 <= k < |order| && order[k] == id;
      DealSeat(order, players, deck, k);
    }
  }

  /** The seating `zip` gives is repetition-free when the two lists are and
      no player is on both. */
  lemma SeatingDistinct(players: map<PlayerId, Player>, xs: seq<PlayerId>, ys: seq<PlayerId>)
    requires |xs| == |ys| && Increasing(xs) && Increasing(ys) && OnTeam(players, xs, A) && OnTeam(players, ys, B)
    ensures Distinct(Interleave(xs, ys))
  {
    var order := Interleave(xs, ys);
    forall i, j | 0 <= i < j < |order| ensures order[i] != order[j] {
      if i % 2 == j % 2 {
        assert i / 2 < j / 2;
      }
    }
  }

  /** Seats `2i` and `2i + 1` of the seating `zip` gives. */
  lemma {:induction false} InterleaveAt(xs: seq<PlayerId>, ys: seq<PlayerId>, i: nat)
    requires |xs| == |ys| && i < |xs|
    ensures Interleave(xs, ys)[2 * i] == xs[i] && Interleave(xs, ys)[2 * i + 1] == ys[i]
    decreases i
  {
    if i > 0 {
      InterleaveAt(xs[1..], ys[1..], i - 1);
    }
  }

  /** The seating `zip` gives seats every player of the two lists. */
  lemma SeatingCovers(players: map<PlayerId, Player>, xs: seq<PlayerId>, ys: seq<PlayerId>)
    requires |xs| == |ys| && Covered(players, xs, ys)
    ensures forall id :: id in players ==> id in Interleave(xs, ys)
  {
    var order := Interleave(xs, ys);
    forall id | id in players ensures id in order {
      if id in xs {
        var i :| 0 <= i < |xs| && xs[i] == id;
        InterleaveAt(xs, ys, i);
      } else {
        var i :| 0 <= i < |ys| && ys[i] == id;
        InterleaveAt(xs, ys, i);
      }
    }
  }

  /** The seating `zip` gives alternates A, B, A, B, ... */
  lemma SeatingTeams(players: map<PlayerId, Player>, xs: seq<PlayerId>, ys: seq<PlayerId>)
    requires |xs| == |ys| && OnTeam(players, xs, A) && OnTeam(players, ys, B)
    ensures var order := Interleave(xs, ys);
            forall i :: 0 <= i < |order| ==>
              order[i] in players && players[order[i]].team == if i % 2 == 0 then A else B
  {
  }

  /** The seating facts of `start_game` for a lobby whose bookkeeping holds. */
  lemma Seating(s: State)
    requires Roster(s) && |s.teamA| == |s.teamB|
    ensures var order := Interleave(s.teamA, s.teamB);
            && |order| == |s.players|
            && Distinct(order)
            && (forall id :: id in s.players <==> id in order)
            && (forall i :: 0 <= i < |order| ==>
                  order[i] in s.players && s.players[order[i]].team == if i % 2 == 0 then A else B)
  {
    SeatingDistinct(s.players, s.teamA, s.teamB);
    SeatingCovers(s.players, s.teamA, s.teamB);
    SeatingTeams(s.players, s.teamA, s.teamB);
    SeatingMembers(s.players, s.teamA, s.teamB);
  }

  lemma SeatingMembers(players: map<PlayerId, Player>, xs: seq<PlayerId>, ys: seq<PlayerId>)
    requires |xs| == |ys| && OnTeam(players, xs, A) && OnTeam(players, ys, B)
    ensures forall id :: id in Interleave(xs, ys) ==> id in players
  {
    SeatingTeams(players, xs, ys);
    var order := Interleave(xs, ys);
    forall id | id in order ensures id in players {
      var i :| 0 <= i < |order| && order[i] == id;
    }
  }

  /** The state `start_game` sets up, when its checks pass. */
  lemma StartGameSetup(s: State, shuffled: seq<Role>)
    requires Refs(s) && |s.teamA| + |s.teamB| == |s.players|
    requires |shuffled| == 15
    requires StartGame(s, shuffled).1 == Pass
    ensures 0 < |s.teamA| == |s.teamB| && 4 * |s.teamA| <= 15
    ensures StartGame(s, shuffled).0 == Setup(s, shuffled)
  {
  }

  /** After `start_game` the turn order seats every player once, alternating
      A, B, A, B, ..., and the first seat plays, in action selection. */
  lemma StartGameSeats(s: State, shuffled: seq<Role>)
    requires Refs(s) && Roster(s)
    requires |shuffled| == 15
    requires StartGame(s, shuffled).1 == Pass
    ensures var r := StartGame(s, shuffled).0;
            && r.phase == ActionSelection && r.current == 0
            && r.players.Keys == s.players.Keys
            && |r.turnOrder| == |s.players|
            && Distinct(r.turnOrder)
            && (forall id :: id in s.players <==> id in r.turnOrder)
            && (forall i :: 0 <= i < |r.turnOrder| ==>
                  r.turnOrder[i] in r.players && r.players[r.turnOrder[i]].team == if i % 2 == 0 then A else B)
  {
    StartGameSetup(s, shuffled);
    var order := Interleave(s.teamA, s.teamB);
    InterleaveAllIn(s.teamA, s.teamB, s.players);
    Seating(s);
    DealAll(order, s.players, shuffled);
  }

  /** After `start_game` each player holds the two cards dealt to its seat off
      the end of the shuffled deck: exactly two, with 0 coins. */
  lemma StartGameHands(s: State, shuffled: seq<Role>)
    requires Refs(s) && Roster(s)
    requires |shuffled| == 15
    requires StartGame(s, shuffled).1 == Pass
    ensures var r := StartGame(s, shuffled).0;
            && (forall k :: 0 <= k < |r.turnOrder| ==>
                  r.turnOrder[k] in r.players && r.players[r.turnOrder[k]].cards == [shuffled[|shuffled| - 1 - 2 * k], shuffled[|shuffled| - 2 - 2 * k]])
            && (forall id :: id in r.players ==> |r.players[id].cards| == 2 && r.players[id].coins == 0)
  {
    StartGameSetup(s, shuffled);
    InterleaveAllIn(s.teamA, s.teamB, s.players);
    Seating(s);
    DealAll(Interleave(s.teamA, s.teamB), s.players, shuffled);
  }

  /** After `start_game` the deck keeps the cards not dealt, so no card is
      lost or made. */
  lemma StartGameDeck(s: State, shuffled: seq<Role>)
    requires Refs(s) && |s.teamA| + |s.teamB| == |s.players|
    requires |shuffled| == 15
    requires StartGame(s, shuffled).1 == Pass
    ensures var r := StartGame(s, shuffled).0;
            && r.deck == shuffled[..|shuffled| - 2 * |r.turnOrder|]
            && multiset(r.deck) + multiset(shuffled[|shuffled| - 2 * |r.turnOrder|..]) == multiset(shuffled)
  {
    StartGameSetup(s, shuffled);
    SplitMultiset(shuffled, |shuffled| - 2 * |Interleave(s.teamA, s.teamB)|);
  }

  lemma SplitMultiset(xs: seq<Role>, m: nat)
    requires m <= |xs|
    ensures multiset(xs[..m]) + multiset(xs[m..]) == multiset(xs)
  {
    assert xs == xs[..m] + xs[m..];
  }
}
