/** Properties of seat rotation (`_advance_turn`) and of the victory check
    (`_check_victory`, `_alive_players_in_team`). */
module Turns {
  import opened CoupTypes
  import opened Rules

  /** The seat `d` steps after seat `i` round a table of `n` seats (for
      `d <= n`), counted without `%`. */
  function Seat(i: nat, d: nat, n: nat): (q: nat)
    requires i < n && d <= n
    ensures q < n
  {
    if i + d < n then i + d else i + d - n
  }

  /** Seat `q` of the turn order belongs to a player holding a card. */
  ghost predicate Holds(order: seq<PlayerId>, players: map<PlayerId, Player>, q: int) {
    0 <= q < |order| && order[q] in players && HasCards(players[order[q]])
  }

  /** One step of `(idx + 1) % n` from the seat `d` steps on is the seat `d + 1` steps on. */
  lemma SeatNext(i: nat, d: nat, n: nat)
    requires i < n && d < n
    ensures NextSeat(Seat(i, d, n), n) == Seat(i, d + 1, n)
  {
  }

  /** The loop of `_advance_turn`, entered after `m` of its `n` steps: it
      stops on the first later seat whose player holds a card, or runs out
      on the seat `n` steps on, having seen no such seat. */
  lemma {:induction false} SeekFinds(order: seq<PlayerId>, players: map<PlayerId, Player>, i0: nat, m: nat)
    requires AllIn(order, players) && i0 < |order| && m <= |order|
    ensures var n := |order|;
            var r := Seek(order, players, Seat(i0, m, n), n - m);
            (exists d :: m < d <= n && r == Seat(i0, d, n) && Holds(order, players, r)
                         && forall e :: m < e < d ==> !Holds(order, players, Seat(i0, e, n)))
            || (r == Seat(i0, n, n) && forall e :: m < e <= n ==> !Holds(order, players, Seat(i0, e, n)))
    decreases |order| - m
  {
    var n := |order|;
    if m < n {
      var j := NextSeat(Seat(i0, m, n), n);
      SeatNext(i0, m, n);
      AllInIndex(order, players, j);
      if !HasCards(players[order[j]]) {
        SeekFinds(order, players, i0, m + 1);
      }
    }
  }

  /** `_advance_turn` does nothing once the game is over. Otherwise it changes
      only the turn index, never leaves `[0, len(turn_order))`, and stops on
      the first seat after the current one, going round, whose player holds a
      card; if nobody holds one it comes back to the current seat. */
  lemma AdvanceTurnSpec(s: State)
    requires InPlay(s)
    ensures s.phase == GameOver ==> AdvanceTurn(s) == s
    ensures var r := AdvanceTurn(s);
            r == s.(current := r.current) && 0 <= r.current < |s.turnOrder|
    ensures var r := AdvanceTurn(s);
            var n := |s.turnOrder|;
            s.phase != GameOver ==>
              (exists d :: 0 < d <= n && r.current == Seat(s.current, d, n) && Holds(s.turnOrder, s.players, r.current)
                           && forall e :: 0 < e < d ==> !Holds(s.turnOrder, s.players, Seat(s.current, e, n)))
              || (r.current == s.current && forall q :: 0 <= q < n ==> !Holds(s.turnOrder, s.players, q))
  {
    var n := |s.turnOrder|;
    if s.phase != GameOver {
      var i0: nat := s.current;
      SeekFinds(s.turnOrder, s.players, i0, 0);
      var r := AdvanceTurn(s);
      if forall e :: 0 < e <= n ==> !Holds(s.turnOrder, s.players, Seat(i0, e, n)) {
        forall q | 0 <= q < n
          ensures !Holds(s.turnOrder, s.players, q)
        {
          var e := if q > i0 then q - i0 else q - i0 + n;
          assert Seat(i0, e, n) == q;
        }
      }
    }
  }

  /** The list `_alive_players_in_team` builds is non-empty exactly when the
      team has a player holding a card, so `_check_victory` decides on it as
      `Victor` does. */
  lemma {:induction false} AliveListNonEmpty(players: map<PlayerId, Player>, ids: seq<PlayerId>)
    requires forall id :: id in ids ==> id in players
    ensures HoldersIn(ids, players) != [] <==> TeamHasHolder(players, ids)
  {
    var h := HoldersIn(ids, players);
    if h != [] {
      assert h[0] in h;
    }
    if TeamHasHolder(players, ids) {
      var id :| id in ids && id in players && HasCards(players[id]);
      assert id in h;
    }
  }

  /** `_check_victory` ends the game, naming the winner, exactly when one of
      the two teams has a player holding a card and the other has none;
      otherwise it leaves the state alone. */
  lemma CheckVictorySpec(s: State)
    requires InPlay(s)
    ensures var r := CheckVictory(s);
            var a := TeamHasHolder(s.players, s.teamA);
            var b := TeamHasHolder(s.players, s.teamB);
            (a && !b ==> r == s.(winner := Some(A), phase := GameOver))
            && (b && !a ==> r == s.(winner := Some(B), phase := GameOver))
            && (a == b ==> r == s)
  {
  }
}
