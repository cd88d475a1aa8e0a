/** The Ambassador exchange (`_start_exchange`, `finish_exchange`): the pool
    the actor sees, the hand kept, the cards returned, and the cards neither
    made nor lost on the way. */
module Exchange {
  import opened CoupTypes
  import opened Rules

  function Reverse(xs: seq<Role>): (r: seq<Role>)
    ensures |r| == |xs|
  {
    if xs == [] then [] else Reverse(xs[1..]) + [xs[0]]
  }

  lemma {:induction false} ReverseMultiset(xs: seq<Role>)
    ensures multiset(Reverse(xs)) == multiset(xs)
  {
    if xs != [] {
      assert xs == [xs[0]] + xs[1..];
      ReverseMultiset(xs[1..]);
    }
  }

  /** The draw loop pops cards off the end of the deck: what is left,
      followed by the drawn cards in reverse order of drawing, is the deck. */
  lemma {:induction false} DrawSplitsDeck(deck: seq<Role>, k: nat)
    ensures var d := DrawUpTo(deck, k);
            d.0 + Reverse(d.1) == deck
    decreases k
  {
    if k != 0 && |deck| != 0 {
      var n := |deck|;
      DrawSplitsDeck(deck[..n - 1], k - 1);
      var rest := DrawUpTo(deck[..n - 1], k - 1);
      assert Reverse([deck[n - 1]] + rest.1) == Reverse(rest.1) + [deck[n - 1]] by {
        assert ([deck[n - 1]] + rest.1)[1..] == rest.1;
      }
      assert deck == deck[..n - 1] + [deck[n - 1]];
    }
  }

  /** So drawing moves cards from the deck to the pool without making or losing any. */
  lemma DrawConserves(deck: seq<Role>, k: nat)
    ensures var d := DrawUpTo(deck, k);
            multiset(d.0) + multiset(d.1) == multiset(deck)
  {
    var d := DrawUpTo(deck, k);
    DrawSplitsDeck(deck, k);
    ReverseMultiset(d.1);
    assert multiset(d.0 + Reverse(d.1)) == multiset(d.0) + multiset(Reverse(d.1));
  }

  /** `_start_exchange`: no hand changes; the actor sees a pool of the hand
      followed by as many cards as the deck gives, up to `drawCount`, taken
      off the end of the deck; the swap choice begins. Pool and deck hold
      together the hand and the old deck. */
  lemma StartExchangeSpec(s: State, actor: PlayerId, drawCount: nat)
    requires InPlay(s) && actor in s.players
    ensures var r := StartExchange(s, actor, drawCount);
            var hand := s.players[actor].cards;
            && r.players == s.players
            && r.phase == SwapChoice && r.exchangeActor == Some(actor)
            && r.exchangeCards.Some? && |r.exchangeCards.value| == |hand| + Min(drawCount, |s.deck|)
            && r.exchangeCards.value[..|hand|] == hand
            && r.deck + Reverse(r.exchangeCards.value[|hand|..]) == s.deck
            && multiset(r.exchangeCards.value) + multiset(r.deck) == multiset(hand) + multiset(s.deck)
  {
    var hand := s.players[actor].cards;
    var d := DrawUpTo(s.deck, drawCount);
    DrawSplitsDeck(s.deck, drawCount);
    DrawConserves(s.deck, drawCount);
    assert (hand + d.1)[..|hand|] == hand;
    assert (hand + d.1)[|hand|..] == d.1;
  }

  /** Kept and returned cards split the pool between them. */
  lemma {:induction false} SelectPartition(pool: seq<Role>, ks: set<int>)
    ensures multiset(Select(pool, ks, true)) + multiset(Select(pool, ks, false)) == multiset(pool)
    decreases |pool|
  {
    if pool != [] {
      var n := |pool|;
      SelectPartition(pool[..n - 1], ks);
      assert pool == pool[..n - 1] + [pool[n - 1]];
    }
  }

  /** How many of the indices `0 .. n-1` lie in `ks`. */
  function InRange(n: nat, ks: set<int>): nat {
    if n == 0 then 0 else InRange(n - 1, ks) + (if n - 1 in ks then 1 else 0)
  }

  /** The kept hand has one card per distinct index that lies in the pool. */
  lemma {:induction false} SelectSize(pool: seq<Role>, ks: set<int>)
    ensures |Select(pool, ks, true)| == InRange(|pool|, ks)
    decreases |pool|
  {
    if pool != [] {
      SelectSize(pool[..|pool| - 1], ks);
    }
  }

  /** Indices outside `0 .. n-1` are not counted. */
  lemma {:induction false} InRangeIgnores(n: nat, ks: set<int>, i: int)
    requires i < 0 || i >= n
    ensures InRange(n, ks) == InRange(n, ks - {i})
  {
    if n > 0 {
      InRangeIgnores(n - 1, ks, i);
    }
  }

  /** A set of indices inside `0 .. n-1` is counted in full. */
  lemma {:induction false} InRangeAll(n: nat, ks: set<int>)
    requires forall i :: i in ks ==> 0 <= i < n
    ensures InRange(n, ks) == |ks|
  {
    if n == 0 {
      assert forall i :: i !in ks;
      assert ks == {};
    } else if n - 1 in ks {
      InRangeIgnores(n - 1, ks, n - 1);
      InRangeAll(n - 1, ks - {n - 1});
      assert ks == (ks - {n - 1}) + {n - 1};
    } else {
      InRangeAll(n - 1, ks);
    }
  }

  /** The elements of a sequence without repetitions number its length. */
  lemma {:induction false} DistinctCard(keep: seq<int>)
    requires forall i, j :: 0 <= i < j < |keep| ==> keep[i] != keep[j]
    ensures |set i | i in keep| == |keep|
  {
    if keep != [] {
      DistinctCard(keep[1..]);
      assert (set i | i in keep) == {keep[0]} + (set i | i in keep[1..]);
      assert keep[0] !in (set i | i in keep[1..]);
    }
  }

  /** The checks of `finish_exchange`: the swap choice, the exchanging
      player, a pool, as many indices as cards in hand, each inside the pool. */
  ghost predicate FinishLegal(s: State, pid: PlayerId, keep: seq<int>)
    requires Refs(s)
  {
    && s.phase == SwapChoice
    && s.exchangeActor == Some(pid)
    && s.exchangeCards.Some?
    && |keep| == |s.players[pid].cards|
    && (forall i :: i in keep ==> 0 <= i < |s.exchangeCards.value|)
  }

  /** `finish_exchange` is accepted exactly when its checks pass, and a
      refused one changes nothing. */
  lemma FinishExchangeChecks(s: State, pid: PlayerId, keep: seq<int>, shuffled: seq<Role>)
    requires Refs(s)
    ensures FinishExchange(s, pid, keep, shuffled).1 == Pass <==> FinishLegal(s, pid, keep)
    ensures FinishExchange(s, pid, keep, shuffled).1.Fail? ==> FinishExchange(s, pid, keep, shuffled).0 == s
  {
  }

  /** An accepted `finish_exchange` gives the actor the pool cards at the
      kept indices, sets the deck to the shuffled deck, ends the exchange,
      and leaves every other hand alone; the game goes on in action
      selection unless the victory check has ended it. That the kept cards
      are the pool at the sorted distinct indices is `FinishExchangeHand`. */
  lemma FinishExchangeSpec(s: State, pid: PlayerId, keep: seq<int>, shuffled: seq<Role>)
    requires Refs(s) && FinishLegal(s, pid, keep)
    ensures var r := FinishExchange(s, pid, keep, shuffled).0;
            && r.players == s.players[pid := s.players[pid].(cards := Select(s.exchangeCards.value, set i | i in keep, true))]
            && r.deck == shuffled
            && r.exchangeActor.None? && r.exchangeCards.None?
            && (r.phase == ActionSelection || r.phase == GameOver)
  {
    var hand := Select(s.exchangeCards.value, set i | i in keep, true);
    var x := SwapHand(s, pid, hand, shuffled);
    assert !AnyOutside(keep, |s.exchangeCards.value|);
    assert FinishExchange(s, pid, keep, shuffled).0 == AdvanceTurn(CheckVictory(x));
    SwapClose(x);
  }

  /** The victory check and the turn after a swap touch neither the hands,
      the deck nor the exchange fields. */
  lemma SwapClose(x: State)
    requires InPlay(x) && x.phase == ActionSelection
    ensures var r := AdvanceTurn(CheckVictory(x));
            && r.players == x.players && r.deck == x.deck
            && r.exchangeActor == x.exchangeActor && r.exchangeCards == x.exchangeCards
            && (r.phase == ActionSelection || r.phase == GameOver)
  {
  }

  /** With distinct indices the kept hand is as large as the old one, and
      kept and returned cards together are the pool. */
  lemma DistinctKeep(s: State, pid: PlayerId, keep: seq<int>)
    requires Refs(s) && FinishLegal(s, pid, keep)
    requires forall i, j :: 0 <= i < j < |keep| ==> keep[i] != keep[j]
    ensures var pool := s.exchangeCards.value;
            var hand := Select(pool, set i | i in keep, true);
            && |hand| == |s.players[pid].cards|
            && multiset(hand) + multiset(ExchangeReturned(s, keep)) == multiset(pool)
  {
    var pool := s.exchangeCards.value;
    var ks := set i | i in keep;
    SelectSize(pool, ks);
    InRangeAll(|pool|, ks);
    DistinctCard(keep);
    SelectPartition(pool, ks);
  }

  /** When the new deck is a shuffle of the old deck and the returned cards,
      the actor's hand and the deck hold together exactly the pool and the
      old deck, for every accepted keep list: a repeated index costs the
      hand a card but sends that card back to the deck. */
  lemma FinishConserves(s: State, pid: PlayerId, keep: seq<int>, shuffled: seq<Role>)
    requires Refs(s) && FinishLegal(s, pid, keep)
    requires multiset(shuffled) == multiset(s.deck) + multiset(ExchangeReturned(s, keep))
    ensures var r := FinishExchange(s, pid, keep, shuffled).0;
            multiset(r.players[pid].cards) + multiset(r.deck) == multiset(s.exchangeCards.value) + multiset(s.deck)
  {
    FinishExchangeSpec(s, pid, keep, shuffled);
    SelectPartition(s.exchangeCards.value, (set i | i in keep));
  }

  /** An index outside the pool makes no difference to what is selected. */
  lemma {:induction false} SelectIgnores(pool: seq<Role>, ks: set<int>, i: int, kept: bool)
    requires i < 0 || i >= |pool|
    ensures Select(pool, ks, kept) == Select(pool, ks - {i}, kept)
    decreases |pool|
  {
    if pool != [] {
      SelectIgnores(pool[..|pool| - 1], ks, i, kept);
    }
  }

  /** The kept cards are the pool read at the kept indices in increasing
      order: for any strictly increasing list `order` of exactly the indices
      in `ks`, all inside the pool, the selection is the pool at `order`. */
  lemma {:induction false} SelectSorted(pool: seq<Role>, ks: set<int>, order: seq<int>)
    requires forall a, b :: 0 <= a < b < |order| ==> order[a] < order[b]
    requires forall i :: i in ks <==> i in order
    requires forall k :: 0 <= k < |order| ==> 0 <= order[k] < |pool|
    ensures Select(pool, ks, true) == seq(|order|, j requires 0 <= j < |order| => pool[order[j]])
    decreases |pool|
  {
    if pool == [] {
      IncreasingLength(order, 0);
    } else {
      var n := |pool|;
      var front := pool[..n - 1];
      if n - 1 in ks {
        SortedLast(ks, order, n);
        var rest := order[..|order| - 1];
        SelectIgnores(front, ks, n - 1, true);
        SelectSorted(front, ks - {n - 1}, rest);
        ReadAppend(pool, rest);
        assert order == rest + [n - 1];
      } else {
        SortedBelow(ks, order, n);
        SelectSorted(front, ks, order);
        ReadFront(pool, order);
      }
    }
  }

  /** A strictly increasing list of indices below `n` has at most `n` entries. */
  lemma {:induction false} IncreasingLength(order: seq<int>, n: nat)
    requires forall a, b :: 0 <= a < b < |order| ==> order[a] < order[b]
    requires forall k :: 0 <= k < |order| ==> 0 <= order[k] < n
    ensures |order| <= n
    decreases |order|
  {
    if order != [] {
      var m := |order|;
      IncreasingLength(order[..m - 1], order[m - 1]);
    }
  }

  /** When the last pool index is kept it ends `order`, and the rest of
      `order` lists the other kept indices, all below it. */
  lemma SortedLast(ks: set<int>, order: seq<int>, n: int)
    requires forall a, b :: 0 <= a < b < |order| ==> order[a] < order[b]
    requires forall i :: i in ks <==> i in order
    requires forall k :: 0 <= k < |order| ==> 0 <= order[k] < n
    requires n - 1 in ks
    ensures |order| > 0 && order[|order| - 1] == n - 1
    ensures var rest := order[..|order| - 1];
            && (forall k :: 0 <= k < |rest| ==> 0 <= rest[k] < n - 1)
            && (forall i :: i in ks - {n - 1} <==> i in rest)
  {
    var m := |order|;
    var k :| 0 <= k < m && order[k] == n - 1;
    var rest := order[..m - 1];
    forall i
      ensures i in ks - {n - 1} <==> i in rest
    {
      if i in ks - {n - 1} {
        var k' :| 0 <= k' < m && order[k'] == i;
        assert rest[k'] == i;
      }
    }
  }

  /** When the last pool index is not kept, every kept index lies below it. */
  lemma SortedBelow(ks: set<int>, order: seq<int>, n: int)
    requires forall i :: i in ks <==> i in order
    requires forall k :: 0 <= k < |order| ==> 0 <= order[k] < n
    requires n - 1 !in ks
    ensures forall k :: 0 <= k < |order| ==> 0 <= order[k] < n - 1
  {
    forall k | 0 <= k < |order|
      ensures order[k] != n - 1
    {
      assert order[k] in order;
    }
  }

  /** Reading `rest` off the pool without its last card, then that card. */
  lemma ReadAppend(pool: seq<Role>, rest: seq<int>)
    requires |pool| > 0
    requires forall k :: 0 <= k < |rest| ==> 0 <= rest[k] < |pool| - 1
    ensures var order := rest + [|pool| - 1];
            seq(|order|, j requires 0 <= j < |order| => pool[order[j]])
              == seq(|rest|, j requires 0 <= j < |rest| => pool[..|pool| - 1][rest[j]]) + [pool[|pool| - 1]]
  {
  }

  /** Reading indices below the last off the pool or off its front is the same. */
  lemma ReadFront(pool: seq<Role>, order: seq<int>)
    requires |pool| > 0
    requires forall k :: 0 <= k < |order| ==> 0 <= order[k] < |pool| - 1
    ensures seq(|order|, j requires 0 <= j < |order| => pool[order[j]])
              == seq(|order|, j requires 0 <= j < |order| => pool[..|pool| - 1][order[j]])
  {
  }

  /** So the hand `finish_exchange` gives the actor is the pool read at the
      distinct kept indices in increasing order, whatever order and
      repetitions the keep list has. */
  lemma FinishExchangeHand(s: State, pid: PlayerId, keep: seq<int>, shuffled: seq<Role>, order: seq<int>)
    requires Refs(s) && FinishLegal(s, pid, keep)
    requires forall a, b :: 0 <= a < b < |order| ==> order[a] < order[b]
    requires forall k :: 0 <= k < |order| ==> order[k] in keep
    requires forall i :: i in keep ==> i in order
    ensures var pool := s.exchangeCards.value;
            FinishExchange(s, pid, keep, shuffled).0.players[pid].cards
              == seq(|order|, j requires 0 <= j < |order| => pool[order[j]])
  {
    FinishExchangeSpec(s, pid, keep, shuffled);
    SelectSorted(s.exchangeCards.value, (set i | i in keep), order);
  }

  /** `keep_set` drops repeated indices while the length check counts them:
      an actor with two cards and a pool of four who keeps index 0 twice is
      accepted and is left with a single card, the other three pool cards
      going back. */
  lemma RepeatedKeepLosesCard(s: State, pid: PlayerId, shuffled: seq<Role>)
    requires Refs(s) && s.phase == SwapChoice && s.exchangeActor == Some(pid)
    requires s.exchangeCards == Some([Duke, Captain, Contessa, Assassin]) && |s.players[pid].cards| == 2
    ensures FinishExchange(s, pid, [0, 0], shuffled).1 == Pass
    ensures FinishExchange(s, pid, [0, 0], shuffled).0.players[pid].cards == [Duke]
    ensures ExchangeReturned(s, [0, 0]) == [Captain, Contessa, Assassin]
  {
    var ks := set i | i in [0, 0];
    assert ks == {0};
    assert Select([Duke, Captain, Contessa, Assassin], ks, true) == [Duke] by {
      assert [Duke, Captain, Contessa, Assassin][..3] == [Duke, Captain, Contessa];
      assert [Duke, Captain, Contessa][..2] == [Duke, Captain];
      assert [Duke, Captain][..1] == [Duke];
      assert [Duke][..0] == [];
    }
    assert Select([Duke, Captain, Contessa, Assassin], ks, false) == [Captain, Contessa, Assassin] by {
      assert [Duke, Captain, Contessa, Assassin][..3] == [Duke, Captain, Contessa];
      assert [Duke, Captain, Contessa][..2] == [Duke, Captain];
      assert [Duke, Captain][..1] == [Duke];
      assert [Duke][..0] == [];
    }
    FinishExchangeChecks(s, pid, [0, 0], shuffled);
    FinishExchangeSpec(s, pid, [0, 0], shuffled);
  }
}
