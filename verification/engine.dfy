/** The game loop of Game_fraude.py: five players by seat (0 calling
    station, 1 tag, 2 lag, 3 maniac, 4 nit), the blinds, the betting rounds
    and the settlement of the pot. The players' replies come from an oracle
    that stands for the bots, their randomness and whatever they keep
    between decisions. Chips are whole numbers. */
module Engine {
  import opened Lists
  import opened Cards
  import opened Py
  import opened Moves
  import opened Dealing

  /** What a player's `action` hands back: a dict with one key and its
      value, a bare string (the calling station's other signature), or an
      exception. */
  datatype Reply = Dict(move: Move, amount: int) | Str(name: Move) | Raised

  /** The action dict the betting round reads: its one key and its value. */
  datatype Action = Action(move: Move, amount: int)

  /** The reply of the player in `seat` to the `k`-th question of a betting
      round on `board` at street `state`, with `toCall` chips to call. */
  type Oracle = (seq<Item>, int, nat, nat, int) -> Reply

  /** The record `_award_pot` and `_showdown` append to `game_history`:
      the game number, the winning seats, the pot, the board and every
      player's final stack. */
  datatype GameData = GameData(gameNumber: int, winners: seq<nat>, pot: int, board: seq<Item>, finalStacks: seq<int>)

  /** `_get_player_action`: an exception becomes `{'fold': True}` and a
      string `r` becomes `{r: True}`, whose `True` counts as 1 when it is
      added to the amount to call. */
  function PlayerAction(reply: Reply): (a: Action)
    ensures a.move == Fold <==> reply.Raised? || (reply.Dict? && reply.move == Fold) || (reply.Str? && reply.name == Fold)
    ensures reply.Dict? ==> a == Action(reply.move, reply.amount)
    ensures !reply.Dict? ==> a.amount == 1
  {
    match reply
    case Dict(m, x) => Action(m, x)
    case Str(m) => Action(m, 1)
    case Raised => Action(Fold, 1)
  }

  /** Every bet or raise an oracle replies with is of a non-negative
      amount. */
  ghost predicate NonNegativeBets(oracle: Oracle) {
    forall b, st, k, s, c :: oracle(b, st, k, s, c).Dict? ==> oracle(b, st, k, s, c).amount >= 0
  }

  ghost predicate NonNegative(stacks: seq<int>) {
    forall s :: 0 <= s < |stacks| ==> stacks[s] >= 0
  }

  /** `[p for p in self.players if p.stack > 0]`, as seats in seat order. */
  function WithChips(stacks: seq<int>): (r: seq<nat>)
    ensures |r| <= |stacks|
    ensures forall i :: 0 <= i < |r| ==> r[i] < |stacks| && stacks[r[i]] > 0
    ensures forall s {:trigger s in r} :: 0 <= s < |stacks| && stacks[s] > 0 ==> s in r
    ensures forall i, j :: 0 <= i < j < |r| ==> r[i] < r[j]
  {
    if stacks == [] then []
    else
      var n := |stacks| - 1;
      WithChips(stacks[..n]) + (if stacks[n] > 0 then [n] else [])
  }

  /** The largest contribution of the seats below `n`, `None` when none of
      them has one. */
  function MaxBelow(bets: map<nat, int>, n: nat): (r: Option<int>)
    ensures r.None? <==> forall s :: s in bets ==> s >= n
    ensures r.Some? ==> forall s :: s in bets && s < n ==> bets[s] <= r.value
    ensures r.Some? ==> exists s :: s in bets && s < n && bets[s] == r.value
  {
    if n == 0 then None
    else
      var m := MaxBelow(bets, n - 1);
      if n - 1 !in bets then m
      else if m.None? || m.value < bets[n - 1] then Some(bets[n - 1])
      else m
  }

  /** `max(current_bets.values()) if current_bets else 0`, for
      contributions keyed by seats below `n`: no contribution exceeds it,
      and it is one of them. */
  function CurrentBet(bets: map<nat, int>, n: nat): (r: int)
    requires forall s :: s in bets ==> s < n
    ensures forall s :: s in bets ==> bets[s] <= r
    ensures bets != map[] ==> exists s :: s in bets && bets[s] == r
    ensures bets == map[] ==> r == 0
  {
    if bets == map[] then 0
    else
      assert bets.Keys != {};
      NonEmptyHasMember(bets.Keys);
      MaxBelow(bets, n).value
  }

  /** `[current_bets[id(p)] for p in active_players if p.stack > 0]` */
  function BetsWithChips(active: seq<nat>, bets: map<nat, int>, stacks: seq<int>): (r: seq<int>)
    requires forall s :: s in active ==> s in bets && s < |stacks|
    ensures |r| <= |active|
  {
    if active == [] then []
    else
      var n := |active| - 1;
      assert forall s :: s in active[..n] ==> s in active;
      assert active[n] in active;
      BetsWithChips(active[..n], bets, stacks) + (if stacks[active[n]] > 0 then [bets[active[n]]] else [])
  }

  /** The test that ends a betting round: some player with chips is left,
      all players with chips have put in the same amount, and someone acted
      in the pass. */
  predicate Settled(active: seq<nat>, bets: map<nat, int>, stacks: seq<int>, acted: bool)
    requires forall s :: s in active ==> s in bets && s < |stacks|
  {
    var list := BetsWithChips(active, bets, stacks);
    list != [] && |(set b | b in list)| <= 1 && acted
  }

  /** What a betting round did with the chips, from the state `(stacks0,
      bets0, pot0)`: every seat in the round paid into the pot exactly what
      its contribution grew by, the other seats paid nothing, and no chip
      was made or lost. */
  ghost predicate Paid(stacks0: seq<int>, bets0: map<nat, int>, pot0: int,
                       stacks: seq<int>, bets: map<nat, int>, pot: int)
  {
    && |stacks| == |stacks0|
    && bets.Keys == bets0.Keys
    && (forall s :: s in bets0 ==> s < |stacks0| && bets[s] - bets0[s] == stacks0[s] - stacks[s])
    && (forall s :: 0 <= s < |stacks| && s !in bets0 ==> stacks[s] == stacks0[s])
    && pot + Sum(stacks) == pot0 + Sum(stacks0)
  }

  /** A payment of `x` by a seat in the round keeps the account. */
  lemma PayKeepsAccount(stacks0: seq<int>, bets0: map<nat, int>, pot0: int,
                        stacks: seq<int>, bets: map<nat, int>, pot: int, seat: nat, x: int)
    requires Paid(stacks0, bets0, pot0, stacks, bets, pot)
    requires seat in bets0
    ensures Paid(stacks0, bets0, pot0, stacks[seat := stacks[seat] - x], bets[seat := bets[seat] + x], pot + x)
  {
    SumUpdate(stacks, seat, stacks[seat] - x);
  }

  /** The account of a round with nothing paid yet. */
  lemma PaidRefl(stacks: seq<int>, bets: map<nat, int>, pot: int)
    requires forall s :: s in bets ==> s < |stacks|
    ensures Paid(stacks, bets, pot, stacks, bets, pot)
  {
  }

  /** Two accounts one after the other make one. */
  lemma PaidTrans(st0: seq<int>, b0: map<nat, int>, p0: int, st1: seq<int>, b1: map<nat, int>, p1: int,
                  st2: seq<int>, b2: map<nat, int>, p2: int)
    requires Paid(st0, b0, p0, st1, b1, p1) && Paid(st1, b1, p1, st2, b2, p2)
    ensures Paid(st0, b0, p0, st2, b2, p2)
  {
  }

  lemma NoDupsRemoveFirst<T>(s: seq<T>, x: T)
    requires NoDups(s)
    ensures NoDups(RemoveFirst(s, x))
  {
    NoDupsIffCountsAtMostOne(s);
    NoDupsIffCountsAtMostOne(RemoveFirst(s, x));
  }

  /** `list.remove` keeps the other players in order, and each once if
      they were. */
  lemma RemoveFirstKeeps(active: seq<nat>, seat: nat)
    ensures IsSubsequence(RemoveFirst(active, seat), active)
    ensures forall s :: s in RemoveFirst(active, seat) ==> s in active
    ensures NoDups(active) ==> NoDups(RemoveFirst(active, seat))
  {
    RemoveFirstSubsequence(active, seat);
    SubsequenceMembers(RemoveFirst(active, seat), active);
    if NoDups(active) {
      NoDupsRemoveFirst(active, seat);
    }
  }

  /** A player leaving keeps the others in order, each once. */
  lemma LeaveKeepsOrder(active: seq<nat>, seat: nat)
    requires NoDups(active)
    ensures IsSubsequence(RemoveFirst(active, seat), active) && NoDups(RemoveFirst(active, seat))
  {
    RemoveFirstSubsequence(active, seat);
    NoDupsRemoveFirst(active, seat);
  }

  /** A payment of `min(x, stack)` leaves a stack that is not negative. */
  lemma PaymentWithinStack(stack: int, x: int)
    ensures stack - Min(x, stack) >= 0
    ensures stack >= 0 && x >= 0 ==> Min(x, stack) >= 0
  {
  }

  /** What a call or a bet pays: `min(amount_to_call, stack)` for a call,
      `min(amount_to_call + amount, stack)` for a bet or a raise. It never
      leaves the stack below 0, and it is not negative when the stack, the
      amount to call and the amount bet are not. */
  function Payment(a: Action, toCall: int, stack: int): (x: int)
    requires a.move == Call || Aggressive(a.move)
    ensures stack - x >= 0
    ensures stack >= 0 && toCall >= 0 && (a.move == Call || a.amount >= 0) ==> x >= 0
  {
    if a.move == Call then Min(toCall, stack) else Min(toCall + a.amount, stack)
  }

  // ---------------------------------------------------------------------
  // Showdown

  /** The loop of `_showdown` over the players, starting from `best_rank =
      0` and no winner: a better rank starts a new list of winners, an
      equal one joins it. Returns the best rank and the winners. */
  function WinnersScan(active: seq<nat>, ranks: seq<int>): (r: (int, seq<nat>))
    requires |ranks| == |active|
  {
    if active == [] then (0, [])
    else
      var n := |active| - 1;
      var (best, winners) := WinnersScan(active[..n], ranks[..n]);
      if ranks[n] > best then (ranks[n], [active[n]])
      else if ranks[n] == best then (best, winners + [active[n]])
      else (best, winners)
  }

  /** The largest rank, and 0 if that is larger. */
  function MaxRank(ranks: seq<int>): (m: int)
    ensures m >= 0
    ensures forall i :: 0 <= i < |ranks| ==> ranks[i] <= m
    ensures m == 0 || exists i :: 0 <= i < |ranks| && ranks[i] == m
  {
    if ranks == [] then 0
    else
      var n := |ranks| - 1;
      var m := MaxRank(ranks[..n]);
      assert forall i :: 0 <= i < n ==> ranks[..n][i] == ranks[i];
      if ranks[n] > m then ranks[n] else m
  }

  /** The players, in order, whose rank is `m`. */
  function AtRank(active: seq<nat>, ranks: seq<int>, m: int): (r: seq<nat>)
    requires |ranks| == |active|
    ensures forall x :: x in r <==> exists i :: 0 <= i < |active| && active[i] == x && ranks[i] == m
    ensures forall x :: x in r ==> x in active
  {
    if active == [] then []
    else
      var n := |active| - 1;
      var r := AtRank(active[..n], ranks[..n], m);
      assert forall i :: 0 <= i < n ==> active[..n][i] == active[i] && ranks[..n][i] == ranks[i];
      r + (if ranks[n] == m then [active[n]] else [])
  }

  /** No player of a list ranked below `m` has rank `m`. */
  lemma {:induction false} AtRankNone(active: seq<nat>, ranks: seq<int>, m: int)
    requires |ranks| == |active|
    requires forall i :: 0 <= i < |ranks| ==> ranks[i] < m
    ensures AtRank(active, ranks, m) == []
  {
    if active != [] {
      var n := |active| - 1;
      AtRankNone(active[..n], ranks[..n], m);
    }
  }

  /** The winners of the showdown loop are exactly the players of the best
      rank, in their order at the table, and the best rank it keeps is the
      largest rank (or 0). */
  lemma {:induction false} WinnersAreBest(active: seq<nat>, ranks: seq<int>)
    requires |ranks| == |active|
    ensures WinnersScan(active, ranks).0 == MaxRank(ranks)
    ensures WinnersScan(active, ranks).1 == AtRank(active, ranks, MaxRank(ranks))
  {
    if active != [] {
      var n := |active| - 1;
      WinnersAreBest(active[..n], ranks[..n]);
      var m := MaxRank(ranks[..n]);
      if ranks[n] > m {
        AtRankNone(active[..n], ranks[..n], ranks[n]);
      }
    }
  }

  /** With every rank at least 1 (as `hand_rank` gives) and at least one
      player, there is at least one winner. */
  lemma SomeWinner(active: seq<nat>, ranks: seq<int>)
    requires |ranks| == |active| && active != []
    requires forall i :: 0 <= i < |ranks| ==> ranks[i] >= 1
    ensures WinnersScan(active, ranks).1 != []
  {
    WinnersAreBest(active, ranks);
    var m := MaxRank(ranks);
    assert ranks[0] <= m;
    var i :| 0 <= i < |ranks| && ranks[i] == m;
    assert active[i] in AtRank(active, ranks, m);
  }

  /** `for winner in winners: winner.stack += share` */
  function Credit(stacks: seq<int>, winners: seq<nat>, share: int): (r: seq<int>)
    requires forall w :: w in winners ==> w < |stacks|
    ensures |r| == |stacks|
  {
    if winners == [] then stacks
    else
      var n := |winners| - 1;
      assert forall w :: w in winners[..n] ==> w in winners;
      assert winners[n] in winners;
      var r := Credit(stacks, winners[..n], share);
      r[winners[n] := r[winners[n]] + share]
  }

  /** Crediting each of k winners with `share` adds k × share chips. */
  lemma {:induction false} CreditSum(stacks: seq<int>, winners: seq<nat>, share: int)
    requires forall w :: w in winners ==> w < |stacks|
    ensures Sum(Credit(stacks, winners, share)) == Sum(stacks) + |winners| * share
  {
    if winners != [] {
      var n := |winners| - 1;
      assert forall w :: w in winners[..n] ==> w in winners;
      assert winners[n] in winners;
      CreditSum(stacks, winners[..n], share);
      var r := Credit(stacks, winners[..n], share);
      SumUpdate(r, winners[n], r[winners[n]] + share);
    }
  }

  /** Only the winners' stacks change, and none goes down when the share is
      not negative. */
  lemma {:induction false} CreditOthers(stacks: seq<int>, winners: seq<nat>, share: int)
    requires forall w :: w in winners ==> w < |stacks|
    ensures forall s :: 0 <= s < |stacks| && s !in winners ==> Credit(stacks, winners, share)[s] == stacks[s]
    ensures share >= 0 ==> forall s :: 0 <= s < |stacks| ==> Credit(stacks, winners, share)[s] >= stacks[s]
  {
    if winners != [] {
      var n := |winners| - 1;
      assert forall s :: s in winners[..n] ==> s in winners;
      CreditOthers(stacks, winners[..n], share);
    }
  }

  /** Splitting a pot of 101 between two players tied at the showdown pays
      out 100 chips: the odd chip is in nobody's stack afterwards. */
  lemma SplitPotLosesOddChip()
    ensures WinnersScan([1, 2], [3, 3]).1 == [1, 2]
    ensures Sum(Credit([0, 900, 900, 0, 0], [1, 2], 101 / 2)) == 1900
  {
    assert [1, 2][..1] == [1] && [1][..0] == [];
    assert Credit([0, 900, 900, 0, 0], [1], 50) == [0, 950, 900, 0, 0];
    assert Credit([0, 900, 900, 0, 0], [1, 2], 50) == [0, 950, 950, 0, 0];
  }

  /** The stacks after the showdown pays `pot` to `winners`: `pot // n`
      each, and the `pot % n` odd chips to the first winner. */
  function PaidOut(stacks: seq<int>, winners: seq<nat>, pot: int): (r: seq<int>)
    requires winners != [] && forall w :: w in winners ==> w < |stacks|
    ensures |r| == |stacks|
  {
    var c := Credit(stacks, winners, pot / |winners|);
    assert winners[0] in winners;
    c[winners[0] := c[winners[0]] + pot % |winners|]
  }

  /** The payout loop followed by the odd chips, as `PaidOut`. */
  method SplitPot(stacks: seq<int>, winners: seq<nat>, pot: int) returns (r: seq<int>)
    requires winners != [] && forall w :: w in winners ==> w < |stacks|
    ensures r == PaidOut(stacks, winners, pot)
  {
    var credited := CreditAll(stacks, winners, pot / |winners|);
    assert winners[0] in winners;
    r := credited[winners[0] := credited[winners[0]] + pot % |winners|];
  }

  /** Each winner credited `pot // n` and the first one the `pot % n` odd
      chips as well: the stacks gain the whole pot, only the winners'
      stacks change, and none goes down for a pot that is not negative. */
  lemma OddChipToFirst(stacks: seq<int>, winners: seq<nat>, pot: int)
    requires winners != [] && forall w :: w in winners ==> w < |stacks|
    ensures var r := PaidOut(stacks, winners, pot);
      && Sum(r) == Sum(stacks) + pot
      && (forall s :: 0 <= s < |r| && s !in winners ==> r[s] == stacks[s])
      && (pot >= 0 ==> forall s :: 0 <= s < |r| ==> r[s] >= stacks[s])
  {
    var share := pot / |winners|;
    CreditSum(stacks, winners, share);
    SharesPayOut(pot, |winners|);
    CreditOthers(stacks, winners, share);
    var c := Credit(stacks, winners, share);
    assert winners[0] in winners;
    SumUpdate(c, winners[0], c[winners[0]] + pot % |winners|);
  }

  /** `n` shares of `pot // n` pay out the pot less `pot % n`. */
  lemma SharesPayOut(pot: int, n: int)
    requires n > 0
    ensures n * (pot / n) == pot - pot % n
    ensures 0 <= pot % n
    ensures pot >= 0 ==> pot / n >= 0
  {
  }

  /** The showdown loop: the best rank and the winners, as `WinnersScan`. */
  method ScanWinners(active: seq<nat>, ranks: seq<int>) returns (best: int, winners: seq<nat>)
    requires |ranks| == |active|
    ensures (best, winners) == WinnersScan(active, ranks)
  {
    best := 0;
    winners := [];
    var i := 0;
    while i < |active|
      invariant 0 <= i <= |active|
      invariant (best, winners) == WinnersScan(active[..i], ranks[..i])
    {
      assert active[..i + 1][..i] == active[..i];
      assert ranks[..i + 1][..i] == ranks[..i];
      if ranks[i] > best {
        best := ranks[i];
        winners := [active[i]];
      } else if ranks[i] == best {
        winners := winners + [active[i]];
      }
      i := i + 1;
    }
    assert active[..i] == active && ranks[..i] == ranks;
  }

  /** The crediting loop of `_showdown`. */
  method CreditAll(stacks: seq<int>, winners: seq<nat>, share: int) returns (r: seq<int>)
    requires forall w :: w in winners ==> w < |stacks|
    ensures r == Credit(stacks, winners, share)
  {
    r := stacks;
    var i := 0;
    while i < |winners|
      invariant 0 <= i <= |winners|
      invariant forall w :: w in winners[..i] ==> w in winners
      invariant r == Credit(stacks, winners[..i], share)
    {
      assert winners[..i + 1][..i] == winners[..i];
      assert forall w :: w in winners[..i + 1] ==> w in winners;
      assert winners[i] in winners;
      r := r[winners[i] := r[winners[i]] + share];
      i := i + 1;
    }
    assert winners[..i] == winners;
  }

  // ---------------------------------------------------------------------
  // The betting round, as functions of the table

  /** What a betting round changes: every player's stack, the players
      still in the hand, the pot and the contributions `current_bets`. */
  datatype Table = Table(stacks: seq<int>, active: seq<nat>, pot: int, bets: map<nat, int>)

  /** Every seat with a contribution has a stack. */
  predicate Seated(t: Table) {
    forall s :: s in t.bets ==> s < |t.stacks|
  }

  /** Every player in the hand has a contribution. */
  predicate InRound(t: Table) {
    forall s :: s in t.active ==> s in t.bets
  }

  /** The turn of `seat`, with `toCall` to call, whose action dict is `a`
      (Game_fraude.py:133-162). Returns whether the turn counts as acting,
      and the table after it. */
  function TurnOn(seat: nat, toCall: int, a: Action, t: Table): (r: (bool, Table))
    requires seat in t.bets && Seated(t)
    ensures r.0 <==> a.move != Check || toCall == 0
    ensures r.1.bets.Keys == t.bets.Keys && |r.1.stacks| == |t.stacks|
    ensures forall s :: s in t.bets && s != seat ==> r.1.bets[s] == t.bets[s]
    ensures forall s :: s in r.1.active ==> s in t.active
  {
    if a.move == Fold || a.move == Check then
      RemoveFirstKeeps(t.active, seat);
      var left := a.move == Fold || toCall != 0;
      (a.move != Check || toCall == 0, t.(active := if left then RemoveFirst(t.active, seat) else t.active))
    else
      var x := Payment(a, toCall, t.stacks[seat]);
      (true, t.(stacks := t.stacks[seat := t.stacks[seat] - x], bets := t.bets[seat := t.bets[seat] + x], pot := t.pot + x))
  }

  /** One player of a pass (Game_fraude.py:125-131), when `asked` questions
      have been asked in the round: a player whose stack is 0 is skipped
      with nothing asked and nothing changed; any other is asked the next
      question with `toCall` to call, and the reply is played out by
      `TurnOn`. Returns whether the player folded, whether the turn counts
      as acting, the table after it and the questions asked. */
  function AskOn(seat: nat, toCall: int, t: Table, asked: nat, board: seq<Item>, state: int, oracle: Oracle)
    : (r: (bool, bool, Table, nat))
    requires seat in t.bets && Seated(t)
    ensures t.stacks[seat] == 0 ==> r == (false, false, t, asked)
    ensures t.stacks[seat] != 0 ==> r.3 == asked + 1
    ensures r.0 ==> r.1
    ensures r.2.bets.Keys == t.bets.Keys && |r.2.stacks| == |t.stacks|
    ensures forall s :: s in t.bets && s != seat ==> r.2.bets[s] == t.bets[s]
    ensures forall s :: s in r.2.active ==> s in t.active
  {
    if t.stacks[seat] == 0 then
      (false, false, t, asked)
    else
      var a := PlayerAction(oracle(board, state, asked, seat, toCall));
      var turn := TurnOn(seat, toCall, a, t);
      (a.move == Fold, turn.0, turn.1, asked + 1)
  }

  /** A pass of `_betting_round` over the players `order`, from its `j`-th
      player on, each facing the amount that takes its contribution to
      `current`, the largest contribution when the pass began
      (Game_fraude.py:121-162): the pass ends early, with `done`, at the
      first fold that leaves one player; otherwise every player of `order`
      takes a turn. Returns `done`, whether someone acted, the table after
      the pass and the questions asked. */
  function PassOn(order: seq<nat>, j: nat, t: Table, asked: nat, current: int, board: seq<Item>, state: int, oracle: Oracle)
    : (r: (bool, bool, Table, nat))
    requires j <= |order| && (forall s :: s in order ==> s in t.bets) && Seated(t)
    ensures r.2.bets.Keys == t.bets.Keys && |r.2.stacks| == |t.stacks|
    ensures forall s :: s in r.2.active ==> s in t.active
    ensures r.0 ==> |r.2.active| == 1
    decreases |order| - j
  {
    if j == |order| then
      (false, false, t, asked)
    else
      var step := AskOn(order[j], current - t.bets[order[j]], t, asked, board, state, oracle);
      if step.0 && |step.2.active| == 1 then (true, step.1, step.2, step.3)
      else
        var rest := PassOn(order, j + 1, step.2, step.3, current, board, state, oracle);
        (rest.0, step.1 || rest.1, rest.2, rest.3)
  }

  /** `_betting_round` with `k` passes left and `asked` questions asked
      (Game_fraude.py:113-172): each pass runs over the players in the hand
      when it starts, measured against the largest contribution at that
      moment; the round stops after the first pass that ends with one player
      left, or after which someone acted and every player with chips has put
      in the same amount, and otherwise after the last pass. */
  function RoundOn(k: nat, t: Table, asked: nat, board: seq<Item>, state: int, oracle: Oracle): (r: Table)
    requires InRound(t) && Seated(t)
    ensures r.bets.Keys == t.bets.Keys && |r.stacks| == |t.stacks|
    ensures forall s :: s in r.active ==> s in t.active
    decreases k
  {
    if k == 0 then t
    else
      var pass := PassOn(t.active, 0, t, asked, CurrentBet(t.bets, |t.stacks|), board, state, oracle);
      var t1 := pass.2;
      if pass.0 || Settled(t1.active, t1.bets, t1.stacks, pass.1) then t1
      else RoundOn(k - 1, t1, pass.3, board, state, oracle)
  }

  /** A turn keeps the account: every chip paid leaves the seat's stack
      for its contribution and the pot. */
  lemma TurnPays(seat: nat, toCall: int, a: Action, t: Table)
    requires seat in t.bets && Seated(t)
    ensures var r := TurnOn(seat, toCall, a, t).1; Paid(t.stacks, t.bets, t.pot, r.stacks, r.bets, r.pot)
  {
    PaidRefl(t.stacks, t.bets, t.pot);
    if a.move == Call || Aggressive(a.move) {
      PayKeepsAccount(t.stacks, t.bets, t.pot, t.stacks, t.bets, t.pot, seat, Payment(a, toCall, t.stacks[seat]));
    }
  }

  /** A turn keeps the players left in their order, each once. */
  lemma TurnKeepsOrder(seat: nat, toCall: int, a: Action, t: Table)
    requires seat in t.bets && Seated(t)
    ensures var r := TurnOn(seat, toCall, a, t).1;
      IsSubsequence(r.active, t.active) && (NoDups(t.active) ==> NoDups(r.active))
  {
    RemoveFirstKeeps(t.active, seat);
    SubsequenceRefl(t.active);
  }

  /** A turn takes no stack below 0, and takes nothing out of the pot when
      the amount to call and the amount bet are not negative. */
  lemma TurnKeepsSigns(seat: nat, toCall: int, a: Action, t: Table)
    requires seat in t.bets && Seated(t) && NonNegative(t.stacks)
    ensures var r := TurnOn(seat, toCall, a, t).1;
      && NonNegative(r.stacks)
      && (toCall >= 0 && (a.move == Call || a.amount >= 0) ==> r.pot >= t.pot)
  {
  }

  /** The same three for a player of a pass, whatever the oracle replies
      (the last as long as it bets no negative amount). */
  lemma AskPays(seat: nat, toCall: int, t: Table, asked: nat, board: seq<Item>, state: int, oracle: Oracle)
    requires seat in t.bets && Seated(t)
    ensures var r := AskOn(seat, toCall, t, asked, board, state, oracle).2;
      Paid(t.stacks, t.bets, t.pot, r.stacks, r.bets, r.pot)
  {
    PaidRefl(t.stacks, t.bets, t.pot);
    TurnPays(seat, toCall, PlayerAction(oracle(board, state, asked, seat, toCall)), t);
  }

  lemma AskKeepsOrder(seat: nat, toCall: int, t: Table, asked: nat, board: seq<Item>, state: int, oracle: Oracle)
    requires seat in t.bets && Seated(t)
    ensures var r := AskOn(seat, toCall, t, asked, board, state, oracle).2;
      IsSubsequence(r.active, t.active) && (NoDups(t.active) ==> NoDups(r.active))
  {
    SubsequenceRefl(t.active);
    TurnKeepsOrder(seat, toCall, PlayerAction(oracle(board, state, asked, seat, toCall)), t);
  }

  lemma AskKeepsSigns(seat: nat, toCall: int, t: Table, asked: nat, board: seq<Item>, state: int, oracle: Oracle)
    requires seat in t.bets && Seated(t) && NonNegative(t.stacks)
    ensures var r := AskOn(seat, toCall, t, asked, board, state, oracle).2;
      && NonNegative(r.stacks)
      && (NonNegativeBets(oracle) && toCall >= 0 ==> r.pot >= t.pot)
  {
    TurnKeepsSigns(seat, toCall, PlayerAction(oracle(board, state, asked, seat, toCall)), t);
  }

  /** The players of `order` after its `j`-th are not its `j`-th. */
  lemma NoDupsAfter(order: seq<nat>, j: nat)
    requires j < |order| && NoDups(order)
    ensures forall k :: j < k < |order| ==> order[k] != order[j]
  {
  }

  /** The same three for a pass, the last for a pass over players each in
      it once and each at most `current` in when the pass begins. */
  lemma {:induction false} PassPays(order: seq<nat>, j: nat, t: Table, asked: nat, current: int,
                                    board: seq<Item>, state: int, oracle: Oracle)
    requires j <= |order| && (forall s :: s in order ==> s in t.bets) && Seated(t)
    ensures var r := PassOn(order, j, t, asked, current, board, state, oracle).2;
      Paid(t.stacks, t.bets, t.pot, r.stacks, r.bets, r.pot)
    decreases |order| - j
  {
    if j == |order| {
      PaidRefl(t.stacks, t.bets, t.pot);
    } else {
      var toCall := current - t.bets[order[j]];
      var step := AskOn(order[j], toCall, t, asked, board, state, oracle);
      PassStep(order, j, t, asked, current, board, state, oracle, toCall, step);
      AskPays(order[j], toCall, t, asked, board, state, oracle);
      if !(step.0 && |step.2.active| == 1) {
        PassPays(order, j + 1, step.2, step.3, current, board, state, oracle);
        var r := PassOn(order, j + 1, step.2, step.3, current, board, state, oracle).2;
        PaidTrans(t.stacks, t.bets, t.pot, step.2.stacks, step.2.bets, step.2.pot, r.stacks, r.bets, r.pot);
      }
    }
  }

  lemma {:induction false} PassKeepsOrder(order: seq<nat>, j: nat, t: Table, asked: nat, current: int,
                                          board: seq<Item>, state: int, oracle: Oracle)
    requires j <= |order| && (forall s :: s in order ==> s in t.bets) && Seated(t)
    ensures var r := PassOn(order, j, t, asked, current, board, state, oracle).2;
      IsSubsequence(r.active, t.active) && (NoDups(t.active) ==> NoDups(r.active))
    decreases |order| - j
  {
    if j == |order| {
      SubsequenceRefl(t.active);
    } else {
      var toCall := current - t.bets[order[j]];
      var step := AskOn(order[j], toCall, t, asked, board, state, oracle);
      PassStep(order, j, t, asked, current, board, state, oracle, toCall, step);
      AskKeepsOrder(order[j], toCall, t, asked, board, state, oracle);
      if !(step.0 && |step.2.active| == 1) {
        PassKeepsOrder(order, j + 1, step.2, step.3, current, board, state, oracle);
        var r := PassOn(order, j + 1, step.2, step.3, current, board, state, oracle).2;
        SubsequenceTrans(r.active, step.2.active, t.active);
      }
    }
  }

  lemma {:induction false} PassKeepsSigns(order: seq<nat>, j: nat, t: Table, asked: nat, current: int,
                                          board: seq<Item>, state: int, oracle: Oracle)
    requires j <= |order| && (forall s :: s in order ==> s in t.bets) && Seated(t) && NonNegative(t.stacks)
    ensures var r := PassOn(order, j, t, asked, current, board, state, oracle).2;
      && NonNegative(r.stacks)
      && (NonNegativeBets(oracle) && NoDups(order)
          && (forall k :: j <= k < |order| ==> t.bets[order[k]] <= current)
          ==> r.pot >= t.pot)
    decreases |order| - j
  {
    if j < |order| {
      var toCall := current - t.bets[order[j]];
      var step := AskOn(order[j], toCall, t, asked, board, state, oracle);
      PassStep(order, j, t, asked, current, board, state, oracle, toCall, step);
      AskKeepsSigns(order[j], toCall, t, asked, board, state, oracle);
      if !(step.0 && |step.2.active| == 1) {
        PassKeepsSigns(order, j + 1, step.2, step.3, current, board, state, oracle);
        if NoDups(order) {
          NoDupsAfter(order, j);
        }
      }
    }
  }

  /** The same three for a betting round, the last over players each in it
      once. */
  lemma {:induction false} RoundPays(k: nat, t: Table, asked: nat, board: seq<Item>, state: int, oracle: Oracle)
    requires InRound(t) && Seated(t)
    ensures var r := RoundOn(k, t, asked, board, state, oracle);
      Paid(t.stacks, t.bets, t.pot, r.stacks, r.bets, r.pot)
    decreases k
  {
    if k == 0 {
      PaidRefl(t.stacks, t.bets, t.pot);
    } else {
      var pass := PassOn(t.active, 0, t, asked, CurrentBet(t.bets, |t.stacks|), board, state, oracle);
      RoundStep(k, t, asked, board, state, oracle, pass);
      PassPays(t.active, 0, t, asked, CurrentBet(t.bets, |t.stacks|), board, state, oracle);
      if !(pass.0 || Settled(pass.2.active, pass.2.bets, pass.2.stacks, pass.1)) {
        RoundPays(k - 1, pass.2, pass.3, board, state, oracle);
        var r := RoundOn(k - 1, pass.2, pass.3, board, state, oracle);
        PaidTrans(t.stacks, t.bets, t.pot, pass.2.stacks, pass.2.bets, pass.2.pot, r.stacks, r.bets, r.pot);
      }
    }
  }

  lemma {:induction false} RoundKeepsOrder(k: nat, t: Table, asked: nat, board: seq<Item>, state: int, oracle: Oracle)
    requires InRound(t) && Seated(t)
    ensures var r := RoundOn(k, t, asked, board, state, oracle);
      IsSubsequence(r.active, t.active) && (NoDups(t.active) ==> NoDups(r.active))
    decreases k
  {
    if k == 0 {
      SubsequenceRefl(t.active);
    } else {
      var pass := PassOn(t.active, 0, t, asked, CurrentBet(t.bets, |t.stacks|), board, state, oracle);
      RoundStep(k, t, asked, board, state, oracle, pass);
      PassKeepsOrder(t.active, 0, t, asked, CurrentBet(t.bets, |t.stacks|), board, state, oracle);
      if !(pass.0 || Settled(pass.2.active, pass.2.bets, pass.2.stacks, pass.1)) {
        RoundKeepsOrder(k - 1, pass.2, pass.3, board, state, oracle);
        var r := RoundOn(k - 1, pass.2, pass.3, board, state, oracle);
        SubsequenceTrans(r.active, pass.2.active, t.active);
      }
    }
  }

  lemma {:induction false} RoundKeepsSigns(k: nat, t: Table, asked: nat, board: seq<Item>, state: int, oracle: Oracle)
    requires InRound(t) && Seated(t) && NonNegative(t.stacks)
    ensures var r := RoundOn(k, t, asked, board, state, oracle);
      && NonNegative(r.stacks)
      && (NonNegativeBets(oracle) && NoDups(t.active) ==> r.pot >= t.pot)
    decreases k
  {
    if k > 0 {
      var pass := PassOn(t.active, 0, t, asked, CurrentBet(t.bets, |t.stacks|), board, state, oracle);
      RoundStep(k, t, asked, board, state, oracle, pass);
      PassKeepsSigns(t.active, 0, t, asked, CurrentBet(t.bets, |t.stacks|), board, state, oracle);
      PassKeepsOrder(t.active, 0, t, asked, CurrentBet(t.bets, |t.stacks|), board, state, oracle);
      if !(pass.0 || Settled(pass.2.active, pass.2.bets, pass.2.stacks, pass.1)) {
        RoundKeepsSigns(k - 1, pass.2, pass.3, board, state, oracle);
      }
    }
  }

  /** A pass from its `j`-th player on: that player's turn `step`, then,
      unless it was a fold that left one player, the pass from the next
      player on. */
  lemma PassStep(order: seq<nat>, j: nat, t: Table, asked: nat, current: int, board: seq<Item>, state: int, oracle: Oracle,
                 toCall: int, step: (bool, bool, Table, nat))
    requires j < |order| && (forall s :: s in order ==> s in t.bets) && Seated(t)
    requires toCall == current - t.bets[order[j]]
    requires step == AskOn(order[j], toCall, t, asked, board, state, oracle)
    ensures step.0 && |step.2.active| == 1 ==>
      PassOn(order, j, t, asked, current, board, state, oracle) == (true, step.1, step.2, step.3)
    ensures !(step.0 && |step.2.active| == 1) ==>
      var rest := PassOn(order, j + 1, step.2, step.3, current, board, state, oracle);
      PassOn(order, j, t, asked, current, board, state, oracle) == (rest.0, step.1 || rest.1, rest.2, rest.3)
  {
  }

  /** A round with passes left: the pass `pass` over the players in the
      hand, then, unless it ends the round, the round with one pass fewer. */
  lemma RoundStep(k: nat, t: Table, asked: nat, board: seq<Item>, state: int, oracle: Oracle, pass: (bool, bool, Table, nat))
    requires k > 0 && InRound(t) && Seated(t)
    requires pass == PassOn(t.active, 0, t, asked, CurrentBet(t.bets, |t.stacks|), board, state, oracle)
    ensures InRound(pass.2) && Seated(pass.2)
    ensures pass.0 || Settled(pass.2.active, pass.2.bets, pass.2.stacks, pass.1) ==>
      RoundOn(k, t, asked, board, state, oracle) == pass.2
    ensures !(pass.0 || Settled(pass.2.active, pass.2.bets, pass.2.stacks, pass.1)) ==>
      RoundOn(k, t, asked, board, state, oracle) == RoundOn(k - 1, pass.2, pass.3, board, state, oracle)
  {
  }

  // ---------------------------------------------------------------------
  // The game, as functions of the table

  /** A street of `game()` (Game_fraude.py:73-77, and the same for the flop
      and the turn): the betting round, then, when one player is left,
      `_award_pot`, which adds the pot to that player's stack. Returns
      whether the pot was awarded and the table after the street, whose pot
      is the pot the round ended with. */
  function StreetOn(t: Table, board: seq<Item>, state: int, oracle: Oracle): (r: (bool, Table))
    requires InRound(t) && Seated(t)
    ensures r.0 <==> |r.1.active| == 1
    ensures |r.1.stacks| == |t.stacks| && forall s :: s in r.1.active ==> s in t.active
  {
    AwardLast(RoundOn(10, t, 0, board, state, oracle))
  }

  /** The end of a street (`if len(active_players) == 1: _award_pot(...)`):
      when one player is left, the pot is added to that player's stack.
      Returns whether it was, and the table after. */
  function AwardLast(u: Table): (r: (bool, Table))
    requires forall s :: s in u.active ==> s < |u.stacks|
    ensures r.0 <==> |u.active| == 1
    ensures r.1.active == u.active && r.1.pot == u.pot && |r.1.stacks| == |u.stacks|
  {
    if |u.active| == 1 then
      assert u.active[0] in u.active;
      (true, u.(stacks := u.stacks[u.active[0] := u.stacks[u.active[0]] + u.pot]))
    else (false, u)
  }

  /** Awarding the pot moves its chips into the stacks and no other. */
  lemma AwardLastPays(u: Table)
    requires forall s :: s in u.active ==> s < |u.stacks|
    ensures var r := AwardLast(u); Sum(r.1.stacks) + (if r.0 then 0 else r.1.pot) == Sum(u.stacks) + u.pot
    ensures var r := AwardLast(u); r.0 ==> forall s :: 0 <= s < |u.stacks| && s != u.active[0] ==> r.1.stacks[s] == u.stacks[s]
  {
    if |u.active| == 1 {
      assert u.active[0] in u.active;
      SumUpdate(u.stacks, u.active[0], u.stacks[u.active[0]] + u.pot);
    }
  }

  /** The table a new street starts from: the players left, with their
      contributions reset to 0 and the pot carried over
      (`current_bets = {id(p): 0 for p in active_players}`). */
  function NextStreet(t: Table): (r: Table)
    ensures r.active == t.active && r.stacks == t.stacks && r.pot == t.pot
    ensures forall s :: s in r.bets <==> s in t.active
    ensures forall s :: s in r.bets ==> r.bets[s] == 0
  {
    t.(bets := ZeroBets(t.active))
  }

  /** The streets of `game()` from street `k` on (0 preflop, 1 flop, 2
      turn; Game_fraude.py:72-98), with the board dealt from `deck`: each
      street's round, then the next street from `NextStreet`, until the pot
      is awarded. Returns the street at which the pot was awarded, or 3 when
      the game goes on to the river deal, the table then, and the board of
      the last street played. */
  function StreetsFrom(k: nat, t: Table, deck: seq<Card>, oracle: Oracle): (r: (nat, Table, seq<Item>))
    requires InRound(t) && Seated(t) && |deck| >= 4 && k <= 2
    ensures k <= r.0 <= 3 && (r.0 < 3 <==> |r.1.active| == 1)
    ensures |r.1.stacks| == |t.stacks| && forall s :: s in r.1.active ==> s in t.active
    decreases 2 - k
  {
    var u := StreetOn(t, StreetBoard(k, deck), k, oracle);
    if u.0 then (k, u.1, StreetBoard(k, deck))
    else if k == 2 then (3, u.1, StreetBoard(k, deck))
    else StreetsFrom(k + 1, NextStreet(u.1), deck, oracle)
  }

  /** The streets of `game()` after the blinds, from the preflop on. */
  function StreetsOn(t: Table, deck: seq<Card>, oracle: Oracle): (r: (nat, Table, seq<Item>))
    requires InRound(t) && Seated(t) && |deck| >= 4
    ensures r.0 <= 3 && (r.0 < 3 <==> |r.1.active| == 1)
  {
    StreetsFrom(0, t, deck, oracle)
  }

  /** The board of street `k` dealt from `deck`: none preflop, then the
      flop, then the turn. */
  function StreetBoard(k: nat, deck: seq<Card>): seq<Item>
    requires |deck| >= 4
  {
    if k == 0 then [] else if k == 1 then FlopOf(deck) else TurnOf(deck)
  }

  /** The blinds of `game()` (Game_fraude.py:56-70) on the players with
      chips `active`: the first posts `min(small_blind, stack)`, the second
      `min(big_blind, stack)`, from their stacks into their contributions
      and the pot. */
  function BlindsOn(stacks: seq<int>, active: seq<nat>, smallBlind: int, bigBlind: int): (r: Table)
    requires |active| >= 2 && active[0] != active[1] && active[0] < |stacks| && active[1] < |stacks|
    ensures forall s :: s in r.bets <==> s in active
    ensures r.active == active && r.pot == r.bets[active[0]] + r.bets[active[1]]
  {
    var sb, bb := active[0], active[1];
    var x := Min(smallBlind, stacks[sb]);
    var s1 := stacks[sb := stacks[sb] - x];
    var y := Min(bigBlind, s1[bb]);
    Table(s1[bb := s1[bb] - y], active, x + y, ZeroBets(active)[sb := x][bb := y])
  }

  /** The blinds move chips from the two stacks into their contributions
      and the pot, and nothing else. */
  lemma BlindsPaid(stacks: seq<int>, active: seq<nat>, smallBlind: int, bigBlind: int)
    requires |active| >= 2 && active[0] != active[1] && active[0] < |stacks| && active[1] < |stacks|
    requires forall s :: s in active ==> s < |stacks|
    ensures var r := BlindsOn(stacks, active, smallBlind, bigBlind);
      Paid(stacks, ZeroBets(active), 0, r.stacks, r.bets, r.pot)
  {
    var zero := ZeroBets(active);
    var sb, bb := active[0], active[1];
    assert sb in active;
    var x := Min(smallBlind, stacks[sb]);
    var s1 := stacks[sb := stacks[sb] - x];
    PaidRefl(stacks, zero, 0);
    PayKeepsAccount(stacks, zero, 0, stacks, zero, 0, sb, x);
    assert zero[sb := zero[sb] + x] == zero[sb := x];
    var y := Min(bigBlind, s1[bb]);
    assert bb in active;
    PayKeepsAccount(stacks, zero, 0, s1, zero[sb := x], x, bb, y);
    assert zero[sb := x][bb := zero[sb := x][bb] + y] == zero[sb := x][bb := y];
  }

  /** The small blind contributes `min(small_blind, stack)`, the big blind
      `min(big_blind, stack)` and every other player nothing; no stack
      goes below 0. */
  lemma BlindsBets(stacks: seq<int>, active: seq<nat>, smallBlind: int, bigBlind: int)
    requires |active| >= 2 && active[0] != active[1] && active[0] < |stacks| && active[1] < |stacks|
    ensures var r := BlindsOn(stacks, active, smallBlind, bigBlind);
      && r.bets[active[0]] == Min(smallBlind, stacks[active[0]])
      && r.bets[active[1]] == Min(bigBlind, stacks[active[1]])
      && (forall s :: s in r.bets && s != active[0] && s != active[1] ==> r.bets[s] == 0)
      && (NonNegative(stacks) ==> NonNegative(r.stacks))
      && (NonNegative(stacks) && smallBlind >= 0 && bigBlind >= 0 ==> r.pot >= 0)
  {
    PaymentWithinStack(stacks[active[0]], smallBlind);
    var s1 := stacks[active[0] := stacks[active[0]] - Min(smallBlind, stacks[active[0]])];
    PaymentWithinStack(s1[active[1]], bigBlind);
  }

  /** The flop `deal_board()` deals from `deck`: its last three cards. */
  function FlopOf(deck: seq<Card>): seq<Item>
    requires |deck| >= 3
  {
    Singles(PopN(deck, 3).0)
  }

  /** The turn `deal_board()` deals from `deck` after the flop: the flop
      and the deck's fourth card from the end, wrapped in one list. */
  function TurnOf(deck: seq<Card>): seq<Item>
    requires |deck| >= 4
  {
    [Group(PopN(deck, 3).0 + [deck[|deck| - 4]])]
  }

  /** The chips of the stacks and the pot after a round of betting. */
  lemma RoundAccount(t: Table, board: seq<Item>, state: int, oracle: Oracle)
    requires InRound(t) && Seated(t)
    ensures var u := RoundOn(10, t, 0, board, state, oracle);
      u.pot + Sum(u.stacks) == t.pot + Sum(t.stacks)
  {
    RoundPays(10, t, 0, board, state, oracle);
  }

  /** A street keeps the account: the chips of the stacks and the pot stay
      the same, and once the pot is awarded they are all in the stacks. */
  lemma StreetPays(t: Table, board: seq<Item>, state: int, oracle: Oracle)
    requires InRound(t) && Seated(t)
    ensures var r := StreetOn(t, board, state, oracle);
      Sum(r.1.stacks) + (if r.0 then 0 else r.1.pot) == Sum(t.stacks) + t.pot
  {
    RoundAccount(t, board, state, oracle);
    AwardLastPays(RoundOn(10, t, 0, board, state, oracle));
  }

  /** A street keeps the players left in their order, each once. */
  lemma StreetKeepsOrder(t: Table, board: seq<Item>, state: int, oracle: Oracle)
    requires InRound(t) && Seated(t)
    ensures var r := StreetOn(t, board, state, oracle);
      IsSubsequence(r.1.active, t.active) && (NoDups(t.active) ==> NoDups(r.1.active))
  {
    RoundKeepsOrder(10, t, 0, board, state, oracle);
  }

  /** A street over players each in it once, from stacks and a pot that
      are not negative, takes no stack below 0 and nothing from the pot. */
  lemma StreetKeepsSigns(t: Table, board: seq<Item>, state: int, oracle: Oracle)
    requires InRound(t) && Seated(t) && NoDups(t.active)
    requires NonNegative(t.stacks) && t.pot >= 0 && NonNegativeBets(oracle)
    ensures var r := StreetOn(t, board, state, oracle); NonNegative(r.1.stacks) && r.1.pot >= t.pot
  {
    RoundKeepsSigns(10, t, 0, board, state, oracle);
  }

  /** The streets keep the account: the stacks and the pot hold the chips
      they started with, and once the pot is awarded the stacks hold them
      all. */
  lemma {:induction false} StreetsPays(k: nat, t: Table, deck: seq<Card>, oracle: Oracle)
    requires InRound(t) && Seated(t) && |deck| >= 4 && k <= 2
    ensures var r := StreetsFrom(k, t, deck, oracle);
      Sum(r.1.stacks) + (if r.0 < 3 then 0 else r.1.pot) == Sum(t.stacks) + t.pot
    decreases 2 - k
  {
    StreetPays(t, StreetBoard(k, deck), k, oracle);
    var u := StreetOn(t, StreetBoard(k, deck), k, oracle);
    var r := StreetsFrom(k, t, deck, oracle);
    if u.0 || k == 2 {
      assert r.1 == u.1;
    } else {
      var t' := NextStreet(u.1);
      StreetsPays(k + 1, t', deck, oracle);
      assert r == StreetsFrom(k + 1, t', deck, oracle);
    }
  }

  /** The streets keep the players left in their order, each once. */
  lemma {:induction false} StreetsKeepOrder(k: nat, t: Table, deck: seq<Card>, oracle: Oracle)
    requires InRound(t) && Seated(t) && |deck| >= 4 && k <= 2
    ensures var r := StreetsFrom(k, t, deck, oracle);
      IsSubsequence(r.1.active, t.active) && (NoDups(t.active) ==> NoDups(r.1.active))
    decreases 2 - k
  {
    StreetKeepsOrder(t, StreetBoard(k, deck), k, oracle);
    var u := StreetOn(t, StreetBoard(k, deck), k, oracle);
    var r := StreetsFrom(k, t, deck, oracle);
    if u.0 || k == 2 {
      assert r.1 == u.1;
    } else {
      var t' := NextStreet(u.1);
      StreetsKeepOrder(k + 1, t', deck, oracle);
      assert r == StreetsFrom(k + 1, t', deck, oracle);
      SubsequenceTrans(r.1.active, t'.active, t.active);
    }
  }

  /** The streets, over players each in it once and from stacks and a pot
      that are not negative, take no stack below 0 and nothing from the
      pot. */
  lemma {:induction false} StreetsKeepSigns(k: nat, t: Table, deck: seq<Card>, oracle: Oracle)
    requires InRound(t) && Seated(t) && |deck| >= 4 && k <= 2 && NoDups(t.active)
    requires NonNegative(t.stacks) && t.pot >= 0 && NonNegativeBets(oracle)
    ensures var r := StreetsFrom(k, t, deck, oracle); NonNegative(r.1.stacks) && r.1.pot >= t.pot
    decreases 2 - k
  {
    StreetKeepsSigns(t, StreetBoard(k, deck), k, oracle);
    StreetKeepsOrder(t, StreetBoard(k, deck), k, oracle);
    var u := StreetOn(t, StreetBoard(k, deck), k, oracle);
    var r := StreetsFrom(k, t, deck, oracle);
    if u.0 || k == 2 {
      assert r.1 == u.1;
    } else {
      var t' := NextStreet(u.1);
      StreetsKeepSigns(k + 1, t', deck, oracle);
      assert r == StreetsFrom(k + 1, t', deck, oracle);
    }
  }

  class Game {
    const bigBlind: int
    const smallBlind: int
    const initialStack: int
    var gameCount: int
    /** `player.stack` of the five players, by seat. */
    var stacks: seq<int>
    /** `player.hand` of the five players, by seat, as `deal_player_hand`
        returns it. */
    var hands: seq<seq<Item>>
    var history: seq<GameData>

    ghost predicate Valid()
      reads this
    {
      |stacks| == 5 && |hands| == 5
    }

    /** `Game(big_blind, small_blind, stack)`: five players with `stack`
        chips each, no game played and no history. */
    constructor (bigBlind: int, smallBlind: int, stack: int)
      ensures Valid()
      ensures this.bigBlind == bigBlind && this.smallBlind == smallBlind && initialStack == stack
      ensures stacks == [stack, stack, stack, stack, stack]
      ensures gameCount == 0 && history == []
    {
      this.bigBlind := bigBlind;
      this.smallBlind := smallBlind;
      initialStack := stack;
      gameCount := 0;
      stacks := [stack, stack, stack, stack, stack];
      hands := [[], [], [], [], []];
      history := [];
    }

    /** `_award_pot(winner, pot, board)`: the winner's stack takes the whole
        pot, and the record of the game is appended to the history. */
    method AwardPot(winner: nat, pot: int, board: seq<Item>) returns (data: GameData)
      requires winner < |stacks|
      modifies this
      ensures stacks == old(stacks)[winner := old(stacks)[winner] + pot]
      ensures Sum(stacks) == old(Sum(stacks)) + pot
      ensures data == GameData(gameCount, [winner], pot, board, stacks)
      ensures history == old(history) + [data]
      ensures gameCount == old(gameCount) && hands == old(hands)
    {
      SumUpdate(stacks, winner, stacks[winner] + pot);
      stacks := stacks[winner := stacks[winner] + pot];
      data := GameData(gameCount, [winner], pot, board, stacks);
      history := history + [data];
    }

    /** `_showdown(active_players, pot, board)` as written, with `ranks[i]`
        the rank `hand_rank` gives the hand of `active[i]` on the board: the
        players of the best rank split the pot by floor division, so the
        `pot % len(winners)` chips left over go to nobody; with no winner the
        division fails. */
    method Showdown(active: seq<nat>, pot: int, board: seq<Item>, ranks: seq<int>) returns (r: Result<GameData>)
      requires |ranks| == |active|
      requires forall s :: s in active ==> s < |stacks|
      modifies this
      ensures gameCount == old(gameCount) && hands == old(hands)
      ensures var winners := AtRank(active, ranks, MaxRank(ranks));
        && (winners == [] ==> r == Err(ZeroDivisionError) && stacks == old(stacks) && history == old(history))
        && (winners != [] ==>
              && stacks == Credit(old(stacks), winners, pot / |winners|)
              && Sum(stacks) == old(Sum(stacks)) + pot - pot % |winners|
              && r == Ok(GameData(gameCount, winners, pot, board, stacks))
              && history == old(history) + [r.value])
    {
      var best, winners := ScanWinners(active, ranks);
      WinnersAreBest(active, ranks);
      if winners == [] {
        return Err(ZeroDivisionError);
      }
      var share := pot / |winners|;
      CreditSum(stacks, winners, share);
      SharesPayOut(pot, |winners|);
      stacks := CreditAll(stacks, winners, share);
      var data := GameData(gameCount, winners, pot, board, stacks);
      history := history + [data];
      r := Ok(data);
    }

    /** The showdown with the pot paid out in full: each winner gets
        `pot // len(winners)` and the first winner at the table also gets the
        odd chips, so the winners' stacks gain the whole pot. */
    method ShowdownConserving(active: seq<nat>, pot: int, board: seq<Item>, ranks: seq<int>) returns (r: Result<GameData>)
      requires |ranks| == |active|
      requires forall s :: s in active ==> s < |stacks|
      modifies this
      ensures gameCount == old(gameCount) && hands == old(hands)
      ensures var winners := AtRank(active, ranks, MaxRank(ranks));
        && (winners == [] ==> r == Err(ZeroDivisionError) && stacks == old(stacks) && history == old(history))
        && (winners != [] ==>
              && |stacks| == |old(stacks)|
              && Sum(stacks) == old(Sum(stacks)) + pot
              && (forall s :: 0 <= s < |stacks| && s !in winners ==> stacks[s] == old(stacks)[s])
              && (pot >= 0 ==> forall s :: 0 <= s < |stacks| ==> stacks[s] >= old(stacks)[s])
              && r == Ok(GameData(gameCount, winners, pot, board, stacks))
              && history == old(history) + [r.value])
    {
      var best, winners := ScanWinners(active, ranks);
      WinnersAreBest(active, ranks);
      if winners == [] {
        return Err(ZeroDivisionError);
      }
      var paid := SplitPot(stacks, winners, pot);
      OddChipToFirst(stacks, winners, pot);
      stacks := paid;
      var data := GameData(gameCount, winners, pot, board, stacks);
      history := history + [data];
      r := Ok(data);
    }

    // -------------------------------------------------------------------
    // Betting

    /** The turn of the player in `seat`, with `toCall` to call, who
        answered `a`: a fold removes the player; a check removes the player
        when there is something to call and otherwise acts; a call or a bet
        pays `Payment` from the player's stack into the contribution and the
        pot. `acted` tells whether the turn counts as acting. */
    method Turn(seat: nat, toCall: int, a: Action, active: seq<nat>, pot: int, bets: map<nat, int>)
      returns (acted: bool, active': seq<nat>, pot': int, bets': map<nat, int>)
      requires seat in bets && forall s :: s in bets ==> s < |stacks|
      requires NoDups(active)
      modifies this
      ensures gameCount == old(gameCount) && hands == old(hands) && history == old(history)
      ensures Paid(old(stacks), bets, pot, stacks, bets', pot')
      ensures forall s :: s in bets && s != seat ==> bets'[s] == bets[s]
      ensures active' == (if a.move == Fold || (a.move == Check && toCall != 0) then RemoveFirst(active, seat) else active)
      ensures IsSubsequence(active', active) && NoDups(active')
      ensures acted <==> a.move != Check || toCall == 0
      ensures NonNegative(old(stacks)) ==> NonNegative(stacks)
      ensures NonNegative(old(stacks)) && toCall >= 0 && (a.move == Call || a.amount >= 0) ==> pot' >= pot
      ensures a.move == Call || Aggressive(a.move) ==>
        var x := Payment(a, toCall, old(stacks)[seat]);
        && stacks == old(stacks)[seat := old(stacks)[seat] - x]
        && bets' == bets[seat := bets[seat] + x]
        && pot' == pot + x
      ensures a.move == Fold || a.move == Check ==> stacks == old(stacks) && bets' == bets && pot' == pot
      ensures TurnOn(seat, toCall, a, Table(old(stacks), active, pot, bets)) == (acted, Table(stacks, active', pot', bets'))
    {
      acted := a.move != Check || toCall == 0;
      if a.move == Fold || a.move == Check {
        PaidRefl(stacks, bets, pot);
        pot', bets' := pot, bets;
        if a.move == Fold || toCall != 0 {
          LeaveKeepsOrder(active, seat);
          active' := RemoveFirst(active, seat);
        } else {
          SubsequenceRefl(active);
          active' := active;
        }
      } else {
        var x := Payment(a, toCall, stacks[seat]);
        pot', bets' := Pay(seat, x, pot, bets);
        SubsequenceRefl(active);
        active' := active;
      }
    }

    /** A payment of `x` chips by `seat` from its stack into its
        contribution and the pot. */
    method Pay(seat: nat, x: int, pot: int, bets: map<nat, int>) returns (pot': int, bets': map<nat, int>)
      requires seat in bets && forall s :: s in bets ==> s < |stacks|
      requires stacks[seat] - x >= 0
      modifies this
      ensures gameCount == old(gameCount) && hands == old(hands) && history == old(history)
      ensures stacks == old(stacks)[seat := old(stacks)[seat] - x]
      ensures bets' == bets[seat := bets[seat] + x] && pot' == pot + x
      ensures Paid(old(stacks), bets, pot, stacks, bets', pot')
      ensures NonNegative(old(stacks)) ==> NonNegative(stacks)
    {
      PaidRefl(stacks, bets, pot);
      PayKeepsAccount(stacks, bets, pot, stacks, bets, pot, seat, x);
      stacks := stacks[seat := stacks[seat] - x];
      bets' := bets[seat := bets[seat] + x];
      pot' := pot + x;
    }

    /** One pass of `_betting_round`'s while loop over the snapshot `order`
        of the players: each player with chips is asked once, with the
        amount to call measured against `current_bet`, the largest
        contribution when the pass starts. A fold removes the player and
        ends the round (`done`) once one player is left; a check facing a bet
        removes the player without counting as acting; a call pays `min(to
        call, stack)`; a bet or raise pays `min(to call + amount, stack)`. */
    method BettingPass(order: seq<nat>, active: seq<nat>, pot: int, bets: map<nat, int>,
                       board: seq<Item>, state: int, asked: nat, oracle: Oracle)
      returns (done: bool, acted: bool, pot': int, active': seq<nat>, bets': map<nat, int>, asked': nat)
      requires NoDups(order) && NoDups(active)
      requires forall s :: s in bets ==> s < |stacks|
      requires forall s :: s in order ==> s in bets
      requires forall s :: s in active ==> s in bets
      modifies this
      ensures gameCount == old(gameCount) && hands == old(hands) && history == old(history)
      ensures Paid(old(stacks), bets, pot, stacks, bets', pot')
      ensures IsSubsequence(active', active) && NoDups(active')
      ensures done ==> |active'| == 1
      ensures NonNegative(old(stacks)) ==> NonNegative(stacks)
      ensures NonNegative(old(stacks)) && NonNegativeBets(oracle) ==> pot' >= pot
      ensures PassOn(order, 0, Table(old(stacks), active, pot, bets), asked, CurrentBet(bets, |old(stacks)|), board, state, oracle)
        == (done, acted, Table(stacks, active', pot', bets'), asked')
    {
      var current := CurrentBet(bets, |stacks|);
      ghost var start := Table(stacks, active, pot, bets);
      done, acted, active', pot', bets', asked' := RunPass(order, current, active, pot, bets, board, state, asked, oracle);
      PassPays(order, 0, start, asked, current, board, state, oracle);
      PassKeepsOrder(order, 0, start, asked, current, board, state, oracle);
      if NonNegative(start.stacks) {
        PassKeepsSigns(order, 0, start, asked, current, board, state, oracle);
      }
    }

    /** The players of `order` take their turns one after the other, each
        facing `current`, until a fold leaves one player. */
    method RunPass(order: seq<nat>, current: int, active: seq<nat>, pot: int, bets: map<nat, int>,
                   board: seq<Item>, state: int, asked: nat, oracle: Oracle)
      returns (done: bool, acted: bool, active': seq<nat>, pot': int, bets': map<nat, int>, asked': nat)
      requires NoDups(active)
      requires (forall s :: s in order ==> s in bets) && forall s :: s in bets ==> s < |stacks|
      modifies this
      ensures gameCount == old(gameCount) && hands == old(hands) && history == old(history)
      ensures PassOn(order, 0, Table(old(stacks), active, pot, bets), asked, current, board, state, oracle)
        == (done, acted, Table(stacks, active', pot', bets'), asked')
    {
      ghost var result := PassOn(order, 0, Table(stacks, active, pot, bets), asked, current, board, state, oracle);
      done, acted, active', pot', bets', asked' := false, false, active, pot, bets, asked;
      var j := 0;
      while j < |order|
        invariant 0 <= j <= |order|
        invariant gameCount == old(gameCount) && hands == old(hands) && history == old(history)
        invariant (forall s :: s in order ==> s in bets') && forall s :: s in bets' ==> s < |stacks|
        invariant NoDups(active')
        invariant var rest := PassOn(order, j, Table(stacks, active', pot', bets'), asked', current, board, state, oracle);
          result == (rest.0, acted || rest.1, rest.2, rest.3)
      {
        var folded;
        folded, acted, active', pot', bets', asked' := PassTurn(order, j, current, acted, active', pot', bets', board, state, asked', oracle, result);
        if folded && |active'| == 1 {
          done := true;
          return;
        }
        j := j + 1;
      }
    }

    /** The turn of the `j`-th player of a pass whose outcome is `result`:
        the player is asked, and the pass then either ends, after a fold
        that leaves one player, or goes on with the next player. */
    method PassTurn(order: seq<nat>, j: nat, current: int, acted: bool, active: seq<nat>, pot: int, bets: map<nat, int>,
                    board: seq<Item>, state: int, asked: nat, oracle: Oracle, ghost result: (bool, bool, Table, nat))
      returns (folded: bool, acted': bool, active': seq<nat>, pot': int, bets': map<nat, int>, asked': nat)
      requires j < |order| && NoDups(active)
      requires (forall s :: s in order ==> s in bets) && forall s :: s in bets ==> s < |stacks|
      requires var rest := PassOn(order, j, Table(stacks, active, pot, bets), asked, current, board, state, oracle);
        result == (rest.0, acted || rest.1, rest.2, rest.3)
      modifies this
      ensures gameCount == old(gameCount) && hands == old(hands) && history == old(history)
      ensures (forall s :: s in order ==> s in bets') && forall s :: s in bets' ==> s < |stacks|
      ensures NoDups(active')
      ensures folded && |active'| == 1 ==> result == (true, acted', Table(stacks, active', pot', bets'), asked')
      ensures !(folded && |active'| == 1) ==>
        var rest := PassOn(order, j + 1, Table(stacks, active', pot', bets'), asked', current, board, state, oracle);
        result == (rest.0, acted' || rest.1, rest.2, rest.3)
    {
      var seat := order[j];
      var toCall := current - bets[seat];
      ghost var before := Table(stacks, active, pot, bets);
      var actedNow;
      folded, actedNow, active', pot', bets', asked' := Ask(seat, toCall, active, pot, bets, board, state, asked, oracle);
      PassStep(order, j, before, asked, current, board, state, oracle, toCall,
               (folded, actedNow, Table(stacks, active', pot', bets'), asked'));
      acted' := acted || actedNow;
    }

    /** One player of a pass: a player without chips is skipped; otherwise
        the reply to the `asked`-th question of the round, with `toCall` to
        call, is played out by `Turn`. `folded` tells whether the player
        folded. */
    method Ask(seat: nat, toCall: int, active: seq<nat>, pot: int, bets: map<nat, int>,
               board: seq<Item>, state: int, asked: nat, oracle: Oracle)
      returns (folded: bool, acted: bool, active': seq<nat>, pot': int, bets': map<nat, int>, asked': nat)
      requires seat in bets && forall s :: s in bets ==> s < |stacks|
      requires NoDups(active)
      modifies this
      ensures gameCount == old(gameCount) && hands == old(hands) && history == old(history)
      ensures Paid(old(stacks), bets, pot, stacks, bets', pot')
      ensures forall s :: s in bets && s != seat ==> bets'[s] == bets[s]
      ensures IsSubsequence(active', active) && NoDups(active')
      ensures NonNegative(old(stacks)) ==> NonNegative(stacks)
      ensures NonNegative(old(stacks)) && NonNegativeBets(oracle) && toCall >= 0 ==> pot' >= pot
      ensures old(stacks)[seat] == 0 ==>
        && !folded && !acted && asked' == asked
        && active' == active && pot' == pot && bets' == bets && stacks == old(stacks)
      ensures old(stacks)[seat] != 0 ==>
        var a := PlayerAction(oracle(board, state, asked, seat, toCall));
        && asked' == asked + 1
        && folded == (a.move == Fold)
        && TurnOn(seat, toCall, a, Table(old(stacks), active, pot, bets)) == (acted, Table(stacks, active', pot', bets'))
      ensures AskOn(seat, toCall, Table(old(stacks), active, pot, bets), asked, board, state, oracle)
        == (folded, acted, Table(stacks, active', pot', bets'), asked')
    {
      folded, acted, active', pot', bets', asked' := false, false, active, pot, bets, asked;
      if stacks[seat] != 0 {
        var a := PlayerAction(oracle(board, state, asked, seat, toCall));
        asked' := asked + 1;
        acted, active', pot', bets' := Turn(seat, toCall, a, active, pot, bets);
        folded := a.move == Fold;
      } else {
        PaidRefl(stacks, bets, pot);
        SubsequenceRefl(active);
      }
    }

    /** `_betting_round(active_players, pot, current_bets, board, state)`:
        passes over the players until one player is left after a fold, or a
        pass in which someone acted leaves every player with chips at the
        same contribution, or ten passes have been made. Returns the pot,
        the players left and their contributions; `passes` counts the
        passes made. */
    method BettingRound(active: seq<nat>, pot: int, bets: map<nat, int>, board: seq<Item>, state: int, oracle: Oracle)
      returns (pot': int, active': seq<nat>, bets': map<nat, int>, ghost passes: nat)
      requires NoDups(active)
      requires forall s :: s in bets ==> s < |stacks|
      requires forall s :: s in active ==> s in bets
      modifies this
      ensures gameCount == old(gameCount) && hands == old(hands) && history == old(history)
      ensures Paid(old(stacks), bets, pot, stacks, bets', pot')
      ensures IsSubsequence(active', active) && NoDups(active')
      ensures forall s :: s in active' ==> s in active
      ensures 1 <= passes <= 10
      ensures passes < 10 ==> |active'| == 1 || Settled(active', bets', stacks, true)
      ensures NonNegative(old(stacks)) ==> NonNegative(stacks)
      ensures NonNegative(old(stacks)) && NonNegativeBets(oracle) ==> pot' >= pot
      ensures RoundOn(10, Table(old(stacks), active, pot, bets), 0, board, state, oracle) == Table(stacks, active', pot', bets')
    {
      ghost var start := Table(stacks, active, pot, bets);
      pot', active', bets', passes := RunRound(active, pot, bets, board, state, oracle);
      RoundPays(10, start, 0, board, state, oracle);
      RoundKeepsOrder(10, start, 0, board, state, oracle);
      if NonNegative(start.stacks) {
        RoundKeepsSigns(10, start, 0, board, state, oracle);
      }
    }

    /** The passes of a betting round, up to ten, until one ends it. */
    method RunRound(active: seq<nat>, pot: int, bets: map<nat, int>, board: seq<Item>, state: int, oracle: Oracle)
      returns (pot': int, active': seq<nat>, bets': map<nat, int>, ghost passes: nat)
      requires NoDups(active)
      requires forall s :: s in bets ==> s < |stacks|
      requires forall s :: s in active ==> s in bets
      modifies this
      ensures gameCount == old(gameCount) && hands == old(hands) && history == old(history)
      ensures bets'.Keys == bets.Keys && |stacks| == |old(stacks)|
      ensures forall s :: s in active' ==> s in active
      ensures 1 <= passes <= 10
      ensures passes < 10 ==> |active'| == 1 || Settled(active', bets', stacks, true)
      ensures RoundOn(10, Table(old(stacks), active, pot, bets), 0, board, state, oracle) == Table(stacks, active', pot', bets')
    {
      ghost var result := RoundOn(10, Table(stacks, active, pot, bets), 0, board, state, oracle);
      pot', active', bets' := pot, active, bets;
      passes := 0;
      var asked := 0;
      var roundCount := 0;
      ghost var left: nat := 10;
      while roundCount < 10
        invariant 0 <= roundCount <= 10 && passes == roundCount
        invariant gameCount == old(gameCount) && hands == old(hands) && history == old(history)
        invariant bets'.Keys == bets.Keys && |stacks| == |old(stacks)|
        invariant NoDups(active') && forall s :: s in active' ==> s in active
        invariant left == 10 - roundCount
        invariant result == RoundOn(left, Table(stacks, active', pot', bets'), asked, board, state, oracle)
      {
        var done, acted;
        done, acted, pot', active', bets', asked := RoundPass(left, active', pot', bets', board, state, asked, oracle, result);
        roundCount := roundCount + 1;
        left := left - 1;
        passes := roundCount;
        if done {
          return;
        }
        if Settled(active', bets', stacks, acted) {
          break;
        }
      }
    }

    /** A pass of a betting round with `k` passes left whose outcome is
        `result`: after it, the round either ends, with one player left or
        with every player with chips at the same contribution after someone
        acted, or goes on with one pass fewer. */
    method RoundPass(ghost k: nat, active: seq<nat>, pot: int, bets: map<nat, int>, board: seq<Item>, state: int, asked: nat,
                     oracle: Oracle, ghost result: Table)
      returns (done: bool, acted: bool, pot': int, active': seq<nat>, bets': map<nat, int>, asked': nat)
      requires k > 0 && NoDups(active)
      requires forall s :: s in bets ==> s < |stacks|
      requires forall s :: s in active ==> s in bets
      requires result == RoundOn(k, Table(stacks, active, pot, bets), asked, board, state, oracle)
      modifies this
      ensures gameCount == old(gameCount) && hands == old(hands) && history == old(history)
      ensures bets'.Keys == bets.Keys && |stacks| == |old(stacks)|
      ensures NoDups(active') && forall s :: s in active' ==> s in active
      ensures done ==> |active'| == 1
      ensures done || Settled(active', bets', stacks, acted) ==> result == Table(stacks, active', pot', bets')
      ensures !(done || Settled(active', bets', stacks, acted)) ==>
        result == RoundOn(k - 1, Table(stacks, active', pot', bets'), asked', board, state, oracle)
    {
      ghost var before := Table(stacks, active, pot, bets);
      done, acted, pot', active', bets', asked' := BettingPass(active, active, pot, bets, board, state, asked, oracle);
      RoundStep(k, before, asked, board, state, oracle, (done, acted, Table(stacks, active', pot', bets'), asked'));
    }

    /** `game()` with the deck shuffled into `shuffled` and the players'
        replies given by `oracle`. No game is played unless two players have
        chips. The players with chips get their hands; the first two post
        the blinds; then come the preflop, flop and turn betting rounds, and
        the pot goes to the last player once all others have left. Dealing
        the river raises, since `deal_board` fails on its third call, so no
        river round and no showdown is ever played: the exception leaves the
        chips in the pot out of every stack. */
    method Play(shuffled: seq<Card>, oracle: Oracle) returns (r: Result<Option<GameData>>)
      requires Valid() && IsShuffle(shuffled)
      modifies this
      ensures Valid()
      ensures gameCount == old(gameCount)
      ensures r == Ok(None) <==> |WithChips(old(stacks))| < 2
      ensures r == Ok(None) ==> stacks == old(stacks) && hands == old(hands) && history == old(history)
      ensures r.Ok? && r.value.Some? ==>
        && Sum(stacks) == old(Sum(stacks))
        && |r.value.value.winners| == 1
        && history == old(history) + [r.value.value]
      ensures r.Err? ==> r.error == TypeError && history == old(history)
      ensures NonNegative(old(stacks)) && smallBlind >= 0 && bigBlind >= 0 && NonNegativeBets(oracle) ==>
        && NonNegative(stacks)
        && (r.Err? ==> Sum(stacks) <= old(Sum(stacks)))
      ensures var active := WithChips(old(stacks));
        |active| >= 2 ==> (
          ShuffleLength(shuffled);
          var g := StreetsOn(BlindsOn(old(stacks), active, smallBlind, bigBlind), shuffled[..52 - 2 * |active|], oracle);
          && stacks == g.1.stacks
          && (r.Ok? <==> g.0 < 3)
          && (r.Ok? ==> r.value == Some(GameData(gameCount, g.1.active, g.1.pot, g.2, stacks))))
    {
      var active := WithChips(stacks);
      if |active| < 2 {
        return Ok(None);
      }
      ShuffleLength(shuffled);
      assert BlindsOn(stacks, active, smallBlind, bigBlind) == BlindsOn(old(stacks), WithChips(old(stacks)), smallBlind, bigBlind);
      assert shuffled[..52 - 2 * |active|] == shuffled[..52 - 2 * |WithChips(old(stacks))|];
      r := PlayHand(shuffled, active, oracle);
    }

    /** `game()` once the players with chips `active` are known: the dealer
        takes the deck shuffled into `shuffled`, the hands are dealt, the
        first two players post the blinds, and the streets are played on
        what is left of the deck. The dealer is local to the game, so
        building it after the check on the players, rather than before,
        changes nothing. */
    method PlayHand(shuffled: seq<Card>, active: seq<nat>, oracle: Oracle) returns (r: Result<Option<GameData>>)
      requires Valid() && IsShuffle(shuffled)
      requires 2 <= |active| <= 5 && NoDups(active)
      requires forall i :: 0 <= i < |active| ==> active[i] < 5
      modifies this
      ensures Valid() && gameCount == old(gameCount)
      ensures r.Ok? ==>
        && r.value.Some?
        && Sum(stacks) == old(Sum(stacks))
        && |r.value.value.winners| == 1
        && history == old(history) + [r.value.value]
      ensures r.Err? ==> r.error == TypeError && history == old(history)
      ensures NonNegative(old(stacks)) && smallBlind >= 0 && bigBlind >= 0 && NonNegativeBets(oracle) ==>
        && NonNegative(stacks)
        && (r.Err? ==> Sum(stacks) <= old(Sum(stacks)))
      ensures (
        ShuffleLength(shuffled);
        var g := StreetsOn(BlindsOn(old(stacks), active, smallBlind, bigBlind), shuffled[..52 - 2 * |active|], oracle);
        && stacks == g.1.stacks
        && (r.Ok? <==> g.0 < 3)
        && (r.Ok? ==> r.value == Some(GameData(gameCount, g.1.active, g.1.pot, g.2, stacks))))
    {
      var dealer := new Deal(shuffled);
      var deck := dealer.CardsInit(shuffled);
      ShuffleLength(shuffled);
      DealHands(dealer, active);
      var pot, bets := PostBlinds(active);
      r := Streets(dealer, active, pot, bets, oracle);
    }

    /** The streets of `game()` after the blinds: the preflop betting round
        from the blinds' contributions, ending the game when one player is
        left, then the later streets. */
    method Streets(dealer: Deal, active: seq<nat>, pot: int, bets: map<nat, int>, oracle: Oracle)
      returns (r: Result<Option<GameData>>)
      requires Valid() && NoDups(active)
      requires dealer.Valid() && dealer.state == 0 && |dealer.cards| >= 4
      requires forall s :: s in bets ==> s < |stacks|
      requires forall s :: s in active ==> s in bets
      modifies this, dealer
      ensures Valid() && gameCount == old(gameCount)
      ensures r.Ok? ==>
        && r.value.Some?
        && Sum(stacks) == pot + old(Sum(stacks))
        && |r.value.value.winners| == 1
        && history == old(history) + [r.value.value]
      ensures r.Err? ==> r.error == TypeError && history == old(history)
      ensures NonNegative(old(stacks)) && NonNegativeBets(oracle) && pot >= 0 ==>
        && NonNegative(stacks)
        && (r.Err? ==> Sum(stacks) <= pot + old(Sum(stacks)))
      ensures var g := StreetsOn(Table(old(stacks), active, pot, bets), old(dealer.cards), oracle);
        && stacks == g.1.stacks
        && (r.Ok? <==> g.0 < 3)
        && (r.Ok? ==> r.value == Some(GameData(gameCount, g.1.active, g.1.pot, g.2, stacks)))
    {
      var pot', active', award := Street(active, pot, bets, [], 0, oracle);
      if award.Some? {
        return Ok(award);
      }
      r := LaterStreets(dealer, active', pot', oracle);
    }

    /** The flop and turn streets of `game()`: each deals its board and
        plays a betting round from contributions reset to 0, ending the game
        when one player is left; then the river deal, which raises. */
    method LaterStreets(dealer: Deal, active: seq<nat>, pot: int, oracle: Oracle)
      returns (r: Result<Option<GameData>>)
      requires Valid() && NoDups(active)
      requires dealer.Valid() && dealer.state == 0 && |dealer.cards| >= 4
      requires forall s :: s in active ==> s < |stacks|
      modifies this, dealer
      ensures Valid() && gameCount == old(gameCount)
      ensures r.Ok? ==>
        && r.value.Some?
        && Sum(stacks) == pot + old(Sum(stacks))
        && |r.value.value.winners| == 1
        && history == old(history) + [r.value.value]
      ensures r.Err? ==> r.error == TypeError && history == old(history)
      ensures NonNegative(old(stacks)) && NonNegativeBets(oracle) && pot >= 0 ==>
        && NonNegative(stacks)
        && (r.Err? ==> Sum(stacks) <= pot + old(Sum(stacks)))
      ensures var g := StreetsFrom(1, Table(old(stacks), active, pot, ZeroBets(active)), old(dealer.cards), oracle);
        && stacks == g.1.stacks
        && (r.Ok? <==> g.0 < 3)
        && (r.Ok? ==> r.value == Some(GameData(gameCount, g.1.active, g.1.pot, g.2, stacks)))
    {
      ghost var deck := dealer.cards;
      var flop := dealer.DealBoard();
      assert flop.value == StreetBoard(1, deck);
      var pot', active', award := Street(active, pot, ZeroBets(active), flop.value, 1, oracle);
      if award.Some? {
        return Ok(award);
      }
      r := TurnStreet(dealer, deck, active', pot', oracle);
    }

    /** The turn street of `game()`: deals the turn, plays its betting round
        from contributions reset to 0, ending the game when one player is
        left; then the river deal, which raises. */
    method TurnStreet(dealer: Deal, ghost deck: seq<Card>, active: seq<nat>, pot: int, oracle: Oracle)
      returns (r: Result<Option<GameData>>)
      requires Valid() && NoDups(active)
      requires dealer.Valid() && dealer.state == 1 && |deck| >= 4
      requires dealer.cards == deck[..|deck| - 3] && dealer.board == PopN(deck, 3).0
      requires forall s :: s in active ==> s < |stacks|
      modifies this, dealer
      ensures Valid() && gameCount == old(gameCount)
      ensures r.Ok? ==>
        && r.value.Some?
        && Sum(stacks) == pot + old(Sum(stacks))
        && |r.value.value.winners| == 1
        && history == old(history) + [r.value.value]
      ensures r.Err? ==> r.error == TypeError && history == old(history)
      ensures NonNegative(old(stacks)) && NonNegativeBets(oracle) && pot >= 0 ==>
        && NonNegative(stacks)
        && (r.Err? ==> Sum(stacks) <= pot + old(Sum(stacks)))
      ensures var g := StreetsFrom(2, Table(old(stacks), active, pot, ZeroBets(active)), deck, oracle);
        && stacks == g.1.stacks
        && (r.Ok? <==> g.0 < 3)
        && (r.Ok? ==> r.value == Some(GameData(gameCount, g.1.active, g.1.pot, g.2, stacks)))
    {
      var turn := dealer.DealBoard();
      assert turn.value == StreetBoard(2, deck);
      var pot', active', award := Street(active, pot, ZeroBets(active), turn.value, 2, oracle);
      if award.Some? {
        return Ok(award);
      }
      var river := dealer.DealBoard();
      r := Err(river.error);
    }

    /** The loop of `game()` that hands out `deal_player_hand()` to the
        players with chips, in seat order. */
    method DealHands(dealer: Deal, active: seq<nat>)
      requires dealer.Valid() && dealer.state == 0 && dealer.board == [] && |dealer.cards| == 52
      requires |active| <= 5 && |hands| == 5
      requires forall i :: 0 <= i < |active| ==> active[i] < 5
      requires NoDups(active)
      modifies this, dealer
      ensures dealer.Valid() && dealer.state == 0 && dealer.board == []
      ensures dealer.cards == old(dealer.cards)[..52 - 2 * |active|]
      ensures stacks == old(stacks) && history == old(history) && gameCount == old(gameCount)
      ensures |hands| == 5
      ensures forall s :: 0 <= s < 5 && s !in active ==> hands[s] == old(hands)[s]
      ensures forall i :: 0 <= i < |active| ==>
        hands[active[i]] == [Group([old(dealer.cards)[51 - 2 * i], old(dealer.cards)[50 - 2 * i]])]
    {
      var i := 0;
      while i < |active|
        invariant 0 <= i <= |active|
        invariant dealer.Valid() && dealer.state == 0 && dealer.board == []
        invariant dealer.cards == old(dealer.cards)[..52 - 2 * i]
        invariant stacks == old(stacks) && history == old(history) && gameCount == old(gameCount)
        invariant |hands| == 5
        invariant forall s :: 0 <= s < 5 && s !in active ==> hands[s] == old(hands)[s]
        invariant forall k :: 0 <= k < i ==>
          hands[active[k]] == [Group([old(dealer.cards)[51 - 2 * k], old(dealer.cards)[50 - 2 * k]])]
      {
        var hand := dealer.DealPlayerHand();
        hands := hands[active[i] := hand.value];
        i := i + 1;
      }
    }

    /** The blinds of `game()`: the first player posts `min(small_blind,
        stack)` and the second `min(big_blind, stack)`, each paid from the
        stack into the player's contribution and the pot, which then holds
        exactly the two blinds. */
    method PostBlinds(active: seq<nat>) returns (pot: int, bets: map<nat, int>)
      requires |active| >= 2 && NoDups(active)
      requires forall s :: s in active ==> s < |stacks|
      modifies this
      ensures gameCount == old(gameCount) && hands == old(hands) && history == old(history)
      ensures Paid(old(stacks), ZeroBets(active), 0, stacks, bets, pot)
      ensures bets[active[0]] == Min(smallBlind, old(stacks)[active[0]])
      ensures bets[active[1]] == Min(bigBlind, old(stacks)[active[1]])
      ensures forall s :: s in bets && s != active[0] && s != active[1] ==> bets[s] == 0
      ensures pot == bets[active[0]] + bets[active[1]]
      ensures NonNegative(old(stacks)) ==> NonNegative(stacks)
      ensures NonNegative(old(stacks)) && smallBlind >= 0 && bigBlind >= 0 ==> pot >= 0
      ensures Table(stacks, active, pot, bets) == BlindsOn(old(stacks), active, smallBlind, bigBlind)
    {
      var sb, bb := active[0], active[1];
      assert sb in active && bb in active;
      ghost var stacks0 := stacks;
      var sbAmount := Min(smallBlind, stacks[sb]);
      stacks := stacks[sb := stacks[sb] - sbAmount];
      var bbAmount := Min(bigBlind, stacks[bb]);
      stacks := stacks[bb := stacks[bb] - bbAmount];
      bets := ZeroBets(active)[sb := sbAmount][bb := bbAmount];
      pot := sbAmount + bbAmount;
      BlindsPaid(stacks0, active, smallBlind, bigBlind);
      BlindsBets(stacks0, active, smallBlind, bigBlind);
    }

    /** `if len(active_players) == 1: return self._award_pot(...)`: the pot
        goes to the last player once all others have left, and otherwise
        nothing changes. */
    method AwardIfLast(active: seq<nat>, pot: int, board: seq<Item>, ghost bets: map<nat, int>)
      returns (award: Option<GameData>)
      requires |active| == 1 ==> active[0] < |stacks|
      requires forall s :: s in active ==> s < |stacks|
      modifies this
      ensures gameCount == old(gameCount) && hands == old(hands) && |stacks| == |old(stacks)|
      ensures award.None? ==> |active| != 1 && history == old(history) && stacks == old(stacks)
      ensures award.Some? ==>
        && |active| == 1 && award.value.winners == active
        && Sum(stacks) == pot + old(Sum(stacks))
        && history == old(history) + [award.value]
        && stacks == old(stacks)[active[0] := old(stacks)[active[0]] + pot]
      ensures award.Some? ==> award.value == GameData(gameCount, active, pot, board, stacks)
      ensures var r := AwardLast(Table(old(stacks), active, pot, bets)); award.Some? == r.0 && stacks == r.1.stacks
    {
      award := None;
      if |active| == 1 {
        assert active == [active[0]];
        var data := AwardPot(active[0], pot, board);
        award := Some(data);
      }
    }

    /** A street of `game()`: the betting round from the contributions
        `bets`, then, when one player is left, `_award_pot` to that player. */
    method Street(active: seq<nat>, pot: int, bets: map<nat, int>, board: seq<Item>, state: int, oracle: Oracle)
      returns (pot': int, active': seq<nat>, award: Option<GameData>)
      requires NoDups(active)
      requires forall s :: s in bets ==> s < |stacks|
      requires forall s :: s in active ==> s in bets
      modifies this
      ensures gameCount == old(gameCount) && hands == old(hands) && |stacks| == |old(stacks)|
      ensures NoDups(active') && forall s :: s in active' ==> s in active
      ensures award.None? ==> |active'| != 1 && history == old(history) && pot' + Sum(stacks) == pot + old(Sum(stacks))
      ensures award.Some? ==>
        && |active'| == 1 && award.value.winners == active'
        && Sum(stacks) == pot + old(Sum(stacks))
        && history == old(history) + [award.value]
      ensures NonNegative(old(stacks)) ==> award.None? ==> NonNegative(stacks)
      ensures NonNegative(old(stacks)) && NonNegativeBets(oracle) && pot >= 0 ==>
        NonNegative(stacks) && pot' >= pot
      ensures var r := StreetOn(Table(old(stacks), active, pot, bets), board, state, oracle);
        && award.Some? == r.0
        && stacks == r.1.stacks && active' == r.1.active && pot' == r.1.pot
      ensures award.Some? ==> award.value == GameData(gameCount, active', pot', board, stacks)
    {
      ghost var t := Table(stacks, active, pot, bets);
      ghost var passes;
      var bets';
      pot', active', bets', passes := BettingRound(active, pot, bets, board, state, oracle);
      award := AwardIfLast(active', pot', board, bets');
      StreetPays(t, board, state, oracle);
      StreetKeepsOrder(t, board, state, oracle);
      if NonNegative(t.stacks) && NonNegativeBets(oracle) && pot >= 0 {
        StreetKeepsSigns(t, board, state, oracle);
      }
    }
  }

  /** `{id(p): 0 for p in active_players}` */
  function ZeroBets(active: seq<nat>): (bets: map<nat, int>)
    ensures forall s :: s in bets <==> s in active
    ensures forall s :: s in bets ==> bets[s] == 0
  {
    map s | s in active :: 0
  }
}
