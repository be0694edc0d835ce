/**
 * The table bookkeeping of the console game: a lookup from powers of two to
 * bit positions, and a `Table` that holds the seated players, the community
 * cards and the pot.
 */
module PokerTable {
  import opened Results

  /** 2 raised to `i`. */
  function Pow2(i: nat): (p: nat)
    ensures p >= 1
  {
    if i == 0 then 1 else 2 * Pow2(i - 1)
  }

  lemma {:induction false} Pow2Increasing(i: nat, j: nat)
    requires i < j
    ensures Pow2(i) < Pow2(j)
    decreases j
  {
    if i < j - 1 {
      Pow2Increasing(i, j - 1);
    }
  }

  /** `table` maps 2^k to k for exactly the positions k below `n`. */
  ghost predicate BitPositions(table: map<int, int>, n: nat)
  {
    && |table| == n
    && (forall k :: 0 <= k < n ==> Pow2(k) in table && table[Pow2(k)] == k)
    && (forall v :: v in table ==> 0 <= table[v] < n && Pow2(table[v]) == v)
  }

  /** Adding the entry for position n to a table for the positions below n. */
  lemma BitPositionsExtend(table: map<int, int>, n: nat)
    requires BitPositions(table, n)
    ensures BitPositions(table[Pow2(n) := n], n + 1)
  {
    if Pow2(n) in table {
      Pow2Increasing(table[Pow2(n)], n);
    }
  }

  /**
   * The lookup table "power of two -> position of its one bit" for the 64
   * positions 0..63: exactly 64 keys, 2^i maps to i, and every key is the
   * power of two of the position it maps to.
   */
  method GenerateTable() returns (table: map<int, int>)
    ensures |table| == 64
    ensures forall i :: 0 <= i < 64 ==> Pow2(i) in table && table[Pow2(i)] == i
    ensures forall v :: v in table ==> 0 <= table[v] < 64 && Pow2(table[v]) == v
  {
    table := map[];
    var val := 1;
    for i := 0 to 64
      invariant val == Pow2(i)
      invariant BitPositions(table, i)
    {
      BitPositionsExtend(table, i);
      table := table[val := i];
      val := val * 2;
    }
  }

  /** A seated player, as far as the table touches it: the hand and whether it is still in. */
  class Player {
    var hand: seq<string>
    var active: bool

    constructor (hand: seq<string>)
      ensures this.hand == hand && active
    {
      this.hand := hand;
      active := true;
    }
  }

  /** The error `apply_action` raises for an action it does not know (a ValueError). */
  datatype ActionError = InvalidAction

  class Table {
    var players: seq<Player>
    var communityCards: seq<string>
    var pot: int

    /** An empty table: no players, no cards, an empty pot. */
    constructor ()
      ensures players == [] && communityCards == [] && pot == 0
    {
      players := [];
      communityCards := [];
      pot := 0;
    }

    /** Seats a player after the ones already seated. */
    method AddPlayer(player: Player)
      modifies this
      ensures players == old(players) + [player]
      ensures communityCards == old(communityCards) && pot == old(pot)
    {
      players := players + [player];
    }

    /** Starts a hand: no community cards, an empty pot, and every seated player in with an empty hand. */
    method StartHand()
      modifies this, set p | p in players
      ensures players == old(players)
      ensures communityCards == [] && pot == 0
      ensures forall p :: p in players ==> p.hand == [] && p.active
    {
      communityCards := [];
      pot := 0;
      for k := 0 to |players|
        invariant players == old(players)
        invariant communityCards == [] && pot == 0
        invariant forall m :: 0 <= m < k ==> players[m].hand == [] && players[m].active
      {
        var player := players[k];
        player.hand := [];
        player.active := true;
      }
    }

    /**
     * Applies an action: "fold" takes the player out, "call" and "raise" add
     * `amount` to the pot, anything else is refused and changes nothing.
     */
    method ApplyAction(player: Player, action: string, amount: int := 0) returns (r: Result<(), ActionError>)
      modifies this, player
      ensures players == old(players) && communityCards == old(communityCards) && player.hand == old(player.hand)
      ensures action == "fold" ==> r.Ok? && !player.active && pot == old(pot)
      ensures action == "call" || action == "raise" ==> r.Ok? && player.active == old(player.active) && pot == old(pot) + amount
      ensures action != "fold" && action != "call" && action != "raise" ==>
                r == Err(InvalidAction) && player.active == old(player.active) && pot == old(pot)
    {
      if action == "fold" {
        player.active := false;
      } else if action == "call" {
        pot := pot + amount;
      } else if action == "raise" {
        pot := pot + amount;
      } else {
        return Err(InvalidAction);
      }
      return Ok(());
    }
  }
}
