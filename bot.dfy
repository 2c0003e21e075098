/**
 * The bot's global table of kingdoms and the state-changing part of each
 * button handler. Everything the handlers send to the chat is left out;
 * what remains is a guarded update of the caller's kingdom (and, for PvP,
 * of one opponent's).
 */
module Bot {
  import opened Kingdoms

  /** What a PvP battle reports: no one to fight, or the opponent drawn,
      who won and the gold at stake. */
  datatype Battle = NoOpponents | Fought(opponent: int, playerWon: bool, stake: int)

  predicate Distinct(ids: seq<int>) {
    forall i, j :: 0 <= i < j < |ids| ==> ids[i] != ids[j]
  }

  /** A list of distinct ids has as many elements as the set of its
      elements. */
  lemma {:induction false} DistinctCard(ids: seq<int>, keys: set<int>)
    requires Distinct(ids)
    requires forall x :: x in keys <==> x in ids
    ensures |ids| == |keys|
  {
    if ids != [] {
      assert Distinct(ids[1..]);
      assert ids[0] !in ids[1..] by {
        forall j | 0 <= j < |ids[1..]|
          ensures ids[1..][j] != ids[0]
        {
          assert ids[1..][j] == ids[j + 1];
        }
      }
      var rest := keys - {ids[0]};
      forall x
        ensures x in rest <==> x in ids[1..]
      {
        if x in ids && x != ids[0] {
          var k :| 0 <= k < |ids| && ids[k] == x;
          assert ids[1..][k - 1] == x;
        }
      }
      DistinctCard(ids[1..], rest);
      assert keys == rest + {ids[0]};
    } else {
      forall x | x in keys
        ensures x in ids
      {
      }
    }
  }

  /** `[uid for uid in ids if uid != userId]`. */
  function Others(ids: seq<int>, userId: int): (r: seq<int>)
    ensures forall x :: x in r <==> x in ids && x != userId
    ensures |r| <= |ids|
  {
    if ids == [] then []
    else (if ids[0] == userId then [] else [ids[0]]) + Others(ids[1..], userId)
  }

  /** When the caller is registered, everyone else is a candidate opponent. */
  lemma {:induction false} OthersLength(ids: seq<int>, userId: int)
    requires Distinct(ids) && userId in ids
    ensures |Others(ids, userId)| == |ids| - 1
  {
    if ids[0] != userId {
      assert Distinct(ids[1..]);
      assert userId in ids[1..];
      OthersLength(ids[1..], userId);
    } else {
      assert userId !in ids[1..];
      OthersAbsent(ids[1..], userId);
    }
  }

  lemma {:induction false} OthersAbsent(ids: seq<int>, userId: int)
    requires userId !in ids
    ensures Others(ids, userId) == ids
  {
    if ids != [] {
      assert userId !in ids[1..];
      OthersAbsent(ids[1..], userId);
    }
  }

  /** The module-level dictionary `user_data`: user id to kingdom. `ids`
      holds its keys in insertion order, the order in which the dictionary
      yields them. */
  class Registry {
    var ids: seq<int>
    var kingdoms: map<int, Kingdom>

    /** `ids` lists every key of the table once. */
    ghost predicate Indexed()
      reads this
    {
      && Distinct(ids)
      && (forall i :: 0 <= i < |ids| ==> ids[i] in kingdoms)
      && (forall id :: id in kingdoms ==> id in ids)
    }

    /** No two users share a kingdom object. */
    ghost predicate Separate()
      reads this
    {
      forall a, b :: a in kingdoms && b in kingdoms && a != b ==> kingdoms[a] != kingdoms[b]
    }

    ghost predicate AllWellFormed()
      reads this, kingdoms.Values
    {
      forall id :: id in kingdoms ==> kingdoms[id].Valid()
    }

    ghost predicate Valid()
      reads this, kingdoms.Values
    {
      Indexed() && Separate() && AllWellFormed()
    }

    /** The list of keys is as long as the table: `|ids|` is
        `len(user_data)`. */
    lemma TableSize()
      requires Indexed()
      ensures |ids| == |kingdoms|
    {
      DistinctCard(ids, kingdoms.Keys);
    }

    constructor ()
      ensures Valid() && ids == [] && kingdoms == map[]
    {
      ids := [];
      kingdoms := map[];
    }

    /** The kingdom `userId` plays with: the registered one, or a new one. */
    ghost function Standing(userId: int): (s: State)
      requires Valid()
      reads this, kingdoms.Values
      ensures WellFormed(s)
    {
      if userId in kingdoms then kingdoms[userId].Snapshot() else InitialWellFormed(); Initial
    }

    /** `userId` is registered now, and was either registered before with
        nothing else changed in the table, or has just been appended with a
        new kingdom. */
    twostate predicate Enrolled(userId: int)
      reads this
    {
      && userId in kingdoms
      && (userId in old(kingdoms) ==> ids == old(ids) && kingdoms == old(kingdoms))
      && (userId !in old(kingdoms) ==>
            && ids == old(ids) + [userId]
            && kingdoms == old(kingdoms)[userId := kingdoms[userId]]
            && fresh(kingdoms[userId]))
    }

    /** The kingdoms of the users outside `touched` are as they were. */
    twostate predicate Untouched(new touched: set<int>)
      reads this, kingdoms.Values
    {
      forall id :: id in old(kingdoms) && id !in touched ==>
        id in kingdoms && kingdoms[id] == old(kingdoms[id]) &&
        kingdoms[id].Snapshot() == old(kingdoms[id].Snapshot())
    }

    /** `get_or_create_kingdom`: return the user's kingdom, registering a
        new one first if there is none. */
    method GetOrCreateKingdom(userId: int) returns (k: Kingdom)
      requires Valid()
      modifies this
      ensures Valid() && Enrolled(userId) && Untouched({})
      ensures k == kingdoms[userId]
      ensures userId in old(kingdoms) ==> k == old(kingdoms[userId])
      ensures k.Snapshot() == old(Standing(userId))
    {
      if userId !in kingdoms {
        var created := new Kingdom();
        kingdoms := kingdoms[userId := created];
        ids := ids + [userId];
        InitialWellFormed();
      }
      k := kingdoms[userId];
    }

    /** `start`: registers the caller; the reply is left out. */
    method Start(userId: int)
      requires Valid()
      modifies this
      ensures Valid() && Enrolled(userId) && Untouched({})
      ensures kingdoms[userId].Snapshot() == old(Standing(userId))
    {
      var _ := GetOrCreateKingdom(userId);
    }

    /** `show_status`: registers the caller and returns the kingdom the
        status text is formatted from. */
    method ShowStatus(userId: int) returns (s: State)
      requires Valid()
      modifies this
      ensures Valid() && Enrolled(userId) && Untouched({})
      ensures s == kingdoms[userId].Snapshot() == old(Standing(userId))
      ensures WellFormed(s)
    {
      var k := GetOrCreateKingdom(userId);
      s := k.Snapshot();
    }

    /** `process_attack`. */
    method ProcessAttack(userId: int, attackType: string) returns (r: Report)
      requires Valid()
      modifies this, kingdoms.Values
      ensures Valid() && Enrolled(userId) && Untouched({userId})
      ensures (kingdoms[userId].Snapshot(), r) == Attack(old(Standing(userId)), attackType)
    {
      var k := GetOrCreateKingdom(userId);
      ghost var s0 := k.Snapshot();
      assert s0 == old(Standing(userId));
      AttackKeepsWellFormed(s0, attackType);
      r := k.ApplyAttack(attackType);
      assert (k.Snapshot(), r) == Attack(s0, attackType);
      assert k == kingdoms[userId];
    }

    /** `process_build`, as written: see `Kingdoms.Build`. */
    method ProcessBuild(userId: int, buildType: string) returns (r: Report)
      requires Valid()
      modifies this, kingdoms.Values
      ensures Valid() && Enrolled(userId) && Untouched({userId})
      ensures (kingdoms[userId].Snapshot(), r) == Build(old(Standing(userId)), buildType)
    {
      var k := GetOrCreateKingdom(userId);
      BuildKeepsWellFormed(k.Snapshot(), buildType);
      r := k.ApplyBuild(buildType);
    }

    /** `collect_resources`. */
    method CollectResources(userId: int) returns (leveledUp: bool)
      requires Valid()
      modifies this, kingdoms.Values
      ensures Valid() && Enrolled(userId) && Untouched({userId})
      ensures (kingdoms[userId].Snapshot(), leveledUp) == Collect(old(Standing(userId)))
    {
      var k := GetOrCreateKingdom(userId);
      CollectKeepsWellFormed(k.Snapshot());
      leveledUp := k.ApplyCollect();
    }

    /** `daily_bonus`; `today` is the ISO date the handler reads from the
        clock. */
    method DailyBonus(userId: int, today: string) returns (r: Report)
      requires Valid()
      modifies this, kingdoms.Values
      ensures Valid() && Enrolled(userId) && Untouched({userId})
      ensures (kingdoms[userId].Snapshot(), r) == ClaimBonus(old(Standing(userId)), today)
    {
      var k := GetOrCreateKingdom(userId);
      BonusKeepsWellFormed(k.Snapshot(), today);
      r := k.ApplyBonus(today);
    }

    /** The opponent `random.choice` draws for `userId` with the random
        index `roll`: the candidates are the other users, in table order. */
    ghost predicate Drawn(userId: int, roll: nat, opponent: int)
      reads this
    {
      var opponents := Others(ids, userId);
      opponents != [] && opponent == opponents[roll % |opponents|]
    }

    /** `pvp_battle`. The two random draws are inputs: the opponent is
        `opponents[roll % |opponents|]`, as `random.choice` indexes its
        list, and `playerWins` is the coin the handler tosses. */
    method PvpBattle(userId: int, roll: nat, playerWins: bool) returns (b: Battle)
      requires Valid()
      modifies this, kingdoms.Values
      ensures Valid() && Enrolled(userId)
      ensures |ids| == |kingdoms|
      ensures b.NoOpponents? <==> |kingdoms| < 2
      ensures b.NoOpponents? ==>
        Untouched({userId}) && kingdoms[userId].Snapshot() == old(Standing(userId))
      ensures b.Fought? ==>
        && Drawn(userId, roll, b.opponent)
        && b.opponent != userId
        && b.opponent in old(kingdoms)
        && b.playerWon == playerWins
        && Untouched({userId, b.opponent})
        && (kingdoms[userId].Snapshot(), kingdoms[b.opponent].Snapshot(), b.stake)
           == Settle(old(Standing(userId)), old(Standing(b.opponent)), playerWins)
    {
      var player := GetOrCreateKingdom(userId);
      assert Standing(userId) == old(Standing(userId));
      TableSize();
      if |kingdoms| < 2 {
        return NoOpponents;
      }
      label registered:
      b := Challenge(userId, roll, playerWins);
      assert b.opponent in old(kingdoms);
      assert old@registered(Standing(b.opponent)) == old(Standing(b.opponent));
    }

    /** `pvp_battle` once the caller is registered and has someone to
        fight: draw the opponent among the other users, then fight. */
    method Challenge(userId: int, roll: nat, playerWins: bool) returns (b: Battle)
      requires Valid() && userId in kingdoms && |ids| >= 2
      modifies kingdoms.Values
      ensures Valid() && b.Fought?
      ensures Drawn(userId, roll, b.opponent)
      ensures b.opponent != userId && b.opponent in kingdoms && b.playerWon == playerWins
      ensures Untouched({userId, b.opponent})
      ensures (kingdoms[userId].Snapshot(), kingdoms[b.opponent].Snapshot(), b.stake)
        == Settle(old(Standing(userId)), old(Standing(b.opponent)), playerWins)
    {
      var opponents := Others(ids, userId);
      OthersLength(ids, userId);
      var opponentId := opponents[roll % |opponents|];
      assert opponentId in ids;
      // `get_or_create_kingdom(opponent_id)` finds the opponent registered,
      // so it is the lookup `Clash` makes.
      var stake := Clash(userId, opponentId, playerWins);
      b := Fought(opponentId, playerWins, stake);
    }

    /** The two kingdoms of a PvP battle after the draws: only they change,
        as `Settle` says. */
    method Clash(userId: int, opponentId: int, playerWins: bool) returns (stake: int)
      requires Valid()
      requires userId in kingdoms && opponentId in kingdoms && userId != opponentId
      modifies kingdoms.Values
      ensures Valid() && Untouched({userId, opponentId})
      ensures (kingdoms[userId].Snapshot(), kingdoms[opponentId].Snapshot(), stake)
        == Settle(old(Standing(userId)), old(Standing(opponentId)), playerWins)
    {
      var player, enemy := kingdoms[userId], kingdoms[opponentId];
      SettleKeepsWellFormed(player.Snapshot(), enemy.Snapshot(), playerWins);
      stake := Fight(player, enemy, playerWins);
    }
  }
}
