/**
 * A player's kingdom in the single-player clicker bot: its resources,
 * army, buildings, level, experience and the date of its last daily
 * bonus, and the arithmetic that every game action performs on it.
 *
 * The state is given twice, in the form the program has it and as a value:
 * the class `Kingdom` holds the fields the handlers update in place, and
 * the datatype `State` is a snapshot of those fields. Each action is a
 * function from snapshot to snapshot; the methods that update a `Kingdom`
 * are proved to follow these functions, and the lemmas below say what the
 * functions do.
 */
module Kingdoms {

  datatype Option<T> = None | Some(value: T)

  /** A Python exception a handler raises part-way through. Changes it made
      before raising stay in memory; nothing is saved to disk. */
  datatype Error = KeyError(key: string)

  /** What a one-kingdom action reports: refused with nothing changed,
      completed (and whether the kingdom levelled up), or interrupted by an
      exception. */
  datatype Report = Refused | Done(leveledUp: bool) | Raised(error: Error)

  /** Experience needed to leave level `l` is `l * ExpPerLevel`. */
  const ExpPerLevel := 100

  const ResourceNames: set<string> := {"gold", "food", "wood", "iron"}
  const UnitNames: set<string> := {"infantry", "archers", "knights"}
  const BuildingNames: set<string> := {"farms", "mines", "barracks"}

  /** A snapshot of the fields of a `Kingdom`. */
  datatype State = State(
    resources: map<string, int>,
    army: map<string, int>,
    buildings: map<string, int>,
    level: int,
    exp: int,
    lastBonus: Option<string>)

  /** The kingdom a new player starts with. */
  const Initial: State := State(
    map["gold" := 1000, "food" := 500, "wood" := 300, "iron" := 200],
    map["infantry" := 10, "archers" := 5, "knights" := 2],
    map["farms" := 1, "mines" := 1, "barracks" := 1],
    1, 0, None)

  /** The dictionaries hold exactly the keys a new kingdom is given. */
  predicate HasKeys(s: State) {
    && s.resources.Keys == ResourceNames
    && s.army.Keys == UnitNames
    && s.buildings.Keys == BuildingNames
  }

  /** The invariant every action keeps: the expected keys, no negative
      count, a level of at least 1 and non-negative experience. */
  predicate WellFormed(s: State) {
    && HasKeys(s)
    && (forall r :: r in s.resources ==> s.resources[r] >= 0)
    && (forall u :: u in s.army ==> s.army[u] >= 0)
    && (forall b :: b in s.buildings ==> s.buildings[b] >= 0)
    && s.level >= 1
    && s.exp >= 0
  }

  lemma InitialWellFormed()
    ensures WellFormed(Initial)
    ensures Initial.resources["gold"] == 1000 && Initial.level == 1 && Initial.exp == 0
  {
  }

  /** `m[key] += delta` on a dictionary of counts. */
  function Bump(m: map<string, int>, key: string, delta: int): map<string, int>
    requires key in m
  {
    m[key := m[key] + delta]
  }

  // ---------------------------------------------------------------------
  // Levelling

  /** Experience earned since level 1: the thresholds of all levels passed
      plus the progress inside the current one. */
  function ExpToReach(level: int): int
    decreases level
  {
    if level <= 1 then 0 else ExpToReach(level - 1) + (level - 1) * ExpPerLevel
  }

  function TotalExp(s: State): int {
    ExpToReach(s.level) + s.exp
  }

  /** `Kingdom.add_exp`: add the experience, then level up once if the
      threshold of the current level is reached. */
  function GainExp(s: State, amount: int): (r: (State, bool))
    ensures r.1 <==> s.exp + amount >= s.level * ExpPerLevel
    ensures r.0.level == if r.1 then s.level + 1 else s.level
    ensures s.level >= 1 ==> TotalExp(r.0) == TotalExp(s) + amount
    ensures r.0 == s.(level := r.0.level, exp := r.0.exp)
    ensures WellFormed(s) && amount >= 0 ==> WellFormed(r.0)
  {
    var gained := s.exp + amount;
    var needed := s.level * ExpPerLevel;
    if gained >= needed then
      (s.(level := s.level + 1, exp := gained - needed), true)
    else
      (s.(exp := gained), false)
  }

  /** `add_exp` reads only the level and the experience. */
  lemma GainExpIgnoresRest(s: State, t: State, amount: int)
    requires s.level == t.level && s.exp == t.exp
    ensures GainExp(s, amount).1 == GainExp(t, amount).1
    ensures GainExp(s, amount).0 == s.(level := GainExp(t, amount).0.level, exp := GainExp(t, amount).0.exp)
  {
  }

  /** A single call never climbs more than one level, however much
      experience it adds: the kingdom can be left at or over the threshold
      of its new level. */
  lemma OneLevelPerCall(s: State, amount: int)
    requires s.level >= 1 && s.exp >= 0
    requires amount >= (2 * s.level + 1) * ExpPerLevel
    ensures GainExp(s, amount).0.level == s.level + 1
    ensures GainExp(s, amount).0.exp >= GainExp(s, amount).0.level * ExpPerLevel
  {
  }

  // ---------------------------------------------------------------------
  // NPC attack

  /** One row of the attack table: the gold it costs, the gold and food it
      brings back and the experience it awards. */
  datatype Raid = Raid(cost: int, gold: int, food: int, exp: int)

  const Raids: map<string, Raid> := map[
    "attack_weak" := Raid(50, 100, 50, 30),
    "attack_medium" := Raid(150, 250, 120, 70),
    "attack_strong" := Raid(300, 500, 250, 150)]

  /** `process_attack` on one kingdom. An unknown attack type raises at the
      table lookup; too little gold is refused; otherwise pay, collect the
      reward and gain experience. */
  function Attack(s: State, attackType: string): (r: (State, Report))
    requires HasKeys(s)
  {
    if attackType !in Raids then (s, Raised(KeyError(attackType)))
    else
      var raid := Raids[attackType];
      if s.resources["gold"] < raid.cost then (s, Refused)
      else
        var paid := s.(resources := Bump(s.resources, "gold", -raid.cost));
        var looted := paid.(resources := Bump(Bump(paid.resources, "gold", raid.gold), "food", raid.food));
        var (after, up) := GainExp(looted, raid.exp);
        (after, Done(up))
  }

  lemma AttackOutcome(s: State, attackType: string)
    requires HasKeys(s)
    ensures attackType !in Raids ==> Attack(s, attackType) == (s, Raised(KeyError(attackType)))
    ensures attackType in Raids && s.resources["gold"] < Raids[attackType].cost ==>
      Attack(s, attackType) == (s, Refused)
    ensures attackType in Raids && s.resources["gold"] >= Raids[attackType].cost ==>
      var raid, r, g := Raids[attackType], Attack(s, attackType), GainExp(s, Raids[attackType].exp);
      && r.0.resources == s.resources["gold" := s.resources["gold"] + raid.gold - raid.cost]
                                     ["food" := s.resources["food"] + raid.food]
      && r.0.army == s.army && r.0.buildings == s.buildings && r.0.lastBonus == s.lastBonus
      && r.0.level == g.0.level && r.0.exp == g.0.exp
      && r.1 == Done(g.1)
  {
  }

  /** Every attack that goes ahead leaves the kingdom with more gold than it
      had (the net gains are 50, 100 and 200). */
  lemma AttacksPay(s: State, attackType: string)
    requires HasKeys(s) && attackType in Raids
    requires s.resources["gold"] >= Raids[attackType].cost
    ensures Attack(s, attackType).0.resources["gold"] > s.resources["gold"]
    ensures Attack(s, attackType).0.resources["food"] > s.resources["food"]
  {
  }

  lemma AttackKeepsWellFormed(s: State, attackType: string)
    requires WellFormed(s)
    ensures WellFormed(Attack(s, attackType).0)
  {
    if attackType in Raids && s.resources["gold"] >= Raids[attackType].cost {
      var raid := Raids[attackType];
      var looted := s.(resources := Bump(Bump(Bump(s.resources, "gold", -raid.cost), "gold", raid.gold), "food", raid.food));
      assert WellFormed(looted);
    }
  }

  // ---------------------------------------------------------------------
  // Building

  const BuildCosts: map<string, int> := map[
    "build_farm" := 100,
    "build_mine" := 150,
    "build_barracks" := 200]

  /** Python's `s.replace(pat, rep)` for a non-empty `pat`: every
      non-overlapping occurrence, scanning left to right, is replaced. */
  function ReplaceAll(s: string, pat: string, rep: string): string
    requires pat != []
    decreases |s|
  {
    if |s| < |pat| then s
    else if s[..|pat|] == pat then rep + ReplaceAll(s[|pat|..], pat, rep)
    else [s[0]] + ReplaceAll(s[1..], pat, rep)
  }

  /** `pat` occurs in `s` at index `i`. */
  ghost predicate OccursAt(s: string, pat: string, i: int) {
    0 <= i <= |s| - |pat| && s[i..i + |pat|] == pat
  }

  /** `pat` occurs somewhere in `s`. */
  ghost predicate Occurs(s: string, pat: string) {
    exists i :: OccursAt(s, pat, i)
  }

  lemma OccursInTail(s: string, pat: string)
    requires |s| >= 1 && Occurs(s[1..], pat)
    ensures Occurs(s, pat)
  {
    var i :| OccursAt(s[1..], pat, i);
    assert s[i + 1..i + 1 + |pat|] == s[1..][i..i + |pat|];
    assert OccursAt(s, pat, i + 1);
  }

  lemma {:induction false} ReplaceNothing(s: string, pat: string, rep: string)
    requires pat != [] && !Occurs(s, pat)
    ensures ReplaceAll(s, pat, rep) == s
    decreases |s|
  {
    if |s| >= |pat| {
      assert s[0..0 + |pat|] == s[..|pat|];
      assert !OccursAt(s, pat, 0);
      if Occurs(s[1..], pat) {
        OccursInTail(s, pat);
        assert false;
      }
      ReplaceNothing(s[1..], pat, rep);
    }
  }

  /** The dictionary key `process_build` derives from the button's data. */
  function BuildingKey(buildType: string): string
  {
    ReplaceAll(buildType, "build_", "") + "s"
  }

  lemma {:induction false} StripBuildPrefix(rest: string)
    requires !Occurs(rest, "build_")
    ensures BuildingKey("build_" + rest) == rest + "s"
  {
    var s := "build_" + rest;
    assert s[..6] == "build_";
    assert s[6..] == rest;
    ReplaceNothing(rest, "build_", "");
  }

  /** The keys derived for the three buttons. The one for barracks is
      `"barrackss"`, which is not a building. */
  lemma BuildingKeys()
    ensures BuildingKey("build_farm") == "farms"
    ensures BuildingKey("build_mine") == "mines"
    ensures BuildingKey("build_barracks") == "barrackss"
    ensures "barrackss" !in BuildingNames
  {
    assert "build_farm" == "build_" + "farm";
    assert "build_mine" == "build_" + "mine";
    assert "build_barracks" == "build_" + "barracks";
    assert !Occurs("farm", "build_");
    assert !Occurs("mine", "build_");
    assert !Occurs("barracks", "build_") by {
      forall i | 0 <= i <= 2 ensures !OccursAt("barracks", "build_", i) {
        assert "barracks"[i..i + 6][1] != 'u';
      }
    }
    StripBuildPrefix("farm");
    StripBuildPrefix("mine");
    StripBuildPrefix("barracks");
  }

  /** `process_build` on one kingdom, as written: an unknown build type
      raises at the cost lookup; too little wood is refused; otherwise the
      wood is paid BEFORE the building key is looked up, so a derived key
      that is not a building raises with the wood already gone. */
  function Build(s: State, buildType: string): (r: (State, Report))
    requires HasKeys(s)
  {
    if buildType !in BuildCosts then (s, Raised(KeyError(buildType)))
    else
      var cost := BuildCosts[buildType];
      if s.resources["wood"] < cost then (s, Refused)
      else
        var paid := s.(resources := Bump(s.resources, "wood", -cost));
        var key := BuildingKey(buildType);
        if key !in paid.buildings then (paid, Raised(KeyError(key)))
        else
          var built := paid.(buildings := Bump(paid.buildings, key, 1));
          var (after, up) := GainExp(built, 50);
          (after, Done(up))
  }

  lemma BuildRefused(s: State, buildType: string)
    requires HasKeys(s)
    requires buildType !in BuildCosts || s.resources["wood"] < BuildCosts[buildType]
    ensures Build(s, buildType).0 == s
    ensures Build(s, buildType).1 == if buildType in BuildCosts then Refused else Raised(KeyError(buildType))
  {
  }

  /** A build whose derived key is a building: the wood is paid, that
      building goes up by one and 50 experience is gained. */
  lemma BuildUpgrades(s: State, buildType: string, key: string)
    requires HasKeys(s)
    requires buildType in BuildCosts && s.resources["wood"] >= BuildCosts[buildType]
    requires BuildingKey(buildType) == key && key in s.buildings
    ensures var r, g := Build(s, buildType), GainExp(s, 50);
      && r.0.resources == s.resources["wood" := s.resources["wood"] - BuildCosts[buildType]]
      && r.0.buildings == s.buildings[key := s.buildings[key] + 1]
      && r.0.army == s.army && r.0.lastBonus == s.lastBonus
      && r.0.level == g.0.level && r.0.exp == g.0.exp
      && r.1 == Done(g.1)
  {
    var paid := s.(resources := Bump(s.resources, "wood", -BuildCosts[buildType]));
    var built := paid.(buildings := Bump(paid.buildings, key, 1));
    GainExpIgnoresRest(built, s, 50);
    assert Build(s, buildType) == (GainExp(built, 50).0, Done(GainExp(built, 50).1));
  }

  /** A farm or a mine: the wood is paid, exactly that building goes up by
      one and 50 experience is gained. */
  lemma BuildFarmOrMine(s: State, buildType: string)
    requires HasKeys(s)
    requires buildType == "build_farm" || buildType == "build_mine"
    requires s.resources["wood"] >= BuildCosts[buildType]
    ensures var key := if buildType == "build_farm" then "farms" else "mines";
      var r, g := Build(s, buildType), GainExp(s, 50);
      && r.0.resources == s.resources["wood" := s.resources["wood"] - BuildCosts[buildType]]
      && r.0.buildings == s.buildings[key := s.buildings[key] + 1]
      && r.0.army == s.army && r.0.lastBonus == s.lastBonus
      && r.0.level == g.0.level && r.0.exp == g.0.exp
      && r.1 == Done(g.1)
  {
    if buildType == "build_farm" {
      assert BuildingKey(buildType) == "farms" by { BuildingKeys(); }
      BuildUpgrades(s, buildType, "farms");
    } else {
      assert BuildingKey(buildType) == "mines" by { BuildingKeys(); }
      BuildUpgrades(s, buildType, "mines");
    }
  }

  /** The defect: with enough wood, `build_barracks` takes 200 wood and then
      raises on the key `"barrackss"`; no barracks is built and no experience
      is gained. */
  lemma BuildBarracksFails(s: State)
    requires HasKeys(s)
    requires s.resources["wood"] >= 200
    ensures Build(s, "build_barracks") ==
      (s.(resources := s.resources["wood" := s.resources["wood"] - 200]), Raised(KeyError("barrackss")))
  {
    BuildingKeys();
  }

  lemma BuildKeepsWellFormed(s: State, buildType: string)
    requires WellFormed(s)
    ensures WellFormed(Build(s, buildType).0)
  {
    BuildingKeys();
    if buildType in BuildCosts && s.resources["wood"] >= BuildCosts[buildType] {
      var paid := s.(resources := Bump(s.resources, "wood", -BuildCosts[buildType]));
      assert WellFormed(paid);
      var key := BuildingKey(buildType);
      if key in paid.buildings {
        assert WellFormed(paid.(buildings := Bump(paid.buildings, key, 1)));
      }
    }
  }

  /** The building each button is evidently meant to upgrade. */
  const IntendedBuilding: map<string, string> := map[
    "build_farm" := "farms",
    "build_mine" := "mines",
    "build_barracks" := "barracks"]

  /** `process_build` with the building key taken from `IntendedBuilding`:
      every known button with enough wood upgrades its building. */
  function BuildIntended(s: State, buildType: string): (r: (State, Report))
    requires HasKeys(s)
    ensures buildType in BuildCosts && s.resources["wood"] >= BuildCosts[buildType] ==>
      var key := IntendedBuilding[buildType];
      && r.1.Done?
      && r.0.resources == s.resources["wood" := s.resources["wood"] - BuildCosts[buildType]]
      && r.0.buildings == s.buildings[key := s.buildings[key] + 1]
      && r.0.level == GainExp(s, 50).0.level && r.0.exp == GainExp(s, 50).0.exp
      && r.0.army == s.army && r.0.lastBonus == s.lastBonus
      && r.1 == Done(GainExp(s, 50).1)
    ensures !(buildType in BuildCosts && s.resources["wood"] >= BuildCosts[buildType]) ==>
      r.0 == s && !r.1.Done?
  {
    if buildType !in BuildCosts then (s, Raised(KeyError(buildType)))
    else
      var cost := BuildCosts[buildType];
      if s.resources["wood"] < cost then (s, Refused)
      else
        var key := IntendedBuilding[buildType];
        var built := s.(resources := Bump(s.resources, "wood", -cost),
                        buildings := Bump(s.buildings, key, 1));
        var (after, up) := GainExp(built, 50);
        (after, Done(up))
  }

  /** The corrected build agrees with the one as written except on
      barracks. */
  lemma BuildIntendedAgrees(s: State, buildType: string)
    requires HasKeys(s)
    requires buildType != "build_barracks"
    ensures BuildIntended(s, buildType) == Build(s, buildType)
  {
    BuildingKeys();
  }

  // ---------------------------------------------------------------------
  // Collecting

  /** `collect_resources` on one kingdom: 60 food per farm, 40 gold per mine
      and 20 experience. */
  function Collect(s: State): (r: (State, bool))
    requires HasKeys(s)
  {
    var food := s.buildings["farms"] * 60;
    var gold := s.buildings["mines"] * 40;
    var collected := s.(resources := Bump(Bump(s.resources, "food", food), "gold", gold));
    GainExp(collected, 20)
  }

  lemma CollectOutcome(s: State)
    requires HasKeys(s)
    ensures var r, g := Collect(s), GainExp(s, 20);
      && r.0.resources == s.resources["food" := s.resources["food"] + 60 * s.buildings["farms"]]
                                     ["gold" := s.resources["gold"] + 40 * s.buildings["mines"]]
      && r.0.army == s.army && r.0.buildings == s.buildings && r.0.lastBonus == s.lastBonus
      && r.0.level == g.0.level && r.0.exp == g.0.exp && r.1 == g.1
  {
  }

  lemma CollectKeepsWellFormed(s: State)
    requires WellFormed(s)
    ensures WellFormed(Collect(s).0)
  {
    var collected := s.(resources := Bump(Bump(s.resources, "food", s.buildings["farms"] * 60), "gold", s.buildings["mines"] * 40));
    assert WellFormed(collected);
  }

  // ---------------------------------------------------------------------
  // Daily bonus

  /** The bonus dictionary, in its iteration order. */
  const BonusItems: seq<(string, int)> := [("gold", 200), ("food", 150), ("wood", 100), ("iron", 50)]

  /** The effect of `for k, v in items: m[k] += v`. */
  function CreditAll(m: map<string, int>, items: seq<(string, int)>): (r: map<string, int>)
    requires forall i :: 0 <= i < |items| ==> items[i].0 in m
    ensures r.Keys == m.Keys
    decreases |items|
  {
    if items == [] then m
    else
      var r := CreditAll(m, items[..|items| - 1]);
      Bump(r, items[|items| - 1].0, items[|items| - 1].1)
  }

  lemma BonusCredit(m: map<string, int>)
    requires m.Keys == ResourceNames
    ensures CreditAll(m, BonusItems) ==
      m["gold" := m["gold"] + 200]["food" := m["food"] + 150]["wood" := m["wood"] + 100]["iron" := m["iron"] + 50]
  {
    assert BonusItems[..1][..0] == [];
    assert BonusItems[..2][..1] == BonusItems[..1];
    assert BonusItems[..3][..2] == BonusItems[..2];
    assert BonusItems[..4][..3] == BonusItems[..3];
    assert BonusItems[..4] == BonusItems;
    assert CreditAll(m, BonusItems[..1]) == Bump(m, "gold", 200);
    assert CreditAll(m, BonusItems[..2]) == Bump(Bump(m, "gold", 200), "food", 150);
    assert CreditAll(m, BonusItems[..3]) == Bump(Bump(Bump(m, "gold", 200), "food", 150), "wood", 100);
  }

  /** `daily_bonus` on one kingdom: refused when already claimed on `today`;
      otherwise credit the bonus, record the date and gain 50 experience. */
  function ClaimBonus(s: State, today: string): (r: (State, Report))
    requires HasKeys(s)
  {
    if s.lastBonus == Some(today) then (s, Refused)
    else
      var credited := s.(resources := CreditAll(s.resources, BonusItems), lastBonus := Some(today));
      var (after, up) := GainExp(credited, 50);
      (after, Done(up))
  }

  lemma BonusOutcome(s: State, today: string)
    requires HasKeys(s)
    ensures s.lastBonus == Some(today) ==> ClaimBonus(s, today) == (s, Refused)
    ensures s.lastBonus != Some(today) ==>
      var r, g, m := ClaimBonus(s, today), GainExp(s, 50), s.resources;
      && r.0.resources == m["gold" := m["gold"] + 200]["food" := m["food"] + 150]
                           ["wood" := m["wood"] + 100]["iron" := m["iron"] + 50]
      && r.0.lastBonus == Some(today)
      && r.0.army == s.army && r.0.buildings == s.buildings
      && r.0.level == g.0.level && r.0.exp == g.0.exp
      && r.1 == Done(g.1)
  {
    BonusCredit(s.resources);
  }

  /** Two claims on the same date pay the bonus once: the second is refused
      and changes nothing. */
  lemma BonusOncePerDay(s: State, today: string)
    requires HasKeys(s)
    ensures HasKeys(ClaimBonus(s, today).0)
    ensures ClaimBonus(ClaimBonus(s, today).0, today) == (ClaimBonus(s, today).0, Refused)
  {
  }

  /** A claim on another date than the last one goes through. */
  lemma BonusNextDay(s: State, today: string, tomorrow: string)
    requires HasKeys(s) && today != tomorrow
    ensures HasKeys(ClaimBonus(s, today).0)
    ensures ClaimBonus(ClaimBonus(s, today).0, tomorrow).1.Done?
  {
  }

  lemma BonusKeepsWellFormed(s: State, today: string)
    requires WellFormed(s)
    ensures WellFormed(ClaimBonus(s, today).0)
  {
    if s.lastBonus != Some(today) {
      BonusCredit(s.resources);
      var credited := s.(resources := CreditAll(s.resources, BonusItems), lastBonus := Some(today));
      assert WellFormed(credited);
    }
  }

  // ---------------------------------------------------------------------
  // PvP settlement

  /** The gold at stake in a PvP battle: half the enemy's gold, rounded
      down, and at most 200. */
  function Stake(enemyGold: int): (stake: int)
    ensures stake <= 200
    ensures 2 * stake <= enemyGold
    ensures stake == 200 || enemyGold < 2 * stake + 2
    ensures enemyGold >= 0 ==> 0 <= stake <= enemyGold
  {
    // Dafny's `/` rounds down for a positive divisor, as Python's `//` does.
    var half := enemyGold / 2;
    if half < 200 then half else 200
  }

  /** `pvp_battle` once the opponent and the winner are drawn: the player
      and the enemy after the battle, and the stake. */
  function Settle(player: State, enemy: State, playerWins: bool): (r: (State, State, int))
    requires HasKeys(player) && HasKeys(enemy)
  {
    var stake := Stake(enemy.resources["gold"]);
    if playerWins then
      var richer := player.(resources := Bump(player.resources, "gold", stake));
      var (after, _) := GainExp(richer, 100);
      (after, enemy.(resources := Bump(enemy.resources, "gold", -stake)), stake)
    else
      var pg := player.resources["gold"] - stake;
      (player.(resources := player.resources["gold" := if pg > 0 then pg else 0]),
       enemy.(resources := Bump(enemy.resources, "gold", stake)),
       stake)
  }

  lemma SettleOutcome(player: State, enemy: State, playerWins: bool)
    requires HasKeys(player) && HasKeys(enemy)
    ensures var (p, e, stake) := Settle(player, enemy, playerWins);
      var pg, eg := player.resources["gold"], enemy.resources["gold"];
      && stake == Stake(eg)
      && p.resources == player.resources["gold" := p.resources["gold"]]
      && e == enemy.(resources := enemy.resources["gold" := e.resources["gold"]])
      && p.army == player.army && p.buildings == player.buildings && p.lastBonus == player.lastBonus
      && (playerWins ==>
            && p.resources["gold"] == pg + stake
            && e.resources["gold"] == eg - stake
            && p.level == GainExp(player, 100).0.level && p.exp == GainExp(player, 100).0.exp)
      && (!playerWins ==>
            && p.resources["gold"] == (if pg - stake > 0 then pg - stake else 0)
            && e.resources["gold"] == eg + stake
            && p.level == player.level && p.exp == player.exp)
  {
  }

  /** The enemy never ends with negative gold, on either outcome. */
  lemma SettleKeepsWellFormed(player: State, enemy: State, playerWins: bool)
    requires WellFormed(player) && WellFormed(enemy)
    ensures WellFormed(Settle(player, enemy, playerWins).0)
    ensures WellFormed(Settle(player, enemy, playerWins).1)
  {
    var stake := Stake(enemy.resources["gold"]);
    if playerWins {
      assert WellFormed(player.(resources := Bump(player.resources, "gold", stake)));
    }
  }

  /** Gold is conserved exactly when the loser can pay the whole stake; a
      losing player with less gold than the stake pays what they have, yet
      the enemy receives the full stake. */
  lemma SettleGold(player: State, enemy: State, playerWins: bool)
    requires HasKeys(player) && HasKeys(enemy)
    ensures var (p, e, stake) := Settle(player, enemy, playerWins);
      var before := player.resources["gold"] + enemy.resources["gold"];
      var after := p.resources["gold"] + e.resources["gold"];
      && (after == before <==> playerWins || player.resources["gold"] >= stake)
      && after >= before
  {
  }

  // ---------------------------------------------------------------------
  // The object the handlers update

  class Kingdom {
    var resources: map<string, int>
    var army: map<string, int>
    var buildings: map<string, int>
    var level: int
    var exp: int
    var lastBonus: Option<string>

    constructor ()
      ensures Snapshot() == Initial
    {
      resources := Initial.resources;
      army := Initial.army;
      buildings := Initial.buildings;
      level := Initial.level;
      exp := Initial.exp;
      lastBonus := Initial.lastBonus;
    }

    function Snapshot(): State
      reads this
    {
      State(resources, army, buildings, level, exp, lastBonus)
    }

    ghost predicate Valid()
      reads this
    {
      WellFormed(Snapshot())
    }

    /** Add experience and level up once if the threshold is reached. */
    method AddExp(amount: int) returns (leveledUp: bool)
      modifies this
      ensures (Snapshot(), leveledUp) == GainExp(old(Snapshot()), amount)
    {
      exp := exp + amount;
      var needed := level * ExpPerLevel;
      if exp >= needed {
        level := level + 1;
        exp := exp - needed;
        return true;
      }
      return false;
    }

    /** The update `process_attack` makes to the caller's kingdom. */
    method ApplyAttack(attackType: string) returns (r: Report)
      requires HasKeys(Snapshot())
      modifies this
      ensures (Snapshot(), r) == Attack(old(Snapshot()), attackType)
      ensures old(Valid()) ==> Valid()
    {
      if Valid() {
        AttackKeepsWellFormed(Snapshot(), attackType);
      }
      if attackType !in Raids {
        return Raised(KeyError(attackType));
      }
      var raid := Raids[attackType];
      if resources["gold"] < raid.cost {
        return Refused;
      }
      resources := resources["gold" := resources["gold"] - raid.cost];
      resources := resources["gold" := resources["gold"] + raid.gold];
      resources := resources["food" := resources["food"] + raid.food];
      var up := AddExp(raid.exp);
      r := Done(up);
    }

    /** The update `process_build` makes to the caller's kingdom, as
        written: see `Build`. */
    method ApplyBuild(buildType: string) returns (r: Report)
      requires HasKeys(Snapshot())
      modifies this
      ensures (Snapshot(), r) == Build(old(Snapshot()), buildType)
      ensures old(Valid()) ==> Valid()
    {
      if Valid() {
        BuildKeepsWellFormed(Snapshot(), buildType);
      }
      if buildType !in BuildCosts {
        return Raised(KeyError(buildType));
      }
      var cost := BuildCosts[buildType];
      if resources["wood"] < cost {
        return Refused;
      }
      ghost var s0 := Snapshot();
      resources := Bump(resources, "wood", -cost);
      ghost var paid := Snapshot();
      assert paid == s0.(resources := Bump(s0.resources, "wood", -cost));
      var key := BuildingKey(buildType);
      if key !in buildings {
        return Raised(KeyError(key));
      }
      buildings := Bump(buildings, key, 1);
      ghost var built := Snapshot();
      assert built == paid.(buildings := Bump(paid.buildings, key, 1));
      var up := AddExp(50);
      r := Done(up);
      assert (Snapshot(), up) == GainExp(built, 50);
    }

    /** The update `collect_resources` makes to the caller's kingdom. */
    method ApplyCollect() returns (leveledUp: bool)
      requires HasKeys(Snapshot())
      modifies this
      ensures (Snapshot(), leveledUp) == Collect(old(Snapshot()))
      ensures old(Valid()) ==> Valid()
    {
      if Valid() {
        CollectKeepsWellFormed(Snapshot());
      }
      var food := buildings["farms"] * 60;
      var gold := buildings["mines"] * 40;
      resources := resources["food" := resources["food"] + food];
      resources := resources["gold" := resources["gold"] + gold];
      leveledUp := AddExp(20);
    }

    /** The update `daily_bonus` makes to the caller's kingdom on the date
        `today`. */
    method ApplyBonus(today: string) returns (r: Report)
      requires HasKeys(Snapshot())
      modifies this
      ensures (Snapshot(), r) == ClaimBonus(old(Snapshot()), today)
      ensures old(Valid()) ==> Valid()
    {
      if Valid() {
        BonusKeepsWellFormed(Snapshot(), today);
      }
      if lastBonus == Some(today) {
        return Refused;
      }
      ghost var before := Snapshot();
      var i := 0;
      while i < |BonusItems|
        invariant 0 <= i <= |BonusItems|
        invariant Snapshot() == before.(resources := CreditAll(before.resources, BonusItems[..i]))
      {
        var (key, amount) := BonusItems[i];
        assert BonusItems[..i + 1][..i] == BonusItems[..i];
        resources := resources[key := resources[key] + amount];
        i := i + 1;
      }
      assert BonusItems[..i] == BonusItems;
      assert Snapshot() == before.(resources := CreditAll(before.resources, BonusItems));
      lastBonus := Some(today);
      var up := AddExp(50);
      r := Done(up);
    }
  }

  /** The update `pvp_battle` makes to the two kingdoms once the opponent
      and the winner are drawn; the stake is taken from the enemy's gold
      before anything moves. */
  method Fight(player: Kingdom, enemy: Kingdom, playerWins: bool) returns (stake: int)
    requires player != enemy
    requires HasKeys(player.Snapshot()) && HasKeys(enemy.Snapshot())
    modifies player, enemy
    ensures (player.Snapshot(), enemy.Snapshot(), stake)
      == Settle(old(player.Snapshot()), old(enemy.Snapshot()), playerWins)
  {
    stake := Stake(enemy.resources["gold"]);
    if playerWins {
      player.resources := player.resources["gold" := player.resources["gold"] + stake];
      var _ := player.AddExp(100);
      enemy.resources := enemy.resources["gold" := enemy.resources["gold"] - stake];
    } else {
      var left := player.resources["gold"] - stake;
      player.resources := player.resources["gold" := if left > 0 then left else 0];
      enemy.resources := enemy.resources["gold" := enemy.resources["gold"] + stake];
    }
  }
}
