# Kingdom clicker bot: the kingdom state and its game actions

This project models the core of `main.py`, a single-player "kingdom" bot
for a chat app. Each player owns a kingdom with resources (gold, food, wood,
iron), an army, buildings (farms, mines, barracks), a level, experience and
the date of its last daily bonus. The bot keeps every kingdom in one
module-level dictionary, `user_data`, keyed by user id. Each button handler
is a guarded update of the caller's kingdom:

- an NPC attack costs gold and brings back gold, food and experience;
- building costs wood and upgrades a building;
- collecting turns farms into food and mines into gold;
- the daily bonus can be claimed once per date;
- a PvP battle moves a gold stake between the caller and a random opponent.

Two modules hold the model:

- `kingdom.dfy`, module `Kingdoms`: the `Kingdom` class with the source's
  fields and `add_exp`, and a value snapshot `State` of those fields. Each
  action is also a function from `State` to `State` (`GainExp`, `Attack`,
  `Build`, `Collect`, `ClaimBonus`, `Settle`), and lemmas state what these
  functions promise. Each in-place method (`AddExp`, `ApplyAttack`,
  `ApplyBuild`, `ApplyCollect`, `ApplyBonus`, `Fight`) is proved to leave the
  kingdom in the state its function gives. `WellFormed` is the invariant
  every action keeps: the expected dictionary keys, no negative count,
  level at least 1 and experience at least 0.
- `bot.dfy`, module `Bot`: the class `Registry` stands for `user_data`. It
  maps ids to `Kingdom` objects. It keeps the keys in insertion order, the
  order a Python dictionary yields them. Its handler methods register the
  caller first, as `get_or_create_kingdom` does, and then update that
  kingdom. They are proved to change only the kingdoms they name.

Inputs that the program reads from the outside world are parameters:

- `today` is the ISO date string of `datetime.date.today()`.
- `roll` is the random index behind `random.choice(opponents)`. The opponent
  is `opponents[roll % |opponents|]`.
- `playerWins` is the result of the coin `random.choice(["player", "enemy"])`.

Python's dictionary lookup of a missing key raises `KeyError`. The model
returns this as a `Raised(KeyError(key))` report. The changes made before
the raise stay in the model, as they stay in the bot's memory. Python's
`enemy_gold // 2` rounds down. Dafny's `/` also rounds down when the divisor
is positive, so `Stake` uses it directly.

The repository's other prototypes describe a turn-based sticker duel engine
with matchmaking. That engine is not in `main.py` and is not part of this
model.

## Model

| member | source | states |
|---|---|---|
| `Kingdoms.InitialWellFormed` | main.py:19-25 | a new kingdom (1000 gold, 500 food, 300 wood, 200 iron; 10/5/2 troops; one farm, one mine and one barracks; level 1, experience 0, no bonus date) satisfies the invariant |
| `Kingdoms.Kingdom.constructor` | main.py:19-25 | a new `Kingdom` has exactly those initial values |
| `Kingdoms.GainExp` | main.py:27-35 | it reports a level-up iff the old experience plus `amount` reaches `level * 100`; the level rises by one exactly then; the lifetime experience (`ExpToReach(level) + exp`) grows by exactly `amount`; no other field changes; a non-negative amount keeps the invariant |
| `Kingdoms.GainExpIgnoresRest` | main.py:27-35 | two kingdoms with the same level and experience get the same level-up flag, level and experience from `add_exp`, and every other field of the first is untouched |
| `Kingdoms.OneLevelPerCall` | main.py:27-35 | one call climbs at most one level: with a large enough amount the kingdom ends at the next level and still at or over its new threshold |
| `Kingdoms.Kingdom.AddExp` | main.py:27-35 | the object's new fields and the returned flag are `GainExp` of the old fields |
| `Kingdoms.Attack` | main.py:125-144 | the update `process_attack` makes, as a function of the old state; no contract of its own, see `AttackOutcome`, `AttacksPay` and `AttackKeepsWellFormed` |
| `Kingdoms.AttackOutcome` | main.py:125-144 | unknown attack type: `KeyError`, nothing changes; gold below the cost: refused, nothing changes; otherwise gold changes by reward minus cost, food rises by the food reward, level and experience are as `add_exp` of the attack's experience gives, and army, buildings, wood, iron and bonus date are untouched |
| `Kingdoms.AttacksPay` | main.py:125-143 | every attack that goes ahead strictly increases both gold and food |
| `Kingdoms.AttackKeepsWellFormed` | main.py:134-144 | an attack keeps the invariant, so gold never goes negative |
| `Kingdoms.Kingdom.ApplyAttack` | main.py:123-144 | the in-place update and its report equal `Attack` of the old state; a valid kingdom stays valid |
| `Kingdoms.ReplaceAll` | main.py:221 | Python's `str.replace`, left to right and without overlaps; no contract of its own, see `ReplaceNothing` and `StripBuildPrefix` |
| `Kingdoms.BuildingKey` | main.py:221 | the dictionary key `process_build` derives from the button data; no contract of its own, see `StripBuildPrefix` and `BuildingKeys` |
| `Kingdoms.ReplaceNothing` | main.py:221 | `str.replace` leaves a string without an occurrence of the pattern unchanged |
| `Kingdoms.StripBuildPrefix` | main.py:221 | the derived building key of `"build_" + rest` is `rest + "s"` when `rest` does not contain `"build_"` |
| `Kingdoms.BuildingKeys` | main.py:221 | the derived keys are `"farms"`, `"mines"` and `"barrackss"`, and the last is not a building |
| `Kingdoms.Build` | main.py:212-223 | what `process_build` does as written, wood deducted before the key lookup; no contract of its own, see `BuildRefused`, `BuildUpgrades`, `BuildFarmOrMine`, `BuildBarracksFails` and `BuildKeepsWellFormed` |
| `Kingdoms.BuildRefused` | main.py:212-219 | an unknown build type raises `KeyError` and too little wood is refused; in both cases nothing changes |
| `Kingdoms.BuildUpgrades` | main.py:212-223 | a build whose derived key is a building: wood drops by the cost, only that building rises by one, 50 experience is gained, army and bonus date are untouched, and the report carries `add_exp`'s level-up flag |
| `Kingdoms.BuildFarmOrMine` | main.py:212-223 | a farm or mine with enough wood: wood drops by its cost, only that building rises by one, 50 experience is gained, the rest is untouched |
| `Kingdoms.BuildBarracksFails` | main.py:215-222 | barracks with enough wood: the 200 wood is taken, then `KeyError("barrackss")`; nothing else changes |
| `Kingdoms.BuildKeepsWellFormed` | main.py:217-223 | every build outcome, including the failing one, keeps the invariant |
| `Kingdoms.BuildIntended` | main.py:212-223 | corrected build: every known button with enough wood pays, upgrades its own building and gains 50 experience, leaves army and bonus date untouched, and reports `Done` with `add_exp`'s level-up flag; otherwise nothing changes and nothing is built |
| `Kingdoms.BuildIntendedAgrees` | main.py:212-223 | the corrected build equals the build as written on every input except `build_barracks` |
| `Kingdoms.Kingdom.ApplyBuild` | main.py:211-223 | the in-place update and its report equal `Build` of the old state, so the object keeps the wood deducted before the failing lookup; a valid kingdom stays valid |
| `Kingdoms.Collect` | main.py:236-240 | the update `collect_resources` makes; no contract of its own, see `CollectOutcome` and `CollectKeepsWellFormed` |
| `Kingdoms.CollectOutcome` | main.py:236-240 | food rises by `60 * farms`, gold by `40 * mines`, 20 experience is gained; army, buildings, wood, iron and bonus date are untouched |
| `Kingdoms.CollectKeepsWellFormed` | main.py:236-240 | collecting keeps the invariant |
| `Kingdoms.Kingdom.ApplyCollect` | main.py:236-240 | the in-place update equals `Collect` of the old state; a valid kingdom stays valid |
| `Kingdoms.CreditAll` | main.py:258-259 | crediting a list of `(key, amount)` pairs keeps the dictionary's key set |
| `Kingdoms.BonusCredit` | main.py:257-259 | the bonus loop adds exactly 200 gold, 150 food, 100 wood and 50 iron |
| `Kingdoms.ClaimBonus` | main.py:253-261 | the update `daily_bonus` makes on the date `today`; no contract of its own, see `BonusOutcome`, `BonusOncePerDay`, `BonusNextDay` and `BonusKeepsWellFormed` |
| `Kingdoms.BonusOutcome` | main.py:253-261 | a claim on the date already recorded is refused and changes nothing; any other claim adds the bonus, records `today` and gains 50 experience, with army and buildings untouched |
| `Kingdoms.BonusOncePerDay` | main.py:254-260 | two claims with the same date pay once: the second is refused and leaves the state of the first |
| `Kingdoms.BonusNextDay` | main.py:254-260 | after a claim, a claim with a different date goes through |
| `Kingdoms.BonusKeepsWellFormed` | main.py:257-261 | the daily bonus keeps the invariant |
| `Kingdoms.Kingdom.ApplyBonus` | main.py:254-261 | the loop over the bonus items and the date update equal `ClaimBonus` of the old state; a valid kingdom stays valid |
| `Kingdoms.Stake` | main.py:179 | the stake is at most 200 and at most half the enemy's gold, rounded down; it is below 200 only when it is exactly that half; for non-negative enemy gold, 0 <= stake <= enemy gold |
| `Kingdoms.Settle` | main.py:179-188 | the gold transfer of a PvP battle once both draws are made; no contract of its own, see `SettleOutcome`, `SettleKeepsWellFormed` and `SettleGold` |
| `Kingdoms.SettleOutcome` | main.py:179-188 | the stake comes from the enemy's gold before anything moves; on a win the player gains the stake and 100 experience and the enemy loses the stake; on a loss the player's gold becomes `max(0, gold - stake)` and the enemy gains the whole stake; only gold (and on a win, level and experience) change |
| `Kingdoms.SettleKeepsWellFormed` | main.py:179-188 | both kingdoms keep the invariant; the enemy's gold never goes negative |
| `Kingdoms.SettleGold` | main.py:181-188 | total gold is conserved iff the player wins or can pay the full stake; otherwise it grows |
| `Kingdoms.Fight` | main.py:178-188 | the in-place updates of the two distinct kingdoms and the stake equal `Settle` of their old states |
| `Bot.DistinctCard` | main.py:164 | a list of distinct ids is exactly as long as the set of its elements |
| `Bot.Others` | main.py:168 | the candidate list holds exactly the ids other than the caller's |
| `Bot.OthersAbsent` | main.py:168 | filtering out an id that is not in the list leaves the list unchanged |
| `Bot.OthersLength` | main.py:164-169 | with the caller registered, the candidates are all the other users, so two users leave at least one opponent |
| `Bot.Registry.TableSize` | main.py:164 | the list of keys is as long as the table, so the length of `ids` is `len(user_data)` |
| `Bot.Registry.constructor` | main.py:15 | the table starts empty |
| `Bot.Registry.Standing` | main.py:53-57 | the kingdom a user plays with, registered or fresh, satisfies the invariant |
| `Bot.Registry.GetOrCreateKingdom` | main.py:53-57 | a registered user's kingdom is returned unchanged and the table is unchanged; otherwise a fresh initial kingdom is inserted and the id appended; no other kingdom changes |
| `Bot.Registry.Start` | main.py:70-72 | the caller is registered with the kingdom it plays with; the table is otherwise unchanged and no kingdom changes |
| `Bot.Registry.ShowStatus` | main.py:78-82 | the caller is registered and the returned state, from which the status text is formatted, is the caller's kingdom, which satisfies the invariant; no kingdom changes |
| `Bot.Registry.ProcessAttack` | main.py:118-145 | the caller is registered; the caller's kingdom and the report follow `Attack`; every other kingdom is untouched |
| `Bot.Registry.ProcessBuild` | main.py:206-224 | the caller is registered; the caller's kingdom and the report follow `Build` as written; every other kingdom is untouched |
| `Bot.Registry.CollectResources` | main.py:231-241 | the caller is registered; the caller's kingdom follows `Collect`; every other kingdom is untouched |
| `Bot.Registry.DailyBonus` | main.py:248-262 | the caller is registered; the caller's kingdom and the report follow `ClaimBonus`; every other kingdom is untouched |
| `Bot.Registry.Drawn` | main.py:168-169 | the opponent `random.choice(opponents)` picks with the random index `roll`: `opponents[roll % len(opponents)]` among the other users in table order; a predicate, used in the contracts of `PvpBattle` and `Challenge` |
| `Bot.Registry.PvpBattle` | main.py:158-191 | the caller is registered first; the battle is refused iff the table then holds fewer than two kingdoms, as `len(user_data) < 2` tests, changing nothing else; otherwise the opponent is the drawn one, is never the caller and was already registered; the two kingdoms follow `Settle`; every other kingdom is untouched |
| `Bot.Registry.Challenge` | main.py:168-188 | with the caller registered among two or more users: the opponent is drawn from the other users, and the battle follows `Settle` |
| `Bot.Registry.Clash` | main.py:170-188 | only the two named kingdoms change, as `Settle` says, and the table stays valid |

## Findings

| source | as written | input that shows it | evidently intended | confidence | as-written member | corrected member |
|---|---|---|---|---|---|---|
| main.py:220-222 | the key is `build_type.replace("build_", "") + "s"`, looked up after the wood is deducted | `build_barracks` with at least 200 wood: the key is `"barrackss"`, the lookup raises, and the 200 wood is lost without a barracks | upgrade `"barracks"`; a failed build costs nothing | high (not executed) | `Kingdoms.BuildBarracksFails` | `Kingdoms.BuildIntended` |

`Bot.Registry.ProcessBuild` and `Kingdoms.Kingdom.ApplyBuild` follow the code
as written, so the model shows the wood that the defect costs a player.
`Kingdoms.BuildIntended` is the corrected definition. `BuildIntendedAgrees`
shows it differs from the code only on barracks.

## Left out

- Chat transport: replies, message edits, animations, inline keyboards,
  the main menu and handler registration. These are I/O and UI.
- Status and result texts. These are presentation only.
- JSON persistence (`save_data`, `load_data`) and the `save_data()` calls
  in `get_or_create_kingdom` and the handlers. These are file I/O. A record
  loaded from the file could carry other keys or values; the model assumes
  every kingdom has the shape a new one has.
- `asyncio.sleep`, the awaited transport calls and concurrent handlers.
  For example, two attacks could interleave between paying and collecting
  the reward. Also, `process_attack` pays the cost (main.py:138) and then
  awaits `reply_animation` (main.py:139). If that call raises, the cost
  stays paid and no reward is given. The model runs each handler to
  completion on its own, with every transport call succeeding.
- The random draws and the clock. They become the parameters `roll`,
  `playerWins` and `today`.
- Logging and `error_handler`. An exception is the `Raised` report; the bot
  only logs it.
- The replies of `start` and `show_status`, and the handlers `attack_menu`,
  `build_menu` and `back_to_main`. These only send messages. The state
  change of `start` and `show_status`, their `get_or_create_kingdom` calls
  (main.py:72 and main.py:82), is `Bot.Registry.Start` and
  `Bot.Registry.ShowStatus`.
- Bot.Registry.PvpBattle: the handler's second `get_or_create_kingdom(opponent_id)`
  is modelled as a plain lookup. The opponent is always registered at that
  point, so the call neither inserts nor changes anything.
