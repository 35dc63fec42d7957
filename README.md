# MonolithicAdventureGame in Dafny

A model of the single class `MonolithicAdventureGame`, a scripted text adventure. The player has
health, experience and an inventory. The game object also holds the current level and two
worklists, the enemies and the items left on that level. Three operations change this state:

- `fightEnemy` applies a fixed health/experience change per enemy name and removes the first
  occurrence of that name from the enemy list.
- `pickUpItem` applies a fixed stat change per item name, appends the name to the inventory and
  removes its first occurrence from the item list.
- `advanceLevel` moves one level up, restores full health and refills both lists from a
  per-level table.

`playGame` runs them in one outer loop that holds two inner loops, run one after the other: the
first drains the enemies, the second the items.

Files:

- `sequences.dfy` (module `Sequences`): removal by value from a list, as `List.remove(Object)`
  does it.
- `game_spec.dfy` (module `GameSpec`): the state as a value (`GameState`) and every transition as
  a function. This includes the two inner loops, one outer iteration (`Round`), `n` outer
  iterations of the loop as written (`Iterate`) and the corrected driver (`PlayedToEnd`).
- `game.dfy` (module `AdventureGame`): the class `MonolithicAdventureGame`. Its fields are
  updated in place. Each method is proved to leave its object in the state given by the matching
  function of `GameSpec`.
- `game_facts.dfy` (module `GameFacts`): lemmas for the three operations' lookup tables, list
  edits and monotonicity, and for what the outer loop keeps.
- `termination.dfy` (module `Termination`): the default run, worked out level by level, and the
  proof that the loop as written never stops for a player who survives.

The default run ends level 3 with health 80 and experience 205, because the Health Elixir adds
20 health and no experience. After that the outer loop never exits (see Findings).

## Model

| member | source | states |
|---|---|---|
| Sequences.RemoveFirst | MonolithicAdventureGame.java:72 | removal by value drops the length by one when the value occurs, leaves the list as it was when it does not, and adds no elements |
| Sequences.RemoveFirstAt | MonolithicAdventureGame.java:72 | when `i` is the first index holding `x`, exactly position `i` is cut out and the rest keeps its order |
| Sequences.RemoveFirstMultiset | MonolithicAdventureGame.java:90 | exactly one copy of the value leaves the multiset of elements if it occurs, none otherwise |
| Sequences.RemoveFirstOfHead | MonolithicAdventureGame.java:127-128 | removing the head element by value is dropping the head, so each inner-loop pass takes the front element off |
| GameSpec.EnemiesDrained | MonolithicAdventureGame.java:126-129 | the enemy loop ends with an empty list or a dead player; a dead player or an empty list is left untouched; items, inventory and level are unchanged and experience does not drop |
| GameSpec.ItemsDrained | MonolithicAdventureGame.java:131-134 | the item loop ends with an empty list or a dead player; a dead player or an empty list is left untouched; enemies and level are unchanged, experience does not drop, the old inventory is a prefix of the new one |
| GameSpec.Drained | MonolithicAdventureGame.java:126-134 | after both inner loops a living player has no enemies and no items left; a dead player is not touched; the level is unchanged, experience does not drop and the inventory only grows |
| GameSpec.Report | MonolithicAdventureGame.java:141-146 | the final report is death exactly when health is at most 0, and otherwise the congratulation carries the current experience |
| GameSpec.PlayedToEnd | MonolithicAdventureGame.java:122-139 | the corrected driver always stops. From a state passing the guard it ends with a dead player, or with a living one at level 3 and both lists empty. Experience, inventory and level never go back |
| AdventureGame.MonolithicAdventureGame.constructor | MonolithicAdventureGame.java:37-51 | health 100, experience 0, empty inventory, level 1, enemies [Skeleton, Zombie], items [Gold Coin, Health Elixir] |
| AdventureGame.MonolithicAdventureGame.FightEnemy | MonolithicAdventureGame.java:58-73 | the new state is the combat transition of the old one (table in GameFacts.FightEffect) |
| AdventureGame.MonolithicAdventureGame.PickUpItem | MonolithicAdventureGame.java:80-92 | the new state is the pickup transition of the old one (table in GameFacts.PickUpEffect) |
| AdventureGame.MonolithicAdventureGame.AdvanceLevel | MonolithicAdventureGame.java:98-116 | the new state is the level-advance transition of the old one (table in GameFacts.AdvanceEffect) |
| AdventureGame.MonolithicAdventureGame.DrainEnemies | MonolithicAdventureGame.java:126-129 | the enemy loop, which removes the head on each pass, leaves the object in the state `EnemiesDrained` gives |
| AdventureGame.MonolithicAdventureGame.DrainItems | MonolithicAdventureGame.java:131-134 | the item loop, which removes the head on each pass, leaves the object in the state `ItemsDrained` gives |
| AdventureGame.MonolithicAdventureGame.PlayRound | MonolithicAdventureGame.java:125-138 | one body of the outer loop leaves the object in the state `Round` gives |
| AdventureGame.MonolithicAdventureGame.PlayGame | MonolithicAdventureGame.java:122-146 | running the outer loop, cut off after `fuel` iterations, leaves the object in state `Iterate(old, fuel)`. `exited` is true exactly when the loop guard failed, and the outcome is the report of the final state |
| AdventureGame.MonolithicAdventureGame.PlayGameCorrected | MonolithicAdventureGame.java:122-146 | the corrected driver always terminates. It leaves the object in state `PlayedToEnd(old)` and reports death or completion for that state |
| GameFacts.FightEffect | MonolithicAdventureGame.java:58-73 | Skeleton (-10, +20), Zombie (-15, +30), Vampire (-25, +50) on (health, experience), no change for any other name. One copy of the name leaves the enemies, which are unchanged when it is absent. Items, inventory and level stay |
| GameFacts.PickUpEffect | MonolithicAdventureGame.java:80-92 | Gold Coin +5 experience, Health Elixir +20 health, Magic Scroll +15 experience, no change otherwise. The name is always appended to the inventory. One copy leaves the items, which are unchanged when it is absent. Enemies and level stay |
| GameFacts.AdvanceEffect | MonolithicAdventureGame.java:98-116 | the level goes up by one and health becomes exactly 100. Level 2 gets [Vampire] / [Magic Scroll], level 3 gets [Vampire, Zombie] / [Health Elixir, Gold Coin], and any other level gets two empty lists. Experience and inventory are untouched |
| GameFacts.EnemiesDrainedLeavesSuffix | MonolithicAdventureGame.java:126-129 | the enemy loop only takes enemies off the front: what remains is a suffix of the starting list |
| GameFacts.ItemsDrainedMovesPrefix | MonolithicAdventureGame.java:131-134 | the item loop takes a prefix of the item list and appends exactly that prefix, in order, to the inventory |
| GameFacts.OperationsMonotone | MonolithicAdventureGame.java:58-116 | none of the three operations lowers experience, and each leaves the old inventory a prefix of the new one |
| GameFacts.RoundAdvancesOnlyWhenAlive | MonolithicAdventureGame.java:136-138 | an outer iteration raises the level by one exactly when the player is alive after draining and below level 3; otherwise the level stays |
| GameFacts.RoundOnDeath | MonolithicAdventureGame.java:126-138 | a death while draining ends the iteration in that state: no advance, and the outer guard fails |
| GameFacts.IterateMonotone | MonolithicAdventureGame.java:122-139 | over any number of outer iterations experience and level never drop and the inventory only grows |
| GameFacts.IterateKeepsLevelRange | MonolithicAdventureGame.java:123-138 | starting between level 1 and 3, the level stays between 1 and 3, so the `level <= 3` part of the guard never fails |
| GameFacts.IterateExitsOnlyByDeath | MonolithicAdventureGame.java:123-139 | from level 1 to 3, whenever the outer guard has failed the player is dead |
| Termination.DrainedLastLevelIsFixedPoint | MonolithicAdventureGame.java:123-139 | a living player at level 3 with both lists empty passes the guard, and one iteration changes nothing |
| Termination.FixedPointForever | MonolithicAdventureGame.java:123-139 | from such a fixed point any number of iterations stays there |
| Termination.LevelOneRound | MonolithicAdventureGame.java:122-139 | level 1 of the default game ends alive and advances to level 2 with health 100, experience 55 and inventory [Gold Coin, Health Elixir] |
| Termination.LevelTwoRound | MonolithicAdventureGame.java:106-108 | level 2 advances to level 3 with health 100, experience 120, lists [Vampire, Zombie] and [Health Elixir, Gold Coin] |
| Termination.LevelThreeRound | MonolithicAdventureGame.java:109-113 | level 3 ends at health 80 and experience 205, with both lists empty, five inventory items, and no advance |
| Termination.DefaultRun | MonolithicAdventureGame.java:122-139 | three outer iterations take the constructor's state to the drained level 3 |
| Termination.DefaultRunNeverExits | MonolithicAdventureGame.java:119-139 | for every number of iterations the default game still passes the outer guard, and from the third on its state is fixed, so the loop never ends |
| Termination.IterateReachesEnd | MonolithicAdventureGame.java:122-139 | given more iterations than levels remain, the loop as written arrives at the state where the corrected driver stops |
| Termination.AsWrittenExitsIffPlayerDies | MonolithicAdventureGame.java:122-139 | from a state passing the guard, the loop as written ever exits if and only if the player dies along the way |
| Termination.CorrectedDefaultRunCompletes | MonolithicAdventureGame.java:140-146 | the corrected driver stops on the default game at the drained level 3 and reports completion with 205 experience points |

## Left out

- Console narration (the `System.out.println` calls): it is output only and changes no state.
- `playerName`: it appears only in narration.
- `main`: it only constructs the game and calls `playGame`; `AdventureGame.MonolithicAdventureGame.constructor` and `PlayGame` model both steps.
- Java's 32-bit `int` overflow: health, experience and level are unbounded integers. Every change to health and experience is a small constant, and the loop stops changing them once level 3 is drained. The levels the driver reaches stay within 1..3 (`GameFacts.IterateKeepsLevelRange`).
- PlayGame: the outer loop as written need not terminate. The method takes a `fuel` bound on
  outer iterations so that the method itself terminates. The unbounded
  behaviour is described by `Iterate` and the lemmas in `Termination`.
- `null` names: `enemy.equals(...)` would throw on a `null` argument. Names here are always strings.

## Findings

| source | as written | input that shows it | evidently intended | confidence | as-written member | corrected member |
|---|---|---|---|---|---|---|
| MonolithicAdventureGame.java:123-138 | the outer loop runs while `level <= 3 && playerHealth > 0`, but it advances only when `level < 3`, so nothing ever fails the guard after a surviving level 3 | the constructor's default game: after three iterations it is at level 3 with health 80 and both lists empty, and each further iteration changes nothing | the game is over once the last level's lists are drained ("until the game is over", line 120), and it reports completion with 205 experience | high; not executed | Termination.DefaultRunNeverExits | GameSpec.PlayedToEnd |
