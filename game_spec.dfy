/** The game's state as a value and its transitions as functions: the reference
    definitions that the methods of `AdventureGame.MonolithicAdventureGame` are proved against. */
module GameSpec {
  import opened Sequences

  const SKELETON: string := "Skeleton"
  const ZOMBIE: string := "Zombie"
  const VAMPIRE: string := "Vampire"
  const GOLD_COIN: string := "Gold Coin"
  const HEALTH_ELIXIR: string := "Health Elixir"
  const MAGIC_SCROLL: string := "Magic Scroll"

  /** Health the player starts with and is restored to on every level advance. */
  const FULL_HEALTH: int := 100
  /** The last level: the driver never advances beyond it. */
  const LAST_LEVEL: int := 3

  /** Every field of the game object that some operation reads or writes. */
  datatype GameState = GameState(
    health: int,
    experience: int,
    inventory: seq<string>,
    enemies: seq<string>,
    items: seq<string>,
    level: int)

  /** What the end of `playGame` reports. */
  datatype Outcome = Perished | Completed(experience: int)

  /** The state built by the constructor: level 1 with its two enemies and two items. */
  function Initial(): GameState
  {
    GameState(FULL_HEALTH, 0, [], [SKELETON, ZOMBIE], [GOLD_COIN, HEALTH_ELIXIR], 1)
  }

  /** One combat: a fixed (health, experience) change per enemy name, then the first
      occurrence of the name leaves the enemy list. */
  function Fought(st: GameState, enemy: string): GameState
  {
    var after :=
      if enemy == SKELETON then st.(health := st.health - 10, experience := st.experience + 20)
      else if enemy == ZOMBIE then st.(health := st.health - 15, experience := st.experience + 30)
      else if enemy == VAMPIRE then st.(health := st.health - 25, experience := st.experience + 50)
      else st;
    after.(enemies := RemoveFirst(st.enemies, enemy))
  }

  /** One pickup: a fixed stat change per item name, the name appended to the inventory,
      and its first occurrence removed from the item list. */
  function PickedUp(st: GameState, item: string): GameState
  {
    var after :=
      if item == GOLD_COIN then st.(experience := st.experience + 5)
      else if item == HEALTH_ELIXIR then st.(health := st.health + 20)
      else if item == MAGIC_SCROLL then st.(experience := st.experience + 15)
      else st;
    after.(inventory := st.inventory + [item], items := RemoveFirst(st.items, item))
  }

  /** What a combat leaves alone and how it moves experience. */
  lemma FoughtFrame(st: GameState, enemy: string)
    ensures Fought(st, enemy).enemies == RemoveFirst(st.enemies, enemy)
    ensures Fought(st, enemy).items == st.items && Fought(st, enemy).inventory == st.inventory
    ensures Fought(st, enemy).level == st.level && Fought(st, enemy).experience >= st.experience
  {
  }

  /** What a pickup leaves alone, how it moves experience and how it grows the inventory. */
  lemma PickedUpFrame(st: GameState, item: string)
    ensures PickedUp(st, item).items == RemoveFirst(st.items, item)
    ensures PickedUp(st, item).inventory == st.inventory + [item]
    ensures PickedUp(st, item).enemies == st.enemies
    ensures PickedUp(st, item).level == st.level && PickedUp(st, item).experience >= st.experience
  {
  }

  /** Enemies placed in the lists when `level` is reached by an advance. */
  function LevelEnemies(level: int): seq<string>
  {
    if level == 2 then [VAMPIRE]
    else if level == 3 then [VAMPIRE, ZOMBIE]
    else []
  }

  /** Items placed in the lists when `level` is reached by an advance. */
  function LevelItems(level: int): seq<string>
  {
    if level == 2 then [MAGIC_SCROLL]
    else if level == 3 then [HEALTH_ELIXIR, GOLD_COIN]
    else []
  }

  /** A level advance: next level, full health, both lists replaced from the level table. */
  function Advanced(st: GameState): GameState
  {
    var next := st.level + 1;
    st.(level := next, health := FULL_HEALTH, enemies := LevelEnemies(next), items := LevelItems(next))
  }

  /** The first inner loop of `playGame`: fight the head enemy while there is one and the
      player is alive. */
  function EnemiesDrained(st: GameState): (r: GameState)
    decreases |st.enemies|
    ensures r.enemies == [] || r.health <= 0
    ensures st.enemies == [] || st.health <= 0 ==> r == st
    ensures r.items == st.items && r.inventory == st.inventory && r.level == st.level
    ensures r.experience >= st.experience
  {
    if st.enemies == [] || st.health <= 0 then st
    else
      var next := Fought(st, st.enemies[0]);
      FoughtFrame(st, st.enemies[0]);
      assert next.enemies == st.enemies[1..];
      EnemiesDrained(next)
  }

  /** The second inner loop of `playGame`: pick up the head item while there is one and the
      player is alive. */
  function ItemsDrained(st: GameState): (r: GameState)
    decreases |st.items|
    ensures r.items == [] || r.health <= 0
    ensures st.items == [] || st.health <= 0 ==> r == st
    ensures r.enemies == st.enemies && r.level == st.level
    ensures r.experience >= st.experience
    ensures st.inventory <= r.inventory
  {
    if st.items == [] || st.health <= 0 then st
    else
      var next := PickedUp(st, st.items[0]);
      PickedUpFrame(st, st.items[0]);
      assert next.items == st.items[1..];
      ItemsDrained(next)
  }

  /** Both inner loops, one after the other. */
  function Drained(st: GameState): (r: GameState)
    ensures r.health > 0 ==> r.enemies == [] && r.items == []
    ensures st.health <= 0 ==> r == st
    ensures r.level == st.level && r.experience >= st.experience && st.inventory <= r.inventory
  {
    ItemsDrained(EnemiesDrained(st))
  }

  /** The guard of the outer loop of `playGame`. */
  predicate Guard(st: GameState)
  {
    st.level <= LAST_LEVEL && st.health > 0
  }

  /** One iteration of the outer loop as written: drain both lists, then advance only when the
      player is alive and below the last level. */
  function Round(st: GameState): GameState
  {
    var b := Drained(st);
    if b.health > 0 && b.level < LAST_LEVEL then Advanced(b) else b
  }

  /** The state after at most `n` iterations of the outer loop as written: it stops early
      exactly when the guard fails. */
  function Iterate(st: GameState, n: nat): GameState
    decreases n
  {
    if n == 0 || !Guard(st) then st else Iterate(Round(st), n - 1)
  }

  /** Unrolling one iteration of the outer loop. */
  lemma IterateStep(st: GameState, n: nat)
    requires n > 0 && Guard(st)
    ensures Iterate(st, n) == Iterate(Round(st), n - 1)
  {
  }

  /** The report chosen after the outer loop: death when health is not positive, otherwise
      the congratulation with the experience gained. */
  function Report(st: GameState): (o: Outcome)
    ensures o == Perished <==> st.health <= 0
    ensures o.Completed? ==> o.experience == st.experience
  {
    if st.health <= 0 then Perished else Completed(st.experience)
  }

  /** The driver with the loop ending as its documentation says: after the lists of the last
      level are drained the game is over. The result is either a dead player or a living one at
      the last level with nothing left to fight or pick up. */
  function PlayedToEnd(st: GameState): (r: GameState)
    decreases if st.level < LAST_LEVEL then LAST_LEVEL - st.level else 0
    ensures !Guard(st) ==> r == st
    ensures Guard(st) ==> r.health <= 0 || (r.level == LAST_LEVEL && r.enemies == [] && r.items == [])
    ensures r.experience >= st.experience && st.inventory <= r.inventory && r.level >= st.level
  {
    if !Guard(st) then st
    else
      var b := Drained(st);
      if b.health > 0 && b.level < LAST_LEVEL then PlayedToEnd(Advanced(b)) else b
  }
}
