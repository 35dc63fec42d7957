/** What each operation of the game does to the state, and what the outer loop keeps. */
module GameFacts {
  import opened Sequences
  import opened GameSpec

  /** Combat: the fixed (health, experience) change per enemy, no change for any other name;
      exactly one copy of the enemy leaves the list (none when it is absent), and the items,
      the inventory and the level stay as they were. */
  lemma FightEffect(st: GameState, enemy: string)
    ensures var r := Fought(st, enemy);
      && (enemy == SKELETON ==> r.health == st.health - 10 && r.experience == st.experience + 20)
      && (enemy == ZOMBIE ==> r.health == st.health - 15 && r.experience == st.experience + 30)
      && (enemy == VAMPIRE ==> r.health == st.health - 25 && r.experience == st.experience + 50)
      && (enemy !in [SKELETON, ZOMBIE, VAMPIRE] ==> r.health == st.health && r.experience == st.experience)
      && r.enemies == RemoveFirst(st.enemies, enemy)
      && multiset(r.enemies) == multiset(st.enemies) - multiset{enemy}
      && (enemy !in st.enemies ==> r.enemies == st.enemies)
      && r.items == st.items && r.inventory == st.inventory && r.level == st.level
  {
    RemoveFirstMultiset(st.enemies, enemy);
  }

  /** Pickup: the fixed stat change per item, none for any other name; the name is always
      appended to the inventory, exactly one copy leaves the item list (none when absent),
      and the enemies and the level stay as they were. */
  lemma PickUpEffect(st: GameState, item: string)
    ensures var r := PickedUp(st, item);
      && (item == GOLD_COIN ==> r.health == st.health && r.experience == st.experience + 5)
      && (item == HEALTH_ELIXIR ==> r.health == st.health + 20 && r.experience == st.experience)
      && (item == MAGIC_SCROLL ==> r.health == st.health && r.experience == st.experience + 15)
      && (item !in [GOLD_COIN, HEALTH_ELIXIR, MAGIC_SCROLL] ==> r.health == st.health && r.experience == st.experience)
      && r.inventory == st.inventory + [item]
      && r.items == RemoveFirst(st.items, item)
      && multiset(r.items) == multiset(st.items) - multiset{item}
      && (item !in st.items ==> r.items == st.items)
      && r.enemies == st.enemies && r.level == st.level
  {
    RemoveFirstMultiset(st.items, item);
  }

  /** Level advance: one level up, health exactly full whatever it was, both lists replaced
      from the level table, experience and inventory untouched. */
  lemma AdvanceEffect(st: GameState)
    ensures var r := Advanced(st);
      && r.level == st.level + 1 && r.health == FULL_HEALTH
      && (r.level == 2 ==> r.enemies == [VAMPIRE] && r.items == [MAGIC_SCROLL])
      && (r.level == 3 ==> r.enemies == [VAMPIRE, ZOMBIE] && r.items == [HEALTH_ELIXIR, GOLD_COIN])
      && (r.level != 2 && r.level != 3 ==> r.enemies == [] && r.items == [])
      && r.experience == st.experience && r.inventory == st.inventory
  {
  }

  /** The first inner loop only ever takes enemies off the front: what is left is a suffix of
      the list it started with. */
  lemma {:induction false} EnemiesDrainedLeavesSuffix(st: GameState)
    decreases |st.enemies|
    ensures var r := EnemiesDrained(st);
      |r.enemies| <= |st.enemies| && r.enemies == st.enemies[|st.enemies| - |r.enemies|..]
  {
    if st.enemies != [] && st.health > 0 {
      var next := Fought(st, st.enemies[0]);
      FoughtFrame(st, st.enemies[0]);
      assert next.enemies == st.enemies[1..];
      EnemiesDrainedLeavesSuffix(next);
    }
  }

  /** The second inner loop takes items off the front and appends exactly those, in order, to
      the inventory. */
  lemma {:induction false} ItemsDrainedMovesPrefix(st: GameState)
    decreases |st.items|
    ensures var r := ItemsDrained(st);
      && |r.items| <= |st.items|
      && r.items == st.items[|st.items| - |r.items|..]
      && r.inventory == st.inventory + st.items[..|st.items| - |r.items|]
  {
    if st.items != [] && st.health > 0 {
      var next := PickedUp(st, st.items[0]);
      PickedUpFrame(st, st.items[0]);
      assert next.items == st.items[1..];
      ItemsDrainedMovesPrefix(next);
      var r := ItemsDrained(next);
      assert ItemsDrained(st) == r;
      var taken := |st.items| - |r.items|;
      assert r.inventory == st.inventory + [st.items[0]] + st.items[1..][..taken - 1];
      assert st.items[1..][..taken - 1] == st.items[1..taken];
      assert [st.items[0]] + st.items[1..taken] == st.items[..taken];
      assert r.inventory == st.inventory + st.items[..taken];
    }
  }

  /** No operation lowers experience or takes anything out of the inventory. */
  lemma OperationsMonotone(st: GameState, name: string)
    ensures var r := Fought(st, name); r.experience >= st.experience && st.inventory <= r.inventory
    ensures var r := PickedUp(st, name); r.experience >= st.experience && st.inventory <= r.inventory
    ensures var r := Advanced(st); r.experience >= st.experience && st.inventory <= r.inventory
  {
  }

  /** The outer loop advances exactly when both lists were drained with the player alive and
      below the last level; otherwise the level stays. */
  lemma RoundAdvancesOnlyWhenAlive(st: GameState)
    ensures var d := Drained(st);
      Round(st).level == (if d.health > 0 && st.level < LAST_LEVEL then st.level + 1 else st.level)
    ensures Round(st).level == st.level + 1 <==> Drained(st).health > 0 && st.level < LAST_LEVEL
  {
  }

  /** A death while draining stops that iteration where it happened: no advance, and the
      outer guard fails. */
  lemma RoundOnDeath(st: GameState)
    requires Drained(st).health <= 0
    ensures Round(st) == Drained(st) && Round(st).level == st.level && !Guard(Round(st))
  {
  }

  /** Over any number of outer iterations experience and level never drop and the inventory
      only grows. */
  lemma {:induction false} IterateMonotone(st: GameState, n: nat)
    decreases n
    ensures var r := Iterate(st, n);
      r.experience >= st.experience && st.inventory <= r.inventory && r.level >= st.level
  {
    if n > 0 && Guard(st) {
      IterateMonotone(Round(st), n - 1);
    }
  }

  /** Starting between level 1 and the last level, the level stays in that range however many
      outer iterations run: the `level <= 3` part of the outer guard never fails. */
  lemma {:induction false} IterateKeepsLevelRange(st: GameState, n: nat)
    requires 1 <= st.level <= LAST_LEVEL
    ensures 1 <= Iterate(st, n).level <= LAST_LEVEL
    decreases n
  {
    if n > 0 && Guard(st) {
      IterateKeepsLevelRange(Round(st), n - 1);
    }
  }

  /** Hence, from such a state, the outer loop can only exit through the player's death. */
  lemma IterateExitsOnlyByDeath(st: GameState, n: nat)
    requires 1 <= st.level <= LAST_LEVEL
    ensures !Guard(Iterate(st, n)) ==> Iterate(st, n).health <= 0
  {
    IterateKeepsLevelRange(st, n);
  }
}
