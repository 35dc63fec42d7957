/** Whether the driver's outer loop stops. As written it stops only when the player dies; a
    player who survives the last level leaves it in a state that one more iteration does not
    change, so it repeats forever. The corrected driver `GameSpec.PlayedToEnd` stops there. */
module Termination {
  import opened GameSpec
  import GameFacts

  /** Where the default game stands after draining the last level. */
  function DefaultFinal(): GameState
  {
    GameState(80, 205, [GOLD_COIN, HEALTH_ELIXIR, MAGIC_SCROLL, HEALTH_ELIXIR, GOLD_COIN], [], [], LAST_LEVEL)
  }

  /** Running `n` iterations and then `k` more is running `n + k`. */
  lemma {:induction false} IterateAdd(st: GameState, n: nat, k: nat)
    ensures Iterate(st, n + k) == Iterate(Iterate(st, n), k)
    decreases n
  {
    if n > 0 && Guard(st) {
      IterateAdd(Round(st), n - 1, k);
    }
  }

  /** A living player at the last level with both lists empty passes the outer guard, and one
      iteration changes nothing. */
  lemma DrainedLastLevelIsFixedPoint(st: GameState)
    requires st.level == LAST_LEVEL && st.health > 0 && st.enemies == [] && st.items == []
    ensures Guard(st) && Round(st) == st
  {
  }

  /** From a state that passes the guard and that one iteration does not change, no number of
      iterations gets anywhere else. */
  lemma {:induction false} FixedPointForever(st: GameState, n: nat)
    requires Guard(st) && Round(st) == st
    ensures Iterate(st, n) == st
  {
    if n > 0 {
      FixedPointForever(st, n - 1);
    }
  }

  /** Once the loop as written has reached the drained last level, later cut-offs see the same
      state. */
  lemma StuckOnceThere(st: GameState, k: nat, n: nat)
    requires Iterate(st, k) == DefaultFinal() && n >= k
    ensures Iterate(st, n) == DefaultFinal()
  {
    DrainedLastLevelIsFixedPoint(DefaultFinal());
    IterateAdd(st, k, n - k);
    FixedPointForever(DefaultFinal(), n - k);
  }

  /** The default game when level 2 begins. */
  function LevelTwoStart(): GameState
  {
    GameState(FULL_HEALTH, 55, [GOLD_COIN, HEALTH_ELIXIR], [VAMPIRE], [MAGIC_SCROLL], 2)
  }

  /** The default game when level 3 begins. */
  function LevelThreeStart(): GameState
  {
    GameState(FULL_HEALTH, 120, [GOLD_COIN, HEALTH_ELIXIR, MAGIC_SCROLL], [VAMPIRE, ZOMBIE],
              [HEALTH_ELIXIR, GOLD_COIN], 3)
  }

  /** Level 1: Skeleton and Zombie cost 25 health for 50 experience, the Gold Coin adds 5
      experience and the Health Elixir 20 health; the player is alive, so the level advances. */
  lemma LevelOneRound()
    ensures Round(Initial()) == LevelTwoStart()
  {
    var s0 := Initial();
    var f1 := GameState(90, 20, [], [ZOMBIE], [GOLD_COIN, HEALTH_ELIXIR], 1);
    var f2 := GameState(75, 50, [], [], [GOLD_COIN, HEALTH_ELIXIR], 1);
    var p1 := GameState(75, 55, [GOLD_COIN], [], [HEALTH_ELIXIR], 1);
    var p2 := GameState(95, 55, [GOLD_COIN, HEALTH_ELIXIR], [], [], 1);
    assert Fought(s0, SKELETON) == f1;
    assert Fought(f1, ZOMBIE) == f2;
    assert EnemiesDrained(s0) == f2 by {
      assert EnemiesDrained(s0) == EnemiesDrained(f1);
      assert EnemiesDrained(f1) == EnemiesDrained(f2);
    }
    assert PickedUp(f2, GOLD_COIN) == p1;
    assert PickedUp(p1, HEALTH_ELIXIR) == p2;
    assert ItemsDrained(f2) == p2 by {
      assert ItemsDrained(f2) == ItemsDrained(p1);
      assert ItemsDrained(p1) == ItemsDrained(p2);
    }
    assert Drained(s0) == p2;
  }

  /** Level 2: the Vampire costs 25 health for 50 experience, the Magic Scroll adds 15
      experience; the level advances again. */
  lemma LevelTwoRound()
    ensures Round(LevelTwoStart()) == LevelThreeStart()
  {
    var s0 := LevelTwoStart();
    var f1 := GameState(75, 105, [GOLD_COIN, HEALTH_ELIXIR], [], [MAGIC_SCROLL], 2);
    var p1 := GameState(75, 120, [GOLD_COIN, HEALTH_ELIXIR, MAGIC_SCROLL], [], [], 2);
    assert Fought(s0, VAMPIRE) == f1;
    assert EnemiesDrained(s0) == f1 by {
      assert EnemiesDrained(s0) == EnemiesDrained(f1);
    }
    assert PickedUp(f1, MAGIC_SCROLL) == p1;
    assert ItemsDrained(f1) == p1 by {
      assert ItemsDrained(f1) == ItemsDrained(p1);
    }
    assert Drained(s0) == p1;
  }

  /** Level 3: Vampire and Zombie cost 40 health for 80 experience, the Health Elixir adds 20
      health and the Gold Coin 5 experience; being at the last level, the player stays. */
  lemma LevelThreeRound()
    ensures Round(LevelThreeStart()) == DefaultFinal()
  {
    var s0 := LevelThreeStart();
    var inv := [GOLD_COIN, HEALTH_ELIXIR, MAGIC_SCROLL];
    var f1 := GameState(75, 170, inv, [ZOMBIE], [HEALTH_ELIXIR, GOLD_COIN], 3);
    var f2 := GameState(60, 200, inv, [], [HEALTH_ELIXIR, GOLD_COIN], 3);
    var p1 := GameState(80, 200, inv + [HEALTH_ELIXIR], [], [GOLD_COIN], 3);
    var p2 := GameState(80, 205, inv + [HEALTH_ELIXIR, GOLD_COIN], [], [], 3);
    assert Fought(s0, VAMPIRE) == f1;
    assert Fought(f1, ZOMBIE) == f2;
    assert EnemiesDrained(s0) == f2 by {
      assert EnemiesDrained(s0) == EnemiesDrained(f1);
      assert EnemiesDrained(f1) == EnemiesDrained(f2);
    }
    assert PickedUp(f2, HEALTH_ELIXIR) == p1;
    assert PickedUp(p1, GOLD_COIN) == p2;
    assert ItemsDrained(f2) == p2 by {
      assert ItemsDrained(f2) == ItemsDrained(p1);
      assert ItemsDrained(p1) == ItemsDrained(p2);
    }
    assert Drained(s0) == p2;
    assert p2 == DefaultFinal();
  }

  /** The default game: three outer iterations take the constructor's state to level 3 with
      health 80, experience 205 and five items in the inventory, both lists empty. */
  lemma DefaultRun()
    ensures Iterate(Initial(), 3) == DefaultFinal()
  {
    LevelOneRound();
    LevelTwoRound();
    LevelThreeRound();
    IterateStep(Initial(), 3);
    IterateStep(LevelTwoStart(), 2);
    IterateStep(LevelThreeStart(), 1);
  }

  /** The default game as written never leaves its outer loop: after any number of iterations
      the guard still holds, so the congratulation is never reached. */
  lemma DefaultRunNeverExits(n: nat)
    ensures Guard(Iterate(Initial(), n))
    ensures n >= 3 ==> Iterate(Initial(), n) == DefaultFinal()
  {
    if n >= 3 {
      DefaultRun();
      StuckOnceThere(Initial(), 3, n);
    } else if n == 1 {
      LevelOneRound();
      IterateStep(Initial(), 1);
      assert Iterate(LevelTwoStart(), 0) == LevelTwoStart();
    } else if n == 2 {
      LevelOneRound();
      LevelTwoRound();
      IterateStep(Initial(), 2);
      IterateStep(LevelTwoStart(), 1);
      assert Iterate(LevelThreeStart(), 0) == LevelThreeStart();
    }
  }

  /** Enough iterations of the loop as written reach the state where the corrected driver
      stops: for a dead player that is where the loop exits, for a living one it is the state
      the loop then repeats. */
  lemma {:induction false} IterateReachesEnd(st: GameState, n: nat)
    requires n > LAST_LEVEL - st.level
    ensures Iterate(st, n) == PlayedToEnd(st)
    decreases n
  {
    if Guard(st) {
      var b := Drained(st);
      IterateStep(st, n);
      if b.health > 0 && b.level < LAST_LEVEL {
        IterateReachesEnd(Advanced(b), n - 1);
      } else if b.health > 0 {
        DrainedLastLevelIsFixedPoint(b);
        FixedPointForever(b, n - 1);
      }
    }
  }

  /** The loop as written exits from a state that passes its guard exactly when the player
      dies along the way. */
  lemma AsWrittenExitsIffPlayerDies(st: GameState)
    requires Guard(st)
    ensures (exists n: nat :: !Guard(Iterate(st, n))) <==> PlayedToEnd(st).health <= 0
  {
    var bound: nat := LAST_LEVEL + 1 - st.level;
    IterateReachesEnd(st, bound);
    if n: nat :| !Guard(Iterate(st, n)) {
      if n <= bound {
        IterateAdd(st, n, bound - n);
      } else {
        IterateReachesEnd(st, n);
      }
    }
  }

  /** The corrected driver stops on the default game with the adventure completed and
      205 experience points. */
  lemma CorrectedDefaultRunCompletes()
    ensures PlayedToEnd(Initial()) == DefaultFinal()
    ensures Report(PlayedToEnd(Initial())) == Completed(205)
  {
    IterateReachesEnd(Initial(), 3);
    DefaultRun();
  }
}
