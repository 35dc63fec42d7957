/** The game object: its fields are updated in place by combat, pickups and level advances,
    and the driver runs one outer loop over them that holds two inner loops. */
module AdventureGame {
  import opened Sequences
  import opened GameSpec

  class MonolithicAdventureGame {
    var playerHealth: int
    var playerExperience: int
    var inventory: seq<string>
    var enemies: seq<string>
    var items: seq<string>
    var level: int

    /** The fields of this object as one value. */
    function State(): GameState
      reads this
    {
      GameState(playerHealth, playerExperience, inventory, enemies, items, level)
    }

    /** Level 1 at full health, no experience, an empty inventory. */
    constructor ()
      ensures State() == Initial()
    {
      playerHealth := FULL_HEALTH;
      playerExperience := 0;
      inventory := [];
      enemies := [];
      items := [];
      level := 1;
      enemies := enemies + [SKELETON];
      enemies := enemies + [ZOMBIE];
      items := items + [GOLD_COIN];
      items := items + [HEALTH_ELIXIR];
    }

    method FightEnemy(enemy: string)
      modifies this
      ensures State() == Fought(old(State()), enemy)
    {
      if enemy == SKELETON {
        playerHealth := playerHealth - 10;
        playerExperience := playerExperience + 20;
      } else if enemy == ZOMBIE {
        playerHealth := playerHealth - 15;
        playerExperience := playerExperience + 30;
      } else if enemy == VAMPIRE {
        playerHealth := playerHealth - 25;
        playerExperience := playerExperience + 50;
      }
      enemies := RemoveFirst(enemies, enemy);
    }

    method PickUpItem(item: string)
      modifies this
      ensures State() == PickedUp(old(State()), item)
    {
      if item == GOLD_COIN {
        playerExperience := playerExperience + 5;
      } else if item == HEALTH_ELIXIR {
        playerHealth := playerHealth + 20;
      } else if item == MAGIC_SCROLL {
        playerExperience := playerExperience + 15;
      }
      inventory := inventory + [item];
      items := RemoveFirst(items, item);
    }

    method AdvanceLevel()
      modifies this
      ensures State() == Advanced(old(State()))
    {
      level := level + 1;
      playerHealth := FULL_HEALTH;
      enemies := [];
      items := [];
      if level == 2 {
        enemies := enemies + [VAMPIRE];
        items := items + [MAGIC_SCROLL];
      } else if level == 3 {
        enemies := enemies + [VAMPIRE];
        enemies := enemies + [ZOMBIE];
        items := items + [HEALTH_ELIXIR];
        items := items + [GOLD_COIN];
      }
    }

    /** The first inner loop of the driver: each pass fights the head enemy, which removes it. */
    method DrainEnemies()
      modifies this
      ensures State() == EnemiesDrained(old(State()))
    {
      while enemies != [] && playerHealth > 0
        invariant EnemiesDrained(State()) == EnemiesDrained(old(State()))
        decreases |enemies|
      {
        var enemy := enemies[0];
        RemoveFirstOfHead(enemies);
        FightEnemy(enemy);
      }
    }

    /** The second inner loop of the driver: each pass picks up the head item, which removes it. */
    method DrainItems()
      modifies this
      ensures State() == ItemsDrained(old(State()))
    {
      while items != [] && playerHealth > 0
        invariant ItemsDrained(State()) == ItemsDrained(old(State()))
        decreases |items|
      {
        var item := items[0];
        RemoveFirstOfHead(items);
        PickUpItem(item);
      }
    }

    /** The body of the driver's outer loop as written: drain both lists, then advance when
        the player is alive and below the last level. */
    method PlayRound()
      modifies this
      ensures State() == Round(old(State()))
    {
      DrainEnemies();
      DrainItems();
      if playerHealth > 0 && level < LAST_LEVEL {
        AdvanceLevel();
      }
    }

    /** The driver as written, cut off after `fuel` iterations of its outer loop (the loop as
        written need not stop; see `Termination`). `exited` tells whether the loop guard,
        rather than the cut-off, ended the run; `outcome` is the report `playGame` then prints. */
    method PlayGame(fuel: nat) returns (exited: bool, outcome: Outcome)
      modifies this
      ensures State() == Iterate(old(State()), fuel)
      ensures exited == !Guard(State()) && outcome == Report(State())
    {
      ghost var start := State();
      var n := 0;
      while n < fuel && level <= LAST_LEVEL && playerHealth > 0
        invariant n <= fuel
        invariant Iterate(State(), fuel - n) == Iterate(start, fuel)
        decreases fuel - n
      {
        ghost var before := State();
        PlayRound();
        IterateStep(before, fuel - n);
        n := n + 1;
      }
      assert n == fuel || !Guard(State());
      exited := !(level <= LAST_LEVEL && playerHealth > 0);
      outcome := if playerHealth <= 0 then Perished else Completed(playerExperience);
    }

    /** The driver with its loop ending once the last level's lists are drained: it always
        stops, with the player dead or the adventure completed. */
    method PlayGameCorrected() returns (outcome: Outcome)
      modifies this
      ensures State() == PlayedToEnd(old(State()))
      ensures outcome == Report(State())
    {
      var done := false;
      while !done && level <= LAST_LEVEL && playerHealth > 0
        invariant !done ==> PlayedToEnd(State()) == PlayedToEnd(old(State()))
        invariant done ==> State() == PlayedToEnd(old(State()))
        decreases if done || level > LAST_LEVEL then 0 else LAST_LEVEL + 1 - level
      {
        DrainEnemies();
        DrainItems();
        if playerHealth > 0 && level < LAST_LEVEL {
          AdvanceLevel();
        } else {
          done := true;
        }
      }
      outcome := if playerHealth <= 0 then Perished else Completed(playerExperience);
    }
  }
}
