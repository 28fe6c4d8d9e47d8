/**
 * Play statistics (stats.py): counters bumped by game events, two
 * per-category tallies with a running "total", a duplicate-free list of
 * achievements, and the summary derived from them.
 */
module GameStatistics {
  import opened Seqs

  /** The `stats` dictionary. */
  datatype Stats = Stats(
    gameSessions: int,
    totalPlaytime: real,
    questsCompleted: int,
    enemiesDefeated: map<string, int>,
    itemsCollected: map<string, int>,
    goldEarned: int,
    goldSpent: int,
    experienceGained: int,
    levelsGained: int,
    deaths: int,
    savesCreated: int,
    achievements: seq<string>)

  /** `get_default_stats`. */
  function DefaultStats(): (s: Stats)
    ensures s.gameSessions == 0 && s.totalPlaytime == 0.0 && s.questsCompleted == 0
    ensures s.goldEarned == 0 && s.goldSpent == 0 && s.experienceGained == 0
    ensures s.levelsGained == 0 && s.deaths == 0 && s.savesCreated == 0
    ensures s.enemiesDefeated.Keys == {"goblins", "trolls", "total"}
    ensures s.itemsCollected.Keys == {"weapons", "armor", "potions", "materials", "total"}
    ensures forall k :: k in s.enemiesDefeated ==> s.enemiesDefeated[k] == 0
    ensures forall k :: k in s.itemsCollected ==> s.itemsCollected[k] == 0
    ensures s.achievements == []
  {
    Stats(0, 0.0, 0,
          map["goblins" := 0, "trolls" := 0, "total" := 0],
          map["weapons" := 0, "armor" := 0, "potions" := 0, "materials" := 0, "total" := 0],
          0, 0, 0, 0, 0, 0, [])
  }

  /**
   * `add_enemy_defeated` / `add_item_collected` on one tally: a known
   * category goes up by one, an unknown one is not created, and "total"
   * always goes up by one more (so passing "total" itself adds two).
   */
  function Tally(m: map<string, int>, key: string): (r: map<string, int>)
    requires "total" in m
    ensures r.Keys == m.Keys
    ensures r["total"] == m["total"] + (if key == "total" then 2 else 1)
    ensures forall k :: k in m && k != "total" ==> r[k] == m[k] + (if k == key then 1 else 0)
  {
    var bumped := if key in m then m[key := m[key] + 1] else m;
    bumped["total" := bumped["total"] + 1]
  }

  /** The order in which two events are tallied does not matter. */
  lemma TallyCommutes(m: map<string, int>, a: string, b: string)
    requires "total" in m
    ensures Tally(Tally(m, a), b) == Tally(Tally(m, b), a)
  {
    var ab, ba := Tally(Tally(m, a), b), Tally(Tally(m, b), a);
    assert ab.Keys == ba.Keys;
    forall k | k in ab ensures ab[k] == ba[k] {
    }
  }

  /** `add_achievement` on the list: appended only when absent. */
  function WithAchievement(achievements: seq<string>, name: string): (r: seq<string>)
    ensures name in r
    ensures Distinct(achievements) ==> Distinct(r)
    ensures |r| == |achievements| + (if name in achievements then 0 else 1)
    ensures forall i :: 0 <= i < |achievements| ==> r[i] == achievements[i]
  {
    if name in achievements then achievements else achievements + [name]
  }

  /** Recording an achievement a second time changes nothing. */
  lemma WithAchievementIdempotent(achievements: seq<string>, name: string)
    ensures WithAchievement(WithAchievement(achievements, name), name) == WithAchievement(achievements, name)
  {
  }

  /** The dictionary `get_summary` returns, without the rounded `playtime_hours`. */
  datatype Summary = Summary(
    sessions: int,
    quests: int,
    enemies: int,
    items: int,
    goldBalance: int,
    experience: int,
    levels: int,
    deaths: int,
    saves: int,
    achievements: nat)

  /** `get_summary`. */
  function SummaryOf(s: Stats): (r: Summary)
    requires "total" in s.enemiesDefeated && "total" in s.itemsCollected
    ensures r.goldBalance == s.goldEarned - s.goldSpent
    ensures r.achievements == |s.achievements|
    ensures r.enemies == s.enemiesDefeated["total"] && r.items == s.itemsCollected["total"]
    ensures r.sessions == s.gameSessions && r.quests == s.questsCompleted && r.experience == s.experienceGained
    ensures r.levels == s.levelsGained && r.deaths == s.deaths && r.saves == s.savesCreated
  {
    Summary(s.gameSessions, s.questsCompleted, s.enemiesDefeated["total"], s.itemsCollected["total"],
            s.goldEarned - s.goldSpent, s.experienceGained, s.levelsGained, s.deaths, s.savesCreated,
            |s.achievements|)
  }

  class GameStats {
    var stats: Stats

    /** Both tallies have their "total" entry and no achievement is listed twice. */
    ghost predicate Valid()
      reads this
    {
      && "total" in stats.enemiesDefeated
      && "total" in stats.itemsCollected
      && Distinct(stats.achievements)
    }

    /** `__init__` when no statistics file can be read. */
    constructor ()
      ensures Valid() && stats == DefaultStats()
    {
      stats := DefaultStats();
    }

    /** `update_session_count`. */
    method UpdateSessionCount()
      modifies this
      ensures stats == old(stats).(gameSessions := old(stats).gameSessions + 1)
    {
      stats := stats.(gameSessions := stats.gameSessions + 1);
    }

    /** `add_playtime`. */
    method AddPlaytime(minutes: real)
      modifies this
      ensures stats == old(stats).(totalPlaytime := old(stats).totalPlaytime + minutes)
    {
      stats := stats.(totalPlaytime := stats.totalPlaytime + minutes);
    }

    /** `add_quest_completed`: the quest name is not recorded. */
    method AddQuestCompleted(questName: string)
      modifies this
      ensures stats == old(stats).(questsCompleted := old(stats).questsCompleted + 1)
    {
      stats := stats.(questsCompleted := stats.questsCompleted + 1);
    }

    /** `add_enemy_defeated`. */
    method AddEnemyDefeated(enemyType: string)
      requires Valid()
      modifies this
      ensures Valid()
      ensures stats == old(stats).(enemiesDefeated := Tally(old(stats).enemiesDefeated, enemyType))
    {
      var m := stats.enemiesDefeated;
      if enemyType in m {
        m := m[enemyType := m[enemyType] + 1];
      }
      m := m["total" := m["total"] + 1];
      stats := stats.(enemiesDefeated := m);
    }

    /** `add_item_collected`. */
    method AddItemCollected(itemType: string)
      requires Valid()
      modifies this
      ensures Valid()
      ensures stats == old(stats).(itemsCollected := Tally(old(stats).itemsCollected, itemType))
    {
      var m := stats.itemsCollected;
      if itemType in m {
        m := m[itemType := m[itemType] + 1];
      }
      m := m["total" := m["total"] + 1];
      stats := stats.(itemsCollected := m);
    }

    /** `add_gold_earned`. */
    method AddGoldEarned(amount: int)
      modifies this
      ensures stats == old(stats).(goldEarned := old(stats).goldEarned + amount)
    {
      stats := stats.(goldEarned := stats.goldEarned + amount);
    }

    /** `add_gold_spent`. */
    method AddGoldSpent(amount: int)
      modifies this
      ensures stats == old(stats).(goldSpent := old(stats).goldSpent + amount)
    {
      stats := stats.(goldSpent := stats.goldSpent + amount);
    }

    /** `add_experience`. */
    method AddExperience(amount: int)
      modifies this
      ensures stats == old(stats).(experienceGained := old(stats).experienceGained + amount)
    {
      stats := stats.(experienceGained := stats.experienceGained + amount);
    }

    /** `add_level`. */
    method AddLevel()
      modifies this
      ensures stats == old(stats).(levelsGained := old(stats).levelsGained + 1)
    {
      stats := stats.(levelsGained := stats.levelsGained + 1);
    }

    /** `add_death`. */
    method AddDeath()
      modifies this
      ensures stats == old(stats).(deaths := old(stats).deaths + 1)
    {
      stats := stats.(deaths := stats.deaths + 1);
    }

    /** `add_save`. */
    method AddSave()
      modifies this
      ensures stats == old(stats).(savesCreated := old(stats).savesCreated + 1)
    {
      stats := stats.(savesCreated := stats.savesCreated + 1);
    }

    /** `add_achievement`. */
    method AddAchievement(name: string)
      requires Valid()
      modifies this
      ensures Valid()
      ensures stats == old(stats).(achievements := WithAchievement(old(stats).achievements, name))
    {
      if name !in stats.achievements {
        stats := stats.(achievements := stats.achievements + [name]);
      }
    }

    /** `get_summary`. */
    function GetSummary(): Summary
      reads this
      requires Valid()
    {
      SummaryOf(stats)
    }
  }
}
