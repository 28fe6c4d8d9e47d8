/**
 * The quest log of the RPG (quest_system.py).
 *
 * Quests are objects whose `isActive` / `isCompleted` flags are flipped in
 * place; the log keeps the quests on offer, the accepted ones, the finished
 * ones and a progress counter per accepted quest id. A quest counts as done
 * once its counter reaches three.
 */
module QuestLog {
  import opened Wrappers
  import opened Seqs

  /** A reward value: the dictionaries mix amounts (`"exp"`, `"gold"`) and item names (`"item"`). */
  datatype Reward = Amount(n: int) | ItemName(name: string)

  /** Progress a quest needs before it counts as done. */
  const MaxProgress: int := 3

  class Quest {
    const id: string
    const title: string
    const description: string
    const objectives: seq<string>
    const rewards: map<string, Reward>
    const requiredLevel: int
    var isCompleted: bool
    var isActive: bool

    constructor (id: string, title: string, description: string, objectives: seq<string>,
                 rewards: map<string, Reward>, requiredLevel: int)
      ensures this.id == id && this.title == title && this.description == description
      ensures this.objectives == objectives && this.rewards == rewards && this.requiredLevel == requiredLevel
      ensures !isCompleted && !isActive
    {
      this.id, this.title, this.description := id, title, description;
      this.objectives, this.rewards, this.requiredLevel := objectives, rewards, requiredLevel;
      isCompleted, isActive := false, false;
    }
  }

  /** The dictionary `complete_quest` returns. */
  datatype Completion = Completion(quest: Quest, rewards: map<string, Reward>, message: string)

  /** The dictionary `get_quest_status` returns. */
  datatype Status = Status(quest: Quest, progress: int, maxProgress: int, percentage: real)

  /** The percentage `get_quest_status` reports for a progress counter. */
  function Percentage(progress: int): (p: real)
    ensures p >= 100.0 <==> progress >= MaxProgress
    ensures 0 <= progress <= MaxProgress ==> 0.0 <= p <= 100.0
  {
    progress as real / MaxProgress as real * 100.0
  }

  /** `progress.get(id, 0)`. */
  function ProgressOf(progress: map<string, int>, id: string): int
  {
    if id in progress then progress[id] else 0
  }

  /** `update_quest_progress` on the map alone: only ids already tracked move. */
  function Advanced(progress: map<string, int>, id: string, amount: int): (r: map<string, int>)
    ensures r.Keys == progress.Keys
    ensures id in progress ==> r[id] == progress[id] + amount
    ensures forall k :: k in progress && k != id ==> r[k] == progress[k]
  {
    if id in progress then progress[id := progress[id] + amount] else progress
  }

  /** Two updates of the same quest add up. */
  lemma AdvancedTwice(progress: map<string, int>, id: string, a: int, b: int)
    ensures Advanced(Advanced(progress, id, a), id, b) == Advanced(progress, id, a + b)
  {
  }

  /** The position of the first quest in `qs` with id `id` that satisfies `inactiveOnly ==> !isActive`. */
  function FirstWithId(qs: seq<Quest>, id: string, inactiveOnly: bool): (k: Option<nat>)
    reads qs
    ensures k.Some? ==> k.value < |qs| && qs[k.value].id == id && (inactiveOnly ==> !qs[k.value].isActive)
    ensures k.Some? ==> forall j :: 0 <= j < k.value ==> !(qs[j].id == id && (inactiveOnly ==> !qs[j].isActive))
    ensures k.None? ==> forall j :: 0 <= j < |qs| ==> !(qs[j].id == id && (inactiveOnly ==> !qs[j].isActive))
  {
    if qs == [] then None
    else if qs[0].id == id && (inactiveOnly ==> !qs[0].isActive) then Some(0)
    else match FirstWithId(qs[1..], id, inactiveOnly)
      case None => None
      case Some(k) => Some(k + 1)
  }

  /** The quests of `qs` a player of `level` may see: level reached and not yet completed, in order. */
  function Open(qs: seq<Quest>, level: int): (r: seq<Quest>)
    reads qs
    ensures forall i :: 0 <= i < |r| ==> r[i].requiredLevel <= level && !r[i].isCompleted
    ensures forall i :: 0 <= i < |qs| && qs[i].requiredLevel <= level && !qs[i].isCompleted ==> qs[i] in r
    ensures Subseq(r, qs)
  {
    if qs == [] then []
    else if qs[0].requiredLevel <= level && !qs[0].isCompleted then [qs[0]] + Open(qs[1..], level)
    else Open(qs[1..], level)
  }

  class QuestSystem {
    var availableQuests: seq<Quest>
    var activeQuests: seq<Quest>
    var completedQuests: seq<Quest>
    var questProgress: map<string, int>

    /**
     * Every accepted or finished quest is one of the quests on offer; no
     * quest is accepted twice at once; a quest on offer is flagged active
     * exactly when it is in the accepted list, and flagged completed exactly
     * when it is in the finished list.
     */
    ghost predicate Valid()
      reads this, availableQuests
    {
      && Distinct(availableQuests)
      && Distinct(activeQuests)
      && (forall k :: 0 <= k < |activeQuests| ==> activeQuests[k] in availableQuests)
      && (forall k :: 0 <= k < |completedQuests| ==> completedQuests[k] in availableQuests)
      && (forall k :: 0 <= k < |availableQuests| ==>
            (availableQuests[k].isActive <==> availableQuests[k] in activeQuests))
      && (forall k :: 0 <= k < |availableQuests| ==>
            (availableQuests[k].isCompleted <==> availableQuests[k] in completedQuests))
    }

    /** `__init__` with `load_quests`: the five built-in quests, none accepted. */
    constructor ()
      ensures Valid()
      ensures |availableQuests| == 5 && activeQuests == [] && completedQuests == [] && questProgress == map[]
      ensures availableQuests[0].id == "quest_001" && availableQuests[0].requiredLevel == 1
      ensures availableQuests[1].id == "quest_002" && availableQuests[1].requiredLevel == 3
      ensures availableQuests[2].id == "quest_003" && availableQuests[2].requiredLevel == 5
      ensures availableQuests[3].id == "quest_004" && availableQuests[3].requiredLevel == 2
      ensures availableQuests[4].id == "quest_005" && availableQuests[4].requiredLevel == 4
    {
      var q1 := new Quest("quest_001", "Les Gobelins du Bois", "Éliminez 3 gobelins qui terrorisent le village",
        ["Tuer 3 gobelins"],
        map["exp" := Amount(100), "gold" := Amount(50), "item" := ItemName("Épée en fer")], 1);
      var q2 := new Quest("quest_002", "Le Trésor du Donjon", "Explorez le donjon et trouvez le trésor caché",
        ["Entrer dans le donjon", "Trouver le trésor"],
        map["exp" := Amount(200), "gold" := Amount(100), "item" := ItemName("Armure en cuir")], 3);
      var q3 := new Quest("quest_003", "Le Troll des Montagnes", "Défiez le troll qui vit dans les montagnes",
        ["Trouver le troll", "Vaincre le troll"],
        map["exp" := Amount(300), "gold" := Amount(150), "item" := ItemName("Épée magique")], 5);
      var q4 := new Quest("quest_004", "Les Potions du Sage", "Récupérez 5 potions pour le sage du village",
        ["Trouver 5 potions"],
        map["exp" := Amount(80), "gold" := Amount(30), "item" := ItemName("Potion de force")], 2);
      var q5 := new Quest("quest_005", "Le Gardien de la Fontaine", "Protégez la fontaine du village des créatures",
        ["Défendre la fontaine", "Tuer 5 ennemis près de la fontaine"],
        map["exp" := Amount(150), "gold" := Amount(75), "item" := ItemName("Bouclier")], 4);
      var quests := [q1, q2, q3, q4, q5];
      assert forall k :: 0 <= k < 5 ==> !quests[k].isActive && !quests[k].isCompleted;
      availableQuests := quests;
      activeQuests, completedQuests := [], [];
      questProgress := map[];
    }

    /** `get_available_quests`. */
    function AvailableFor(playerLevel: int): (r: seq<Quest>)
      reads this, availableQuests
      ensures forall i :: 0 <= i < |r| ==> r[i].requiredLevel <= playerLevel && !r[i].isCompleted
      ensures forall i :: 0 <= i < |availableQuests| ==>
        (availableQuests[i] in r <==> availableQuests[i].requiredLevel <= playerLevel && !availableQuests[i].isCompleted)
      ensures Subseq(r, availableQuests)
    {
      Open(availableQuests, playerLevel)
    }

    /**
     * `accept_quest`: the first quest on offer with the id that is not
     * already active becomes active, is appended to the accepted list and
     * its progress restarts at 0. A completed quest can be accepted again.
     */
    method AcceptQuest(questId: string) returns (accepted: bool)
      requires Valid()
      modifies this, availableQuests
      ensures Valid()
      ensures availableQuests == old(availableQuests) && completedQuests == old(completedQuests)
      ensures accepted <==> old(FirstWithId(availableQuests, questId, true)).Some?
      ensures !accepted ==> activeQuests == old(activeQuests) && questProgress == old(questProgress)
      ensures accepted ==>
        var q := availableQuests[old(FirstWithId(availableQuests, questId, true)).value];
        && q.id == questId && !old(q.isActive) && q.isActive
        && activeQuests == old(activeQuests) + [q]
        && questProgress == old(questProgress)[questId := 0]
      ensures forall k :: 0 <= k < |availableQuests| ==> availableQuests[k].isCompleted == old(availableQuests[k].isCompleted)
      ensures forall k :: 0 <= k < |availableQuests| && availableQuests[k].id != questId ==>
        availableQuests[k].isActive == old(availableQuests[k].isActive)
    {
      for i := 0 to |availableQuests|
        invariant forall j :: 0 <= j < i ==> !(availableQuests[j].id == questId && !availableQuests[j].isActive)
      {
        var quest := availableQuests[i];
        if quest.id == questId && !quest.isActive {
          assert quest !in activeQuests;
          quest.isActive := true;
          activeQuests := activeQuests + [quest];
          questProgress := questProgress[questId := 0];
          return true;
        }
      }
      return false;
    }

    /** `update_quest_progress`: adds `amount` to a tracked counter; an untracked id is ignored. */
    method UpdateQuestProgress(questId: string, amount: int)
      modifies this
      ensures questProgress == Advanced(old(questProgress), questId, amount)
      ensures availableQuests == old(availableQuests) && activeQuests == old(activeQuests)
      ensures completedQuests == old(completedQuests)
    {
      if questId in questProgress {
        questProgress := questProgress[questId := questProgress[questId] + amount];
      }
    }

    /** `check_quest_completion`: the quest is accepted and its counter has reached three. */
    method CheckQuestCompletion(questId: string) returns (done: bool)
      ensures done <==>
        (exists k :: 0 <= k < |activeQuests| && activeQuests[k].id == questId)
        && ProgressOf(questProgress, questId) >= MaxProgress
    {
      for i := 0 to |activeQuests|
        invariant forall j :: 0 <= j < i ==> activeQuests[j].id != questId || ProgressOf(questProgress, questId) < MaxProgress
      {
        if activeQuests[i].id == questId {
          if ProgressOf(questProgress, questId) >= MaxProgress {
            return true;
          }
        }
      }
      return false;
    }

    /**
     * `complete_quest`: the first accepted quest with the id moves to the
     * finished list, is flagged completed and no longer active, and its
     * rewards are handed out. The counter is not consulted.
     */
    method CompleteQuest(questId: string) returns (r: Option<Completion>)
      requires Valid()
      modifies this, availableQuests
      ensures Valid()
      ensures availableQuests == old(availableQuests) && questProgress == old(questProgress)
      ensures r.None? <==> old(FirstWithId(activeQuests, questId, false)).None?
      ensures r.None? ==> activeQuests == old(activeQuests) && completedQuests == old(completedQuests)
      ensures r.Some? ==>
        var k := old(FirstWithId(activeQuests, questId, false)).value;
        var q := old(activeQuests)[k];
        && r.value == Completion(q, q.rewards, "Quête '" + q.title + "' terminée !")
        && q.id == questId && q.isCompleted && !q.isActive
        && activeQuests == old(activeQuests[..k] + activeQuests[k + 1..])
        && completedQuests == old(completedQuests) + [q]
      ensures forall k :: 0 <= k < |availableQuests| && availableQuests[k].id != questId ==>
        && availableQuests[k].isActive == old(availableQuests[k].isActive)
        && availableQuests[k].isCompleted == old(availableQuests[k].isCompleted)
    {
      for i := 0 to |activeQuests|
        invariant forall j :: 0 <= j < i ==> activeQuests[j].id != questId
      {
        var quest := activeQuests[i];
        if quest.id == questId {
          Retire(i);
          return Some(Completion(quest, quest.rewards, "Quête '" + quest.title + "' terminée !"));
        }
      }
      return None;
    }

    /** The body of `complete_quest` once the quest at position `i` of the accepted list is found. */
    method Retire(i: nat)
      requires Valid() && i < |activeQuests|
      modifies this, availableQuests
      ensures Valid()
      ensures availableQuests == old(availableQuests) && questProgress == old(questProgress)
      ensures var q := old(activeQuests[i]);
        && q.isCompleted && !q.isActive
        && activeQuests == old(activeQuests[..i] + activeQuests[i + 1..])
        && completedQuests == old(completedQuests) + [q]
      ensures forall k :: 0 <= k < |availableQuests| && availableQuests[k] != old(activeQuests[i]) ==>
        && availableQuests[k].isActive == old(availableQuests[k].isActive)
        && availableQuests[k].isCompleted == old(availableQuests[k].isCompleted)
    {
      var quest := activeQuests[i];
      ghost var active, completed := activeQuests, completedQuests;
      DeleteAt(active, i);
      assert active == active[..i] + [quest] + active[i + 1..];
      RemoveFirstAt(active[..i], quest, active[i + 1..]);
      quest.isCompleted := true;
      quest.isActive := false;
      activeQuests := RemoveFirst(activeQuests, quest);
      completedQuests := completedQuests + [quest];
      forall k | 0 <= k < |availableQuests|
        ensures availableQuests[k].isActive <==> availableQuests[k] in activeQuests
        ensures availableQuests[k].isCompleted <==> availableQuests[k] in completedQuests
      {
        assert availableQuests[k] in completedQuests <==> availableQuests[k] in completed || availableQuests[k] == quest;
      }
    }

    /** `get_quest_status`: counter, ceiling 3 and percentage of an accepted quest; `None` for any other id. */
    method GetQuestStatus(questId: string) returns (r: Option<Status>)
      ensures r.None? <==> forall k :: 0 <= k < |activeQuests| ==> activeQuests[k].id != questId
      ensures r.Some? ==>
        && r.value.quest in activeQuests && r.value.quest.id == questId
        && r.value.progress == ProgressOf(questProgress, questId)
        && r.value.maxProgress == MaxProgress
        && r.value.percentage == Percentage(r.value.progress)
    {
      for i := 0 to |activeQuests|
        invariant forall j :: 0 <= j < i ==> activeQuests[j].id != questId
      {
        var quest := activeQuests[i];
        if quest.id == questId {
          var progress := ProgressOf(questProgress, questId);
          return Some(Status(quest, progress, MaxProgress, Percentage(progress)));
        }
      }
      return None;
    }
  }
}
