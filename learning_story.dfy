/**
 * The interactive story page: five scenes, each offering one or two choices
 * worth some experience points; a choice is recorded at once and, after a
 * pause, the next scene follows until the last scene's choice completes the story.
 */
module LearningStory {
  import opened Wrappers
  import opened Seqs

  datatype Choice = Choice(id: int, xp: nat)

  /** The choices of the five scenes, in order. */
  const Scenes: seq<seq<Choice>> := [
    [Choice(1, 10)],
    [Choice(2, 10), Choice(2, 15)],
    [Choice(3, 10), Choice(3, 20)],
    [Choice(4, 15)],
    [Choice(5, 25)]
  ]

  const TotalScenes: nat := 5

  /** The smallest and the largest reward each scene offers. */
  const LeastXp: seq<int> := [10, 10, 10, 15, 25]
  const MostXp: seq<int> := [10, 15, 20, 15, 25]

  lemma SceneRewardBounds(scene: nat, k: nat)
    requires scene < |Scenes| && k < |Scenes[scene]|
    ensures LeastXp[scene] <= Scenes[scene][k].xp <= MostXp[scene]
  {
  }

  /** Scene `scene` has a choice worth `xp`. */
  predicate Offered(scene: nat, xp: int) {
    scene < |Scenes| && exists k :: 0 <= k < |Scenes[scene]| && xp == Scenes[scene][k].xp
  }

  /** A sum grows with its terms. */
  lemma {:induction false} SumMonotone(a: seq<int>, b: seq<int>)
    requires |a| == |b|
    requires forall i :: 0 <= i < |a| ==> a[i] <= b[i]
    ensures Sum(a) <= Sum(b)
  {
    if a != [] {
      SumMonotone(a[1..], b[1..]);
    }
  }

  /** `((currentScene + 1) / totalScenes) * 100`. */
  function Progress(scene: nat): (p: real)
    requires scene < TotalScenes
    ensures 20.0 <= p <= 100.0
    ensures p == 100.0 <==> scene == TotalScenes - 1
  {
    ((scene + 1) as real / TotalScenes as real) * 100.0
  }

  class Story {
    var currentScene: nat
    var selectedChoice: Option<int>
    var earnedXP: int
    var audioEnabled: bool
    /** The reward of every choice made so far, one per scene reached. */
    ghost var rewards: seq<int>

    /** `currentScene >= scenes.length - 1 && selectedChoice !== null`. */
    predicate IsComplete()
      reads this
    {
      currentScene >= |Scenes| - 1 && selectedChoice.Some?
    }

    /** One recorded reward per scene chosen in, each one that scene offers, and their sum is the total. */
    ghost predicate Valid()
      reads this
    {
      && currentScene < |Scenes|
      && |rewards| == currentScene + (if selectedChoice.Some? then 1 else 0)
      && (forall i :: 0 <= i < |rewards| ==> Offered(i, rewards[i]))
      && earnedXP == Sum(rewards)
    }

    constructor ()
      ensures Valid() && currentScene == 0 && selectedChoice.None? && earnedXP == 0 && audioEnabled
    {
      currentScene := 0;
      selectedChoice := None;
      earnedXP := 0;
      audioEnabled := true;
      rewards := [];
    }

    /** `handleChoice` for the `k`-th button of the scene; the buttons are disabled once a choice is made. */
    method Choose(k: nat)
      requires Valid() && k < |Scenes[currentScene]|
      modifies this
      ensures Valid()
      ensures old(selectedChoice).Some? ==> selectedChoice == old(selectedChoice) && earnedXP == old(earnedXP)
      ensures old(selectedChoice).None? ==>
                selectedChoice == Some(Scenes[old(currentScene)][k].id)
                && earnedXP == old(earnedXP) + Scenes[old(currentScene)][k].xp
      ensures currentScene == old(currentScene) && audioEnabled == old(audioEnabled)
    {
      if selectedChoice.Some? {
        return;
      }
      var choice := Scenes[currentScene][k];
      assert Offered(currentScene, choice.xp);
      SumAppend(rewards, [choice.xp]);
      selectedChoice := Some(choice.id);
      earnedXP := earnedXP + choice.xp;
      rewards := rewards + [choice.xp];
    }

    /** The pause after a choice ends: the next scene with nothing chosen, or nothing after the last scene. */
    method PauseEnds()
      requires Valid()
      modifies this
      ensures Valid()
      ensures old(selectedChoice).Some? && old(currentScene) < |Scenes| - 1 ==>
                currentScene == old(currentScene) + 1 && selectedChoice.None?
      ensures !(old(selectedChoice).Some? && old(currentScene) < |Scenes| - 1) ==>
                currentScene == old(currentScene) && selectedChoice == old(selectedChoice)
      ensures earnedXP == old(earnedXP) && audioEnabled == old(audioEnabled)
    {
      if selectedChoice.Some? && currentScene < |Scenes| - 1 {
        currentScene := currentScene + 1;
        selectedChoice := None;
      }
    }

    method ToggleAudio()
      modifies this
      ensures audioEnabled == !old(audioEnabled)
      ensures currentScene == old(currentScene) && selectedChoice == old(selectedChoice)
      ensures earnedXP == old(earnedXP) && rewards == old(rewards)
    {
      audioEnabled := !audioEnabled;
    }

    /** However the story was played, completing it earns between 70 and 85 points. */
    lemma {:induction false} CompletedXpRange()
      requires Valid() && IsComplete()
      ensures 70 <= earnedXP <= 85
    {
      forall i | 0 <= i < |rewards|
        ensures LeastXp[i] <= rewards[i] <= MostXp[i]
      {
        assert Offered(i, rewards[i]);
        var k :| 0 <= k < |Scenes[i]| && rewards[i] == Scenes[i][k].xp;
        SceneRewardBounds(i, k);
      }
      SumMonotone(LeastXp, rewards);
      SumMonotone(rewards, MostXp);
    }
  }
}
