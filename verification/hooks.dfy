/** `Hooks::CombatMusicCalls` (src/hooks/hooks.cpp): the two pools of
    conditional music, the stored track, the best-of selection over a pool,
    and the six engine hooks that decide whether the engine's own answer
    passes through or is replaced. */
module Hooks {
  import opened Common
  import opened Ranking

  /** Which world-state query a condition tests: one per condition class. */
  datatype ConditionKind =
    | Worldspace
    | Cell
    | Location
    | LocationKeyword
    | CombatTarget
    | CombatTargetKeyword

  /** A condition as the configuration builds it: the forms it matches
      against, in configuration order, and whether it is AND-required. */
  datatype Condition = Condition(kind: ConditionKind, forms: seq<FormID>, AND: bool)

  /** `ConditionalBattleMusic`: a track and the conditions that select it. */
  datatype ConditionalBattleMusic = ConditionalBattleMusic(music: MusicType, conditions: seq<Condition>)

  /** `RE::DEFAULT_OBJECT`: the default-object slot an engine call asks for. */
  datatype DefaultObject = BattleMusic | DungeonClearedMusic | OtherObject(index: nat)

  /** The match degree of every entry of `pool`, in pool order. `degree`
      stands for `MatchDegree()` evaluated against the current world. */
  function Degrees(pool: seq<ConditionalBattleMusic>, degree: ConditionalBattleMusic -> MatchDegree): (ds: seq<MatchDegree>)
    ensures |ds| == |pool|
  {
    seq(|pool|, i requires 0 <= i < |pool| => degree(pool[i]))
  }

  /** Every entry of a pool carries at least one condition. */
  ghost predicate Registered(pool: seq<ConditionalBattleMusic>)
  {
    forall i :: 0 <= i < |pool| ==> pool[i].conditions != []
  }

  /** What one best-of selection over `pool` does to the stored track and the
      result: with no winner the input comes back and the stored track is
      untouched; otherwise the winner's track is returned and stored. */
  ghost predicate SelectionOutcome(pool: seq<ConditionalBattleMusic>, degree: ConditionalBattleMusic -> MatchDegree,
                                   input: Option<MusicType>, storedBefore: Option<MusicType>,
                                   storedAfter: Option<MusicType>, r: Option<MusicType>)
  {
    var ds := Degrees(pool, degree);
    && (NoWinner(ds, |pool|) ==> r == input && storedAfter == storedBefore)
    && (!NoWinner(ds, |pool|) ==> r.Some? && storedAfter == r)
    && (forall k :: IsWinner(ds, |pool|, k) ==> r == Some(pool[k].music))
  }

  /** The ranking loop of `GetAppropriateCombatMusic` and
      `GetAppropriateClearedMusic`: the track of the declared winner of
      `pool`, or None when no entry can be selected. */
  method SelectBest(pool: seq<ConditionalBattleMusic>, degree: ConditionalBattleMusic -> MatchDegree)
    returns (newMusic: Option<MusicType>)
    ensures newMusic.None? <==> NoWinner(Degrees(pool, degree), |pool|)
    ensures forall k :: IsWinner(Degrees(pool, degree), |pool|, k) ==> newMusic == Some(pool[k].music)
    ensures newMusic.Some? ==>
              exists k :: IsWinner(Degrees(pool, degree), |pool|, k) && newMusic == Some(pool[k].music)
  {
    ghost var ds := Degrees(pool, degree);
    newMusic := None;
    var bestMatch := 0;
    var bestPriorityLevel := LOW;
    ghost var best: Option<nat> := None;
    for i := 0 to |pool|
      invariant RankPrefix(ds, i) == Ranking(best, bestMatch, bestPriorityLevel)
      invariant newMusic == if best.None? then None else Some(pool[best.value].music)
    {
      var candidateMatch := degree(pool[i]);
      if candidateMatch.level == HIGH && bestPriorityLevel == LOW {
        bestPriorityLevel := HIGH;
        bestMatch := candidateMatch.score;
        newMusic := Some(pool[i].music);
        best := Some(i);
      } else if candidateMatch.level == LOW && bestPriorityLevel == HIGH {
        continue;
      } else if bestMatch < candidateMatch.score {
        bestMatch := candidateMatch.score;
        newMusic := Some(pool[i].music);
        best := Some(i);
      }
    }
    RankCharacterised(ds, |pool|);
  }

  /** The plugin's singleton. */
  class CombatMusicCalls {
    /** The custom track currently replacing the battle music, if any. */
    var storedMusic: Option<MusicType>
    /** Rules for the start of combat, in registration order. */
    var conditionalMusic: seq<ConditionalBattleMusic>
    /** Rules for a cleared location, in registration order. */
    var conditionalClearedMusic: seq<ConditionalBattleMusic>

    /** No entry without conditions is ever registered. */
    ghost predicate Valid()
      reads this
    {
      Registered(conditionalMusic) && Registered(conditionalClearedMusic)
    }

    /** The singleton starts with nothing stored and empty pools. */
    constructor ()
      ensures Valid()
      ensures storedMusic == None && conditionalMusic == [] && conditionalClearedMusic == []
    {
      storedMusic := None;
      conditionalMusic := [];
      conditionalClearedMusic := [];
    }

    method GetCurrentCombatMusic() returns (music: Option<MusicType>)
      ensures music == storedMusic
    {
      music := storedMusic;
    }

    method SetCurrentCombatMusic(music: Option<MusicType>)
      modifies this`storedMusic
      ensures storedMusic == music
    {
      storedMusic := music;
    }

    /** Registers a combat rule; a rule without conditions is refused. */
    method PushNewCombatMusic(newMusic: ConditionalBattleMusic)
      requires Valid()
      modifies this`conditionalMusic
      ensures Valid()
      ensures newMusic.conditions == [] ==> conditionalMusic == old(conditionalMusic)
      ensures newMusic.conditions != [] ==> conditionalMusic == old(conditionalMusic) + [newMusic]
    {
      if newMusic.conditions == [] {
        return;
      }
      conditionalMusic := conditionalMusic + [newMusic];
    }

    /** Registers a cleared-location rule; a rule without conditions is refused. */
    method PushNewClearedMusic(newMusic: ConditionalBattleMusic)
      requires Valid()
      modifies this`conditionalClearedMusic
      ensures Valid()
      ensures newMusic.conditions == [] ==> conditionalClearedMusic == old(conditionalClearedMusic)
      ensures newMusic.conditions != [] ==> conditionalClearedMusic == old(conditionalClearedMusic) + [newMusic]
    {
      if newMusic.conditions == [] {
        return;
      }
      conditionalClearedMusic := conditionalClearedMusic + [newMusic];
    }

    /** Replaces the battle music by the best combat rule. Any other track,
        or a null one, passes through and nothing is stored. `battleMusic`
        is the default object `kBattleMusic` (null if the engine has none). */
    method GetAppropriateCombatMusic(music: Option<MusicType>, battleMusic: Option<MusicType>,
                                     degree: ConditionalBattleMusic -> MatchDegree)
      returns (r: Option<MusicType>)
      modifies this`storedMusic
      ensures music.None? || battleMusic.None? || music != battleMusic ==>
                r == music && storedMusic == old(storedMusic)
      ensures music.Some? && music == battleMusic ==>
                SelectionOutcome(conditionalMusic, degree, music, old(storedMusic), storedMusic, r)
    {
      if music.None? {
        return music;
      }
      if battleMusic.None? || music != battleMusic {
        return music;
      }
      var newMusic := SelectBest(conditionalMusic, degree);
      if newMusic.Some? {
        storedMusic := newMusic;
        return newMusic;
      }
      return music;
    }

    /** Replaces the cleared-location music by the best cleared rule; the
        winner is written to the same stored track as combat music. */
    method GetAppropriateClearedMusic(music: Option<MusicType>, degree: ConditionalBattleMusic -> MatchDegree)
      returns (r: Option<MusicType>)
      modifies this`storedMusic
      ensures SelectionOutcome(conditionalClearedMusic, degree, music, old(storedMusic), storedMusic, r)
    {
      var newMusic := SelectBest(conditionalClearedMusic, degree);
      if newMusic.Some? {
        storedMusic := newMusic;
        return newMusic;
      }
      return music;
    }

    /** Hands back the track to stop and forgets it: the stored track if
        there is one, the default battle music otherwise. */
    method ClearMusic(battleMusic: Option<MusicType>) returns (musicToStop: Option<MusicType>)
      modifies this`storedMusic
      ensures storedMusic == None
      ensures old(storedMusic).Some? ==> musicToStop == old(storedMusic)
      ensures old(storedMusic).None? ==> musicToStop == battleMusic
    {
      musicToStop := storedMusic;
      storedMusic := None;
      if musicToStop.None? {
        return battleMusic;
      }
    }

    /** Hook on the engine's revert of combat music; `response` is the
        engine's own answer for `a1`. */
    method RevertCombatMusic(a1: DefaultObject, response: Option<MusicType>, battleMusic: Option<MusicType>)
      returns (r: Option<MusicType>)
      modifies this`storedMusic
      ensures a1 != BattleMusic ==> r == response && storedMusic == old(storedMusic)
      ensures a1 == BattleMusic ==> storedMusic == None
      ensures a1 == BattleMusic ==> r == (if old(storedMusic).Some? then old(storedMusic) else battleMusic)
    {
      if a1 != BattleMusic {
        return response;
      }
      r := ClearMusic(battleMusic);
    }

    /** Hook on the engine's start of combat music. */
    method StartCombatMusic(a1: DefaultObject, response: Option<MusicType>, battleMusic: Option<MusicType>,
                            degree: ConditionalBattleMusic -> MatchDegree)
      returns (r: Option<MusicType>)
      modifies this`storedMusic
      ensures a1 != BattleMusic ==> r == response && storedMusic == old(storedMusic)
      ensures a1 == BattleMusic && (response.None? || response != battleMusic) ==>
                r == response && storedMusic == old(storedMusic)
      ensures a1 == BattleMusic && response.Some? && response == battleMusic ==>
                SelectionOutcome(conditionalMusic, degree, response, old(storedMusic), storedMusic, r)
    {
      if a1 != BattleMusic {
        return response;
      }
      r := GetAppropriateCombatMusic(response, battleMusic, degree);
    }

    /** Hook on the engine's reload of combat music: same decision as start. */
    method LoadCombatMusic(a1: DefaultObject, response: Option<MusicType>, battleMusic: Option<MusicType>,
                           degree: ConditionalBattleMusic -> MatchDegree)
      returns (r: Option<MusicType>)
      modifies this`storedMusic
      ensures a1 != BattleMusic ==> r == response && storedMusic == old(storedMusic)
      ensures a1 == BattleMusic && (response.None? || response != battleMusic) ==>
                r == response && storedMusic == old(storedMusic)
      ensures a1 == BattleMusic && response.Some? && response == battleMusic ==>
                SelectionOutcome(conditionalMusic, degree, response, old(storedMusic), storedMusic, r)
    {
      if a1 != BattleMusic {
        return response;
      }
      r := GetAppropriateCombatMusic(response, battleMusic, degree);
    }

    /** Hook on the engine's end of combat music: same decision as revert. */
    method EndCombatMusic(a1: DefaultObject, response: Option<MusicType>, battleMusic: Option<MusicType>)
      returns (r: Option<MusicType>)
      modifies this`storedMusic
      ensures a1 != BattleMusic ==> r == response && storedMusic == old(storedMusic)
      ensures a1 == BattleMusic ==> storedMusic == None
      ensures a1 == BattleMusic ==> r == (if old(storedMusic).Some? then old(storedMusic) else battleMusic)
    {
      if a1 != BattleMusic {
        return response;
      }
      r := ClearMusic(battleMusic);
    }

    /** Hook on the location-discovery music: while a custom track is
        stored, a request for battle music keeps that track. `response` is
        what the engine would answer; it is used only when the stored track
        does not apply. */
    method DiscoveryMusic(a1: DefaultObject, response: Option<MusicType>) returns (r: Option<MusicType>)
      ensures a1 == BattleMusic && storedMusic.Some? ==> r == storedMusic
      ensures a1 != BattleMusic || storedMusic.None? ==> r == response
    {
      if a1 == BattleMusic {
        var stored := storedMusic;
        if stored.Some? {
          return stored;
        }
      }
      return response;
    }

    /** Hook on the engine's cleared-location music. */
    method ClearLocation(a1: DefaultObject, response: Option<MusicType>,
                         degree: ConditionalBattleMusic -> MatchDegree)
      returns (r: Option<MusicType>)
      modifies this`storedMusic
      ensures a1 != DungeonClearedMusic ==> r == response && storedMusic == old(storedMusic)
      ensures a1 == DungeonClearedMusic ==>
                SelectionOutcome(conditionalClearedMusic, degree, response, old(storedMusic), storedMusic, r)
    {
      if a1 != DungeonClearedMusic {
        return response;
      }
      r := GetAppropriateClearedMusic(response, degree);
    }
  }
}
