/** The combat-end listener (src/events/combatEvent.cpp): the clamped wait,
    the filter that decides whether a combat event schedules the delayed
    fix, and the decision the fix takes when it fires.

    The detached thread and its sleep are not modelled: `ProcessEvent`
    reports the wait it would schedule, and `OnFixFired` is the body that
    runs after the wait, with the player's combat flag as an input. */
module Events {
  import opened Common
  import opened Hooks

  /** `RE::ACTOR_COMBAT_STATE`. */
  datatype CombatState = kNone | kCombat | kSearching

  /** An actor reference; two actors are the same object exactly when their
      identifiers agree. */
  type ActorRef = FormID

  /** `RE::TESCombatEvent`: the actor (possibly null) and its new state. */
  datatype TESCombatEvent = TESCombatEvent(actor: Option<ActorRef>, newState: CombatState)

  /** `RE::BSEventNotifyControl`. */
  datatype NotifyControl = kContinue | kStop

  /** What handling one event amounts to: the answer to the event source,
      and the wait in seconds of the delayed fix when one is started. */
  datatype Dispatch = Dispatch(control: NotifyControl, fixAfter: Option<int>)

  /** The wait `SetWaitTime` keeps for a requested number of seconds. */
  function ClampWait(seconds: int): (wait: int)
    ensures 5 <= wait <= 30
    ensures 5 <= seconds <= 30 ==> wait == seconds
    ensures seconds < 5 ==> wait == 5
    ensures seconds > 30 ==> wait == 30
  {
    if seconds < 5 then 5 else if seconds > 30 then 30 else seconds
  }

  /** Clamping a wait already in range changes nothing, so setting the
      stored wait again keeps it. */
  lemma ClampIdempotent(seconds: int)
    ensures ClampWait(ClampWait(seconds)) == ClampWait(seconds)
  {
  }

  /** A longer request never gives a shorter wait. */
  lemma ClampMonotonic(a: int, b: int)
    requires a <= b
    ensures ClampWait(a) <= ClampWait(b)
  {
  }

  /** The event qualifies: it exists, names an actor, reports that the
      actor left combat, and that actor is the player. */
  predicate PlayerLeftCombat(event: Option<TESCombatEvent>, player: Option<ActorRef>)
  {
    && event.Some?
    && event.value.actor.Some?
    && event.value.newState == kNone
    && player.Some?
    && player == event.value.actor
  }

  /** The listener singleton. */
  class CombatEvent {
    /** Seconds between the player leaving combat and the fix. */
    var combatMusicFixWait: int

    /** `SetWaitTime`: the request is clamped to [5, 30] and stored. */
    method SetWaitTime(aTimeSpanSeconds: int)
      modifies this`combatMusicFixWait
      ensures combatMusicFixWait == ClampWait(aTimeSpanSeconds)
      ensures 5 <= combatMusicFixWait <= 30
    {
      var timeSpanSeconds := aTimeSpanSeconds;
      if timeSpanSeconds < 5 {
        timeSpanSeconds := 5;
      } else if timeSpanSeconds > 30 {
        timeSpanSeconds := 30;
      }
      combatMusicFixWait := timeSpanSeconds;
    }

    /** `ProcessEvent`: the event source is always told to continue; the fix
        is started, after the stored wait, exactly for a qualifying event.
        `player` is the player singleton, possibly null. */
    function ProcessEvent(event: Option<TESCombatEvent>, player: Option<ActorRef>): (d: Dispatch)
      reads this
      ensures d.control == kContinue
      ensures d.fixAfter.Some? <==> PlayerLeftCombat(event, player)
      ensures d.fixAfter.Some? ==> d.fixAfter.value == combatMusicFixWait
    {
      if event.None? || event.value.actor.None? then
        Dispatch(kContinue, None)
      else if event.value.newState != kNone then
        Dispatch(kContinue, None)
      else if player.None? || player != event.value.actor then
        Dispatch(kContinue, None)
      else
        Dispatch(kContinue, Some(combatMusicFixWait))
    }
  }

  /** Once the wait is set, every fix is started between 5 and 30 seconds
      after the event, and events that do not qualify start none. */
  lemma FixWaitInRange(listener: CombatEvent, event: Option<TESCombatEvent>, player: Option<ActorRef>)
    requires 5 <= listener.combatMusicFixWait <= 30
    ensures var d := listener.ProcessEvent(event, player);
            && (d.fixAfter.Some? ==> 5 <= d.fixAfter.value <= 30)
            && (!PlayerLeftCombat(event, player) ==> d == Dispatch(kContinue, None))
  {
  }

  /** The body of the delayed fix: the track to finish, if any. It is the
      stored track, and only when the player is out of combat by then; the
      stored track itself is left as it is. */
  method OnFixFired(calls: CombatMusicCalls, playerInCombat: bool) returns (finish: Option<MusicType>)
    ensures finish.Some? <==> !playerInCombat && calls.storedMusic.Some?
    ensures finish.Some? ==> finish == calls.storedMusic
  {
    finish := None;
    if !playerInCombat {
      var combatMusic := calls.GetCurrentCombatMusic();
      if combatMusic.Some? {
        finish := combatMusic;
      }
    }
  }
}
