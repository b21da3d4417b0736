# Conditional combat music: a Dafny model

This project models the core of a game plugin that swaps the engine's default
battle music for a custom track. The custom track is chosen by rules read
from configuration files. The model covers four parts:

- `Hooks::CombatMusicCalls` holds two ordered pools of rules: one for combat
  start and one for a cleared location. It also holds the one stored custom
  track. It picks the best rule of a pool by a tiered ranking loop and stores
  the winner. Six engine hooks decide when the engine's own answer passes
  through and when it is replaced.
- The rule validator in `JSONSettings::Read` decides which configuration
  entries become rules, with which conditions, and for which pool.
- Serialization saves the stored track into the co-save, loads it back
  through a chain of guards, and forgets it on revert. `DecodeTypeCode`
  turns a record type code into text.
- The combat-end listener clamps its wait, filters combat events, and
  decides at fire time whether to finish the stored track.

Files:

- `common.dfy`: optional references, 32-bit form identifiers and music types.
- `ranking.dfy`: the ranking loop, one step at a time (`Step`, `RankPrefix`). It also has a declarative winner (`IsWinner`, `NoWinner`) and a proof that the two agree.
- `hooks.dfy`: the `CombatMusicCalls` class and its hooks.
- `json_settings.dfy`: the validator over an abstract JSON value, with form lookup as a resolver function.
- `serde.dfy`: save, load, revert and type-code decoding over abstract records.
- `combat_event.dfy`: the `CombatEvent` class and the fire-time decision.

Engine answers, the default battle-music object, the match degree of each
rule, the player's combat flag, and the outcomes of co-save calls are
parameters of the operations.

## Model

| member | source | states |
|---|---|---|
| Ranking.Step | src/hooks/hooks.cpp:90-101 | A HIGH tier is never lost. A LOW candidate is ignored once the best is HIGH. The first HIGH candidate wins whatever its score. Within a tier, a candidate replaces the best exactly when its score is strictly greater, and its score becomes the best score. A tie keeps the earlier entry. |
| Ranking.RankPrefix | src/hooks/hooks.cpp:85-102 | After n candidates, the selected index is below n, and a HIGH best tier always has a selected candidate. |
| Ranking.WinnerUnique | src/hooks/hooks.cpp:85-102 | At most one candidate satisfies the declarative winner definition. |
| Ranking.RankInvariant | src/hooks/hooks.cpp:85-102 | After each prefix, three things hold. The best tier is HIGH iff some candidate so far is HIGH. Nothing is selected only when no candidate is selectable, and then the best score is 0. A selected candidate is the declarative winner, and the best score is its score. |
| Ranking.RankCharacterised | src/hooks/hooks.cpp:85-102 | The loop selects nothing iff every candidate is LOW with score at most 0. Otherwise it selects exactly the winner: the earliest HIGH candidate with the largest HIGH score, else the earliest candidate with the largest positive score. |
| Hooks.SelectBest | src/hooks/hooks.cpp:85-102 | The loop over a pool returns null iff no entry is selectable. Otherwise it returns the music of the declared winner of the pool. |
| Hooks.CombatMusicCalls.GetCurrentCombatMusic | src/hooks/hooks.cpp:45-48 | Returns the stored track. |
| Hooks.CombatMusicCalls.SetCurrentCombatMusic | src/hooks/hooks.cpp:50-53 | The stored track becomes the argument; the pools are untouched. |
| Hooks.CombatMusicCalls.PushNewCombatMusic | src/hooks/hooks.cpp:55-61 | A rule without conditions leaves the combat pool unchanged. Any other rule is appended at the end, with earlier entries unchanged. Every pooled rule has a condition. |
| Hooks.CombatMusicCalls.PushNewClearedMusic | src/hooks/hooks.cpp:63-69 | The same as PushNewCombatMusic, for the cleared pool. |
| Hooks.CombatMusicCalls.GetAppropriateCombatMusic | src/hooks/hooks.cpp:71-110 | A null argument, or anything other than the default battle music, is returned unchanged and nothing is stored. For the battle music with no winner, the argument comes back and the stored track is kept. Otherwise the winner's music is returned and becomes the stored track. |
| Hooks.CombatMusicCalls.GetAppropriateClearedMusic | src/hooks/hooks.cpp:112-139 | The same selection over the cleared pool, with no argument filter. A winner is also written to the stored track. |
| Hooks.CombatMusicCalls.ClearMusic | src/hooks/hooks.cpp:141-158 | The stored track is always left null. The result is the previously stored track, or the battle music when none was stored. |
| Hooks.CombatMusicCalls.RevertCombatMusic | src/hooks/hooks.cpp:160-172 | For any default object other than battle music, the engine's answer and the stored track are untouched. For battle music, the result is what ClearMusic returns. |
| Hooks.CombatMusicCalls.StartCombatMusic | src/hooks/hooks.cpp:174-186 | For any default object other than battle music, the engine's answer passes through. For battle music, the engine's answer goes through the combat selection. |
| Hooks.CombatMusicCalls.LoadCombatMusic | src/hooks/hooks.cpp:188-200 | The same decision as StartCombatMusic. |
| Hooks.CombatMusicCalls.EndCombatMusic | src/hooks/hooks.cpp:202-214 | The same decision as RevertCombatMusic. |
| Hooks.CombatMusicCalls.DiscoveryMusic | src/hooks/hooks.cpp:216-229 | A battle-music request while a track is stored returns that track. Any other request returns the engine's answer. Nothing changes. |
| Hooks.CombatMusicCalls.ClearLocation | src/hooks/hooks.cpp:231-243 | For anything other than dungeon-cleared music, the engine's answer and the stored track are untouched. Otherwise the engine's answer goes through the cleared selection. |
| JSONSettings.NonObjectSkipped | src/settings/JSONSettings.cpp:66-70 | A non-object element of `combatMusic` yields nothing, and the elements after it are still read. |
| JSONSettings.ResolvedElementwise | src/settings/JSONSettings.cpp:83-98 | A block's forms are accepted iff every element is a string naming a form of the block's type. The condition's forms are those forms, in array order. |
| JSONSettings.BadBlockSkipsEntry | src/settings/JSONSettings.cpp:76-82 | A block that is present but is not an object, or lacks an array `forms` or a boolean `AND`, makes the whole entry yield nothing. This holds for all six blocks. |
| JSONSettings.UnresolvedFormSkipsEntry | src/settings/JSONSettings.cpp:83-106 | One element of `forms` that is not a string, or does not resolve, makes the whole entry yield nothing. |
| JSONSettings.ContributionContents | src/settings/JSONSettings.cpp:83-98 | A block contributes a condition exactly when it is an object with a non-empty `forms`. The condition has the block's kind, the block's `AND`, and the resolved forms in array order. |
| JSONSettings.ConditionsOfKind | src/settings/JSONSettings.cpp:300-318 | The conditions of one kind in an accepted entry are exactly what that kind's block contributes. |
| JSONSettings.ConditionsInFixedOrder | src/settings/JSONSettings.cpp:300-318 | An accepted entry's conditions each hold at least one form. Their kinds strictly increase in the order worldspace, cell, location, location keyword, combat target, combat-target keyword. |
| JSONSettings.ProducedEntry | src/settings/JSONSettings.cpp:282-300 | An entry is produced only when `isCombatMusic` is a bool and `newMusic` is a string naming a music form. The entry carries that flag and that form. |
| JSONSettings.RoutedMembers | src/settings/JSONSettings.cpp:320-325 | A pool receives exactly the tracks of produced entries whose flag names that pool and that carry a condition. |
| JSONSettings.ScanBlock | src/settings/JSONSettings.cpp:74-106 | The scan of one block fails iff the block is not acceptable. On success it yields the block's condition, if any. |
| JSONSettings.AddCondition | src/settings/JSONSettings.cpp:301-303 | A block's condition is pushed only when its form list is not empty. |
| JSONSettings.BuildConditions | src/settings/JSONSettings.cpp:300-318 | The conditions are pushed in the fixed kind order. |
| JSONSettings.ReadEntry | src/settings/JSONSettings.cpp:72-318 | Checking the six blocks in the source's order, then the pool flag and the track, produces exactly the declarative parse of the entry. |
| JSONSettings.RegisterEntry | src/settings/JSONSettings.cpp:66-325 | `isCombatMusic` true appends the produced entry to the combat pool, and false appends it to the cleared pool. The other pool is untouched. |
| JSONSettings.ReadCombatMusic | src/settings/JSONSettings.cpp:66-325 | After one `combatMusic` array, each pool holds its old contents followed by the entries routed to it, in array order. |
| JSONSettings.ReadFile | src/settings/JSONSettings.cpp:55-64 | A file adds to each pool the routed entries of its `combatMusic` array, after the pool's old contents. A file that is not an object, or has no `combatMusic` array, changes neither pool. |
| JSONSettings.Read | src/settings/JSONSettings.cpp:55-325 | After all files, each pool holds its old contents followed by the entries routed to it, in file order and then array order. |
| Serialization.SavedRecord | src/serialization/serde.cpp:6-27 | No record is written when it cannot be opened. Otherwise the record is `STCM` version 1, holding the stored track's form id, or 0 when none is stored. The id is unreadable when the write failed. |
| Serialization.SaveCallback | src/serialization/serde.cpp:13-26 | Save writes the record SavedRecord describes and changes nothing. |
| Serialization.LoadTrack | src/serialization/serde.cpp:43-65 | A matching record yields a track iff the id was read, is non-zero, can be remapped, and names a music form. The track is the form found. |
| Serialization.LoadCallback | src/serialization/serde.cpp:29-68 | The stored track after the loop over the records is LoadFrom of the old stored track. |
| Serialization.RevertCallback | src/serialization/serde.cpp:70-73 | Revert always leaves the stored track none. |
| Serialization.OtherRecordsIgnored | src/serialization/serde.cpp:40 | Current-version records of other types do not change the stored track. |
| Serialization.VersionMismatchStops | src/serialization/serde.cpp:35-38 | Reached after current-version records of other types only, a record whose version is not 1 ends loading and keeps the stored track, whatever follows. |
| Serialization.FailedRecordClears | src/serialization/serde.cpp:41-63 | Reached after current-version records of other types only, a stored-track record whose read, id, remap or lookup fails leaves the stored track none and ends loading, whatever follows. |
| Serialization.LoadedTrackFound | src/serialization/serde.cpp:54-65 | Loading ends on the old track, on none, or on a track some stored-track record read, remapped and looked up successfully. |
| Serialization.SaveLoadRoundTrip | src/serialization/serde.cpp:15-65 | Loading a saved record restores the saved track, given identity remap and lookup and a non-zero id. "None" restores as none. |
| Serialization.FailedWriteLoadsNone | src/serialization/serde.cpp:15-47 | A record whose write failed loads back as none. |
| Serialization.DecodedAsWritten | src/serialization/serde.cpp:75-86 | The decoded text has four characters, and the last is NUL. |
| Serialization.DecodeTypeCode | src/serialization/serde.cpp:75-86 | Positions 0, 1 and 2 hold bytes 2, 1 and 0 of the code, and position 3 stays NUL. |
| Serialization.DecodeTypeCodeCorrected | src/serialization/serde.cpp:75-86 | Copies all four bytes, most significant first. |
| Serialization.ByteOfTypeCode | src/serialization/serde.h:7 | Byte k of a tag's literal value is the tag's character 3 - k. |
| Serialization.TagOfTypeCode | src/serialization/serde.cpp:75-86 | The corrected decoding of a tag's literal value gives the tag back. |
| Serialization.TypeCodeOfTag | src/serialization/serde.cpp:75-86 | Every code is the literal value of its corrected decoding. |
| Serialization.DecodeDropsFirstLetter | src/serialization/serde.cpp:75-86 | `StoredCombatMusic` is `'STCM'`. The decoding as written gives "TCM" and a NUL, and the corrected decoding gives "STCM". |
| Events.ClampWait | src/events/combatEvent.cpp:17-26 | The wait is always in [5, 30]. It is 5 below 5, 30 above 30, and the input otherwise. |
| Events.ClampIdempotent | src/events/combatEvent.cpp:19-25 | Clamping an already-clamped wait changes nothing. |
| Events.ClampMonotonic | src/events/combatEvent.cpp:19-25 | A longer request never gives a shorter wait. |
| Events.CombatEvent.SetWaitTime | src/events/combatEvent.cpp:17-26 | The stored wait becomes the clamped request, so it is in [5, 30]. |
| Events.CombatEvent.ProcessEvent | src/events/combatEvent.cpp:28-57 | The answer is always `kContinue`. A fix is scheduled iff the event exists, has an actor, reports `kNone`, and that actor is the non-null player. The fix's delay is the stored wait. |
| Events.FixWaitInRange | src/events/combatEvent.cpp:31-41 | Once the wait is set, a scheduled fix waits 5 to 30 seconds, and an event that does not qualify schedules nothing. |
| Events.OnFixFired | src/events/combatEvent.cpp:44-52 | A track is finished iff the player is out of combat and a track is stored, and it is the stored track. The stored track is not changed. |

## Left out

- Hook installation (src/hooks/hooks.cpp:4-43) is binary patching and is not modelled. Each original engine call is the `response` input of its hook.
- `MatchDegree` and the condition classes are not part of this model. The degree of each rule is the input function `degree`.
- The default battle-music object is the input `battleMusic`. The model allows it to be null, where `ClearMusic` asserts that it is not.
- DiscoveryMusic: calls the original engine function only when the stored track does not apply. The model takes that answer as an input, so any side effect of the engine call is not modelled.
- JSONSettings.Read: the directory scan, the sort, file reading, JSON parsing and all logging (src/settings/JSONSettings.cpp:8-53, 327-370) are left out. The files arrive parsed, in the order the scan gives.
- `GetFormFromString` is the resolver parameter, and JSON numbers carry no value, since the validator only tests value types.
- The polymorphic condition objects (`std::unique_ptr` to one class per kind) become one `Condition` datatype with a `kind` field. Condition priority tiers are not set by the validator and are not modelled.
- JSONSettings.ScanBlock: `errorOccured` is per entry in the source but is kept per block here. The entry is abandoned as soon as it is set, so the outcome is the same.
- Serialization: the SKSE serialization interface is modelled as values. `OpenRecord` and `WriteRecordData` outcomes are booleans, and load sees a sequence of records whose id is unreadable when `ReadRecordData` fails. Record lengths and extra data in a record are not modelled.
- Serialization.DecodeTypeCode: the bytes are read in little-endian order (`ByteAt`: byte 0 is the least significant). The source reads them through `reinterpret_cast`, so on a big-endian host its result would differ. Characters are bytes below 256. The signedness of `char` is not modelled. `DecodeTypeCode` is not called in the source files modelled here.
- The co-save identifier `ID` is only declared here. Registering the callbacks with SKSE is not part of this model.
- Events: the detached thread, its sleep and the engine's `DoFinish` effect are not modelled (src/events/combatEvent.cpp:44-54). `ProcessEvent` reports the wait it schedules, and `OnFixFired` returns the track to finish.
- `RegisterListener` (event-sink registration), the INI reader that forwards the wait, and the never-read `shouldWait` flag are left out.
- Events.CombatEvent.SetWaitTime: the parameter is an unbounded integer, not a 32-bit `long`. Clamping gives the same result for every value a `long` can hold.
- The wait before the first `SetWaitTime` call is not modelled. The class has no constructor, and `FixWaitInRange` requires the wait to have been set.

## Behaviour the model keeps

These behaviours are what the code does. They are easy to miss, and the model keeps each one:

- The cleared-location selection writes its winner to the same stored track as combat music (src/hooks/hooks.cpp:133-136). `GetAppropriateClearedMusic` states this.
- Every combat-end event that qualifies starts its own detached delayed fix (src/events/combatEvent.cpp:53-54). Nothing restarts or cancels an earlier one. `ProcessEvent` schedules a fix for every qualifying event.
- The listener has no enable flag. `shouldWait` is declared but never read, so every qualifying event schedules a fix.
- The delayed fix only calls `DoFinish` on the stored track, and does nothing when no track is stored (src/events/combatEvent.cpp:46-51). It does not clear the stored track. `OnFixFired` modifies nothing. So after the fix, a battle-music request to `DiscoveryMusic` still returns that track, until `RevertCombatMusic` or `EndCombatMusic` clears it, or a later selection, a load or a co-save revert replaces it.

## Findings

| source | as written | input that shows it | evidently intended | confidence | as-written member | corrected member |
|---|---|---|---|---|---|---|
| src/serialization/serde.cpp:82-84 | The loop copies only bytes 2, 1 and 0 of the code into positions 0 to 2 and leaves position 3 as NUL, so the most significant byte is lost | `DecodeTypeCode('STCM')` gives "TCM" followed by NUL | The four letters of the tag, "STCM", so the loop runs over all four bytes with `j` starting at 3 | not executed | Serialization.DecodeDropsFirstLetter | Serialization.DecodeTypeCodeCorrected |
