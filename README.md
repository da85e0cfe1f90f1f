# ChennaiGo companions and progress, modelled in Dafny

This project models two parts of the ChennaiGo language-learning game.

**The AI companion system.** It covers:

- the five registered companions: Anna, Priya, Ravi, Meera and Arjun;
- one relationship record per companion: trust level, relationship stage, interaction count, last interaction and a log of milestones;
- the trust engine: the action table, the four context modifiers, trust clamped into [0, 100], and the stage thresholds 21/41/61/81;
- the content unlocks that a stage change triggers;
- the suggested actions and the cultural insights a companion offers at each stage;
- selecting a companion by district;
- saving and loading the two stores.

**The game's progress bookkeeping (`GameState`).** It covers:

- XP with the companion bonus (trust / 20, rounded down), and level-up;
- the daily-play streak, with its streak freezes;
- daily quests, and the reward a quest grants when it completes;
- mastery stars (capped at 3);
- the lists of completed quests, learned words and culture cards;
- the bookkeeping of a correct answer: the part that happens at once and the delayed part.

Module layout:

| file | module | contents |
|---|---|---|
| `wrappers.dfy` | `Wrappers` | `Option` |
| `trust_engine.dfy` | `TrustEngine` | stages, action table, trust change, stage thresholds, stage multiplier |
| `companions.dfy` | `Companions` | the registry, lookup by id, first match by district |
| `relationships.dfy` | `Relationships` | the relationship record, one interaction, one milestone |
| `content.dfy` | `Content` | unlock flags, suggested actions, cultural insights |
| `companion_system.dfy` | `CompanionSystem` | the `AICompanionSystem` class: stores updated in place, persistence slot |
| `game_state.dfy` | `Progress` | the `GameState` class and the pure functions that specify its methods |

How things are modelled:

- **Pure source functions become Dafny functions.** This covers the trust change, the stage, the multiplier and the reward text. Their properties are proved as lemmas.
- **Source methods that update fields become methods of a class.** Each one states its new state through those functions: `AICompanionSystem` and `GameState`.
- **Class invariants.** `AICompanionSystem` has `Consistent()`: every relationship id is a registered companion, every relationship is well formed, and every flag of every stage up to its own is set. The constructor establishes it when the slot is not loadable, so the system starts fresh. `UpdateTrust` preserves it. Loading a saved slot installs the saved data without checking it, so after a load `Consistent()` is not guaranteed.
- `GameState` keeps `Valid()`: the level is at least 1, the streak and freezes are not negative, a quest is completed exactly when it has reached its target, stars are in [0, 3], and no list has duplicates.

Inputs replaced by parameters:

- A point in time, such as `new Date()` or `Date.now()`, is an `int` parameter (`now`).
- Within one `UpdateTrust` call, a single `now` stands for the last interaction (script/ai_companion_system.js:167), the milestone's timestamp (script/ai_companion_system.js:358) and the save time (script/ai_companion_system.js:467). The source reads `new Date()` separately each time, so those three can differ by a few milliseconds.
- A calendar date, such as `toDateString()`, is a day number (`today`). The source's "yesterday" is the date 24 hours before now (script/main.js:124); the model takes it as the previous calendar day, `today - 1`, which differs next to a daylight-saving change (see "## Left out").
- The `localStorage` slot of the companion system is the `storage` field, of type `Stored`.
- The XP curve `getXPForLevel` is a parameter `xpForLevel: int -> int`.
- The current companion's trust, which `addXP` reads, is a parameter `trust: Option<int>`. It is `None` when there is no current companion.

## Model

| member | source | states |
|---|---|---|
| TrustEngine.ActionDelta | script/ai_companion_system.js:182-200 | every action in the table, and the 0 for an unknown action, lies in [-8, 7] |
| TrustEngine.TrustChange | script/ai_companion_system.js:182-209 | the delta of one interaction, with all four modifiers applied, lies in [-18, 16] |
| TrustEngine.StageFor | script/ai_companion_system.js:211-217 | the stage is always one of the five; a stage of rank r covers exactly the trust levels 20r+1 to 20r+20 (the lowest stage extends down, the highest extends up) |
| TrustEngine.StageMultiplier | script/ai_companion_system.js:328-337 | the multiplier is rank + 1 for a known stage and 1 for any other string, so it is always in [1, 5] |
| TrustEngine.Clamp | script/ai_companion_system.js:165 | the result lies in [lo, hi]; it is lo below the range, hi above it, and x inside it |
| TrustEngine.NextTrust | script/ai_companion_system.js:165 | trust after an interaction is always within [0, 100] |
| TrustEngine.ModifiersAreAdditive | script/ai_companion_system.js:200-206 | the context modifiers add the same amount whatever the action |
| TrustEngine.TrustChangeExamples | script/ai_companion_system.js:182-209 | worked values: a first respectful meeting with interest is +10; an insensitive act with the insensitive flag is -18; the maximum is +16; an unknown action scores only its modifiers |
| TrustEngine.StageMonotone | script/ai_companion_system.js:211-217 | more trust never gives a lower stage |
| TrustEngine.NearTrustNearStage | script/ai_companion_system.js:211-217 | trust levels less than 20 apart are at most one stage apart |
| TrustEngine.AtMostOneStage | script/ai_companion_system.js:160-172 | one interaction moves the stage by at most one step, up or down |
| Companions.Registry | script/ai_companion_system.js:15-139 | five companions with distinct ids, registered in order, with "anna" first |
| Companions.Lookup | script/ai_companion_system.js:341 | `companions.get(id)`: the result is a registered companion with that id, or `None` exactly when no companion has the id |
| Companions.FirstMatch | script/ai_companion_system.js:220-228 | the result is the index of the first companion whose district contains the string, or `None` when no district contains it |
| Companions.FirstMatchAt | script/ai_companion_system.js:220-228 | a matching position with no match before it is the one `FirstMatch` reports |
| Companions.BeachSelectsRavi | script/ai_companion_system.js:220-228 | the district "Beach" selects Ravi (Marina Beach), the third companion |
| Relationships.InitialRelationships | script/ai_companion_system.js:141-152 | one record per registered id, each with trust 0, stage stranger, never met and an empty log |
| Relationships.Interact | script/ai_companion_system.js:164-171 | trust is clamped, the count rises by one, the stage is recomputed from the new trust, the last interaction is `now`, the log is unchanged, and the record stays well formed |
| Relationships.AddMilestone | script/ai_companion_system.js:353-360 | the log keeps its old entries as a prefix and gains one "relationship_milestone" entry; the rest of the record is unchanged |
| Relationships.ReplayKeepsWellFormed | script/ai_companion_system.js:160-172 | over any sequence of interactions, trust stays in [0, 100], the stage matches the trust, the count grows by the number of interactions, and the log is unchanged |
| Relationships.HelpingOthersFourTimes | script/ai_companion_system.js:160-172 | four `helping_others` interactions give trust 7, 14, 21, 28; the stage becomes acquaintance on the third, and only then |
| Content.StageFlags | script/ai_companion_system.js:407-443 | a stage sets at least one flag exactly when it is acquaintance or above; stranger and an unrecognised stage set none |
| Content.Unlock | script/ai_companion_system.js:403-444 | the stage's flags are set for the companion; the companion's other flags are kept; other companions are untouched; stranger or an unknown stage changes nothing and creates no entry |
| Content.UnlockKeepsFlags | script/ai_companion_system.js:403-444 | unlocking never clears a flag of any companion |
| Content.UnlockIdempotent | script/ai_companion_system.js:403-444 | unlocking the same stage twice is the same as unlocking it once |
| Content.FlagsUpToMonotone | script/ai_companion_system.js:403-444 | the flags of the stages up to a stage include those up to any lower stage |
| Content.UnlockAfterStep | script/ai_companion_system.js:403-444 | if all flags up to the old stage are set, unlocking a new stage one rank up, or any rank down, leaves all flags up to the new stage set |
| Content.UnlockKeepsOthers | script/ai_companion_system.js:403-444 | unlocking for one companion keeps every other companion's flags up to its stage |
| Content.StageSuggestions | script/ai_companion_system.js:294-307 | a known stage gives exactly two suggestions; any other string gives none |
| Content.QuestSuggestions | script/ai_companion_system.js:310 | one "Start q quest" entry per special quest, in order |
| Content.SuggestedActions | script/ai_companion_system.js:294-312 | the stage's two items come first, then one entry per special quest in declared order; the length is 2 + the number of quests, or just the number of quests for an unknown stage |
| Content.InsightCount | script/ai_companion_system.js:320 | the number of insights shown is at most the number available and at most the multiplier, and equals one of them |
| Content.CulturalInsights | script/ai_companion_system.js:315-326 | the loop returns the first `InsightCount` insights of the companion, in order |
| Content.InsightsGrowWithTrust | script/ai_companion_system.js:315-337 | more trust never shows fewer insights |
| Content.RegistryInsightCounts | script/ai_companion_system.js:315-337 | every registered companion shows 1 insight as a stranger, 2 as an acquaintance, and all 3 from friend on |
| CompanionSystem.AICompanionSystem.constructor | script/ai_companion_system.js:5-13 | the registry is built with fresh relationships and then loaded; a loadable slot replaces both stores; otherwise the defaults stay and are consistent |
| CompanionSystem.AICompanionSystem.LoadUserProgress | script/ai_companion_system.js:473-484 | a loadable slot replaces both stores (a missing content store becomes empty); a missing, unreadable or incomplete slot changes nothing |
| CompanionSystem.AICompanionSystem.SaveUserProgress | script/ai_companion_system.js:463-471 | the slot then holds both stores and the save time |
| CompanionSystem.AICompanionSystem.GetTrustLevel | script/ai_companion_system.js:156-158 | the companion's trust, or 0 when it has no relationship; within [0, 100] while the stores are consistent |
| CompanionSystem.AICompanionSystem.UnlockCompanionContent | script/ai_companion_system.js:403-444 | the content store becomes `Unlock` of the old store |
| CompanionSystem.AICompanionSystem.OnRelationshipProgression | script/ai_companion_system.js:340-361 | for a registered companion, the new stage is unlocked and one milestone is logged; for an unregistered id the handler fails before any change |
| CompanionSystem.AICompanionSystem.UpdateTrust | script/ai_companion_system.js:160-180 | an unknown id changes nothing; otherwise it covers the three cases (no stage change, stage change, failing handler) with the full new state and outcome; flags are never cleared; a consistent system stays consistent and its handler never fails |
| CompanionSystem.AICompanionSystem.SelectCompanionByDistrict | script/ai_companion_system.js:220-228 | the first companion whose district contains the string becomes current and is returned; with no match, Anna is returned and the current companion is unchanged |
| CompanionSystem.Progressed | script/ai_companion_system.js:164-175 | trust moves by the interaction's delta and is clamped; the count rises by one; the stage is the one the new trust implies; the last interaction is `now`; the log keeps its entries and gains exactly one when the stage changed, the `relationship_milestone` entry for the new stage at `now` with the companion's name (script/ai_companion_system.js:354-360) |
| CompanionSystem.InteractWithoutGame | script/ai_companion_system.js:160-180 | the interaction as written when no global `gameState` exists: the touched record is stored; the call throws exactly when the stage changes, and then the slot is not saved and the new stage is unlocked for a registered companion (nothing for an unregistered one); otherwise it returns the new trust, keeps the content store and saves both stores; no milestone is ever logged |
| CompanionSystem.WithoutGameLosesMilestone | script/ai_companion_system.js:340-360 | four `helping_others` with anna from a fresh start: the third throws with basicInsights unlocked, no milestone and the second call's save still in the slot; the completed handler logs one milestone at that step |
| CompanionSystem.FreshStoresConsistent | script/ai_companion_system.js:141-152 | fresh relationships with an empty content store are consistent |
| CompanionSystem.InteractionKeepsUnlocked | script/ai_companion_system.js:160-180 | after one interaction, and the unlock a stage change triggers, every flag up to the new stage is set |
| CompanionSystem.InteractionKeepsConsistent | script/ai_companion_system.js:160-180 | an interaction on a consistent system targets a registered companion, and leaves the relationships and the content store consistent |
| CompanionSystem.SaveThenReload | script/ai_companion_system.js:463-484 | saving and then constructing from the slot restores both stores exactly |
| Progress.LevelRewardText | script/main.js:279-289 | the reward at index level-1; the last reward for every level past the table; the fallback text for a level of 0 or below |
| Progress.CompanionBonus | script/main.js:82-91 | no current companion gives 0; otherwise floor(trust / 20), which is 0 to 5 for trust in [0, 100] |
| Progress.Award | script/main.js:79-104 | XP grows by the amount plus the bonus and one more answer is counted; the level rises by one exactly when the new XP reaches the next level's threshold |
| Progress.AwardAllTotals | script/main.js:79-104 | after a run of awards, XP has grown by the sum plus one bonus per award, answers by the number of awards, and the level by at most one per award |
| Progress.AwardAllKeepsLevel | script/main.js:98-104 | awards never lower the level |
| Progress.AwardAllAppend | script/main.js:79-104 | awarding `a` and then `b` is the same as awarding `a + b` |
| Progress.StreakAfter | script/main.js:122-140 | the four cases: the same day changes nothing; the next day extends the streak; a gap with a freeze extends it and uses the freeze; otherwise the streak restarts at 1 |
| Progress.StreakSameDayIdempotent | script/main.js:122-140 | updating twice on the same day is the same as updating once |
| Progress.StreakBounds | script/main.js:122-140 | freezes are never gained and never go negative; the streak is at least 1 unless today was already played |
| Progress.ConsecutiveDays | script/main.js:122-140 | playing on n+1 consecutive days from a first play gives a streak of n+1 |
| Progress.FindQuest | script/main.js:177 | the result is the first quest with the id, or `None` when no quest has it |
| Progress.Advance | script/main.js:178-182 | a quest short of its target moves by the increment and is completed exactly when it reaches the target; a quest at its target is unchanged; validity is kept |
| Progress.CompletesOnce | script/main.js:176-189 | the completing step marks the quest completed; later steps change nothing and complete nothing |
| Progress.StepQuests | script/main.js:176-189 | one update keeps the number of quests; what it changes and which reward it grants is stated by `StepQuestsEffect` |
| Progress.StepQuestsEffect | script/main.js:176-189 | only the first quest with the id changes, and it advances; its reward is granted exactly on the completing step; a missing id changes nothing |
| Progress.ReplayKeepsQuests | script/main.js:176-189 | updates keep ids, targets and rewards; progress never drops; validity is kept; each update grants at most one reward |
| Progress.ReplayKeepsValid | script/main.js:176-189 | updates keep a valid quest list valid |
| Progress.ReachedQuestIsFinal | script/main.js:176-189 | a quest that has reached its target never changes again |
| Progress.RewardsCountCompletions | script/main.js:176-189 | the rewards granted sum to the rewards of exactly the quests the run took from short of their target to at or past it |
| Progress.NextMastery | script/main.js:961 | one more star, capped at 3; never fewer stars than before |
| Progress.MasteryStaysInRange | script/main.js:961 | recording a clear keeps every star count in [0, 3] |
| Progress.MasteryNeverDrops | script/main.js:961 | recording a clear lowers no quest's stars |
| Progress.AddIfAbsent | script/main.js:963-971 | afterwards the value is in the list, the old list is a prefix, and the only entry that can be added is the value |
| Progress.AddIfAbsentKeepsDistinct | script/main.js:963-971 | a list without duplicates stays without duplicates |
| Progress.AddCard | script/main.js:973-976 | the old collection is a prefix of the new one, and the only card that can be added is this card |
| Progress.AddCardCollects | script/main.js:973-976 | afterwards a card with the title is collected; an existing title changes nothing; a new title appends the card |
| Progress.AddCardKeepsDistinct | script/main.js:973-976 | card titles stay distinct |
| Progress.AnswerQuests | script/main.js:944-979 | the quests a correct answer advances always end with "explore" |
| Progress.AnswerQuestsNames | script/main.js:944-976 | speed, perfect, identify, words and culture are advanced exactly when the answer is fast, a first clear, a new quest, a new word and a new card, respectively |
| Progress.AnswerXP | script/main.js:945-959 | the XP is the base, plus 10 for speed and 5 for a first clear |
| Progress.GameState.constructor | script/main.js:22-60 | a new game: level 1, nothing earned or collected, the day's quests, and the streak after a first play (streak 1); valid when the quests are valid |
| Progress.GameState.AddXP | script/main.js:79-114 | the scores become `Award` of the old scores with the companion bonus; the level never drops; the invariant is kept |
| Progress.GameState.UpdateStreak | script/main.js:122-140 | the streak counters become `StreakAfter` of the old ones; the invariant is kept |
| Progress.GameState.UpdateDailyQuest | script/main.js:176-189 | the quests become `StepQuests` of the old quests, and any reward is awarded as XP; validity is kept and the level never drops |
| Progress.GameState.AdvanceCompanionQuests | script/main.js:932-941 | on the companion path the cultural_insight and then the companion_trust quest advance, otherwise none; their rewards are awarded |
| Progress.GameState.RecordCorrectAnswer | script/main.js:927-941 | one more correct answer; with a companion system and a quest that names a companion, the cultural_insight and companion_trust quests advance and their rewards are awarded; the invariant is kept |
| Progress.GameState.AwardCorrectAnswer | script/main.js:944-979 | XP earned is base + speed + first-clear bonuses; one more star; quest, word and card are collected unless already there; exactly the quests for what was earned or new, then explore, advance; their rewards and then the answer XP are awarded; the invariant is kept |
| Progress.GameState.RecordClear | script/main.js:961-976 | one more star; the quest, word and card are appended unless already there; star range and distinctness are kept |
| Progress.GameState.AnswerQuestUpdates | script/main.js:944-979 | the answer XP is computed; the speed, perfect, identify, words, culture and explore quests advance as the answer earns them; their rewards and then the answer XP are awarded; the level never drops; the invariant is kept |
| Progress.GameState.EarnBonuses | script/main.js:945-959 | +10 and the speed quest for a fast answer; +5 and the perfect quest for a first clear |
| Progress.GameState.TrackCollection | script/main.js:963-976 | the identify, words and culture quests advance for what is new |

## Left out

- DOM, sound, animation, notifications, Google Maps markers and coordinates, and the companion-selection UI (`addCompanionSelectionUI`, `onLocationChange`, `getDistrictFromCoordinates`, `showCompanionTransition`, `showRelationshipProgressNotification` apart from its failure on an unregistered companion): these are presentation, not state.
- Dialogue generation (`generateDialogue`, `buildCompanionPrompt`, `formatDialogueResponse`) and `conversationHistory`: these are asynchronous and call an external language model.
- Companion personality, dialogue patterns and avatars, and the relationship record's `personalStories` and `culturalLessons` lists: these are text the engine never reads, or lists it never fills.
- `getAllCompanions` and `getCompanionStats`: these are read-only views built by spreading objects, and nothing depends on them.
- `GameState.loadProgress`/`saveProgress` and the quests' `localStorage` entry: persistence of the game state is not modelled. The constructor starts from a fresh game.
- `generateDailyQuests`: it reads the clock and draws quests at random, so the day's quests are a constructor parameter.
- `getXPForLevel`: its floating-point formula is abstracted as the parameter `xpForLevel`. Nothing is assumed about it.
- The mystery chest, timers, session time, cosmetics, the wrong-answer branch of `checkAnswer`, and the word-temple and map updates after a correct answer: none of these are part of the progress bookkeeping modelled here.
- JSON serialisation: a saved `Date` comes back as a string, and loaded data is not checked. Times are plain integers here, so a save followed by a reload restores the stores exactly.
- An action name inherited from `Object.prototype` (such as `"constructor"`) would read a non-number from the action table. The model treats every name outside the table as 0.
- A stored stage named like an `Object.prototype` member would likewise read a non-number from the stage multipliers, so `Math.min` gives NaN and no insights are shown. The model's `Unrecognised` stage gets the multiplier 1.
- CompanionSystem.AICompanionSystem.OnRelationshipProgression: assumes the page supplies a global `gameState`, which neither script provides (see Findings), so that the handler completes and logs its milestone. Its calls into the game (`addXP(25)` and `updateDailyQuest('explore')`) are not modelled, because the two objects are modelled separately.
- CompanionSystem.AICompanionSystem.UpdateTrust: assumes the same global `gameState`, so a stage change logs a milestone and saves. For the same reason as above, the 25 XP of a stage change and the explore quest it advances are not part of its state.
- The raw `interactionCount++` of `showStreetDialogueNode` (script/main.js:671-674), which bypasses `updateTrust`, is not modelled. It only raises a count, so it would keep `WellFormed`.
- `integrateWithMainGame` (script/ai_companion_system.js:487-508): its map listener is presentation, but its `addXP` wrapper (lines 499-507) follows every award with `updateTrust(currentCompanion, 'completing_quest')`, which changes trust and can cross a stage threshold, unlocking content and logging a milestone. That wrapper is not modelled; awards and trust updates are modelled as separate calls. Line 499 tests the same bare `gameState` as the Findings row, so under that reading the wrapper is never installed and the call throws there instead.
- Progress.StreakAfter: "yesterday" is `today - 1`, the previous calendar day, whereas the source compares with the date 24 hours before now (script/main.js:124). Next to a daylight-saving change that date is the day before yesterday (just after midnight following a 23-hour day) or today (late on a 25-hour day), so a play on the next calendar day in that window uses a freeze or resets the streak to 1. Progress.GameState.UpdateStreak and Progress.ConsecutiveDays inherit this: their next-day extension holds only under the `today - 1` abstraction.
- Progress.GameState.AddXP: the `updateTrust('learning_tamil')` call that follows every award is not modelled. The trust that sets the bonus is one `trust` value per call, so the rise in trust between successive awards within one answer is not captured. Without a global `gameState` (see Findings), that call would also throw whenever it moves the companion across a stage threshold, cutting the rest of the bookkeeping short (for instance the final award of script/main.js:979); this is not captured either. The second trust update that `integrateWithMainGame`'s wrapper adds after each award (`completing_quest`) is not modelled either (see the `integrateWithMainGame` line).
- Progress.GameState.RecordCorrectAnswer: the `updateTrust('respectful_response')` call on the quest's companion is not modelled, for the same reason. The companion system is reduced to the boolean `hasCompanionSystem`. Without a global `gameState` (see Findings), that call would throw when it crosses a stage threshold and skip the quest updates of script/main.js:940-941 and the delayed award block; this is not captured.
- Progress.GameState.AwardCorrectAnswer: the star and the three collected lists are recorded after the quest updates, whereas the source interleaves them. Those fields are disjoint from the quests and scores, and the flags are read before any update, so the final state is the same.
- Progress.GameState.AwardCorrectAnswer: `touched`, the list of quest ids advanced, is ghost. It describes the updates but is not computed by the source.

## Findings

| source | as written | input that shows it | evidently intended | confidence | as-written member | corrected member |
|---|---|---|---|---|---|---|
| script/ai_companion_system.js:348 | `if (gameState)` reads a bare name. `gameState` is a `const` of script/main.js:569, which is a module (it has a top-level `import`), and the companion script is loaded as a classic script (script/main.js:8-13). So the name is unbound and the test throws after the unlock and before the milestone push, which also skips the save | a fresh start and four `helping_others` with anna: the third call throws, leaving no milestone and the second call's save in the slot | a missing game is skipped (`typeof gameState !== 'undefined'`), the milestone is logged and the state saved | medium, not executed; the page that loads the scripts is not part of this model and could define a global `gameState` | CompanionSystem.WithoutGameLosesMilestone | CompanionSystem.AICompanionSystem.UpdateTrust |
