/**
 * The companion system object: the registry, the relationship store, the
 * unlocked-content store, the selected companion and the persisted slot,
 * with the operations that change them in place.
 */
module CompanionSystem {
  import opened Wrappers
  import opened TrustEngine
  import opened Companions
  import opened Relationships
  import opened Content

  /**
   * What the persistence slot for the companions holds. `Absent` is a missing
   * or empty value, `Unreadable` text that does not parse; `Saved` is a parsed
   * object, whose `relationships` is `None` when that entry is missing or
   * null (converting it to a map then fails) and otherwise the map it gives.
   */
  datatype Stored =
    | Absent
    | Unreadable
    | Saved(relationships: Option<map<string, Relationship>>, culturalContext: Option<ContentStore>, lastSaved: Option<int>)

  /** What an update of trust returns: nothing for an unknown companion, the new trust level, or an exception. */
  datatype TrustOutcome = Ignored | NewTrust(trustLevel: int) | ProgressionThrew

  /** A saved value the loader accepts: a parsed object with a relationships entry. */
  predicate Loadable(stored: Stored) {
    stored.Saved? && stored.relationships.Some?
  }

  /**
   * Every relationship belongs to a registered companion, is well formed,
   * and has every flag of every stage up to its own set.
   */
  ghost predicate StoresConsistent(cs: seq<Companion>, rels: map<string, Relationship>, store: ContentStore) {
    forall id :: id in rels ==>
      && Lookup(cs, id).Some?
      && WellFormed(rels[id])
      && UnlockedUpTo(store, id, rels[id].relationshipStage)
  }

  /**
   * The relationship after one interaction, with the milestone a stage change
   * logs: trust moved by the interaction's delta and clamped, one more
   * interaction, the stage the new trust implies, and one more log entry
   * exactly when the stage changed.
   */
  function Progressed(before: Relationship, action: string, context: TrustContext, companionName: string, now: int): (r: Relationship)
    ensures r.trustLevel == NextTrust(before.trustLevel, TrustChange(action, context))
    ensures r.interactionCount == before.interactionCount + 1
    ensures r.relationshipStage == StageFor(r.trustLevel)
    ensures before.sharedExperiences <= r.sharedExperiences
    ensures |r.sharedExperiences| == |before.sharedExperiences| + (if r.relationshipStage == before.relationshipStage then 0 else 1)
    ensures r.lastInteraction == Some(now)
    ensures r.relationshipStage != before.relationshipStage ==>
              r.sharedExperiences[|before.sharedExperiences|] == Milestone(MilestoneKind, r.relationshipStage, now, companionName)
  {
    var touched := Interact(before, TrustChange(action, context), now);
    if touched.relationshipStage == before.relationshipStage then touched
    else AddMilestone(touched, touched.relationshipStage, companionName, now)
  }

  /** The two stores and the slot after one interaction, with what the interaction returned. */
  datatype Snapshot = Snapshot(outcome: TrustOutcome, relationships: map<string, Relationship>,
                               culturalContext: ContentStore, storage: Stored)

  /**
   * One interaction as written when no global binding named `gameState`
   * exists (the game state is a module-scoped constant of the game script,
   * and the companion script is a classic script): the bare `gameState` test
   * in the progression handler then throws after the unlock and before the
   * milestone, so a stage change leaves the new flags set, logs nothing and
   * skips the save. An unknown id changes nothing, and an interaction that
   * keeps the stage is saved as usual.
   */
  function InteractWithoutGame(cs: seq<Companion>, s: Snapshot, companionId: string,
                               action: string, context: TrustContext, now: int): (r: Snapshot)
    ensures companionId !in s.relationships ==> r == s.(outcome := Ignored)
    ensures companionId in s.relationships ==>
              var before := s.relationships[companionId];
              var touched := Interact(before, TrustChange(action, context), now);
              && r.relationships == s.relationships[companionId := touched]
              && (r.outcome == ProgressionThrew <==> touched.relationshipStage != before.relationshipStage)
              && (r.outcome == ProgressionThrew ==> r.storage == s.storage)
              && (r.outcome != ProgressionThrew ==>
                    && r.outcome == NewTrust(touched.trustLevel)
                    && r.culturalContext == s.culturalContext
                    && r.storage == Saved(Some(r.relationships), Some(s.culturalContext), Some(now)))
              && (r.outcome == ProgressionThrew && Lookup(cs, companionId).Some? ==>
                    r.culturalContext == Unlock(s.culturalContext, companionId, touched.relationshipStage))
              && (r.outcome == ProgressionThrew && Lookup(cs, companionId).None? ==>
                    r.culturalContext == s.culturalContext)
    ensures forall j :: j in s.relationships ==>
              j in r.relationships && r.relationships[j].sharedExperiences == s.relationships[j].sharedExperiences
  {
    if companionId !in s.relationships then s.(outcome := Ignored)
    else
      var before := s.relationships[companionId];
      var touched := Interact(before, TrustChange(action, context), now);
      var rels := s.relationships[companionId := touched];
      if touched.relationshipStage == before.relationshipStage then
        Snapshot(NewTrust(touched.trustLevel), rels, s.culturalContext,
                 Saved(Some(rels), Some(s.culturalContext), Some(now)))
      else if Lookup(cs, companionId).None? then
        Snapshot(ProgressionThrew, rels, s.culturalContext, s.storage)
      else
        Snapshot(ProgressionThrew, rels, Unlock(s.culturalContext, companionId, touched.relationshipStage), s.storage)
  }

  /**
   * Without a global `gameState`, four `helping_others` with anna from a
   * fresh start: the third call crosses into acquaintance and throws, with
   * basicInsights unlocked but no milestone and the slot still holding the
   * second call's save; the milestone log stays empty for good. With the
   * handler completing, the same step logs one milestone.
   */
  lemma WithoutGameLosesMilestone()
    ensures var cs := Registry();
            var s0 := Snapshot(Ignored, InitialRelationships(cs), map[], Absent);
            var s1 := InteractWithoutGame(cs, s0, "anna", "helping_others", NoContext, 1);
            var s2 := InteractWithoutGame(cs, s1, "anna", "helping_others", NoContext, 2);
            var s3 := InteractWithoutGame(cs, s2, "anna", "helping_others", NoContext, 3);
            var s4 := InteractWithoutGame(cs, s3, "anna", "helping_others", NoContext, 4);
            && s2.outcome == NewTrust(14)
            && s3.outcome == ProgressionThrew
            && s3.relationships["anna"].relationshipStage == Acquaintance
            && IsSet(s3.culturalContext, "anna", "basicInsights")
            && s3.storage == s2.storage
            && s4.outcome == NewTrust(28)
            && s4.relationships["anna"].sharedExperiences == []
            && |Progressed(s2.relationships["anna"], "helping_others", NoContext, "Anna", 3).sharedExperiences| == 1
  {
    var cs := Registry();
    var d := TrustChange("helping_others", NoContext);
    assert d == 7;
    assert "anna" in InitialRelationships(cs) by {
      assert cs[0] in cs;
    }
    var s0 := Snapshot(Ignored, InitialRelationships(cs), map[], Absent);
    var s1 := InteractWithoutGame(cs, s0, "anna", "helping_others", NoContext, 1);
    var s2 := InteractWithoutGame(cs, s1, "anna", "helping_others", NoContext, 2);
    assert s2.relationships["anna"].trustLevel == 14;
    assert Lookup(cs, "anna").Some?;
    var s3 := InteractWithoutGame(cs, s2, "anna", "helping_others", NoContext, 3);
    assert s3.relationships["anna"].trustLevel == 21;
  }

  class AICompanionSystem {
    const companions: seq<Companion>
    var userRelationships: map<string, Relationship>
    var currentCompanion: Option<string>
    var culturalContext: ContentStore
    /** The persisted slot; loading reads it, saving overwrites it. */
    var storage: Stored

    /** The stores satisfy `StoresConsistent` for the registry. */
    ghost predicate Consistent()
      reads this
    {
      StoresConsistent(companions, userRelationships, culturalContext)
    }

    /**
     * Registers the companions with fresh relationships, then loads whatever
     * the slot `stored` holds: a loadable value replaces the relationships and
     * the unlocked content; anything else keeps the defaults.
     */
    constructor (stored: Stored)
      ensures companions == Registry()
      ensures currentCompanion == None && storage == stored
      ensures Loadable(stored) ==> userRelationships == stored.relationships.value
      ensures Loadable(stored) ==> culturalContext == stored.culturalContext.GetOr(map[])
      ensures !Loadable(stored) ==> userRelationships == InitialRelationships(companions)
      ensures !Loadable(stored) ==> culturalContext == map[] && Consistent()
    {
      var cs := Registry();
      FreshStoresConsistent(cs);
      companions := cs;
      userRelationships := InitialRelationships(cs);
      currentCompanion := None;
      culturalContext := map[];
      storage := stored;
      new;
      LoadUserProgress();
    }

    /** Replaces the stores from the slot when it holds a loadable value; keeps them otherwise. */
    method LoadUserProgress()
      modifies this`userRelationships, this`culturalContext
      ensures Loadable(storage) ==> userRelationships == storage.relationships.value
      ensures Loadable(storage) ==> culturalContext == storage.culturalContext.GetOr(map[])
      ensures !Loadable(storage) ==> userRelationships == old(userRelationships)
      ensures !Loadable(storage) ==> culturalContext == old(culturalContext)
    {
      if storage.Saved? && storage.relationships.Some? {
        userRelationships := storage.relationships.value;
        culturalContext := storage.culturalContext.GetOr(map[]);
      }
    }

    /** Writes both stores and the time `now` to the slot. */
    method SaveUserProgress(now: int)
      modifies this`storage
      ensures storage == Saved(Some(userRelationships), Some(culturalContext), Some(now))
    {
      storage := Saved(Some(userRelationships), Some(culturalContext), Some(now));
    }

    /** The trust level of a companion; 0 for an id without a relationship. */
    function GetTrustLevel(companionId: string): (t: int)
      reads this
      ensures companionId !in userRelationships ==> t == 0
      ensures companionId in userRelationships ==> t == userRelationships[companionId].trustLevel
      ensures Consistent() ==> 0 <= t <= 100
    {
      if companionId in userRelationships then userRelationships[companionId].trustLevel else 0
    }

    /** Sets the flags of `stage` for the companion, keeping every flag already there. */
    method UnlockCompanionContent(companionId: string, stage: Stage)
      modifies this`culturalContext
      ensures culturalContext == Unlock(old(culturalContext), companionId, stage)
    {
      var flags := StageFlags(stage);
      if flags != {} {
        culturalContext := culturalContext[companionId := FlagsOf(culturalContext, companionId) + map f | f in flags :: true];
      }
    }

    /**
     * The state part of a stage change: unlock the new stage's content and log
     * one milestone for it. For an id that is not a registered companion the
     * notification that comes first fails, and nothing changes.
     */
    method OnRelationshipProgression(companionId: string, oldStage: Stage, newStage: Stage, now: int)
      returns (completed: bool)
      requires companionId in userRelationships
      modifies this`culturalContext, this`userRelationships
      ensures completed == Lookup(companions, companionId).Some?
      ensures !completed ==> culturalContext == old(culturalContext) && userRelationships == old(userRelationships)
      ensures completed ==> culturalContext == Unlock(old(culturalContext), companionId, newStage)
      ensures completed ==>
                userRelationships == old(userRelationships)[companionId :=
                  AddMilestone(old(userRelationships)[companionId], newStage, Lookup(companions, companionId).value.name, now)]
    {
      var companion := Lookup(companions, companionId);
      if companion.None? {
        return false;
      }
      UnlockCompanionContent(companionId, newStage);
      var relationship := userRelationships[companionId];
      userRelationships := userRelationships[companionId := AddMilestone(relationship, newStage, companion.value.name, now)];
      completed := true;
    }

    /**
     * One interaction with a companion: apply the trust change (clamped), count
     * it, recompute the stage; on a stage change, in either direction, run the
     * progression handler; then save. An unknown id changes nothing.
     */
    method UpdateTrust(companionId: string, action: string, context: TrustContext, now: int)
      returns (outcome: TrustOutcome)
      modifies this`userRelationships, this`culturalContext, this`storage
      ensures companionId !in old(userRelationships) ==>
                && outcome == Ignored
                && userRelationships == old(userRelationships)
                && culturalContext == old(culturalContext)
                && storage == old(storage)
      ensures companionId in old(userRelationships) ==>
                var before := old(userRelationships)[companionId];
                var touched := Interact(before, TrustChange(action, context), now);
                var changed := touched.relationshipStage != before.relationshipStage;
                var companion := Lookup(companions, companionId);
                if !changed then
                  && outcome == NewTrust(touched.trustLevel)
                  && userRelationships == old(userRelationships)[companionId := touched]
                  && culturalContext == old(culturalContext)
                  && storage == Saved(Some(userRelationships), Some(culturalContext), Some(now))
                else if companion.Some? then
                  && outcome == NewTrust(touched.trustLevel)
                  && userRelationships == old(userRelationships)[companionId :=
                       AddMilestone(touched, touched.relationshipStage, companion.value.name, now)]
                  && culturalContext == Unlock(old(culturalContext), companionId, touched.relationshipStage)
                  && storage == Saved(Some(userRelationships), Some(culturalContext), Some(now))
                else
                  && outcome == ProgressionThrew
                  && userRelationships == old(userRelationships)[companionId := touched]
                  && culturalContext == old(culturalContext)
                  && storage == old(storage)
      ensures forall j, f :: IsSet(old(culturalContext), j, f) ==> IsSet(culturalContext, j, f)
      ensures old(Consistent()) ==> Consistent() && outcome != ProgressionThrew
    {
      ghost var wasConsistent := Consistent();
      ghost var oldContext := culturalContext;
      if companionId !in userRelationships {
        return Ignored;
      }
      var before := userRelationships[companionId];
      var trustChange := TrustChange(action, context);
      var touched := Interact(before, trustChange, now);
      userRelationships := userRelationships[companionId := touched];
      if before.relationshipStage != touched.relationshipStage {
        var completed := OnRelationshipProgression(companionId, before.relationshipStage, touched.relationshipStage, now);
        if !completed {
          return ProgressionThrew;
        }
        var logged := AddMilestone(touched, touched.relationshipStage, Lookup(companions, companionId).value.name, now);
        assert userRelationships == old(userRelationships)[companionId := logged];
      }
      SaveUserProgress(now);
      outcome := NewTrust(userRelationships[companionId].trustLevel);
      forall j, f | IsSet(oldContext, j, f)
        ensures IsSet(culturalContext, j, f)
      {
        UnlockKeepsFlags(oldContext, companionId, touched.relationshipStage, j, f);
      }
      if wasConsistent {
        InteractionKeepsConsistent(companions, old(userRelationships), oldContext, companionId, action, context, now);
      }
    }

    /**
     * Selects the first companion, in registration order, whose district
     * contains `district`, and makes it the current companion; when none does,
     * returns the companion registered as "anna" (absent only from a registry
     * without her) and leaves the current companion as it was.
     */
    method SelectCompanionByDistrict(district: string) returns (c: Option<Companion>)
      modifies this`currentCompanion
      ensures FirstMatch(companions, district).Some? ==>
                && c == Some(companions[FirstMatch(companions, district).value])
                && currentCompanion == Some(c.value.id)
      ensures FirstMatch(companions, district).None? ==>
                && c == Lookup(companions, "anna")
                && currentCompanion == old(currentCompanion)
      ensures companions == Registry() ==> c.Some?
    {
      for i := 0 to |companions|
        invariant forall k :: 0 <= k < i ==> !Includes(companions[k].district, district)
        invariant currentCompanion == old(currentCompanion)
      {
        if Includes(companions[i].district, district) {
          currentCompanion := Some(companions[i].id);
          FirstMatchAt(companions, district, i);
          return Some(companions[i]);
        }
      }
      c := Lookup(companions, "anna");
    }
  }

  /** Fresh relationships need no flags: a stranger has none to unlock. */
  lemma FreshStoresConsistent(cs: seq<Companion>)
    ensures StoresConsistent(cs, InitialRelationships(cs), map[])
  {
    var rels := InitialRelationships(cs);
    assert FlagsUpTo(Stranger) == {};
    assert WellFormed(Fresh);
    forall id | id in rels
      ensures Lookup(cs, id).Some?
    {
      var c :| c in cs && c.id == id;
    }
  }

  /**
   * One interaction keeps the unlock invariant of its companion: the stage
   * moves by at most one step, and a change unlocks the new stage.
   */
  lemma InteractionKeepsUnlocked(store: ContentStore, id: string, before: Relationship,
                                 action: string, context: TrustContext, now: int)
    requires WellFormed(before)
    requires UnlockedUpTo(store, id, before.relationshipStage)
    ensures var after := Interact(before, TrustChange(action, context), now);
            var changed := after.relationshipStage != before.relationshipStage;
            UnlockedUpTo(if changed then Unlock(store, id, after.relationshipStage) else store, id, after.relationshipStage)
  {
    var after := Interact(before, TrustChange(action, context), now);
    AtMostOneStage(before.trustLevel, action, context);
    if after.relationshipStage != before.relationshipStage {
      UnlockAfterStep(store, id, before.relationshipStage, after.relationshipStage);
    }
  }

  /**
   * An interaction with a companion of a consistent store keeps it
   * consistent: the companion is registered (so the progression handler
   * completes), and the new record and content store are consistent again.
   */
  lemma InteractionKeepsConsistent(cs: seq<Companion>, rels: map<string, Relationship>, store: ContentStore,
                                   id: string, action: string, context: TrustContext, now: int)
    requires StoresConsistent(cs, rels, store) && id in rels
    ensures Lookup(cs, id).Some?
    ensures var before := rels[id];
            var touched := Interact(before, TrustChange(action, context), now);
            var changed := touched.relationshipStage != before.relationshipStage;
            StoresConsistent(cs, rels[id := Progressed(before, action, context, Lookup(cs, id).value.name, now)],
                             if changed then Unlock(store, id, touched.relationshipStage) else store)
  {
    var before := rels[id];
    var touched := Interact(before, TrustChange(action, context), now);
    var changed := touched.relationshipStage != before.relationshipStage;
    var store' := if changed then Unlock(store, id, touched.relationshipStage) else store;
    var rels' := rels[id := Progressed(before, action, context, Lookup(cs, id).value.name, now)];
    InteractionKeepsUnlocked(store, id, before, action, context, now);
    forall j | j in rels'
      ensures Lookup(cs, j).Some? && WellFormed(rels'[j]) && UnlockedUpTo(store', j, rels'[j].relationshipStage)
    {
      if j != id && changed {
        UnlockKeepsOthers(store, id, touched.relationshipStage, j, rels[j].relationshipStage);
      }
    }
  }

  /** Saving and then constructing a new system from the slot restores both stores exactly. */
  method SaveThenReload(system: AICompanionSystem, now: int) returns (reloaded: AICompanionSystem)
    modifies system`storage
    ensures reloaded.userRelationships == system.userRelationships
    ensures reloaded.culturalContext == system.culturalContext
    ensures reloaded.currentCompanion == None
  {
    system.SaveUserProgress(now);
    reloaded := new AICompanionSystem(system.storage);
  }
}
