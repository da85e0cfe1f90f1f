/**
 * The per-companion relationship record and its pure updates: one
 * interaction (clamped trust, bumped count, recomputed stage) and one
 * milestone entry.
 */
module Relationships {
  import opened Wrappers
  import opened TrustEngine
  import opened Companions

  /** One entry of the shared-experience log; `timestamp` stands for the clock reading. */
  datatype Milestone = Milestone(kind: string, stage: Stage, timestamp: int, companion: string)

  /** A relationship record (the source's always-empty story and lesson lists are not modelled). */
  datatype Relationship = Relationship(
    trustLevel: int,
    relationshipStage: Stage,
    interactionCount: int,
    lastInteraction: Option<int>,
    sharedExperiences: seq<Milestone>)

  /** The record every companion starts with: no trust, a stranger, never met. */
  const Fresh := Relationship(0, Stranger, 0, None, [])

  /** The kind of every entry the progression handler writes. */
  const MilestoneKind := "relationship_milestone"

  /** Trust within [0, 100], the stage the trust implies, and a count that is not negative. */
  predicate WellFormed(r: Relationship) {
    && 0 <= r.trustLevel <= 100
    && r.relationshipStage == StageFor(r.trustLevel)
    && r.interactionCount >= 0
  }

  /** One relationship per registered companion, each of them fresh. */
  function InitialRelationships(cs: seq<Companion>): (m: map<string, Relationship>)
    ensures m.Keys == set c | c in cs :: c.id
    ensures forall id :: id in m ==> m[id] == Fresh
  {
    map c | c in cs :: c.id := Fresh
  }

  /**
   * The record after one interaction with trust delta `delta` at time `now`:
   * the trust level clamped into [0, 100], one more interaction, the stage
   * recomputed from the new trust, the log untouched.
   */
  function Interact(r: Relationship, delta: int, now: int): (r': Relationship)
    ensures r'.trustLevel == NextTrust(r.trustLevel, delta)
    ensures r'.interactionCount == r.interactionCount + 1
    ensures r'.relationshipStage == StageFor(r'.trustLevel)
    ensures r'.lastInteraction == Some(now) && r'.sharedExperiences == r.sharedExperiences
    ensures r.interactionCount >= 0 ==> WellFormed(r')
  {
    var t := Clamp(r.trustLevel + delta, 0, 100);
    r.(trustLevel := t,
       interactionCount := r.interactionCount + 1,
       lastInteraction := Some(now),
       relationshipStage := StageFor(t))
  }

  /** The record with one more milestone at the end of its log, for reaching `stage`. */
  function AddMilestone(r: Relationship, stage: Stage, companionName: string, now: int): (r': Relationship)
    ensures |r'.sharedExperiences| == |r.sharedExperiences| + 1
    ensures r'.sharedExperiences[..|r.sharedExperiences|] == r.sharedExperiences
    ensures r'.sharedExperiences[|r.sharedExperiences|] == Milestone(MilestoneKind, stage, now, companionName)
    ensures r'.(sharedExperiences := r.sharedExperiences) == r
  {
    r.(sharedExperiences := r.sharedExperiences + [Milestone(MilestoneKind, stage, now, companionName)])
  }

  /** One player interaction: an action name, its context and the clock reading. */
  datatype Interaction = Interaction(action: string, context: TrustContext, now: int)

  /** The record after a sequence of interactions, applied in order. */
  function Replay(r: Relationship, steps: seq<Interaction>): Relationship
    decreases steps
  {
    if steps == [] then r
    else Replay(Interact(r, TrustChange(steps[0].action, steps[0].context), steps[0].now), steps[1..])
  }

  /**
   * Whatever sequence of interactions is applied to a well-formed record, the
   * trust level stays in [0, 100], the stage is the one the trust implies, and
   * the count grows by exactly the number of interactions.
   */
  lemma {:induction false} ReplayKeepsWellFormed(r: Relationship, steps: seq<Interaction>)
    requires WellFormed(r)
    ensures WellFormed(Replay(r, steps))
    ensures Replay(r, steps).interactionCount == r.interactionCount + |steps|
    ensures Replay(r, steps).sharedExperiences == r.sharedExperiences
    decreases steps
  {
    if steps != [] {
      var next := Interact(r, TrustChange(steps[0].action, steps[0].context), steps[0].now);
      ReplayKeepsWellFormed(next, steps[1..]);
    }
  }

  /** Four `helping_others` from a fresh record: trust 7, 14, 21, 28; the stage changes once, on the third. */
  lemma HelpingOthersFourTimes()
    ensures var d := TrustChange("helping_others", NoContext);
            var r1 := Interact(Fresh, d, 1);
            var r2 := Interact(r1, d, 2);
            var r3 := Interact(r2, d, 3);
            var r4 := Interact(r3, d, 4);
            && r1.trustLevel == 7 && r2.trustLevel == 14
            && r1.relationshipStage == r2.relationshipStage == Stranger
            && r3.trustLevel == 21 && r3.relationshipStage == Acquaintance
            && r4.trustLevel == 28 && r4.relationshipStage == Acquaintance
  {
    var d := TrustChange("helping_others", NoContext);
    assert d == 7;
    var r2 := Interact(Interact(Fresh, d, 1), d, 2);
    assert r2.trustLevel == 14;
    assert Interact(r2, d, 3).trustLevel == 21;
  }
}
