/**
 * The content unlock resolver and the two derived views of a relationship:
 * the unlock flags a stage sets, the suggested actions and the cultural
 * insights a companion offers at a stage.
 */
module Content {
  import opened TrustEngine
  import opened Companions
  import opened Relationships

  /** A companion's flag object: flag name to value. */
  type Flags = map<string, bool>

  /** The unlocked-content store: companion id to flag object. */
  type ContentStore = map<string, Flags>

  /** The flags reaching a stage sets; none for stranger or an unrecognised stage. */
  function StageFlags(s: Stage): (flags: set<string>)
    ensures flags == {} <==> s == Stranger || s == Unrecognised
  {
    match s
    case Acquaintance => {"basicInsights"}
    case Friend => {"personalStories", "casualTamil"}
    case CloseFriend => {"lifeAdvice", "culturalMentorship"}
    case Family => {"deepCulturalSecrets", "emotionalSupport", "familyTreatment"}
    case _ => {}
  }

  /** The flags of every stage from acquaintance up to `s`. */
  function FlagsUpTo(s: Stage): set<string>
    requires s.Known()
    decreases Rank(s)
  {
    if s == Stranger then {} else FlagsUpTo(Previous(s)) + StageFlags(s)
  }

  /** A companion's flag object, or the empty one when it has none yet (spreading `undefined` gives `{}`). */
  function FlagsOf(store: ContentStore, id: string): Flags {
    if id in store then store[id] else map[]
  }

  /** Flag `f` of companion `id` is set to true. */
  predicate IsSet(store: ContentStore, id: string, f: string) {
    id in store && f in store[id] && store[id][f]
  }

  /**
   * The store after unlocking stage `stage` for companion `id`: its flag
   * object is rewritten with every flag of the stage set to true and every
   * other entry kept; no other companion changes. Stranger and an
   * unrecognised stage leave the store as it is, without creating an entry.
   */
  function Unlock(store: ContentStore, id: string, stage: Stage): (r: ContentStore)
    ensures StageFlags(stage) == {} ==> r == store
    ensures StageFlags(stage) != {} ==> r.Keys == store.Keys + {id}
    ensures forall j :: j in store && j != id ==> r[j] == store[j]
    ensures StageFlags(stage) != {} ==> r[id].Keys == FlagsOf(store, id).Keys + StageFlags(stage)
    ensures forall f :: f in StageFlags(stage) ==> IsSet(r, id, f)
    ensures forall f :: f in FlagsOf(store, id) && f !in StageFlags(stage) ==> r[id][f] == store[id][f]
  {
    var flags := StageFlags(stage);
    if flags == {} then store
    else store[id := FlagsOf(store, id) + map f | f in flags :: true]
  }

  /** Unlocking never clears a flag, of this companion or any other. */
  lemma UnlockKeepsFlags(store: ContentStore, id: string, stage: Stage, j: string, f: string)
    requires IsSet(store, j, f)
    ensures IsSet(Unlock(store, id, stage), j, f)
  {
  }

  /** Unlocking the same stage for the same companion twice is the same as once. */
  lemma UnlockIdempotent(store: ContentStore, id: string, stage: Stage)
    ensures Unlock(Unlock(store, id, stage), id, stage) == Unlock(store, id, stage)
  {
    var once := Unlock(store, id, stage);
    if StageFlags(stage) != {} {
      var twice := Unlock(once, id, stage);
      assert twice[id] == once[id];
      assert twice == once;
    }
  }

  /** Every flag of every stage up to `s` is set for companion `id`. */
  predicate UnlockedUpTo(store: ContentStore, id: string, s: Stage)
    requires s.Known()
  {
    forall f :: f in FlagsUpTo(s) ==> IsSet(store, id, f)
  }

  /** The flags up to a stage include those up to every lower stage. */
  lemma {:induction false} FlagsUpToMonotone(s: Stage, t: Stage)
    requires s.Known() && t.Known() && Rank(s) <= Rank(t)
    ensures FlagsUpTo(s) <= FlagsUpTo(t)
    decreases Rank(t)
  {
    if Rank(s) < Rank(t) {
      FlagsUpToMonotone(s, Previous(t));
    }
  }

  /**
   * The unlock invariant survives a stage change of at most one step: if all
   * flags up to `before` are set and the relationship moves to `after`, one rank
   * up or any number down, unlocking `after` leaves all flags up to `after` set.
   */
  lemma {:induction false} UnlockAfterStep(store: ContentStore, id: string, before: Stage, after: Stage)
    requires before.Known() && after.Known() && Rank(after) <= Rank(before) + 1
    requires UnlockedUpTo(store, id, before)
    ensures UnlockedUpTo(Unlock(store, id, after), id, after)
  {
    var r := Unlock(store, id, after);
    forall f | f in FlagsUpTo(after)
      ensures IsSet(r, id, f)
    {
      if f !in StageFlags(after) {
        assert after != Stranger;
        FlagsUpToMonotone(Previous(after), before);
        UnlockKeepsFlags(store, id, after, id, f);
      }
    }
  }

  /** Unlocking for one companion keeps every other companion's invariant. */
  lemma UnlockKeepsOthers(store: ContentStore, id: string, stage: Stage, j: string, s: Stage)
    requires s.Known()
    requires UnlockedUpTo(store, j, s)
    ensures UnlockedUpTo(Unlock(store, id, stage), j, s)
  {
  }

  /** The two fixed suggestions of each stage; none for an unrecognised stage. */
  function StageSuggestions(s: Stage): (acts: seq<string>)
    ensures s.Known() <==> |acts| == 2
    ensures !s.Known() ==> acts == []
  {
    match s
    case Stranger => ["Ask about their background", "Show cultural interest"]
    case Acquaintance => ["Ask for advice", "Share your experience"]
    case Friend => ["Ask personal questions", "Request cultural lessons"]
    case CloseFriend => ["Discuss deeper topics", "Ask for life advice"]
    case Family => ["Share personal stories", "Seek emotional support"]
    case Unrecognised => []
  }

  /** One "Start <quest> quest" suggestion per special quest, in declared order. */
  function QuestSuggestions(quests: seq<string>): (acts: seq<string>)
    ensures |acts| == |quests|
    ensures forall i :: 0 <= i < |quests| ==> acts[i] == "Start " + quests[i] + " quest"
  {
    if quests == [] then []
    else ["Start " + quests[0] + " quest"] + QuestSuggestions(quests[1..])
  }

  /**
   * The suggested actions of a companion at the relationship's stage: the
   * stage's two fixed items, then one item per special quest in declared order.
   */
  function SuggestedActions(c: Companion, r: Relationship): (acts: seq<string>)
    ensures r.relationshipStage.Known() ==> |acts| == 2 + |c.specialQuests|
    ensures !r.relationshipStage.Known() ==> |acts| == |c.specialQuests|
    ensures acts[..|StageSuggestions(r.relationshipStage)|] == StageSuggestions(r.relationshipStage)
    ensures forall i :: 0 <= i < |c.specialQuests| ==>
              acts[|StageSuggestions(r.relationshipStage)| + i] == "Start " + c.specialQuests[i] + " quest"
  {
    StageSuggestions(r.relationshipStage) + QuestSuggestions(c.specialQuests)
  }

  /** How many insights a companion with `available` insights shows at stage `s`. */
  function InsightCount(available: nat, s: Stage): (n: nat)
    ensures n <= available && n <= StageMultiplier(s)
    ensures n == available || n == StageMultiplier(s)
  {
    if available < StageMultiplier(s) then available else StageMultiplier(s)
  }

  /**
   * The cultural insights a companion shares at the relationship's stage: the
   * first min(|insights|, multiplier) of its insights, in declared order.
   */
  method CulturalInsights(c: Companion, r: Relationship) returns (insights: seq<string>)
    ensures |insights| == InsightCount(|c.culturalInsights|, r.relationshipStage)
    ensures insights == c.culturalInsights[..|insights|]
  {
    insights := [];
    var available := c.culturalInsights;
    var multiplier := StageMultiplier(r.relationshipStage);
    var count := if |available| < multiplier then |available| else multiplier;
    for i := 0 to count
      invariant insights == available[..i]
    {
      insights := insights + [available[i]];
    }
  }

  /** More trust never shows fewer insights. */
  lemma InsightsGrowWithTrust(available: nat, a: int, b: int)
    requires a <= b
    ensures InsightCount(available, StageFor(a)) <= InsightCount(available, StageFor(b))
  {
    StageMonotone(a, b);
  }

  /** Every registered companion shows one insight as a stranger and all three from friend on. */
  lemma RegistryInsightCounts(c: Companion)
    requires c in Registry()
    ensures InsightCount(|c.culturalInsights|, Stranger) == 1
    ensures InsightCount(|c.culturalInsights|, Acquaintance) == 2
    ensures forall s: Stage :: s.Known() && Rank(s) >= 2 ==> InsightCount(|c.culturalInsights|, s) == 3
  {
  }
}
