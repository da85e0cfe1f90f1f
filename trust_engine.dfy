/**
 * The trust engine of the companion system: the fixed action table with its
 * four context modifiers, the trust-to-stage thresholds, and the stage
 * multiplier that sizes the cultural-insight view.
 *
 * All of this is pure: `calculateTrustChange`, `getRelationshipStage` and
 * `getStageMultiplier` only compute a value from their arguments.
 */
module TrustEngine {

  /**
   * A relationship stage. The source keeps the stage as a string; a stage
   * restored from storage can be any string. `Unrecognised` stands for a
   * string that is none of the five names and none of the names an object
   * inherits (such as "constructor"), which every operation treats alike.
   */
  datatype Stage = Stranger | Acquaintance | Friend | CloseFriend | Family | Unrecognised {

    predicate Known() {
      !Unrecognised?
    }
  }

  /** Position of a known stage in the order stranger < acquaintance < friend < close_friend < family. */
  function Rank(s: Stage): (r: nat)
    requires s.Known()
    ensures r <= 4
  {
    match s
    case Stranger => 0
    case Acquaintance => 1
    case Friend => 2
    case CloseFriend => 3
    case Family => 4
  }

  /** The stage just below a known stage other than the lowest. */
  function Previous(s: Stage): (p: Stage)
    requires s.Known() && s != Stranger
    ensures p.Known() && Rank(p) + 1 == Rank(s)
  {
    match s
    case Acquaintance => Stranger
    case Friend => Acquaintance
    case CloseFriend => Friend
    case Family => CloseFriend
  }

  /** The four boolean modifiers an interaction may carry. */
  datatype TrustContext = TrustContext(
    isFirstMeeting: bool,
    showsGenuineInterest: bool,
    remembersPersonalInfo: bool,
    culturallyInsensitive: bool)

  /** A context with no modifier set (the source's default `{}`). */
  const NoContext := TrustContext(false, false, false, false)

  /** The action table; an action outside the vocabulary contributes 0. */
  function ActionDelta(action: string): (d: int)
    ensures -8 <= d <= 7
  {
    match action
    case "respectful_response" => 5
    case "cultural_curiosity" => 3
    case "helping_others" => 7
    case "completing_quest" => 2
    case "learning_tamil" => 3
    case "showing_interest" => 2
    case "dismissive_behavior" => -5
    case "cultural_insensitivity" => -8
    case "impatience" => -3
    case "rude_response" => -7
    case "ignoring_advice" => -2
    case "task_focused" => 0
    case "factual_question" => 1
    case "basic_interaction" => 0
    case _ => 0
  }

  /**
   * The trust delta of one interaction: the table value, then +2, +3, +4 for
   * the first three modifiers and -10 for cultural insensitivity. The result
   * is not clamped; clamping happens when it is applied to a trust level.
   */
  function TrustChange(action: string, context: TrustContext): (d: int)
    ensures -18 <= d <= 16
  {
    var d := ActionDelta(action);
    var d := if context.isFirstMeeting then d + 2 else d;
    var d := if context.showsGenuineInterest then d + 3 else d;
    var d := if context.remembersPersonalInfo then d + 4 else d;
    if context.culturallyInsensitive then d - 10 else d
  }

  /**
   * The stage a trust level implies. The thresholds 21, 41, 61 and 81 are 20
   * apart: a stage of rank r covers exactly the trust levels 20r+1 .. 20r+20,
   * the lowest stage reaching down and the highest reaching up without bound.
   */
  function StageFor(trust: int): (s: Stage)
    ensures s.Known()
    ensures Rank(s) > 0 ==> 20 * Rank(s) + 1 <= trust
    ensures Rank(s) < 4 ==> trust <= 20 * Rank(s) + 20
  {
    if trust >= 81 then Family
    else if trust >= 61 then CloseFriend
    else if trust >= 41 then Friend
    else if trust >= 21 then Acquaintance
    else Stranger
  }

  /** How many cultural insights a stage may see: 1 to 5, and 1 for an unrecognised stage. */
  function StageMultiplier(s: Stage): (m: nat)
    ensures 1 <= m <= 5
    ensures s.Known() ==> m == Rank(s) + 1
    ensures !s.Known() ==> m == 1
  {
    match s
    case Stranger => 1
    case Acquaintance => 2
    case Friend => 3
    case CloseFriend => 4
    case Family => 5
    case Unrecognised => 1
  }

  /** `Math.max(lo, Math.min(hi, x))`. */
  function Clamp(x: int, lo: int, hi: int): (r: int)
    requires lo <= hi
    ensures lo <= r <= hi
    ensures x < lo ==> r == lo
    ensures x > hi ==> r == hi
    ensures lo <= x <= hi ==> r == x
  {
    var m := if hi < x then hi else x;
    if lo > m then lo else m
  }

  /** The trust level an interaction with delta `delta` leads to from `trust`. */
  function NextTrust(trust: int, delta: int): (t: int)
    ensures 0 <= t <= 100
  {
    Clamp(trust + delta, 0, 100)
  }

  /** Context modifiers add to the action's own value, whatever the action. */
  lemma ModifiersAreAdditive(action: string, context: TrustContext)
    ensures TrustChange(action, context) == ActionDelta(action) + TrustChange("", context)
  {
  }

  /** The worked examples: a first respectful meeting with genuine interest, an insensitive act, an unknown action. */
  lemma TrustChangeExamples()
    ensures TrustChange("respectful_response", TrustContext(true, true, false, false)) == 10
    ensures TrustChange("cultural_insensitivity", TrustContext(false, false, false, true)) == -18
    ensures TrustChange("helping_others", TrustContext(true, true, true, false)) == 16
    ensures TrustChange("waving", TrustContext(false, true, false, false)) == 3
  {
  }

  /** `StageFor` is monotone: more trust never means a lower stage. */
  lemma StageMonotone(a: int, b: int)
    requires a <= b
    ensures Rank(StageFor(a)) <= Rank(StageFor(b))
  {
  }

  /** Two trust levels less than 20 apart are at most one stage apart. */
  lemma NearTrustNearStage(a: int, b: int)
    requires a <= b < a + 20
    ensures Rank(StageFor(a)) <= Rank(StageFor(b)) <= Rank(StageFor(a)) + 1
  {
    StageMonotone(a, b);
  }

  /**
   * One interaction moves a relationship by at most one stage, up or down:
   * every delta lies in [-18, 16] and the thresholds are 20 apart.
   */
  lemma {:induction false} AtMostOneStage(trust: int, action: string, context: TrustContext)
    ensures var before := Rank(StageFor(trust));
            var after := Rank(StageFor(NextTrust(trust, TrustChange(action, context))));
            before - 1 <= after <= before + 1
  {
    var d := TrustChange(action, context);
    var t := NextTrust(trust, d);
    if trust < 0 {
      assert t <= 16;
      assert StageFor(trust) == Stranger && StageFor(t) == Stranger;
    } else if trust > 100 {
      assert t >= 83;
      assert StageFor(trust) == Family && StageFor(t) == Family;
    } else if t <= trust {
      NearTrustNearStage(t, trust);
    } else {
      NearTrustNearStage(trust, t);
    }
  }
}
