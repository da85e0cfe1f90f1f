/**
 * The progress bookkeeping of the game: XP with its companion bonus and
 * level-up, the daily-play streak with its freezes, daily quests, mastery
 * stars, and the lists of completed quests, learned words and culture cards.
 *
 * `GameState` updates its fields in place, so it is a class; what each
 * method does to them is stated through the pure functions of this module
 * (`StreakAfter`, `StepQuests`, `ReplayQuests`, `Award`, `AwardAll`, ...),
 * and the properties of those functions are lemmas.
 */
module Progress {
  import opened Wrappers

  /** A daily quest: make `target` progress to earn `reward` XP. */
  datatype DailyQuest = DailyQuest(
    id: string,
    text: string,
    target: int,
    progress: int,
    reward: int,
    completed: bool)

  /** A culture card; cards are told apart by title. */
  datatype CultureCard = CultureCard(title: string, description: string)

  /** The part of a map quest the answer bookkeeping reads. */
  datatype MapQuest = MapQuest(
    id: string,
    correctAnswer: string,
    baseXP: int,
    cultureCard: CultureCard,
    companionId: Option<string>)

  /** The three counters XP awards change. */
  datatype Score = Score(xp: int, totalAnswered: int, level: int)

  /**
   * The daily-play counters. Dates are day numbers, and "yesterday" is taken
   * as `today - 1`, the previous calendar day (the source uses the date 24
   * hours earlier, which differs next to a daylight-saving change).
   */
  datatype Streak = Streak(streak: int, freezes: int, lastPlayDate: Option<int>)

  // ---------------------------------------------------------------------
  // Level reward text

  const Rewards: seq<string> := [
    "Welcome to Chennai!",
    "Speed Bonus Unlocked!",
    "Culture Cards Available!",
    "Mastery Stars Unlocked!",
    "Advanced Hints Available!",
    "Expert Mode Unlocked!"]

  const NoReward := "New Adventures Await!"

  /**
   * The text shown on reaching `level`: the reward at index level-1, the
   * last reward for every level past the table, and the fallback for a
   * level that gives a negative index.
   */
  function LevelRewardText(level: int): (t: string)
    ensures 1 <= level <= |Rewards| ==> t == Rewards[level - 1]
    ensures level >= |Rewards| ==> t == "Expert Mode Unlocked!"
    ensures level <= 0 ==> t == NoReward
    ensures level == 1 ==> t == "Welcome to Chennai!"
  {
    var i := if level - 1 < |Rewards| - 1 then level - 1 else |Rewards| - 1;
    if 0 <= i then Rewards[i] else NoReward
  }

  // ---------------------------------------------------------------------
  // XP

  /**
   * The companion bonus: trust / 20 rounded down when a companion is
   * current, 0 otherwise. Division by a positive number rounds down in
   * Dafny as `Math.floor` does.
   */
  function CompanionBonus(trust: Option<int>): (b: int)
    ensures trust.None? ==> b == 0
    ensures trust.Some? ==> 20 * b <= trust.value < 20 * b + 20
    ensures trust.Some? && 0 <= trust.value <= 100 ==> 0 <= b <= 5
  {
    match trust
    case None => 0
    case Some(t) => t / 20
  }

  /**
   * One XP award: add the amount and the bonus, count one more answer, and
   * go up one level when the new XP reaches the next level's threshold.
   */
  function Award(s: Score, amount: int, bonus: int, xpForLevel: int -> int): (r: Score)
    ensures r.xp == s.xp + amount + bonus
    ensures r.totalAnswered == s.totalAnswered + 1
    ensures r.level == s.level + 1 <==> r.xp >= xpForLevel(s.level + 1)
    ensures r.level == s.level || r.level == s.level + 1
  {
    var x := s.xp + amount + bonus;
    Score(x, s.totalAnswered + 1, if x >= xpForLevel(s.level + 1) then s.level + 1 else s.level)
  }

  /** Awards made one after another, in order. */
  function AwardAll(s: Score, amounts: seq<int>, bonus: int, xpForLevel: int -> int): (r: Score)
    decreases |amounts|
  {
    if amounts == [] then s
    else Award(AwardAll(s, amounts[..|amounts| - 1], bonus, xpForLevel), amounts[|amounts| - 1], bonus, xpForLevel)
  }

  function Sum(xs: seq<int>): int
    decreases |xs|
  {
    if xs == [] then 0 else Sum(xs[..|xs| - 1]) + xs[|xs| - 1]
  }

  /**
   * After a run of awards, XP grew by the amounts plus one bonus per award,
   * one answer was counted per award, and the level rose by at most one per
   * award.
   */
  lemma {:induction false} AwardAllTotals(s: Score, amounts: seq<int>, bonus: int, xpForLevel: int -> int)
    ensures AwardAll(s, amounts, bonus, xpForLevel).xp == s.xp + Sum(amounts) + bonus * |amounts|
    ensures AwardAll(s, amounts, bonus, xpForLevel).totalAnswered == s.totalAnswered + |amounts|
    ensures s.level <= AwardAll(s, amounts, bonus, xpForLevel).level <= s.level + |amounts|
    decreases |amounts|
  {
    if amounts != [] {
      AwardAllTotals(s, amounts[..|amounts| - 1], bonus, xpForLevel);
    }
  }

  /** Awards never lower the level. */
  lemma AwardAllKeepsLevel(s: Score, amounts: seq<int>, bonus: int, xpForLevel: int -> int)
    ensures AwardAll(s, amounts, bonus, xpForLevel).level >= s.level
  {
    AwardAllTotals(s, amounts, bonus, xpForLevel);
  }

  /** Awarding `a` and then `b` is awarding `a + b`. */
  lemma {:induction false} AwardAllAppend(s: Score, a: seq<int>, b: seq<int>, bonus: int, xpForLevel: int -> int)
    ensures AwardAll(s, a + b, bonus, xpForLevel) == AwardAll(AwardAll(s, a, bonus, xpForLevel), b, bonus, xpForLevel)
    decreases |b|
  {
    if b == [] {
      assert a + b == a;
    } else {
      assert (a + b)[..|a + b| - 1] == a + b[..|b| - 1];
      AwardAllAppend(s, a, b[..|b| - 1], bonus, xpForLevel);
    }
  }

  // ---------------------------------------------------------------------
  // Streak

  /**
   * The streak rule: playing again the same day changes nothing; playing the
   * day after the last play extends the streak; playing after a gap extends
   * it too when a freeze is left, consuming the freeze; otherwise the streak
   * restarts at 1. Except on the same day, the last play date becomes today.
   */
  function StreakAfter(s: Streak, today: int): (r: Streak)
    ensures s.lastPlayDate == Some(today) ==> r == s
    ensures s.lastPlayDate != Some(today) ==> r.lastPlayDate == Some(today)
    ensures s.lastPlayDate == Some(today - 1) ==> r.streak == s.streak + 1 && r.freezes == s.freezes
    ensures s.lastPlayDate.Some? && s.lastPlayDate.value !in {today, today - 1} && s.freezes > 0 ==>
              r.streak == s.streak + 1 && r.freezes == s.freezes - 1
    ensures (s.lastPlayDate.None? || (s.lastPlayDate.value !in {today, today - 1} && s.freezes <= 0)) ==>
              r.streak == 1 && r.freezes == s.freezes
  {
    if s.lastPlayDate == Some(today) then s
    else if s.lastPlayDate == Some(today - 1) then Streak(s.streak + 1, s.freezes, Some(today))
    else if s.lastPlayDate.Some? && s.freezes > 0 then Streak(s.streak + 1, s.freezes - 1, Some(today))
    else Streak(1, s.freezes, Some(today))
  }

  /** Updating twice on the same day is updating once. */
  lemma StreakSameDayIdempotent(s: Streak, today: int)
    ensures StreakAfter(StreakAfter(s, today), today) == StreakAfter(s, today)
  {
  }

  /**
   * Afterwards the streak is at least 1 unless today was already played, and
   * freezes are never gained and never go negative.
   */
  lemma StreakBounds(s: Streak, today: int)
    requires s.streak >= 0 && s.freezes >= 0
    ensures StreakAfter(s, today).freezes >= 0
    ensures StreakAfter(s, today).freezes <= s.freezes
    ensures StreakAfter(s, today).streak >= 1 || s.lastPlayDate == Some(today)
  {
  }

  /** Playing on consecutive days from a first day gives a streak equal to the number of days. */
  lemma {:induction false} ConsecutiveDays(first: int, n: nat)
    ensures StreakDays(first, n).streak == n + 1
    ensures StreakDays(first, n).lastPlayDate == Some(first + n)
    decreases n
  {
    if n > 0 {
      ConsecutiveDays(first, n - 1);
    }
  }

  /** The streak after a first play on day `first` (with no earlier play) and a play on each of the next `n` days. */
  function StreakDays(first: int, n: nat): Streak
    decreases n
  {
    if n == 0 then StreakAfter(Streak(0, 0, None), first)
    else StreakAfter(StreakDays(first, n - 1), first + n)
  }

  // ---------------------------------------------------------------------
  // Daily quests

  /** A quest whose completed flag is set exactly when its progress has reached its target. */
  predicate QuestValid(q: DailyQuest) {
    q.completed <==> q.progress >= q.target
  }

  predicate QuestsValid(qs: seq<DailyQuest>) {
    forall k :: 0 <= k < |qs| ==> QuestValid(qs[k])
  }

  /** The first quest with the given id, like `Array.prototype.find`. */
  function FindQuest(qs: seq<DailyQuest>, id: string): (r: Option<nat>)
    ensures r.Some? ==> r.value < |qs| && qs[r.value].id == id
    ensures r.Some? ==> forall k :: 0 <= k < r.value ==> qs[k].id != id
    ensures r.None? ==> forall k :: 0 <= k < |qs| ==> qs[k].id != id
    decreases |qs|
  {
    if qs == [] then None
    else if qs[0].id == id then Some(0)
    else match FindQuest(qs[1..], id)
      case None => None
      case Some(k) => Some(k + 1)
  }

  /** Whether progressing `q` by `inc` is the step on which it reaches its target. */
  predicate Completes(q: DailyQuest, inc: int) {
    q.progress < q.target && q.progress + inc >= q.target
  }

  /**
   * Progress on one quest: a quest still short of its target moves by `inc`
   * and is marked completed when that reaches the target; a quest that has
   * reached its target does not change.
   */
  function Advance(q: DailyQuest, inc: int): (r: DailyQuest)
    ensures r.id == q.id && r.target == q.target && r.reward == q.reward && r.text == q.text
    ensures q.progress >= q.target ==> r == q
    ensures q.progress < q.target ==> r.progress == q.progress + inc
    ensures r.completed <==> q.completed || Completes(q, inc)
    ensures QuestValid(q) ==> QuestValid(r)
  {
    if q.progress < q.target then
      var p := q.progress + inc;
      q.(progress := p, completed := if p >= q.target then true else q.completed)
    else q
  }

  /**
   * The step on which a quest completes marks it completed, and every later
   * step leaves it as it is and completes nothing.
   */
  lemma CompletesOnce(q: DailyQuest, inc: int, later: int)
    requires Completes(q, inc)
    ensures Advance(q, inc).completed
    ensures Advance(Advance(q, inc), later) == Advance(q, inc)
    ensures !Completes(Advance(q, inc), later)
  {
  }

  /** What a run of quest updates leaves behind: the quests, and the rewards granted in order. */
  datatype QuestRun = QuestRun(quests: seq<DailyQuest>, rewards: seq<int>)

  /**
   * One quest update: the first quest with the id advances by `inc`; when
   * that completes it, its reward is granted. No quest with the id, or one
   * already at its target, changes nothing.
   */
  function StepQuests(qs: seq<DailyQuest>, id: string, inc: int): (r: QuestRun)
    ensures |r.quests| == |qs|
  {
    match FindQuest(qs, id)
    case None => QuestRun(qs, [])
    case Some(k) =>
      QuestRun(qs[k := Advance(qs[k], inc)], if Completes(qs[k], inc) then [qs[k].reward] else [])
  }

  /**
   * One update changes only the first quest with the id, advancing it, and
   * grants its reward exactly when that step completes it; without such a
   * quest nothing changes and nothing is granted.
   */
  lemma StepQuestsEffect(qs: seq<DailyQuest>, id: string, inc: int)
    ensures forall k :: 0 <= k < |qs| ==> StepQuests(qs, id, inc).quests[k].id == qs[k].id
    ensures FindQuest(qs, id).None? ==> StepQuests(qs, id, inc) == QuestRun(qs, [])
    ensures FindQuest(qs, id).Some? ==>
              var k := FindQuest(qs, id).value;
              && (forall j :: 0 <= j < |qs| && j != k ==> StepQuests(qs, id, inc).quests[j] == qs[j])
              && StepQuests(qs, id, inc).quests[k] == Advance(qs[k], inc)
              && StepQuests(qs, id, inc).rewards == (if Completes(qs[k], inc) then [qs[k].reward] else [])
  {
  }

  /** Updates by 1 for each id in turn, collecting the rewards. */
  function ReplayQuests(qs: seq<DailyQuest>, ids: seq<string>): (r: QuestRun)
    ensures |r.quests| == |qs|
    decreases |ids|
  {
    if ids == [] then QuestRun(qs, [])
    else
      var prev := ReplayQuests(qs, ids[..|ids| - 1]);
      var step := StepQuests(prev.quests, ids[|ids| - 1], 1);
      QuestRun(step.quests, prev.rewards + step.rewards)
  }

  /** Updates keep the list's length and ids, keep every quest valid, and grant at most one reward each. */
  lemma {:induction false} ReplayKeepsQuests(qs: seq<DailyQuest>, ids: seq<string>)
    ensures forall k :: 0 <= k < |qs| ==> ReplayQuests(qs, ids).quests[k].id == qs[k].id
    ensures forall k :: 0 <= k < |qs| ==>
              && ReplayQuests(qs, ids).quests[k].target == qs[k].target
              && ReplayQuests(qs, ids).quests[k].reward == qs[k].reward
              && ReplayQuests(qs, ids).quests[k].progress >= qs[k].progress
    ensures QuestsValid(qs) ==> QuestsValid(ReplayQuests(qs, ids).quests)
    ensures |ReplayQuests(qs, ids).rewards| <= |ids|
    decreases |ids|
  {
    if ids != [] {
      ReplayKeepsQuests(qs, ids[..|ids| - 1]);
    }
  }

  /** Updates keep a valid quest list valid. */
  lemma ReplayKeepsValid(qs: seq<DailyQuest>, ids: seq<string>)
    requires QuestsValid(qs)
    ensures QuestsValid(ReplayQuests(qs, ids).quests)
  {
    ReplayKeepsQuests(qs, ids);
  }

  /**
   * A quest that has reached its target is final: whatever updates follow,
   * it stays as it is.
   */
  lemma {:induction false} ReachedQuestIsFinal(qs: seq<DailyQuest>, ids: seq<string>, k: nat)
    requires k < |qs| && qs[k].progress >= qs[k].target
    ensures k < |ReplayQuests(qs, ids).quests|
    ensures ReplayQuests(qs, ids).quests[k] == qs[k]
    decreases |ids|
  {
    ReplayKeepsQuests(qs, ids);
    if ids != [] {
      ReachedQuestIsFinal(qs, ids[..|ids| - 1], k);
    }
  }

  /**
   * The rewards of a run are exactly those of the quests it completed: each
   * quest's reward at most once, and only for a quest that was short of its
   * target and has reached it by the end.
   */
  lemma {:induction false} RewardsCountCompletions(qs: seq<DailyQuest>, ids: seq<string>)
    ensures Sum(ReplayQuests(qs, ids).rewards) == CompletedRewards(qs, ReplayQuests(qs, ids).quests)
    decreases |ids|
  {
    ReplayKeepsQuests(qs, ids);
    if ids == [] {
      NothingCompletedYet(qs);
    } else {
      var prev := ReplayQuests(qs, ids[..|ids| - 1]);
      var step := StepQuests(prev.quests, ids[|ids| - 1], 1);
      RewardsCountCompletions(qs, ids[..|ids| - 1]);
      ReplayKeepsQuests(qs, ids[..|ids| - 1]);
      SumAppend(prev.rewards, step.rewards);
      match FindQuest(prev.quests, ids[|ids| - 1])
      case None =>
      case Some(k) =>
        CompletedRewardsStep(qs, prev.quests, k, 1);
    }
  }

  /**
   * The rewards of the quests that were short of their target in `before`
   * and have reached it in `after` (both lists of the same length and ids).
   */
  function CompletedRewards(before: seq<DailyQuest>, after: seq<DailyQuest>): int
    requires |before| == |after|
    decreases |before|
  {
    if before == [] then 0
    else
      var i := |before| - 1;
      CompletedRewards(before[..i], after[..i])
      + (if before[i].progress < before[i].target && after[i].progress >= after[i].target then before[i].reward else 0)
  }

  lemma {:induction false} NothingCompletedYet(qs: seq<DailyQuest>)
    ensures CompletedRewards(qs, qs) == 0
    decreases |qs|
  {
    if qs != [] {
      NothingCompletedYet(qs[..|qs| - 1]);
    }
  }

  lemma {:induction false} SumAppend(a: seq<int>, b: seq<int>)
    ensures Sum(a + b) == Sum(a) + Sum(b)
    decreases |b|
  {
    if b == [] {
      assert a + b == a;
    } else {
      assert (a + b)[..|a + b| - 1] == a + b[..|b| - 1];
      SumAppend(a, b[..|b| - 1]);
    }
  }

  /**
   * Advancing quest `k` of `mid` changes the completed rewards (counted from
   * `before`) by that quest's reward exactly when the step completes it.
   * Quests only move while short of their target, so a quest of `mid` that is
   * short of it was short of it in `before` too.
   */
  lemma {:induction false} CompletedRewardsStep(before: seq<DailyQuest>, mid: seq<DailyQuest>, k: nat, inc: int)
    requires |before| == |mid| && k < |mid|
    requires mid[k].progress < mid[k].target ==> before[k].progress < before[k].target
    requires before[k].reward == mid[k].reward && before[k].target == mid[k].target
    ensures CompletedRewards(before, mid[k := Advance(mid[k], inc)])
            == CompletedRewards(before, mid) + (if Completes(mid[k], inc) then mid[k].reward else 0)
    decreases |before|
  {
    var i := |before| - 1;
    var after := mid[k := Advance(mid[k], inc)];
    if k < i {
      assert after[..i] == mid[..i][k := Advance(mid[k], inc)];
      CompletedRewardsStep(before[..i], mid[..i], k, inc);
    } else {
      assert after[..i] == mid[..i];
    }
  }

  // ---------------------------------------------------------------------
  // Mastery stars and the collected lists

  /** The stars recorded for a quest; a quest with none recorded has 0. */
  function Stars(stars: map<string, int>, id: string): int {
    if id in stars then stars[id] else 0
  }

  /** Whether this is the first clear of the quest: it has no stars yet. */
  predicate FirstClear(stars: map<string, int>, id: string) {
    Stars(stars, id) == 0
  }

  /** One more star for a cleared quest, capped at 3. */
  function NextMastery(stars: map<string, int>, id: string): (m: int)
    ensures m <= 3
    ensures 0 <= Stars(stars, id) <= 3 ==> 1 <= m && Stars(stars, id) <= m
    ensures Stars(stars, id) < 3 ==> m == Stars(stars, id) + 1
    ensures Stars(stars, id) >= 3 ==> m == 3
  {
    var next := Stars(stars, id) + 1;
    if next < 3 then next else 3
  }

  /** Every recorded star count lies in [0, 3]. */
  predicate StarsInRange(stars: map<string, int>) {
    forall id :: id in stars ==> 0 <= stars[id] <= 3
  }

  /** Recording a clear keeps every star count in [0, 3]. */
  lemma MasteryStaysInRange(stars: map<string, int>, id: string)
    requires StarsInRange(stars)
    ensures StarsInRange(stars[id := NextMastery(stars, id)])
  {
  }

  /** Recording a clear lowers no quest's stars. */
  lemma MasteryNeverDrops(stars: map<string, int>, id: string)
    requires StarsInRange(stars)
    ensures forall q :: Stars(stars, q) <= Stars(stars[id := NextMastery(stars, id)], q)
  {
  }

  predicate NoDuplicates<T(==)>(s: seq<T>) {
    forall i, j :: 0 <= i < j < |s| ==> s[i] != s[j]
  }

  /**
   * Appends `x` unless it is already there: afterwards `x` is in the list,
   * the old list is a prefix of the new one, and the only entry that can be
   * added is `x`.
   */
  function AddIfAbsent(s: seq<string>, x: string): (r: seq<string>)
    ensures x in r
    ensures s <= r && |r| <= |s| + 1
    ensures |r| == |s| + 1 ==> r[|s|] == x
  {
    if x in s then s else s + [x]
  }

  /** A list without duplicates stays without duplicates under `AddIfAbsent`. */
  lemma AddIfAbsentKeepsDistinct(s: seq<string>, x: string)
    requires NoDuplicates(s)
    ensures NoDuplicates(AddIfAbsent(s, x))
  {
    if x !in s {
      var r := s + [x];
      forall i, j | 0 <= i < j < |r|
        ensures r[i] != r[j]
      {
        if j == |s| {
          assert r[i] == s[i];
        }
      }
    }
  }

  /** Whether some card in the list has the title. */
  predicate HasTitle(cards: seq<CultureCard>, title: string) {
    exists i :: 0 <= i < |cards| && cards[i].title == title
  }

  /** No two cards share a title. */
  predicate DistinctTitles(cards: seq<CultureCard>) {
    forall i, j :: 0 <= i < j < |cards| ==> cards[i].title != cards[j].title
  }

  /**
   * Appends the card unless a card with its title is already there: the old
   * collection is a prefix of the new one, and the only card that can be
   * added is this one.
   */
  function AddCard(cards: seq<CultureCard>, card: CultureCard): (r: seq<CultureCard>)
    ensures cards <= r && |r| <= |cards| + 1
    ensures |r| == |cards| + 1 ==> r[|cards|] == card
  {
    if HasTitle(cards, card.title) then cards else cards + [card]
  }

  /**
   * After `AddCard` a card with the title is in the collection, and a card
   * whose title is already there changes nothing.
   */
  lemma AddCardCollects(cards: seq<CultureCard>, card: CultureCard)
    ensures HasTitle(AddCard(cards, card), card.title)
    ensures HasTitle(cards, card.title) ==> AddCard(cards, card) == cards
    ensures !HasTitle(cards, card.title) ==> AddCard(cards, card) == cards + [card]
  {
    if !HasTitle(cards, card.title) {
      var r := cards + [card];
      assert r[|cards|].title == card.title;
    }
  }

  /** Titles stay distinct under `AddCard`. */
  lemma AddCardKeepsDistinct(cards: seq<CultureCard>, card: CultureCard)
    requires DistinctTitles(cards)
    ensures DistinctTitles(AddCard(cards, card))
  {
    if !HasTitle(cards, card.title) {
      var r := cards + [card];
      forall i, j | 0 <= i < j < |r|
        ensures r[i].title != r[j].title
      {
        if j == |cards| {
          assert r[i] == cards[i];
        }
      }
    }
  }

  /**
   * The daily quests the delayed part of a correct answer advances, in
   * order: speed, perfect (first clear), identify (a newly completed quest),
   * words (a newly learned word), culture (a new card), and explore always.
   */
  function AnswerQuests(speed: bool, firstClear: bool, newQuest: bool, newWord: bool, newCard: bool): (ids: seq<string>)
    ensures |ids| >= 1 && ids[|ids| - 1] == "explore"
  {
    BonusQuests(speed, firstClear) + CollectionQuests(newQuest, newWord, newCard) + ["explore"]
  }

  /**
   * Each of the five optional quests is advanced exactly when its condition
   * holds.
   */
  lemma AnswerQuestsNames(speed: bool, firstClear: bool, newQuest: bool, newWord: bool, newCard: bool)
    ensures "speed" in AnswerQuests(speed, firstClear, newQuest, newWord, newCard) <==> speed
    ensures "perfect" in AnswerQuests(speed, firstClear, newQuest, newWord, newCard) <==> firstClear
    ensures "identify" in AnswerQuests(speed, firstClear, newQuest, newWord, newCard) <==> newQuest
    ensures "words" in AnswerQuests(speed, firstClear, newQuest, newWord, newCard) <==> newWord
    ensures "culture" in AnswerQuests(speed, firstClear, newQuest, newWord, newCard) <==> newCard
  {
  }

  /** The companion quests a correct answer advances at once. */
  function CompanionQuests(companionPath: bool): seq<string> {
    if companionPath then ["cultural_insight", "companion_trust"] else []
  }

  function BonusQuests(speed: bool, firstClear: bool): seq<string> {
    When(speed, "speed") + When(firstClear, "perfect")
  }

  function CollectionQuests(newQuest: bool, newWord: bool, newCard: bool): seq<string> {
    When(newQuest, "identify") + When(newWord, "words") + When(newCard, "culture")
  }

  function When(cond: bool, id: string): seq<string> {
    if cond then [id] else []
  }

  /** The XP a correct answer earns itself: the base, +10 for speed, +5 for a first clear. */
  function AnswerXP(baseXP: int, speed: bool, firstClear: bool): (x: int)
    ensures baseXP <= x <= baseXP + 15
    ensures x - baseXP == (if speed then 10 else 0) + (if firstClear then 5 else 0)
  {
    baseXP + (if speed then 10 else 0) + (if firstClear then 5 else 0)
  }

  // ---------------------------------------------------------------------
  // The game state

  class GameState {
    var level: int
    var xp: int
    var streak: int
    var lastPlayDate: Option<int>
    var totalAnswered: int
    var correctAnswers: int
    var completedQuests: seq<string>
    var learnedWords: seq<string>
    var dailyQuests: seq<DailyQuest>
    var cultureCards: seq<CultureCard>
    var streakFreezes: int
    var masteryStars: map<string, int>

    function Scores(): Score
      reads this`xp, this`totalAnswered, this`level
    {
      Score(xp, totalAnswered, level)
    }

    function Streaks(): Streak
      reads this`streak, this`streakFreezes, this`lastPlayDate
    {
      Streak(streak, streakFreezes, lastPlayDate)
    }

    /**
     * The bookkeeping invariant: level at least 1, counters not negative,
     * every daily quest completed exactly when it reached its target, star
     * counts in [0, 3], and no duplicate in the collected lists.
     */
    ghost predicate Valid()
      reads this`level, this`streak, this`streakFreezes, this`dailyQuests,
            this`masteryStars, this`completedQuests, this`learnedWords, this`cultureCards
    {
      && level >= 1
      && StreakValid()
      && QuestsValid(dailyQuests)
      && CollectionsValid()
    }

    /** Streak and freezes not negative. */
    ghost predicate StreakValid()
      reads this`streak, this`streakFreezes
    {
      streak >= 0 && streakFreezes >= 0
    }

    /** Star counts in [0, 3], no quest or word recorded twice, no two cards with one title. */
    ghost predicate CollectionsValid()
      reads this`masteryStars, this`completedQuests, this`learnedWords, this`cultureCards
    {
      && StarsInRange(masteryStars)
      && NoDuplicates(completedQuests) && NoDuplicates(learnedWords)
      && DistinctTitles(cultureCards)
    }

    /**
     * A new game on day `today` with the day's quests `quests`: level 1,
     * nothing earned or collected, and the streak update for a first play.
     */
    constructor (quests: seq<DailyQuest>, today: int)
      ensures Scores() == Score(0, 0, 1) && correctAnswers == 0
      ensures completedQuests == [] && learnedWords == [] && cultureCards == [] && masteryStars == map[]
      ensures dailyQuests == quests
      ensures Streaks() == StreakAfter(Streak(0, 0, None), today)
      ensures streak == 1 && lastPlayDate == Some(today)
      ensures QuestsValid(quests) ==> Valid()
    {
      level := 1;
      xp := 0;
      streak := 0;
      lastPlayDate := None;
      totalAnswered := 0;
      correctAnswers := 0;
      completedQuests := [];
      learnedWords := [];
      dailyQuests := quests;
      cultureCards := [];
      streakFreezes := 0;
      masteryStars := map[];
      new;
      UpdateStreak(today);
    }

    /**
     * Adds `amount` plus the companion bonus for `trust` (the current
     * companion's trust, `None` without one) to XP, counts one answer, and
     * goes up one level when XP reaches `xpForLevel(level + 1)`.
     */
    method AddXP(amount: int, trust: Option<int>, xpForLevel: int -> int)
      modifies this`xp, this`totalAnswered, this`level
      ensures Scores() == Award(old(Scores()), amount, CompanionBonus(trust), xpForLevel)
      ensures level >= old(level)
      ensures old(Valid()) ==> Valid()
    {
      var bonus := CompanionBonus(trust);
      xp := xp + amount + bonus;
      totalAnswered := totalAnswered + 1;
      if xp >= xpForLevel(level + 1) {
        level := level + 1;
      }
    }

    /** Applies the streak rule for a play on day `today`. */
    method UpdateStreak(today: int)
      modifies this`streak, this`streakFreezes, this`lastPlayDate
      ensures Streaks() == StreakAfter(old(Streaks()), today)
      ensures old(Valid()) ==> Valid()
    {
      if lastPlayDate == Some(today) {
        return;
      } else if lastPlayDate == Some(today - 1) {
        streak := streak + 1;
      } else if lastPlayDate.Some? && streakFreezes > 0 {
        streakFreezes := streakFreezes - 1;
        streak := streak + 1;
      } else {
        streak := 1;
      }
      lastPlayDate := Some(today);
    }

    /**
     * Advances the first daily quest with id `questId` by `increment` when it
     * is still short of its target; the step that reaches the target marks it
     * completed and awards its reward as XP.
     */
    method UpdateDailyQuest(questId: string, increment: int, trust: Option<int>, xpForLevel: int -> int)
      modifies this`dailyQuests, this`xp, this`totalAnswered, this`level
      ensures dailyQuests == StepQuests(old(dailyQuests), questId, increment).quests
      ensures Scores() == AwardAll(old(Scores()), StepQuests(old(dailyQuests), questId, increment).rewards,
                                   CompanionBonus(trust), xpForLevel)
      ensures QuestsValid(old(dailyQuests)) ==> QuestsValid(dailyQuests)
      ensures level >= old(level)
      ensures old(Valid()) ==> Valid()
    {
      var found := FindQuest(dailyQuests, questId);
      if found.None? {
        return;
      }
      var k := found.value;
      var quest := dailyQuests[k];
      if quest.progress < quest.target {
        var progress := quest.progress + increment;
        dailyQuests := dailyQuests[k := quest.(progress := progress)];
        if progress >= quest.target {
          dailyQuests := dailyQuests[k := dailyQuests[k].(completed := true)];
          AddXP(quest.reward, trust, xpForLevel);
        }
      }
    }

    /**
     * The part of a correct answer to `quest` that happens at once: count it,
     * and advance the two companion quests when a companion system is present
     * and the quest names a companion.
     */
    method RecordCorrectAnswer(quest: MapQuest, hasCompanionSystem: bool, trust: Option<int>, xpForLevel: int -> int)
      modifies this`correctAnswers, this`dailyQuests, this`xp, this`totalAnswered, this`level
      ensures correctAnswers == old(correctAnswers) + 1
      ensures var touched := CompanionQuests(hasCompanionSystem && quest.companionId.Some? && quest.companionId.value != "");
              && dailyQuests == ReplayQuests(old(dailyQuests), touched).quests
              && Scores() == AwardAll(old(Scores()), ReplayQuests(old(dailyQuests), touched).rewards,
                                      CompanionBonus(trust), xpForLevel)
      ensures old(Valid()) ==> Valid()
    {
      correctAnswers := correctAnswers + 1;
      var companionPath := hasCompanionSystem && quest.companionId.Some? && quest.companionId.value != "";
      ghost var quests0, score0 := dailyQuests, Scores();
      ghost var ids := AdvanceCompanionQuests(companionPath, trust, xpForLevel, quests0, score0);
      if old(Valid()) {
        ReplayKeepsValid(quests0, ids);
        AwardAllKeepsLevel(score0, ReplayQuests(quests0, ids).rewards, CompanionBonus(trust), xpForLevel);
      }
    }

    /**
     * The delayed part of a correct answer to `quest`: earn the base XP with
     * the speed and first-clear bonuses (advancing the speed and perfect
     * quests), record a star, record the quest, the answer word and the
     * culture card unless already there (advancing identify, words and
     * culture), advance explore, and award the XP earned.
     */
    method AwardCorrectAnswer(quest: MapQuest, isSpeedBonus: bool, trust: Option<int>, xpForLevel: int -> int)
      returns (gained: int, ghost touched: seq<string>)
      modifies this`dailyQuests, this`xp, this`totalAnswered, this`level,
               this`masteryStars, this`completedQuests, this`learnedWords, this`cultureCards
      ensures gained == AnswerXP(quest.baseXP, isSpeedBonus, FirstClear(old(masteryStars), quest.id))
      ensures masteryStars == old(masteryStars)[quest.id := NextMastery(old(masteryStars), quest.id)]
      ensures completedQuests == AddIfAbsent(old(completedQuests), quest.id)
      ensures learnedWords == AddIfAbsent(old(learnedWords), quest.correctAnswer)
      ensures cultureCards == AddCard(old(cultureCards), quest.cultureCard)
      ensures touched == AnswerQuests(isSpeedBonus, FirstClear(old(masteryStars), quest.id),
                                      quest.id !in old(completedQuests), quest.correctAnswer !in old(learnedWords),
                                      !HasTitle(old(cultureCards), quest.cultureCard.title))
      ensures dailyQuests == ReplayQuests(old(dailyQuests), touched).quests
      ensures Scores() == Award(AwardAll(old(Scores()), ReplayQuests(old(dailyQuests), touched).rewards,
                                         CompanionBonus(trust), xpForLevel),
                                gained, CompanionBonus(trust), xpForLevel)
      ensures old(Valid()) ==> Valid()
    {
      var firstClear := Stars(masteryStars, quest.id) == 0;
      var newQuest := quest.id !in completedQuests;
      var newWord := quest.correctAnswer !in learnedWords;
      var newCard := !HasTitle(cultureCards, quest.cultureCard.title);
      gained, touched := AnswerQuestUpdates(quest.baseXP, isSpeedBonus, firstClear, newQuest, newWord, newCard,
                                            trust, xpForLevel);
      RecordClear(quest);
    }

    /**
     * One more star for `quest`, and its id, its answer word and its culture
     * card recorded unless already there.
     */
    method RecordClear(quest: MapQuest)
      modifies this`masteryStars, this`completedQuests, this`learnedWords, this`cultureCards
      ensures masteryStars == old(masteryStars)[quest.id := NextMastery(old(masteryStars), quest.id)]
      ensures completedQuests == AddIfAbsent(old(completedQuests), quest.id)
      ensures learnedWords == AddIfAbsent(old(learnedWords), quest.correctAnswer)
      ensures cultureCards == AddCard(old(cultureCards), quest.cultureCard)
      ensures old(CollectionsValid()) ==> CollectionsValid()
      ensures old(Valid()) ==> Valid()
    {
      if CollectionsValid() {
        MasteryStaysInRange(masteryStars, quest.id);
        AddIfAbsentKeepsDistinct(completedQuests, quest.id);
        AddIfAbsentKeepsDistinct(learnedWords, quest.correctAnswer);
        AddCardKeepsDistinct(cultureCards, quest.cultureCard);
      }
      masteryStars := masteryStars[quest.id := NextMastery(masteryStars, quest.id)];
      if quest.id !in completedQuests {
        completedQuests := completedQuests + [quest.id];
      }
      if quest.correctAnswer !in learnedWords {
        learnedWords := learnedWords + [quest.correctAnswer];
      }
      if !HasTitle(cultureCards, quest.cultureCard.title) {
        cultureCards := cultureCards + [quest.cultureCard];
      }
    }

    /**
     * The quest and XP part of a correct answer, given what it earns: speed
     * and perfect for the bonuses, identify, words and culture for what is
     * new, and explore; then the XP earned, the base plus the bonuses, is
     * awarded.
     */
    method AnswerQuestUpdates(baseXP: int, speed: bool, firstClear: bool,
                              newQuest: bool, newWord: bool, newCard: bool,
                              trust: Option<int>, xpForLevel: int -> int)
      returns (gained: int, ghost touched: seq<string>)
      modifies this`dailyQuests, this`xp, this`totalAnswered, this`level
      ensures gained == AnswerXP(baseXP, speed, firstClear)
      ensures touched == AnswerQuests(speed, firstClear, newQuest, newWord, newCard)
      ensures dailyQuests == ReplayQuests(old(dailyQuests), touched).quests
      ensures Scores() == Award(AwardAll(old(Scores()), ReplayQuests(old(dailyQuests), touched).rewards,
                                         CompanionBonus(trust), xpForLevel),
                                gained, CompanionBonus(trust), xpForLevel)
      ensures QuestsValid(old(dailyQuests)) ==> QuestsValid(dailyQuests)
      ensures level >= old(level)
      ensures old(Valid()) ==> Valid()
    {
      ghost var quests0, score0 := dailyQuests, Scores();
      gained, touched := EarnBonuses(baseXP, speed, firstClear, trust, xpForLevel, quests0, score0);
      touched := TrackCollection(newQuest, newWord, newCard, trust, xpForLevel, quests0, score0, touched);
      touched := Track("explore", trust, xpForLevel, quests0, score0, touched);
      if QuestsValid(quests0) {
        ReplayKeepsValid(quests0, touched);
      }
      AwardAllKeepsLevel(score0, ReplayQuests(quests0, touched).rewards, CompanionBonus(trust), xpForLevel);
      AddXP(gained, trust, xpForLevel);
    }

    /** Advances the two companion quests when `companionPath` holds. */
    method AdvanceCompanionQuests(companionPath: bool, trust: Option<int>, xpForLevel: int -> int,
                                  ghost quests0: seq<DailyQuest>, ghost score0: Score)
      returns (ghost ids: seq<string>)
      requires dailyQuests == quests0 && Scores() == score0
      modifies this`dailyQuests, this`xp, this`totalAnswered, this`level
      ensures ids == CompanionQuests(companionPath)
      ensures dailyQuests == ReplayQuests(quests0, ids).quests
      ensures Scores() == AwardAll(score0, ReplayQuests(quests0, ids).rewards, CompanionBonus(trust), xpForLevel)
    {
      ids := [];
      if companionPath {
        ids := Track("cultural_insight", trust, xpForLevel, quests0, score0, ids);
        ids := Track("companion_trust", trust, xpForLevel, quests0, score0, ids);
      }
    }

    /** The base XP, +10 and the speed quest for a fast answer, +5 and the perfect quest for a first clear. */
    method EarnBonuses(baseXP: int, speed: bool, firstClear: bool, trust: Option<int>, xpForLevel: int -> int,
                       ghost quests0: seq<DailyQuest>, ghost score0: Score)
      returns (gained: int, ghost ids': seq<string>)
      requires dailyQuests == quests0 && Scores() == score0
      modifies this`dailyQuests, this`xp, this`totalAnswered, this`level
      ensures gained == AnswerXP(baseXP, speed, firstClear)
      ensures ids' == BonusQuests(speed, firstClear)
      ensures dailyQuests == ReplayQuests(quests0, ids').quests
      ensures Scores() == AwardAll(score0, ReplayQuests(quests0, ids').rewards, CompanionBonus(trust), xpForLevel)
      ensures old(Valid()) ==> Valid()
    {
      assert [] + When(speed, "speed") == When(speed, "speed");
      gained := baseXP;
      if speed {
        gained := gained + 10;
      }
      ids' := TrackIf(speed, "speed", trust, xpForLevel, quests0, score0, []);
      if firstClear {
        gained := gained + 5;
      }
      ids' := TrackIf(firstClear, "perfect", trust, xpForLevel, quests0, score0, ids');
    }

    /** Advances identify, words and culture for the quest, word and card that are new. */
    method TrackCollection(newQuest: bool, newWord: bool, newCard: bool, trust: Option<int>, xpForLevel: int -> int,
                           ghost quests0: seq<DailyQuest>, ghost score0: Score, ghost ids: seq<string>)
      returns (ghost ids': seq<string>)
      requires dailyQuests == ReplayQuests(quests0, ids).quests
      requires Scores() == AwardAll(score0, ReplayQuests(quests0, ids).rewards, CompanionBonus(trust), xpForLevel)
      modifies this`dailyQuests, this`xp, this`totalAnswered, this`level
      ensures ids' == ids + CollectionQuests(newQuest, newWord, newCard)
      ensures dailyQuests == ReplayQuests(quests0, ids').quests
      ensures Scores() == AwardAll(score0, ReplayQuests(quests0, ids').rewards, CompanionBonus(trust), xpForLevel)
      ensures old(Valid()) ==> Valid()
    {
      assert ids + When(newQuest, "identify") + When(newWord, "words") + When(newCard, "culture")
          == ids + CollectionQuests(newQuest, newWord, newCard);
      ids' := TrackIf(newQuest, "identify", trust, xpForLevel, quests0, score0, ids);
      ids' := TrackIf(newWord, "words", trust, xpForLevel, quests0, score0, ids');
      ids' := TrackIf(newCard, "culture", trust, xpForLevel, quests0, score0, ids');
    }

    /** `Track` when `cond` holds; nothing otherwise. */
    method TrackIf(cond: bool, questId: string, trust: Option<int>, xpForLevel: int -> int,
                   ghost quests0: seq<DailyQuest>, ghost score0: Score, ghost ids: seq<string>)
      returns (ghost ids': seq<string>)
      requires dailyQuests == ReplayQuests(quests0, ids).quests
      requires Scores() == AwardAll(score0, ReplayQuests(quests0, ids).rewards, CompanionBonus(trust), xpForLevel)
      modifies this`dailyQuests, this`xp, this`totalAnswered, this`level
      ensures ids' == ids + When(cond, questId)
      ensures dailyQuests == ReplayQuests(quests0, ids').quests
      ensures Scores() == AwardAll(score0, ReplayQuests(quests0, ids').rewards, CompanionBonus(trust), xpForLevel)
      ensures old(Valid()) ==> Valid()
    {
      if cond {
        ids' := Track(questId, trust, xpForLevel, quests0, score0, ids);
      } else {
        ids' := ids;
        assert ids + When(cond, questId) == ids;
      }
    }

    /**
     * Advances quest `questId` by 1 and extends the record of the updates
     * made since `quests0`/`score0` by that id.
     */
    method Track(questId: string, trust: Option<int>, xpForLevel: int -> int,
                 ghost quests0: seq<DailyQuest>, ghost score0: Score, ghost ids: seq<string>)
      returns (ghost ids': seq<string>)
      requires dailyQuests == ReplayQuests(quests0, ids).quests
      requires Scores() == AwardAll(score0, ReplayQuests(quests0, ids).rewards, CompanionBonus(trust), xpForLevel)
      modifies this`dailyQuests, this`xp, this`totalAnswered, this`level
      ensures ids' == ids + [questId]
      ensures dailyQuests == ReplayQuests(quests0, ids').quests
      ensures Scores() == AwardAll(score0, ReplayQuests(quests0, ids').rewards, CompanionBonus(trust), xpForLevel)
      ensures old(Valid()) ==> Valid()
    {
      ghost var before := ReplayQuests(quests0, ids);
      UpdateDailyQuest(questId, 1, trust, xpForLevel);
      ids' := ids + [questId];
      assert ids'[..|ids'| - 1] == ids;
      AwardAllAppend(score0, before.rewards, StepQuests(before.quests, questId, 1).rewards, CompanionBonus(trust), xpForLevel);
    }
  }
}
